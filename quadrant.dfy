/**
  getQuadrant: which of the four quadrants around a centroid point a box
  belongs to.

       4  |  1
      ----+----
       3  |  2

  The tests run in order 1, 2, 3, 4 and the first that holds wins, so a box
  on an axis lands in the lowest-numbered adjacent quadrant.
*/
module Quadrants {
  import opened BoxAlgebra

  /** The source's four tests, one per quadrant, each read on its own. Only
      the centroid's xmin and ymin and the box's xmax, ymax and ymin matter. */
  predicate QuadrantTest(centroid: Box, tst: Box, q: int) {
    var x, y := centroid.xmin, centroid.ymin;
    (q == 1 && tst.xmax >= x && tst.ymax >= y) ||
    (q == 2 && tst.xmax >= x && tst.ymax <= y) ||
    (q == 3 && tst.xmax <= x && tst.ymin <= y) ||
    (q == 4 && tst.xmax <= x && tst.ymin >= y)
  }

  /** getQuadrant. The error branch after the four tests cannot be reached:
      for totally ordered coordinates one of the tests always holds. */
  function GetQuadrant(centroid: Box, tst: Box): (q: int)
    ensures 1 <= q <= 4
    ensures q <= 2 <==> tst.xmax >= centroid.xmin
  {
    var x := centroid.xmin;
    var y := centroid.ymin;
    if tst.xmax >= x && tst.ymax >= y then 1
    else if tst.xmax >= x && tst.ymax <= y then 2
    else if tst.xmax <= x && tst.ymin <= y then 3
    else if tst.xmax <= x && tst.ymin >= y then 4
    else assert false; 0
  }

  /** Tie-break rule: the quadrant chosen passes its own test and no
      lower-numbered quadrant's test does. */
  lemma QuadrantIsLowestPassing(centroid: Box, tst: Box)
    ensures QuadrantTest(centroid, tst, GetQuadrant(centroid, tst))
    ensures forall q :: 1 <= q < GetQuadrant(centroid, tst) ==> !QuadrantTest(centroid, tst, q)
  {
  }

  /** The four regions the classifier carves out, stated without the ordering:
      each box falls in exactly one of them. */
  lemma QuadrantRegions(centroid: Box, tst: Box)
    ensures var q, x, y := GetQuadrant(centroid, tst), centroid.xmin, centroid.ymin;
      && (q == 1 <==> tst.xmax >= x && tst.ymax >= y)
      && (q == 2 <==> tst.xmax >= x && tst.ymax < y)
      && (q == 3 <==> tst.xmax < x && tst.ymin <= y)
      && (q == 4 <==> tst.xmax < x && tst.ymin > y)
  {
  }

  /** The classifier reads nothing but the centroid's xmin and ymin and the
      box's xmax, ymax and ymin. */
  lemma QuadrantReadsFiveCoordinates(c1: Box, t1: Box, c2: Box, t2: Box)
    requires c1.xmin == c2.xmin && c1.ymin == c2.ymin
    requires t1.xmax == t2.xmax && t1.ymax == t2.ymax && t1.ymin == t2.ymin
    ensures GetQuadrant(c1, t1) == GetQuadrant(c2, t2)
  {
  }

  /** A box equal to the centroid point is put in quadrant 1. */
  lemma CentroidItselfIsQuadrantOne(centroid: Box)
    requires Degenerate(centroid)
    ensures GetQuadrant(centroid, centroid) == 1
  {
  }
}
