/**
  spgist_geom_picksplit: turn a full leaf page into a four-way inner tuple.

  The centroid is the mean of the entries' points (each entry is read as a
  point geometry), stored as a degenerate box; every entry goes to slot
  getQuadrant(centroid, box) - 1 and keeps its datum unchanged.
*/
module Splitter {
  import opened BoxAlgebra
  import opened Quadrants

  /** The fields of spgPickSplitOut the function writes. */
  datatype SplitOut<D> = SplitOut(
    hasPrefix: bool,
    prefix: Box,
    nNodes: int,
    hasNodeLabels: bool,
    mapTuplesToNodes: seq<int>,
    leafTupleDatums: seq<D>)

  /** Sum of the entries' x coordinates, accumulated from the front. */
  function SumX<D>(ds: seq<D>, pointOf: D -> Point): real {
    if ds == [] then 0.0 else SumX(ds[..|ds| - 1], pointOf) + pointOf(ds[|ds| - 1]).x
  }

  /** Sum of the entries' y coordinates, accumulated from the front. */
  function SumY<D>(ds: seq<D>, pointOf: D -> Point): real {
    if ds == [] then 0.0 else SumY(ds[..|ds| - 1], pointOf) + pointOf(ds[|ds| - 1]).y
  }

  /** The centroid of a split: the degenerate box at the mean point. */
  function MeanCentroid<D>(ds: seq<D>, pointOf: D -> Point): (c: Box)
    requires |ds| > 0
    ensures Degenerate(c)
  {
    var n := |ds| as real;
    PointBox(Point(SumX(ds, pointOf) / n, SumY(ds, pointOf) / n))
  }

  /** Split `datums` (at least one; the host never splits an empty page).
      `boxOf` and `pointOf` stand for reading an entry's bounding box and its
      point coordinates out of the serialized geometry. */
  method PickSplit<D(==,0)>(datums: seq<D>, boxOf: D -> Box, pointOf: D -> Point)
    returns (out: SplitOut<D>)
    requires |datums| > 0
    ensures out.hasPrefix && out.nNodes == 4 && !out.hasNodeLabels
    ensures out.prefix == MeanCentroid(datums, pointOf)
    ensures Degenerate(out.prefix)
    ensures |out.mapTuplesToNodes| == |datums|
    ensures forall i :: 0 <= i < |datums| ==>
      out.mapTuplesToNodes[i] == GetQuadrant(out.prefix, boxOf(datums[i])) - 1
    ensures forall i :: 0 <= i < |datums| ==> 0 <= out.mapTuplesToNodes[i] < out.nNodes
    ensures out.leafTupleDatums == datums
  {
    var n := |datums|;
    var x, y := 0.0, 0.0;
    var i := 0;
    while i < n
      invariant 0 <= i <= n
      invariant x == SumX(datums[..i], pointOf) && y == SumY(datums[..i], pointOf)
    {
      assert datums[..i + 1][..i] == datums[..i];
      var p := pointOf(datums[i]);
      x := x + p.x;
      y := y + p.y;
      i := i + 1;
    }
    assert datums[..n] == datums;
    x := x / n as real;
    y := y / n as real;

    var centroid := Box(x, x, y, y);
    var mapTuplesToNodes := new int[n];
    var leafTupleDatums := new D[n];
    i := 0;
    while i < n
      invariant 0 <= i <= n
      invariant forall j :: 0 <= j < i ==>
        mapTuplesToNodes[j] == GetQuadrant(centroid, boxOf(datums[j])) - 1
      invariant forall j :: 0 <= j < i ==> leafTupleDatums[j] == datums[j]
    {
      var quadrant := GetQuadrant(centroid, boxOf(datums[i])) - 1;
      leafTupleDatums[i] := datums[i];
      mapTuplesToNodes[i] := quadrant;
      i := i + 1;
    }
    out := SplitOut(true, centroid, 4, false, mapTuplesToNodes[..], leafTupleDatums[..]);
  }

  /** If every entry's x lies in [lo, hi], so does their sum scaled by n. */
  lemma {:induction false} SumXBounds<D>(ds: seq<D>, pointOf: D -> Point, lo: real, hi: real)
    requires forall i :: 0 <= i < |ds| ==> lo <= pointOf(ds[i]).x <= hi
    ensures |ds| as real * lo <= SumX(ds, pointOf) <= |ds| as real * hi
  {
    if ds != [] {
      var init := ds[..|ds| - 1];
      assert forall i :: 0 <= i < |init| ==> init[i] == ds[i];
      SumXBounds(init, pointOf, lo, hi);
    }
  }

  /** If every entry's y lies in [lo, hi], so does their sum scaled by n. */
  lemma {:induction false} SumYBounds<D>(ds: seq<D>, pointOf: D -> Point, lo: real, hi: real)
    requires forall i :: 0 <= i < |ds| ==> lo <= pointOf(ds[i]).y <= hi
    ensures |ds| as real * lo <= SumY(ds, pointOf) <= |ds| as real * hi
  {
    if ds != [] {
      var init := ds[..|ds| - 1];
      assert forall i :: 0 <= i < |init| ==> init[i] == ds[i];
      SumYBounds(init, pointOf, lo, hi);
    }
  }

  /** The centroid lies inside every axis-aligned rectangle that holds all of
      the entries' points. */
  lemma CentroidWithinPoints<D>(ds: seq<D>, pointOf: D -> Point, lo: Point, hi: Point)
    requires |ds| > 0
    requires forall i :: 0 <= i < |ds| ==>
      lo.x <= pointOf(ds[i]).x <= hi.x && lo.y <= pointOf(ds[i]).y <= hi.y
    ensures var c := MeanCentroid(ds, pointOf);
      lo.x <= c.xmin <= hi.x && lo.y <= c.ymin <= hi.y
  {
    var n := |ds| as real;
    var c := MeanCentroid(ds, pointOf);
    assert c.xmin == SumX(ds, pointOf) / n && c.ymin == SumY(ds, pointOf) / n;
    assert lo.x <= c.xmin <= hi.x by {
      SumXBounds(ds, pointOf, lo.x, hi.x);
      MeanBounds(SumX(ds, pointOf), n, lo.x, hi.x);
    }
    assert lo.y <= c.ymin <= hi.y by {
      SumYBounds(ds, pointOf, lo.y, hi.y);
      MeanBounds(SumY(ds, pointOf), n, lo.y, hi.y);
    }
  }

  /** Dividing a sum of n values by n keeps it within their bounds. */
  lemma MeanBounds(s: real, n: real, lo: real, hi: real)
    requires n > 0.0 && n * lo <= s <= n * hi
    ensures lo <= s / n <= hi
  {
    assert s / n - lo == (s - n * lo) / n;
    assert hi - s / n == (n * hi - s) / n;
  }

  /** When all entries sit on one point, the centroid is that point. */
  lemma SamePointsGiveThatCentroid<D>(ds: seq<D>, pointOf: D -> Point, p: Point)
    requires |ds| > 0
    requires forall i :: 0 <= i < |ds| ==> pointOf(ds[i]) == p
    ensures MeanCentroid(ds, pointOf) == PointBox(p)
  {
    CentroidWithinPoints(ds, pointOf, p, p);
  }

  /** Four points, one per quadrant around the origin, split around the
      origin into slots 0, 1, 2 and 3. */
  lemma FourCornersSplitExample()
    ensures var pts := [Point(1.0, 1.0), Point(1.0, -1.0), Point(-1.0, -1.0), Point(-1.0, 1.0)];
      var c := MeanCentroid(pts, p => p);
      && c == PointBox(Point(0.0, 0.0))
      && (forall i :: 0 <= i < 4 ==> GetQuadrant(c, PointBox(pts[i])) - 1 == i)
  {
    var pts := [Point(1.0, 1.0), Point(1.0, -1.0), Point(-1.0, -1.0), Point(-1.0, 1.0)];
    var id := (p: Point) => p;
    assert pts[..3] == [Point(1.0, 1.0), Point(1.0, -1.0), Point(-1.0, -1.0)];
    assert pts[..3][..2] == [Point(1.0, 1.0), Point(1.0, -1.0)];
    assert pts[..3][..2][..1] == [Point(1.0, 1.0)];
    assert [Point(1.0, 1.0)][..0] == [];
    assert SumX([Point(1.0, 1.0)], id) == 1.0 && SumY([Point(1.0, 1.0)], id) == 1.0;
    assert SumX(pts[..3][..2], id) == 2.0 && SumY(pts[..3][..2], id) == 0.0;
    assert SumX(pts[..3], id) == 1.0 && SumY(pts[..3], id) == -1.0;
    assert SumX(pts, id) == 0.0 && SumY(pts, id) == 0.0;
  }
}
