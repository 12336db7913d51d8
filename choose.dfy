/**
  spgist_geom_choose: the insertion router. It always answers "match node",
  descends zero levels and hands the value on unchanged; the child is the
  quadrant of the value's box around the node's centroid.
*/
module Router {
  import opened Wrappers
  import opened BoxAlgebra
  import opened Quadrants

  /** The fields of spgChooseOut the function writes. `nodeN` is `None` when
      the host picks the node itself (an all-the-same inner tuple). */
  datatype ChooseOut<D> = MatchNode(nodeN: Option<int>, levelAdd: int, restDatum: D)

  /** Route `datum`, whose extracted box is `box`, at an inner tuple whose
      prefix is `centroid` (ignored when `allTheSame`). */
  method Choose<D(==)>(datum: D, box: Box, allTheSame: bool, centroid: Box)
    returns (out: ChooseOut<D>)
    ensures out.levelAdd == 0 && out.restDatum == datum
    ensures allTheSame <==> out.nodeN.None?
    ensures out.nodeN.Some? ==> 0 <= out.nodeN.value <= 3
    ensures out.nodeN.Some? ==> out.nodeN.value == GetQuadrant(centroid, box) - 1
  {
    if allTheSame {
      out := MatchNode(None, 0, datum);
      return;
    }
    out := MatchNode(Some(GetQuadrant(centroid, box) - 1), 0, datum);
  }
}
