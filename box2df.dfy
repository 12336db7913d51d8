/**
  The BOX2DF predicate library: pure comparisons of two nullable boxes.

  A NULL box pointer is `None`. Every directional and containment predicate
  answers false when either box is absent; `Equals` treats two absent boxes
  as equal and one absent box as different from any present one.
*/
module BoxAlgebra {
  import opened Wrappers

  /** A 2-D bounding box. The source stores single-precision floats; here the
      coordinates are reals, so every comparison is exact and total. */
  datatype Box = Box(xmin: real, xmax: real, ymin: real, ymax: real)

  /** A point, as the split reads it from a point geometry. */
  datatype Point = Point(x: real, y: real)

  /** A box whose minima do not exceed its maxima. */
  predicate WellFormed(b: Box) {
    b.xmin <= b.xmax && b.ymin <= b.ymax
  }

  /** A box that collapses to a single point: the shape of every centroid. */
  predicate Degenerate(b: Box) {
    b.xmin == b.xmax && b.ymin == b.ymax
  }

  /** The degenerate box at point `p`. */
  function PointBox(p: Point): (b: Box)
    ensures Degenerate(b) && WellFormed(b)
    ensures b.xmin == p.x && b.ymin == p.y
  {
    Box(p.x, p.x, p.y, p.y)
  }

  /** box2df_contains: `a` encloses `b` on both axes. */
  predicate Contains(a: Option<Box>, b: Option<Box>)
    ensures Contains(a, b) ==> a.Some? && b.Some?
  {
    if a.None? || b.None? then false
    else
      var a, b := a.value, b.value;
      !(a.xmin > b.xmin || a.xmax < b.xmax || a.ymin > b.ymin || a.ymax < b.ymax)
  }

  /** box2df_overright: `a` does not extend left of `b`. */
  predicate OverRight(a: Option<Box>, b: Option<Box>)
    ensures OverRight(a, b) ==> a.Some? && b.Some?
  {
    a.Some? && b.Some? && a.value.xmin >= b.value.xmin
  }

  /** box2df_overbelow: `a` does not extend above `b`. */
  predicate OverBelow(a: Option<Box>, b: Option<Box>)
    ensures OverBelow(a, b) ==> a.Some? && b.Some?
  {
    a.Some? && b.Some? && a.value.ymax <= b.value.ymax
  }

  /** box2df_overleft: `a` does not extend right of `b`. */
  predicate OverLeft(a: Option<Box>, b: Option<Box>)
    ensures OverLeft(a, b) ==> a.Some? && b.Some?
  {
    a.Some? && b.Some? && a.value.xmax <= b.value.xmax
  }

  /** box2df_overabove: `a` does not extend below `b`. */
  predicate OverAbove(a: Option<Box>, b: Option<Box>)
    ensures OverAbove(a, b) ==> a.Some? && b.Some?
  {
    a.Some? && b.Some? && a.value.ymin >= b.value.ymin
  }

  /** box2df_equals: coordinate-wise equality with its own NULL policy.
      The four coordinate tests together are exactly value equality, so two
      absent boxes are equal and an absent box equals no present one. */
  predicate Equals(a: Option<Box>, b: Option<Box>)
    ensures Equals(a, b) <==> a == b
  {
    if a.Some? && b.Some? then
      !(a.value.xmin != b.value.xmin || a.value.xmax != b.value.xmax ||
        a.value.ymin != b.value.ymin || a.value.ymax != b.value.ymax)
    else if a.Some? || b.Some? then
      false
    else
      true
  }

  /** box2df_below: `a` lies strictly below `b`. */
  predicate Below(a: Option<Box>, b: Option<Box>)
    ensures Below(a, b) ==> a.Some? && b.Some?
    ensures Below(a, b) <==> Above(b, a)
  {
    a.Some? && b.Some? && a.value.ymax < b.value.ymin
  }

  /** box2df_above: `a` lies strictly above `b`. */
  predicate Above(a: Option<Box>, b: Option<Box>)
    ensures Above(a, b) ==> a.Some? && b.Some?
  {
    a.Some? && b.Some? && a.value.ymin > b.value.ymax
  }

  /** box2df_left: `a` lies strictly left of `b`. */
  predicate Left(a: Option<Box>, b: Option<Box>)
    ensures Left(a, b) ==> a.Some? && b.Some?
    ensures Left(a, b) <==> Right(b, a)
  {
    a.Some? && b.Some? && a.value.xmax < b.value.xmin
  }

  /** box2df_right: `a` lies strictly right of `b`. */
  predicate Right(a: Option<Box>, b: Option<Box>)
    ensures Right(a, b) ==> a.Some? && b.Some?
  {
    a.Some? && b.Some? && a.value.xmin > b.value.xmax
  }

  /** Every predicate but `Equals` is false as soon as one box is absent. */
  lemma AbsentBoxRelatesToNothing(a: Option<Box>, b: Option<Box>)
    requires a.None? || b.None?
    ensures !Contains(a, b) && !Left(a, b) && !Right(a, b) && !Below(a, b) && !Above(a, b)
    ensures !OverLeft(a, b) && !OverRight(a, b) && !OverBelow(a, b) && !OverAbove(a, b)
    ensures Equals(a, b) <==> a.None? && b.None?
  {
  }

  /** `Equals` is reflexive and symmetric. */
  lemma EqualsIsEquivalence(a: Option<Box>, b: Option<Box>)
    ensures Equals(a, a)
    ensures Equals(a, b) == Equals(b, a)
  {
  }

  /** `Contains` is reflexive on present boxes. */
  lemma ContainsReflexive(a: Box)
    ensures Contains(Some(a), Some(a))
  {
  }

  /** `Contains` is transitive. */
  lemma ContainsTransitive(a: Option<Box>, b: Option<Box>, c: Option<Box>)
    requires Contains(a, b) && Contains(b, c)
    ensures Contains(a, c)
  {
  }

  /** Containment is the conjunction of the four one-sided "over" tests,
      read with the inner box as subject. */
  lemma ContainsIsFourOvers(a: Option<Box>, b: Option<Box>)
    ensures Contains(a, b) <==>
      OverLeft(b, a) && OverRight(b, a) && OverBelow(b, a) && OverAbove(b, a)
  {
  }

  /** Each strict directional test implies its "over" counterpart when the
      reference box is well formed. */
  lemma StrictImpliesOver(a: Box, b: Box)
    requires WellFormed(b)
    ensures Left(Some(a), Some(b)) ==> OverLeft(Some(a), Some(b))
    ensures Right(Some(a), Some(b)) ==> OverRight(Some(a), Some(b))
    ensures Below(Some(a), Some(b)) ==> OverBelow(Some(a), Some(b))
    ensures Above(Some(a), Some(b)) ==> OverAbove(Some(a), Some(b))
  {
  }
}
