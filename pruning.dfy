/**
  How the inner-node pruning relates to the leaf test.

  Choose and PickSplit put an entry with box `d` under the child
  GetQuadrant(centroid, d) - 1. A search may skip a child only if no entry
  under it can pass the leaf test. For Left, Right and ContainedBy keys the
  source's pruning keeps that promise. For Below and Above it tests the
  centroid, rather than the query box, as the subject, and can skip a child
  that holds a matching entry. Read with the query box as subject (the
  `Intended` reading), every supported key keeps the promise.
*/
module PruningSoundness {
  import opened Wrappers
  import opened BoxAlgebra
  import opened Quadrants
  import opened Strategies
  import opened InnerPruner
  import opened LeafTester

  /** Keys whose pruning, as the source writes it, agrees with the leaf test. */
  predicate SoundAsWritten(key: ScanKey) {
    key.strategy != RTBelow && key.strategy != RTAbove
  }

  /** Every entry box that a query box contains has its quadrant among the
      quadrants of the query box's corners. */
  lemma CornersCoverContainedBox(centroid: Box, query: Box, d: Box)
    requires WellFormed(d)
    requires Contains(Some(query), Some(d))
    ensures CornerMask(centroid, query) & QuadrantBit(GetQuadrant(centroid, d)) != 0
  {
    var q := GetQuadrant(centroid, d);
    QuadrantRegions(centroid, d);
    var corner :=
      if q == 1 then Point(query.xmax, query.ymax)
      else if q == 2 then Point(query.xmax, query.ymin)
      else if q == 3 then Point(query.xmin, query.ymin)
      else Point(query.xmin, query.ymax);
    QuadrantRegions(centroid, PointBox(corner));
    assert GetQuadrant(centroid, PointBox(corner)) == q;
  }

  /** One key: if an entry passes the key's leaf test and its quadrant is in
      the mask, its quadrant is still in the mask after the key. */
  lemma MaskStepKeepsMatch(which: bv8, centroid: Box, key: ScanKey, d: Box, reading: Reading)
    requires Degenerate(centroid) && WellFormed(d) && WellFormed(key.query)
    requires reading == Intended || SoundAsWritten(key)
    requires KeyHolds(d, key) == Ok(true)
    requires which & QuadrantBit(GetQuadrant(centroid, d)) != 0
    ensures MaskStep(which, centroid, key, reading).Ok? ==>
      MaskStep(which, centroid, key, reading).value & QuadrantBit(GetQuadrant(centroid, d)) != 0
  {
    QuadrantRegions(centroid, d);
    if key.strategy == RTContainedBy && !Contains(Some(key.query), Some(centroid)) {
      CornersCoverContainedBox(centroid, key.query, d);
    }
  }

  /** The whole key loop: an entry that passes the leaf test keeps its
      quadrant in the final mask, whenever the loop does not fail. */
  lemma {:induction false} FinalMaskKeepsMatch(centroid: Box, keys: seq<ScanKey>, which: bv8, d: Box, reading: Reading)
    requires Degenerate(centroid) && WellFormed(d)
    requires forall k :: k in keys ==> WellFormed(k.query)
    requires reading == Intended || forall k :: k in keys ==> SoundAsWritten(k)
    requires LeafResult(d, keys) == Ok(true)
    requires which & QuadrantBit(GetQuadrant(centroid, d)) != 0
    ensures FinalMask(centroid, keys, which, reading).Ok? ==>
      FinalMask(centroid, keys, which, reading).value & QuadrantBit(GetQuadrant(centroid, d)) != 0
    decreases |keys|
  {
    if keys != [] {
      MaskStepKeepsMatch(which, centroid, keys[0], d, reading);
      var step := MaskStep(which, centroid, keys[0], reading);
      if step.Ok? {
        assert forall k :: k in keys[1..] ==> k in keys;
        FinalMaskKeepsMatch(centroid, keys[1..], step.value, d, reading);
      }
    }
  }

  /** A search visits the child that holds any entry matching all its keys:
      always under the `Intended` reading, and under the source's reading
      when no key is Below or Above. */
  lemma MatchingEntryChildIsVisited(centroid: Box, keys: seq<ScanKey>, d: Box, reading: Reading)
    requires Degenerate(centroid) && WellFormed(d)
    requires forall k :: k in keys ==> WellFormed(k.query)
    requires reading == Intended || forall k :: k in keys ==> SoundAsWritten(k)
    requires LeafResult(d, keys) == Ok(true)
    ensures PrunedSlots(centroid, keys, reading).Ok? ==>
      GetQuadrant(centroid, d) - 1 in PrunedSlots(centroid, keys, reading).value
  {
    var q := GetQuadrant(centroid, d);
    assert AllQuadrants & QuadrantBit(q) != 0;
    FinalMaskKeepsMatch(centroid, keys, AllQuadrants, d, reading);
    var m := FinalMask(centroid, keys, AllQuadrants, reading);
    if m.Ok? {
      SlotsAreSurvivingQuadrants(m.value, 4);
    }
  }

  /** As written, a Below key whose query box lies above the centroid keeps
      only quadrants 2 and 3, yet an entry in quadrant 1 can lie below that
      box: the search skips a child holding a match. */
  lemma BelowAsWrittenSkipsMatch()
    ensures var c := PointBox(Point(0.0, 0.0));
      var key := ScanKey(RTBelow, Box(0.0, 1.0, 10.0, 11.0));
      var d := Box(1.0, 2.0, 1.0, 2.0);
      && WellFormed(d) && WellFormed(key.query)
      && LeafResult(d, [key]) == Ok(true)
      && GetQuadrant(c, d) == 1
      && PrunedSlots(c, [key], AsWritten) == Ok([1, 2])
      && PrunedSlots(c, [key], Intended) == Ok([0, 1, 2, 3])
  {
    var c := PointBox(Point(0.0, 0.0));
    var key := ScanKey(RTBelow, Box(0.0, 1.0, 10.0, 11.0));
    var m := AllQuadrants & (QuadrantBit(2) | QuadrantBit(3));
    assert FinalMask(c, [key], AllQuadrants, AsWritten) == Ok(m);
    assert [key][1..] == [];
    assert m == QuadrantBit(2) | QuadrantBit(3);
    assert Slots(m, 1) == [];
    assert Slots(m, 2) == [] + [1];
    assert Slots(m, 3) == [1] + [2];
    assert Slots(m, 4) == [1, 2];
    assert FinalMask(c, [key], AllQuadrants, Intended) == Ok(AllQuadrants);
    AllQuadrantsSlots();
  }

  /** The mirror case: as written, an Above key whose query box lies below
      the centroid skips quadrant 2, which can hold an entry above that box. */
  lemma AboveAsWrittenSkipsMatch()
    ensures var c := PointBox(Point(0.0, 0.0));
      var key := ScanKey(RTAbove, Box(0.0, 1.0, -11.0, -10.0));
      var d := Box(1.0, 2.0, -2.0, -1.0);
      && WellFormed(d) && WellFormed(key.query)
      && LeafResult(d, [key]) == Ok(true)
      && GetQuadrant(c, d) == 2
      && PrunedSlots(c, [key], AsWritten) == Ok([0, 3])
      && PrunedSlots(c, [key], Intended) == Ok([0, 1, 2, 3])
  {
    var c := PointBox(Point(0.0, 0.0));
    var key := ScanKey(RTAbove, Box(0.0, 1.0, -11.0, -10.0));
    var m := AllQuadrants & (QuadrantBit(1) | QuadrantBit(4));
    assert FinalMask(c, [key], AllQuadrants, AsWritten) == Ok(m);
    assert [key][1..] == [];
    assert m == QuadrantBit(1) | QuadrantBit(4);
    assert Slots(m, 1) == [0];
    assert Slots(m, 2) == [0];
    assert Slots(m, 3) == [0];
    assert Slots(m, 4) == [0] + [3];
    assert FinalMask(c, [key], AllQuadrants, Intended) == Ok(AllQuadrants);
    AllQuadrantsSlots();
    assert [0] + [3] == [0, 3];
  }
}
