/**
  spgist_geom_inner_consistent: which children of an inner tuple a search
  must descend into.

  The quadrants still worth visiting are kept in a bitmask `which` (bit q
  for quadrant q, q in 1..4). Each scan key ANDs it with a set of quadrants
  chosen by its strategy; the scan stops early once the mask is empty; the
  surviving quadrants are reported, in ascending order, as child numbers
  q - 1.
*/
module InnerPruner {
  import opened Wrappers
  import opened BoxAlgebra
  import opened Quadrants
  import opened Strategies

  /** The bit of quadrant `q` in the mask: `1 << q`. */
  function QuadrantBit(q: int): bv8
    requires 1 <= q <= 4
  {
    if q == 1 then 0x02 else if q == 2 then 0x04 else if q == 3 then 0x08 else 0x10
  }

  /** The source's `1 << q` is the quadrant's bit. */
  lemma ShiftIsQuadrantBit(q: int)
    requires 1 <= q <= 4
    ensures (1 as bv8) << q == QuadrantBit(q)
  {
    if q == 1 {
    } else if q == 2 {
    } else if q == 3 {
    } else {
    }
  }

  /** The starting mask: all four quadrants. */
  const AllQuadrants: bv8 := (1 << 1) | (1 << 2) | (1 << 3) | (1 << 4)

  /** How the Below and Above keys are read. `AsWritten` is the source's
      reading (centroid as subject); `Intended` tests the query box as
      subject, as Left and Right do. The two agree on every other key. */
  datatype Reading = AsWritten | Intended

  /** The union of the quadrants of the four corners of `box`. */
  function CornerMask(centroid: Box, box: Box): (r: bv8)
    ensures r != 0 && r & AllQuadrants == r
  {
    QuadrantBit(GetQuadrant(centroid, PointBox(Point(box.xmin, box.ymin)))) |
    QuadrantBit(GetQuadrant(centroid, PointBox(Point(box.xmax, box.ymin)))) |
    QuadrantBit(GetQuadrant(centroid, PointBox(Point(box.xmax, box.ymax)))) |
    QuadrantBit(GetQuadrant(centroid, PointBox(Point(box.xmin, box.ymax))))
  }

  /** What one scan key does to the mask. Only unsupported strategies fail,
      and the mask never gains a quadrant. */
  function MaskStep(which: bv8, centroid: Box, key: ScanKey, reading: Reading): (r: Result<bv8, SpgError>)
    ensures r.Err? <==> !InnerSupported(key.strategy)
    ensures r.Err? ==> r.error == UnrecognizedStrategy(key.strategy)
    ensures r.Ok? ==> r.value & which == r.value
  {
    var box, c := Some(key.query), Some(centroid);
    if key.strategy == RTLeft then
      Ok(if Left(box, c) then which & (QuadrantBit(3) | QuadrantBit(4)) else which)
    else if key.strategy == RTRight then
      Ok(if Right(box, c) then which & (QuadrantBit(1) | QuadrantBit(2)) else which)
    else if key.strategy == RTBelow then
      var narrow := if reading == AsWritten then Below(c, box) else Below(box, c);
      Ok(if narrow then which & (QuadrantBit(2) | QuadrantBit(3)) else which)
    else if key.strategy == RTAbove then
      var narrow := if reading == AsWritten then Above(c, box) else Above(box, c);
      Ok(if narrow then which & (QuadrantBit(1) | QuadrantBit(4)) else which)
    else if key.strategy == RTContainedBy then
      Ok(if Contains(box, c) then which else which & CornerMask(centroid, key.query))
    else
      Err(UnrecognizedStrategy(key.strategy))
  }

  /** The key loop: apply the keys in order, stop at the first error, and
      stop early (skipping the remaining keys) once the mask is empty. */
  function FinalMask(centroid: Box, keys: seq<ScanKey>, which: bv8, reading: Reading): Result<bv8, SpgError>
    decreases |keys|
  {
    if keys == [] then Ok(which)
    else
      match MaskStep(which, centroid, keys[0], reading)
      case Err(e) => Err(e)
      case Ok(w) => if w == 0 then Ok(0) else FinalMask(centroid, keys[1..], w, reading)
  }

  /** Whether quadrant `q` is still set in mask `m`. */
  predicate Survives(m: bv8, q: int)
    requires 1 <= q <= 4
  {
    m & QuadrantBit(q) != 0
  }

  /** The child numbers of the quadrants among 1..k that survive in `m`,
      ascending. */
  function Slots(m: bv8, k: int): seq<int>
    requires 0 <= k <= 4
  {
    if k == 0 then []
    else Slots(m, k - 1) + (if Survives(m, k) then [k - 1] else [])
  }

  /** The output of a pruning scan: the surviving child numbers, or the error. */
  function PrunedSlots(centroid: Box, keys: seq<ScanKey>, reading: Reading): Result<seq<int>, SpgError> {
    match FinalMask(centroid, keys, AllQuadrants, reading)
    case Ok(m) => Ok(Slots(m, 4))
    case Err(e) => Err(e)
  }

  /** The reported child numbers are strictly ascending, each below k, at most
      k of them, and child j is reported exactly when quadrant j + 1 survives. */
  lemma {:induction false} SlotsAreSurvivingQuadrants(m: bv8, k: int)
    requires 0 <= k <= 4
    ensures |Slots(m, k)| <= k
    ensures forall i, j :: 0 <= i < j < |Slots(m, k)| ==> Slots(m, k)[i] < Slots(m, k)[j]
    ensures forall i :: 0 <= i < |Slots(m, k)| ==> 0 <= Slots(m, k)[i] < k
    ensures forall j :: 0 <= j < k ==> (j in Slots(m, k) <==> Survives(m, j + 1))
  {
    if k > 0 {
      SlotsAreSurvivingQuadrants(m, k - 1);
      var prefix := Slots(m, k - 1);
      var last: seq<int> := if Survives(m, k) then [k - 1] else [];
      assert Slots(m, k) == prefix + last;
      assert forall j :: j in Slots(m, k) <==> j in prefix || j in last;
    }
  }

  /** When each supported key may narrow the mask, and what it can leave:
      Left only when the query box is left of the centroid, leaving at most
      quadrants 3 and 4; Right only when it is right of it, leaving 1 and 2;
      Below (as written) only when the centroid is below the query box,
      leaving 2 and 3; Above only when the centroid is above it, leaving 1
      and 4; ContainedBy only when the query box misses the centroid,
      leaving the quadrants of its corners. */
  lemma NarrowingConditions(which: bv8, centroid: Box, key: ScanKey)
    requires InnerSupported(key.strategy)
    ensures var r, q, c := MaskStep(which, centroid, key, AsWritten).value, Some(key.query), Some(centroid);
      && (key.strategy == RTLeft ==>
            (r != which ==> Left(q, c)) && (Left(q, c) ==> r & (QuadrantBit(1) | QuadrantBit(2)) == 0))
      && (key.strategy == RTRight ==>
            (r != which ==> Right(q, c)) && (Right(q, c) ==> r & (QuadrantBit(3) | QuadrantBit(4)) == 0))
      && (key.strategy == RTBelow ==>
            (r != which ==> Below(c, q)) && (Below(c, q) ==> r & (QuadrantBit(1) | QuadrantBit(4)) == 0))
      && (key.strategy == RTAbove ==>
            (r != which ==> Above(c, q)) && (Above(c, q) ==> r & (QuadrantBit(2) | QuadrantBit(3)) == 0))
      && (key.strategy == RTContainedBy ==>
            (Contains(q, c) ==> r == which) && (!Contains(q, c) ==> r & CornerMask(centroid, key.query) == r))
  {
    var m := CornerMask(centroid, key.query);
    if key.strategy == RTContainedBy {
      assert (which & m) & m == which & m;
    }
  }

  /** The key loop never adds a quadrant to the mask it starts from. */
  lemma {:induction false} FinalMaskOnlyShrinks(centroid: Box, keys: seq<ScanKey>, which: bv8, reading: Reading)
    ensures FinalMask(centroid, keys, which, reading).Ok? ==>
      FinalMask(centroid, keys, which, reading).value & which == FinalMask(centroid, keys, which, reading).value
    decreases |keys|
  {
    if keys != [] {
      var step := MaskStep(which, centroid, keys[0], reading);
      if step.Ok? && step.value != 0 {
        FinalMaskOnlyShrinks(centroid, keys[1..], step.value, reading);
      }
    }
  }

  /** The key loop fails exactly when it meets an unsupported strategy before
      the mask has emptied; Same is one of them. */
  lemma {:induction false} FinalMaskFailsOnUnsupported(centroid: Box, keys: seq<ScanKey>, which: bv8, reading: Reading)
    requires which != 0
    ensures FinalMask(centroid, keys, which, reading).Err? <==>
      exists j :: 0 <= j < |keys| && !InnerSupported(keys[j].strategy) &&
        FinalMask(centroid, keys[..j], which, reading) != Ok(0) &&
        forall i :: 0 <= i < j ==> InnerSupported(keys[i].strategy)
    decreases |keys|
  {
    var r := FinalMask(centroid, keys, which, reading);
    if keys == [] {
    } else {
      var step := MaskStep(which, centroid, keys[0], reading);
      assert keys[..0] == [];
      if step.Err? {
        assert !InnerSupported(keys[0].strategy) && FinalMask(centroid, keys[..0], which, reading) == Ok(which);
      } else if step.value == 0 {
        assert r == Ok(0);
        forall j | 0 <= j < |keys| && !InnerSupported(keys[j].strategy) &&
          (forall i :: 0 <= i < j ==> InnerSupported(keys[i].strategy))
          ensures FinalMask(centroid, keys[..j], which, reading) == Ok(0)
        {
          assert j != 0;
          assert keys[..j][0] == keys[0];
        }
      } else {
        var tail := keys[1..];
        FinalMaskFailsOnUnsupported(centroid, tail, step.value, reading);
        if r.Err? {
          var j :| 0 <= j < |tail| && !InnerSupported(tail[j].strategy) &&
            FinalMask(centroid, tail[..j], step.value, reading) != Ok(0) &&
            forall i :: 0 <= i < j ==> InnerSupported(tail[i].strategy);
          assert keys[..j + 1][1..] == tail[..j];
          assert FinalMask(centroid, keys[..j + 1], which, reading) == FinalMask(centroid, tail[..j], step.value, reading);
          assert forall i :: 0 <= i < j + 1 ==> InnerSupported(keys[i].strategy) by {
            forall i | 0 <= i < j + 1 ensures InnerSupported(keys[i].strategy) {
              if i > 0 { assert keys[i] == tail[i - 1]; }
            }
          }
        } else {
          forall j | 0 <= j < |keys| && !InnerSupported(keys[j].strategy) &&
            (forall i :: 0 <= i < j ==> InnerSupported(keys[i].strategy))
            ensures FinalMask(centroid, keys[..j], which, reading) == Ok(0)
          {
            assert j != 0;
            assert keys[..j][1..] == tail[..j - 1];
            assert forall i :: 0 <= i < j - 1 ==> InnerSupported(tail[i].strategy) by {
              forall i | 0 <= i < j - 1 ensures InnerSupported(tail[i].strategy) {
                assert tail[i] == keys[i + 1];
              }
            }
            assert tail[j - 1] == keys[j];
          }
        }
      }
    }
  }

  /** The key loop of the search: narrow the full mask key by key, stop early
      once it is empty, abort on a strategy the pruning does not handle. */
  method ScanKeys(centroid: Box, keys: seq<ScanKey>) returns (out: Result<bv8, SpgError>)
    ensures out == FinalMask(centroid, keys, AllQuadrants, AsWritten)
  {
    var which: bv8 := (1 << 1) | (1 << 2) | (1 << 3) | (1 << 4);
    var i := 0;
    while i < |keys|
      invariant 0 <= i <= |keys|
      invariant which != 0
      invariant FinalMask(centroid, keys, AllQuadrants, AsWritten) == FinalMask(centroid, keys[i..], which, AsWritten)
    {
      var step := NarrowByKey(which, centroid, keys[i]);
      if step.Err? {
        return Err(step.error);
      }
      assert keys[i..][0] == keys[i] && keys[i..][1..] == keys[i + 1..];
      which := step.value;
      if which == 0 {
        break;
      }
      i := i + 1;
    }
    out := Ok(which);
  }

  /** The body of the key loop: the switch on one key's strategy. */
  method NarrowByKey(which: bv8, centroid: Box, key: ScanKey) returns (out: Result<bv8, SpgError>)
    ensures out == MaskStep(which, centroid, key, AsWritten)
  {
    var box, c := Some(key.query), Some(centroid);
    var narrowed := which;
    if key.strategy == RTLeft {
      if Left(box, c) {
        narrowed := which & ((1 << 3) | (1 << 4));
      }
    } else if key.strategy == RTRight {
      if Right(box, c) {
        narrowed := which & ((1 << 1) | (1 << 2));
      }
    } else if key.strategy == RTBelow {
      if Below(c, box) {
        narrowed := which & ((1 << 2) | (1 << 3));
      }
    } else if key.strategy == RTAbove {
      if Above(c, box) {
        narrowed := which & ((1 << 1) | (1 << 4));
      }
    } else if key.strategy == RTContainedBy {
      if Contains(box, c) {
        // the centroid lies in the query box: every quadrant may hold matches
      } else {
        var r := CornerQuadrants(centroid, key.query);
        narrowed := which & r;
      }
    } else {
      return Err(UnrecognizedStrategy(key.strategy));
    }
    out := Ok(narrowed);
  }

  /** The quadrants of the four corners of a query box, one bit each. */
  method CornerQuadrants(centroid: Box, box: Box) returns (r: bv8)
    ensures r == CornerMask(centroid, box)
  {
    r := 0;
    r := r | (1 << GetQuadrant(centroid, PointBox(Point(box.xmin, box.ymin))));
    r := r | (1 << GetQuadrant(centroid, PointBox(Point(box.xmax, box.ymin))));
    r := r | (1 << GetQuadrant(centroid, PointBox(Point(box.xmax, box.ymax))));
    r := r | (1 << GetQuadrant(centroid, PointBox(Point(box.xmin, box.ymax))));
  }

  /** Report the quadrants set in `which`, ascending, as child numbers. */
  method ReportQuadrants(which: bv8) returns (nodeNumbers: seq<int>)
    ensures nodeNumbers == Slots(which, 4)
    ensures |nodeNumbers| <= 4
    ensures forall i, j :: 0 <= i < j < |nodeNumbers| ==> nodeNumbers[i] < nodeNumbers[j]
    ensures forall i :: 0 <= i < |nodeNumbers| ==> 0 <= nodeNumbers[i] < 4
    ensures forall j :: 0 <= j < 4 ==> (j in nodeNumbers <==> Survives(which, j + 1))
  {
    var numbers := new int[4];
    var n := 0;
    var q := 1;
    while q <= 4
      invariant 1 <= q <= 5
      invariant n <= q - 1
      invariant numbers[..n] == Slots(which, q - 1)
    {
      ShiftIsQuadrantBit(q);
      if which & (1 << q) != 0 {
        numbers[n] := q - 1;
        n := n + 1;
      }
      q := q + 1;
    }
    SlotsAreSurvivingQuadrants(which, 4);
    nodeNumbers := numbers[..n];
  }

  /** Search an inner tuple whose prefix is `centroid`. With `allTheSame`
      every one of its `nNodes` children is visited whatever the keys say;
      otherwise the tuple has four children and the key loop decides. */
  method InnerConsistent(centroid: Box, keys: seq<ScanKey>, allTheSame: bool, nNodes: nat)
    returns (out: Result<seq<int>, SpgError>)
    requires !allTheSame ==> nNodes == 4
    ensures allTheSame ==> out == Ok(seq(nNodes, j => j))
    ensures !allTheSame ==> out == PrunedSlots(centroid, keys, AsWritten)
    ensures !allTheSame && out.Ok? ==>
      && |out.value| <= 4
      && (forall i, j :: 0 <= i < j < |out.value| ==> out.value[i] < out.value[j])
      && (forall i :: 0 <= i < |out.value| ==> 0 <= out.value[i] < 4)
  {
    if allTheSame {
      var nodeNumbers := new int[nNodes];
      for i := 0 to nNodes
        invariant forall j :: 0 <= j < i ==> nodeNumbers[j] == j
      {
        nodeNumbers[i] := i;
      }
      assert nodeNumbers[..] == seq(nNodes, j => j);
      return Ok(nodeNumbers[..]);
    }

    var which := ScanKeys(centroid, keys);
    if which.Err? {
      return Err(which.error);
    }
    var nodeNumbers := ReportQuadrants(which.value);
    out := Ok(nodeNumbers);
  }

  /** With no scan keys every child is visited. */
  lemma NoKeysVisitsAllChildren(centroid: Box, reading: Reading)
    ensures PrunedSlots(centroid, [], reading) == Ok([0, 1, 2, 3])
  {
    AllQuadrantsSlots();
  }

  /** The full mask reports every child, in order. */
  lemma AllQuadrantsSlots()
    ensures Slots(AllQuadrants, 4) == [0, 1, 2, 3]
  {
    assert Slots(AllQuadrants, 1) == [0];
    assert Slots(AllQuadrants, 2) == [0, 1];
    assert Slots(AllQuadrants, 3) == [0, 1, 2];
  }

  /** A ContainedBy key whose box holds the centroid prunes nothing; one whose
      box lies wholly inside quadrant 1 keeps only child 0. */
  lemma ContainedByExamples(reading: Reading)
    ensures PrunedSlots(PointBox(Point(0.0, 0.0)), [ScanKey(RTContainedBy, Box(0.0, 5.0, 0.0, 5.0))], reading)
      == Ok([0, 1, 2, 3])
    ensures PrunedSlots(PointBox(Point(0.0, 0.0)), [ScanKey(RTContainedBy, Box(1.0, 5.0, 1.0, 5.0))], reading)
      == Ok([0])
  {
    var c := PointBox(Point(0.0, 0.0));
    var q := Box(1.0, 5.0, 1.0, 5.0);
    AllQuadrantsSlots();
    assert FinalMask(c, [ScanKey(RTContainedBy, Box(0.0, 5.0, 0.0, 5.0))], AllQuadrants, reading) == Ok(AllQuadrants);
    assert CornerMask(c, q) == QuadrantBit(1);
    var m := AllQuadrants & QuadrantBit(1);
    assert FinalMask(c, [ScanKey(RTContainedBy, q)], AllQuadrants, reading) == Ok(m);
    assert Slots(m, 1) == [0];
    assert Slots(m, 2) == [0];
    assert Slots(m, 3) == [0];
  }
}
