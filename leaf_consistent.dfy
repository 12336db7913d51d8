/**
  spgist_geom_leaf_consistent: does a leaf entry satisfy every scan key?

  Each key is tested exactly against the leaf's own box; the keys are
  combined with AND and the loop stops at the first key that fails. The
  answer never asks for a recheck and hands back the leaf datum unchanged.
*/
module LeafTester {
  import opened Wrappers
  import opened BoxAlgebra
  import opened Strategies

  /** The fields of spgLeafConsistentOut plus the returned boolean. */
  datatype LeafOut<D> = LeafOut(matches: bool, recheck: bool, leafValue: D)

  /** One key tested against the leaf's box `datum`. ContainedBy asks whether
      the query box contains the leaf; the other relations have the leaf as
      subject. Any other strategy is an error. */
  function KeyHolds(datum: Box, key: ScanKey): (r: Result<bool, SpgError>)
    ensures r.Err? <==> !LeafSupported(key.strategy)
    ensures r.Err? ==> r.error == UnrecognizedStrategy(key.strategy)
  {
    var d, q := Some(datum), Some(key.query);
    if key.strategy == RTLeft then Ok(Left(d, q))
    else if key.strategy == RTRight then Ok(Right(d, q))
    else if key.strategy == RTSame then Ok(Equals(d, q))
    else if key.strategy == RTBelow then Ok(Below(d, q))
    else if key.strategy == RTAbove then Ok(Above(d, q))
    else if key.strategy == RTContainedBy then Ok(Contains(q, d))
    else Err(UnrecognizedStrategy(key.strategy))
  }

  /** The key loop: keys in order, stopping at the first error or the first
      key that does not hold. */
  function LeafResult(datum: Box, keys: seq<ScanKey>): Result<bool, SpgError>
    decreases |keys|
  {
    if keys == [] then Ok(true)
    else
      match KeyHolds(datum, keys[0])
      case Err(e) => Err(e)
      case Ok(b) => if !b then Ok(false) else LeafResult(datum, keys[1..])
  }

  /** Test the leaf `leafDatum`, whose extracted box is `datumBox`. */
  method LeafConsistent<D>(leafDatum: D, datumBox: Box, keys: seq<ScanKey>)
    returns (out: Result<LeafOut<D>, SpgError>)
    ensures out.Ok? <==> LeafResult(datumBox, keys).Ok?
    ensures out.Ok? ==> out.value == LeafOut(LeafResult(datumBox, keys).value, false, leafDatum)
    ensures out.Err? ==> out.error == LeafResult(datumBox, keys).error
  {
    var res := true;
    var i := 0;
    while i < |keys|
      invariant 0 <= i <= |keys|
      invariant res
      invariant LeafResult(datumBox, keys) == LeafResult(datumBox, keys[i..])
    {
      var d, query := Some(datumBox), Some(keys[i].query);
      var strategy := keys[i].strategy;
      if strategy == RTLeft {
        res := Left(d, query);
      } else if strategy == RTRight {
        res := Right(d, query);
      } else if strategy == RTSame {
        res := Equals(d, query);
      } else if strategy == RTBelow {
        res := Below(d, query);
      } else if strategy == RTAbove {
        res := Above(d, query);
      } else if strategy == RTContainedBy {
        res := Contains(query, d);
      } else {
        return Err(UnrecognizedStrategy(strategy));
      }
      assert keys[i..][0] == keys[i] && keys[i..][1..] == keys[i + 1..];
      if !res {
        break;
      }
      i := i + 1;
    }
    out := Ok(LeafOut(res, false, leafDatum));
  }

  /** When every key's strategy is one the leaf test handles, the result is
      the plain conjunction of the keys. */
  lemma {:induction false} LeafIsConjunction(datum: Box, keys: seq<ScanKey>)
    requires forall k :: k in keys ==> LeafSupported(k.strategy)
    ensures LeafResult(datum, keys) == Ok(forall k :: k in keys ==> KeyHolds(datum, k) == Ok(true))
    decreases |keys|
  {
    if keys != [] {
      assert forall k :: k in keys[1..] ==> k in keys;
      LeafIsConjunction(datum, keys[1..]);
      assert forall k :: k in keys <==> k == keys[0] || k in keys[1..];
    }
  }

  /** With supported strategies only, the order of the keys does not change
      the answer. */
  lemma KeyOrderIrrelevant(datum: Box, keys: seq<ScanKey>, reordered: seq<ScanKey>)
    requires multiset(keys) == multiset(reordered)
    requires forall k :: k in keys ==> LeafSupported(k.strategy)
    ensures LeafResult(datum, keys) == LeafResult(datum, reordered)
  {
    assert forall k :: k in keys <==> k in reordered by {
      forall k ensures k in keys <==> k in reordered {
        assert k in keys <==> k in multiset(keys);
        assert k in reordered <==> k in multiset(reordered);
      }
    }
    LeafIsConjunction(datum, keys);
    LeafIsConjunction(datum, reordered);
  }

  /** The leaf test fails with an error exactly when it reaches a key with an
      unsupported strategy, that is, when every key before it holds. */
  lemma {:induction false} LeafFailsOnUnsupported(datum: Box, keys: seq<ScanKey>)
    ensures LeafResult(datum, keys).Err? <==>
      exists j :: 0 <= j < |keys| && !LeafSupported(keys[j].strategy) &&
        forall i :: 0 <= i < j ==> KeyHolds(datum, keys[i]) == Ok(true)
    decreases |keys|
  {
    if keys != [] {
      var tail := keys[1..];
      LeafFailsOnUnsupported(datum, tail);
      var first := KeyHolds(datum, keys[0]);
      if first == Ok(true) {
        if LeafResult(datum, keys).Err? {
          var j :| 0 <= j < |tail| && !LeafSupported(tail[j].strategy) &&
            forall i :: 0 <= i < j ==> KeyHolds(datum, tail[i]) == Ok(true);
          assert keys[j + 1] == tail[j];
          assert forall i :: 0 <= i < j + 1 ==> KeyHolds(datum, keys[i]) == Ok(true) by {
            forall i | 0 <= i < j + 1 ensures KeyHolds(datum, keys[i]) == Ok(true) {
              if i > 0 { assert keys[i] == tail[i - 1]; }
            }
          }
        } else {
          forall j | 0 <= j < |keys| && !LeafSupported(keys[j].strategy)
            ensures !forall i :: 0 <= i < j ==> KeyHolds(datum, keys[i]) == Ok(true)
          {
            assert j != 0;
            assert keys[j] == tail[j - 1];
            var i :| 0 <= i < j - 1 && KeyHolds(datum, tail[i]) != Ok(true);
            assert keys[i + 1] == tail[i];
          }
        }
      } else if first.Err? {
        assert !LeafSupported(keys[0].strategy);
      } else {
        forall j | 0 <= j < |keys| && !LeafSupported(keys[j].strategy)
          ensures !forall i :: 0 <= i < j ==> KeyHolds(datum, keys[i]) == Ok(true)
        {
          assert j != 0;
        }
      }
    }
  }

  /** The worked example: a leaf left of the first query box but not above the
      second does not match, in either key order. */
  lemma LeftButNotAboveExample()
    ensures var d := Box(0.0, 1.0, 0.0, 1.0);
      var left := ScanKey(RTLeft, Box(2.0, 3.0, 0.0, 1.0));
      var above := ScanKey(RTAbove, Box(5.0, 6.0, 5.0, 6.0));
      && KeyHolds(d, left) == Ok(true)
      && KeyHolds(d, above) == Ok(false)
      && LeafResult(d, [left, above]) == Ok(false)
      && LeafResult(d, [above, left]) == Ok(false)
  {
    var d := Box(0.0, 1.0, 0.0, 1.0);
    var left := ScanKey(RTLeft, Box(2.0, 3.0, 0.0, 1.0));
    var above := ScanKey(RTAbove, Box(5.0, 6.0, 5.0, 6.0));
    assert [left, above][1..] == [above];
  }
}
