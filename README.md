# SP-GiST quadtree strategy for 2-D boxes, modelled in Dafny

This project models `postgis/spgist.c`. That file is a quadtree strategy that PostgreSQL's
space-partitioned GiST (SP-GiST) engine calls to index geometries by their 2-D bounding
boxes (`BOX2DF`). The model covers all of the file's decision logic:

- the `box2df_*` predicate library over nullable boxes (`box2df.dfy`, module `BoxAlgebra`);
- `getQuadrant`, which picks one of four quadrants around a centroid point (`quadrant.dfy`,
  module `Quadrants`);
- the insertion router `spgist_geom_choose` (`choose.dfy`, module `Router`);
- the node splitter `spgist_geom_picksplit` (`picksplit.dfy`, module `Splitter`). It averages
  the entries' points into a degenerate centroid box and sends each entry to
  `getQuadrant - 1`;
- the inner-node pruning `spgist_geom_inner_consistent` (`inner_consistent.dfy`, module
  `InnerPruner`). It keeps a bitmask of quadrants 1..4 (a `bv8`), ANDs it key by key, stops
  once it is empty, and reports the surviving children in ascending order;
- the leaf test `spgist_geom_leaf_consistent` (`leaf_consistent.dfy`, module `LeafTester`).
  It is a short-circuit AND of the per-key predicates against the leaf's own box;
- how the pruning relates to the leaf test (`pruning.dfy`, module `PruningSoundness`).

Coordinates are `real`. A NULL box pointer is `Option<Box>.None`. `elog(ERROR)` on an
unrecognised strategy number is `Err(UnrecognizedStrategy(n))`. The unreachable `elog` in
`getQuadrant` is an `assert false` branch, so the verifier proves it cannot be reached. The
strategy numbers are PostgreSQL's R-tree numbers (Left 1, Right 5, Same 6, ContainedBy 8,
Below 10, Above 11), taken from `access/skey.h`, which is not part of this model. The
operations take the already extracted box of each datum as a parameter, or a function
`boxOf`. PickSplit also takes a function `pointOf` that reads an entry's point.

The loops of the source are methods with loop invariants, proved against specification
functions:

- PickSplit's summing and slot-filling loops;
- InnerConsistent's key loop with its early `break` (`ScanKeys`, with the per-key `switch` in
  `NarrowByKey`) and its output loop (`ReportQuadrants`);
- LeafConsistent's key loop with its `break`.

The specification functions are `MeanCentroid`, `FinalMask`/`PrunedSlots` and `LeafResult`.

## Model

| member | source | states |
|---|---|---|
| `BoxAlgebra.Contains` | postgis/spgist.c:39-50 | false when either box is absent |
| `BoxAlgebra.OverRight` | postgis/spgist.c:52-58 | false when either box is absent |
| `BoxAlgebra.OverBelow` | postgis/spgist.c:60-66 | false when either box is absent |
| `BoxAlgebra.OverLeft` | postgis/spgist.c:68-74 | false when either box is absent |
| `BoxAlgebra.OverAbove` | postgis/spgist.c:76-82 | false when either box is absent |
| `BoxAlgebra.Equals` | postgis/spgist.c:84-100 | true exactly when the two nullable boxes are the same value: two absent boxes are equal, and an absent box equals no present one |
| `BoxAlgebra.Below` | postgis/spgist.c:111-117 | false when either box is absent; `Below(a, b)` iff `Above(b, a)` |
| `BoxAlgebra.Above` | postgis/spgist.c:119-125 | false when either box is absent |
| `BoxAlgebra.Left` | postgis/spgist.c:127-133 | false when either box is absent; `Left(a, b)` iff `Right(b, a)` |
| `BoxAlgebra.Right` | postgis/spgist.c:135-141 | false when either box is absent |
| `BoxAlgebra.AbsentBoxRelatesToNothing` | postgis/spgist.c:39-141 | with an absent box, all nine directional, containment and "over" predicates are false, and `Equals` holds only when both are absent |
| `BoxAlgebra.EqualsIsEquivalence` | postgis/spgist.c:84-100 | `Equals` is reflexive and symmetric |
| `BoxAlgebra.ContainsReflexive` | postgis/spgist.c:39-50 | every present box contains itself |
| `BoxAlgebra.ContainsTransitive` | postgis/spgist.c:39-50 | containment is transitive |
| `BoxAlgebra.ContainsIsFourOvers` | postgis/spgist.c:39-82 | containment is the conjunction of the four one-sided "over" tests with the inner box as subject |
| `BoxAlgebra.StrictImpliesOver` | postgis/spgist.c:52-141 | each strict directional test implies its "over" counterpart when the reference box is well formed |
| `Quadrants.GetQuadrant` | postgis/spgist.c:309-329 | always 1..4, so the error branch is unreachable; the result is 1 or 2 exactly when `tst.xmax >= centroid.xmin` |
| `Quadrants.QuadrantIsLowestPassing` | postgis/spgist.c:297-326 | tie-break rule: the chosen quadrant passes its test and no lower-numbered quadrant's test passes |
| `Quadrants.QuadrantRegions` | postgis/spgist.c:309-326 | each quadrant is one of four disjoint regions that together cover all boxes |
| `Quadrants.QuadrantReadsFiveCoordinates` | postgis/spgist.c:312-325 | the result depends only on the centroid's xmin and ymin and the box's xmax, ymax and ymin |
| `Quadrants.CentroidItselfIsQuadrantOne` | postgis/spgist.c:306-316 | a box equal to the (degenerate) centroid gets quadrant 1 |
| `Router.Choose` | postgis/spgist.c:205-238 | always match-node, `levelAdd = 0`, value passed on unchanged; node left to the host exactly when all-the-same, else child `getQuadrant - 1` in 0..3 |
| `Splitter.MeanCentroid` | postgis/spgist.c:249-271 | the centroid is a degenerate box |
| `Splitter.PickSplit` | postgis/spgist.c:240-294 | prefix set, 4 nodes, no labels; the centroid is the mean of the entries' points; entry i goes to child `getQuadrant(centroid, box_i) - 1` in 0..3; the datums pass through unchanged |
| `Splitter.CentroidWithinPoints` | postgis/spgist.c:249-271 | the mean centroid lies inside any rectangle holding all the entries' points |
| `Splitter.SamePointsGiveThatCentroid` | postgis/spgist.c:249-271 | entries all at one point give that point as centroid |
| `Splitter.FourCornersSplitExample` | postgis/spgist.c:249-291 | points (1,1), (1,-1), (-1,-1), (-1,1) give centroid (0,0) and slots 0, 1, 2, 3 |
| `InnerPruner.CornerMask` | postgis/spgist.c:394-420 | the corner quadrants form a non-empty subset of quadrants 1..4 |
| `InnerPruner.MaskStep` | postgis/spgist.c:365-427 | a key fails exactly when its strategy is not Left, Right, Below, Above or ContainedBy (so Same fails); otherwise the mask never gains a quadrant |
| `InnerPruner.NarrowingConditions` | postgis/spgist.c:367-421 | each strategy narrows only when its own test holds, and what it keeps: Left at most {3,4}, Right {1,2}, Below {2,3}, Above {1,4}, ContainedBy the corner quadrants, and nothing is lost when the query box contains the centroid |
| `InnerPruner.FinalMaskOnlyShrinks` | postgis/spgist.c:356-431 | the whole key loop never adds a quadrant |
| `InnerPruner.FinalMaskFailsOnUnsupported` | postgis/spgist.c:359-431 | the key loop fails exactly when it meets an unsupported strategy before the mask has emptied |
| `InnerPruner.SlotsAreSurvivingQuadrants` | postgis/spgist.c:433-440 | the reported children are strictly ascending, within 0..3, at most 4, and child j is reported iff quadrant j+1 survives |
| `InnerPruner.ScanKeys` | postgis/spgist.c:356-431 | the loop with `break` computes the specified final mask or error |
| `InnerPruner.NarrowByKey` | postgis/spgist.c:365-427 | the `switch` on one key computes `MaskStep` as written |
| `InnerPruner.CornerQuadrants` | postgis/spgist.c:394-418 | ORs the quadrant bits of the four corners into `CornerMask` |
| `InnerPruner.ReportQuadrants` | postgis/spgist.c:433-440 | the output loop lists exactly the surviving quadrants minus one, ascending, at most four |
| `InnerPruner.InnerConsistent` | postgis/spgist.c:331-443 | all-the-same: exactly `[0, ..., nNodes-1]` whatever the keys; otherwise the pruned slots (ascending, within 0..3) or the strategy error |
| `InnerPruner.AllQuadrantsSlots` | postgis/spgist.c:357 | the initial mask reports children 0, 1, 2, 3 |
| `InnerPruner.NoKeysVisitsAllChildren` | postgis/spgist.c:357-440 | with no scan keys all four children are visited |
| `InnerPruner.ContainedByExamples` | postgis/spgist.c:386-421 | centroid (0,0): query [(0,0),(5,5)] keeps all four children, query [(1,1),(5,5)] keeps only child 0 |
| `LeafTester.KeyHolds` | postgis/spgist.c:473-497 | a key fails exactly when its strategy is not Left, Right, Same, Below, Above or ContainedBy |
| `LeafTester.LeafConsistent` | postgis/spgist.c:446-504 | the loop with `break` returns the specified result; `recheck` is false and the leaf value is the leaf datum |
| `LeafTester.LeafIsConjunction` | postgis/spgist.c:464-501 | with supported strategies the answer is the AND of all keys (true for no keys) |
| `LeafTester.KeyOrderIrrelevant` | postgis/spgist.c:464-501 | with supported strategies, reordering the keys does not change the answer |
| `LeafTester.LeafFailsOnUnsupported` | postgis/spgist.c:466-501 | the leaf test errors exactly when it reaches an unsupported strategy with every earlier key holding |
| `LeafTester.LeftButNotAboveExample` | postgis/spgist.c:464-501 | leaf [(0,0),(1,1)], Left of [(2,0),(3,1)] holds and Above [(5,5),(6,6)] fails, so the leaf does not match, in either key order |
| `PruningSoundness.CornersCoverContainedBox` | postgis/spgist.c:392-420 | any well-formed box the query contains has its quadrant among the corner quadrants |
| `PruningSoundness.MaskStepKeepsMatch` | postgis/spgist.c:365-427 | one key never removes the quadrant of an entry that passes that key's leaf test (Left, Right, ContainedBy as written; all under the intended reading) |
| `PruningSoundness.FinalMaskKeepsMatch` | postgis/spgist.c:356-431 | the key loop keeps the quadrant of an entry that passes the leaf test |
| `PruningSoundness.MatchingEntryChildIsVisited` | postgis/spgist.c:331-443 | the child Choose/PickSplit puts a matching entry in is among the children visited |
| `PruningSoundness.BelowAsWrittenSkipsMatch` | postgis/spgist.c:378-381 | a Below query skips child 0 although an entry there matches; the intended reading keeps it |
| `PruningSoundness.AboveAsWrittenSkipsMatch` | postgis/spgist.c:382-385 | an Above query skips child 1 although an entry there matches; the intended reading keeps it |

## Left out

- `gserialized_datum_get_box2df_p` (postgis/spgist.c:144-187) is not part of this model.
  It detoasts the datum, reads its header flags and deserialises the geometry through
  foreign calls. The operations take the extracted box as a parameter instead. Every caller
  ignores its failure return (postgis/spgist.c:215, 285, 363, 456, 471) and then uses
  whatever the local box held. An arbitrary box parameter covers that case.
- `box2df_from_gbox_p`, `next_float_down` and `next_float_up` (postgis/spgist.c:102-109) are
  not modelled. They are single-precision outward rounding and are only used by the
  extraction above.
- Floating point: coordinates are exact reals, so NaN, the float/double conversions in
  `getQuadrant`, and the rounding of the double mean stored into float fields in PickSplit
  (postgis/spgist.c:263-271) are not modelled.
- `lwgeom_from_gserialized`, `lwpoint_get_x` and `lwpoint_get_y` (postgis/spgist.c:255-260)
  are foreign calls. They are the parameter `pointOf`.
- `spgist_geom_config` (postgis/spgist.c:191-203) only registers constants with the host
  (prefix type OID, void label type, `canReturnData`, `longValuesOK`). It has no behaviour
  to verify.
- `palloc`, the `PG_*` calling macros and debug logging are not modelled. The arrays the
  source pallocs are local arrays whose contents are returned as sequences.
- The host SP-GiST engine (page layout, tree descent, node storage) is not modelled.
  `MatchingEntryChildIsVisited` therefore states the descent property for one inner tuple,
  not for a whole tree.
- Router.Choose: in the all-the-same case the source leaves `nodeN` for the host to set.
  The model reports this as `None` rather than a number.
- Splitter.PickSplit requires at least one entry. With none, the source divides by zero;
  the host never splits an empty page.
- InnerPruner.InnerConsistent requires `nNodes == 4` outside all-the-same mode, as the
  source's `Assert` does (postgis/spgist.c:354). The prefix is always present
  (postgis/spgist.c:350).

## Findings

| source | as written | input that shows it | evidently intended | confidence | as-written member | corrected member |
|---|---|---|---|---|---|---|
| postgis/spgist.c:378-385 | Below keeps quadrants {2,3} when `box2df_below(centroid, query)` holds, and Above keeps {1,4} when `box2df_above(centroid, query)` holds. The centroid is the subject, whereas the leaf test (postgis/spgist.c:484-489) has the entry below or above the query | centroid (0,0), Below query [(0,10),(1,11)], entry [(1,1),(2,2)]: the entry is below the query and lies in quadrant 1, but only children 1 and 2 are visited | test the query box as subject, as Left and Right do: `box2df_below(query, centroid)` keeps {2,3} and `box2df_above(query, centroid)` keeps {1,4}; then no matching entry's child is skipped | high, not executed | `PruningSoundness.BelowAsWrittenSkipsMatch` | `PruningSoundness.MatchingEntryChildIsVisited` |

The corrected step is `InnerPruner.MaskStep` with reading `Intended`. It differs from the
as-written reading only for Below and Above. `MatchingEntryChildIsVisited` proves that this
step never skips a matching entry, for every supported strategy. The as-written reading
keeps that guarantee when no key is Below or Above. `InnerPruner.InnerConsistent` itself
keeps the code as written, because it models the source's behaviour.
`PruningSoundness.AboveAsWrittenSkipsMatch` gives the mirror-image input for Above.
