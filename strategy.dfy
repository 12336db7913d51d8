/**
  Scan keys and strategy numbers shared by the two consistent functions.

  The numbers are PostgreSQL's R-tree strategy numbers (access/skey.h, which
  is not part of this model); only the six below are ever looked at.
*/
module Strategies {
  import opened BoxAlgebra

  const RTLeft: int := 1
  const RTRight: int := 5
  const RTSame: int := 6
  const RTContainedBy: int := 8
  const RTBelow: int := 10
  const RTAbove: int := 11

  /** One search condition: a strategy number and the query's bounding box
      (the box already extracted from the key's argument datum). */
  datatype ScanKey = ScanKey(strategy: int, query: Box)

  /** The only error the strategy reports itself: `elog(ERROR)` on a
      strategy number it does not handle. */
  datatype SpgError = UnrecognizedStrategy(strategy: int)

  /** Strategies the inner-node pruning handles (Same is not among them). */
  predicate InnerSupported(strategy: int) {
    strategy in {RTLeft, RTRight, RTBelow, RTAbove, RTContainedBy}
  }

  /** Strategies the leaf test handles. */
  predicate LeafSupported(strategy: int) {
    InnerSupported(strategy) || strategy == RTSame
  }
}
