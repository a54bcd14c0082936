/**
 * The snapshot freshness window both signing endpoints enforce (pages/api/sign/proposal.ts
 * and pages/api/sign-proposal.ts): the claimed height may be at most five blocks away from
 * the chain's current height, in either direction.
 */
module Freshness {

  const TOLERANCE := 5

  /** A snapshot is fresh unless the current height is beyond it plus or minus the tolerance. */
  function Fresh(snapshot: int, current: int): (r: bool)
    ensures r <==> snapshot - TOLERANCE <= current <= snapshot + TOLERANCE
  {
    !(current > snapshot + TOLERANCE || current < snapshot - TOLERANCE)
  }

  /** The window is the distance between the two heights, so it is symmetric. */
  lemma FreshIsDistance(snapshot: int, current: int)
    ensures Fresh(snapshot, current) <==>
      (if current >= snapshot then current - snapshot else snapshot - current) <= TOLERANCE
    ensures Fresh(snapshot, current) == Fresh(current, snapshot)
  {
  }

  /** The window is inclusive at both ends. */
  lemma FreshBoundaries()
    ensures Fresh(100, 95) && Fresh(100, 105)
    ensures !Fresh(100, 94) && !Fresh(100, 106)
    ensures Fresh(95, 100) && Fresh(105, 100) && !Fresh(94, 100) && !Fresh(93, 100) && !Fresh(106, 100)
  {
  }
}
