/** The period a proposal is in, as its card shows it (src/components/proposal-card.tsx). */
module ProposalCard {
  import opened Wrappers

  /** The phases of a proposal. */
  datatype Period = Confirming | Pending | Voting | Ended {
    /** The position of a phase in the life of a confirmed proposal. */
    function Rank(): nat {
      match this
      case Confirming => 0
      case Pending => 0
      case Voting => 1
      case Ended => 2
    }
  }

  /**
   * The card's period at time `now` (milliseconds): confirming until both the pending and
   * the voting timestamps are known, then pending before the first, voting before the
   * second, and ended afterwards.
   */
  function PeriodOf(now: int, tsPending: Option<int>, tsVoting: Option<int>): (r: Period)
    ensures r == Confirming <==> tsPending.None? || tsVoting.None?
    ensures tsPending.Some? && tsVoting.Some? ==>
      && (r == Pending <==> now < tsPending.value)
      && (r == Voting <==> tsPending.value <= now < tsVoting.value)
      && (r == Ended <==> now >= tsPending.value && now >= tsVoting.value)
  {
    match (tsPending, tsVoting)
    case (Some(pending), Some(voting)) =>
      if now < pending then Pending
      else if now < voting then Voting
      else Ended
    case _ => Confirming
  }

  /** With voting starting no earlier than pending ends, time never moves a proposal backwards. */
  lemma PeriodMonotone(now1: int, now2: int, pending: int, voting: int)
    requires now1 <= now2
    requires pending <= voting
    ensures PeriodOf(now1, Some(pending), Some(voting)).Rank() <= PeriodOf(now2, Some(pending), Some(voting)).Rank()
  {
  }
}
