/** await_approval: waiting for the card holder's answer to a claimed payment. Times are microseconds. */
module Approval {
  import opened Sums
  import opened Tables

  const POLL_INTERVAL := 2 * SECOND

  datatype Reason = NotRequested | Rejected | TimedOut

  datatype Outcome = Pay | Release(reason: Reason)

  function CeilDiv(a: int, b: int): int
    requires b > 0
  {
    -((-a) / b)
  }

  /** What a poll saw: a read error, or the row as it was then. */
  function Seen(row: Option<Payment>): Option<bool> {
    if row.None? then None else ReadAnswer(row.value)
  }

  /**
   A wait that was requested: every poll is made before the deadline, only the last can see an answer, and the outcome
   is to pay when that is a Y, a rejection when it is anything else, and a time-out when the clock got there first.
   */
  predicate Awaited(deadline: int, clock: nat -> int, row: nat -> Option<Payment>, outcome: Outcome, polls: nat) {
    && (forall k: nat | k < polls :: clock(k) < deadline)
    && (forall k: nat | k + 1 < polls :: Seen(row(k)).None?)
    && (outcome.Pay? <==> polls > 0 && Seen(row(polls - 1)) == Some(true))
    && (outcome == Release(Rejected) <==> polls > 0 && Seen(row(polls - 1)) == Some(false))
    && (outcome == Release(TimedOut) <==> clock(polls) >= deadline && (polls > 0 ==> Seen(row(polls - 1)).None?))
    && (outcome.Pay? || outcome == Release(Rejected) || outcome == Release(TimedOut))
  }

  /**
   `clock(k)` is the time at the k-th look at the clock, two seconds of sleep apart, and `row(k)` what the poll after
   it reads. The outcome is a payment or a release, never both, and is decided by the first answer recorded at a poll.
   */
  method AwaitApproval(requested: bool, start: int, period: int, clock: nat -> int, row: nat -> Option<Payment>)
    returns (outcome: Outcome, polls: nat)
    requires clock(0) >= start && forall k: nat :: clock(k + 1) >= clock(k) + POLL_INTERVAL
    ensures !requested ==> outcome == Release(NotRequested) && polls == 0
    ensures requested ==> Awaited(start + period, clock, row, outcome, polls)
    ensures outcome.Pay? <==>
              && requested && polls > 0 && row(polls - 1).Some?
              && row(polls - 1).value.answerTime.Some? && row(polls - 1).value.answer == "Y"
    ensures outcome == Release(Rejected) <==>
              && requested && polls > 0 && row(polls - 1).Some?
              && row(polls - 1).value.answerTime.Some? && row(polls - 1).value.answer != "Y"
    ensures forall k: nat | k + 1 < polls :: row(k).None? || row(k).value.answerTime.None?
    ensures polls <= if period <= 0 then 0 else CeilDiv(period, POLL_INTERVAL)
    ensures polls > 0 ==> (polls - 1) * 2_000_000 < period
  {
    if !requested {
      return Release(NotRequested), 0;
    }
    var deadline := start + period;
    polls := 0;
    while clock(polls) < deadline
      invariant forall k: nat | k < polls :: clock(k) < deadline && Seen(row(k)).None?
      invariant clock(polls) >= start + polls * POLL_INTERVAL
      invariant polls > 0 ==> (polls - 1) * POLL_INTERVAL < period
      decreases deadline - clock(polls)
    {
      var now := clock(polls);
      var saw := row(polls);
      polls := polls + 1;
      assert clock(polls) >= now + POLL_INTERVAL;
      assert (polls - 1) * POLL_INTERVAL < period;
      PollsFit(polls, period);
      if saw.None? || ReadAnswer(saw.value).None? {
        continue;
      }
      if ReadAnswer(saw.value).value {
        return Pay, polls;
      }
      return Release(Rejected), polls;
    }
    if polls > 0 { PollsFit(polls, period); }
    outcome := Release(TimedOut);
  }

  lemma PollsFit(polls: nat, period: int)
    requires polls > 0 && (polls - 1) * POLL_INTERVAL < period
    ensures period > 0 && polls <= CeilDiv(period, POLL_INTERVAL)
  {
  }
}
