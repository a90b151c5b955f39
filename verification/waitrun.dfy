/** await_approval is the polling process of a run, whatever the rest of the service does between its polls. */
module WaitRuns {
  import opened Sums
  import opened Tables
  import opened System
  import opened Approval

  /** Events of others: none moves or stops process i. */
  predicate Leaves(es: seq<Event>, i: nat) {
    forall e | e in es :: (e.Move? || e.Stop?) ==> e.i != i
  }

  predicate Left(s: Sys, t: Sys, i: nat)
    requires i < |s.procs|
  {
    i < |t.procs| && t.procs[i] == s.procs[i]
  }

  lemma StepLeaves(s: Sys, j: nat, x: Input, i: nat)
    requires i < |s.procs| && j < |s.procs| && j != i
    ensures Left(s, Step(s, j, x), i)
  {
    assert Left(s, StepTap(s, j, x), i);
    assert Left(s, StepWait(s, j, x), i);
    assert Left(s, StepNode(s, j, x), i);
    CallbackLeaves(s, j, x, i);
  }

  lemma CallbackLeaves(s: Sys, j: nat, x: Input, i: nat)
    requires i < |s.procs| && j < |s.procs| && j != i
    ensures Left(s, StepCallback(s, j, x), i)
  {
  }

  lemma NextLeaves(s: Sys, e: Event, i: nat)
    requires i < |s.procs| && ((e.Move? || e.Stop?) ==> e.i != i)
    ensures i < |Next(s, e).procs| && Next(s, e).procs[i] == s.procs[i]
  {
    if e.Move? && e.i < |s.procs| { StepLeaves(s, e.i, e.x, i); }
  }

  lemma {:induction false} RunLeaves(s: Sys, es: seq<Event>, i: nat)
    requires i < |s.procs| && Leaves(es, i)
    ensures i < |Run(s, es).procs| && Run(s, es).procs[i] == s.procs[i]
    decreases |es|
  {
    if es != [] {
      assert es[0] in es;
      NextLeaves(s, es[0], i);
      RunLeaves(Next(s, es[0]), es[1..], i);
    }
  }

  /**
   `ts(k)` is the state at the k-th look at the clock: after the earlier polls, each followed by what others did.
   */
  ghost predicate Polls(s: Sys, i: nat, others: nat -> seq<Event>, x: nat -> Input, ts: nat -> Sys) {
    && ts(0) == Run(s, others(0))
    && (forall j: nat, k: nat | k == j + 1 :: ts(k) == Run(Next(ts(j), Move(i, x(j))), others(k)))
    && (forall j: nat :: Leaves(others(j), i))
  }

  /** The wait is requested in two steps, a token and a notification; if either fails it is given up without a poll. */
  lemma RequestedIsARun(s: Sys, i: nat, pid: nat, msats: int, x: Input, y: Input)
    requires i < |s.procs| && s.procs[i] == WaitAsked(pid, msats) && pid < |s.db.payments|
    ensures var t := Next(s, Move(i, x));
            var u := Next(t, Move(i, y));
            && |t.procs| == |u.procs| == |s.procs|
            && (!x.ok ==> t.procs[i] == WaitDropped(pid, msats) && t.db == s.db)
            && (x.ok ==>
                  && t.db == s.db.(payments := s.db.payments[pid := s.db.payments[pid].(token := x.text)])
                  && t.log == s.log + [TokenMade(pid, x.text)] && u.db == t.db
                  && u.procs[i] == if y.ok then WaitPolling(pid, msats) else WaitDropped(pid, msats))
  {
  }

  /** What a poll reads: the row, or an error. */
  function Reads(t: Sys, pid: nat, x: Input): Option<Payment> {
    if x.ok && pid < |t.db.payments| then Some(t.db.payments[pid]) else None
  }

  /** One poll of the process is one turn of the loop. */
  lemma OnePoll(t: Sys, i: nat, pid: nat, msats: int, x: Input)
    requires i < |t.procs| && t.procs[i] == WaitPolling(pid, msats)
    ensures var u := Next(t, Move(i, x));
            && |u.procs| == |t.procs| && u.db == t.db
            && u.procs[i] == if x.expired then WaitDropped(pid, msats)
                             else if Seen(Reads(t, pid, x)).None? then t.procs[i]
                             else if Seen(Reads(t, pid, x)).value then Paying(pid, msats, Blank)
                             else WaitDropped(pid, msats)
  {
  }

  lemma PollsAgain(t: Sys, i: nat, pid: nat, msats: int, x: Input, es: seq<Event>)
    requires i < |t.procs| && t.procs[i] == WaitPolling(pid, msats) && Leaves(es, i)
    requires !x.expired && Seen(Reads(t, pid, x)).None?
    ensures var u := Run(Next(t, Move(i, x)), es); i < |u.procs| && u.procs[i] == WaitPolling(pid, msats)
  {
    OnePoll(t, i, pid, msats, x);
    RunLeaves(Next(t, Move(i, x)), es, i);
  }

  lemma {:induction false} StillPolling(s: Sys, i: nat, others: nat -> seq<Event>, x: nat -> Input, ts: nat -> Sys,
                                        pid: nat, msats: int, k: nat)
    requires i < |s.procs| && s.procs[i] == WaitPolling(pid, msats) && Polls(s, i, others, x, ts)
    requires forall j: nat | j < k :: !x(j).expired && Seen(Reads(ts(j), pid, x(j))).None?
    ensures i < |ts(k).procs| && ts(k).procs[i] == WaitPolling(pid, msats)
    decreases k
  {
    if k == 0 {
      RunLeaves(s, others(0), i);
    } else {
      StillPolling(s, i, others, x, ts, pid, msats, k - 1);
      PollsAgain(ts(k - 1), i, pid, msats, x(k - 1), others(k));
    }
  }

  /** Where process i stands after the poll made in state t. */
  predicate Goes(t: Sys, i: nat, x: Input, p: Proc) {
    i < |t.procs| && i < |Next(t, Move(i, x)).procs| && Next(t, Move(i, x)).procs[i] == p
  }

  /**
   Take any run in which the process polls when its clock says so. Given the rows it reads, the method says how the
   process ends: it starts the payment, or goes on to release it, at the same poll.
   */
  lemma AwaitIsARun(s: Sys, i: nat, others: nat -> seq<Event>, x: nat -> Input, ts: nat -> Sys, pid: nat, msats: int,
                    deadline: int, clock: nat -> int, row: nat -> Option<Payment>, outcome: Outcome, polls: nat)
    requires i < |s.procs| && s.procs[i] == WaitPolling(pid, msats) && Polls(s, i, others, x, ts)
    requires forall j: nat :: x(j).expired <==> clock(j) >= deadline
    requires forall j: nat :: row(j) == Reads(ts(j), pid, x(j))
    requires Awaited(deadline, clock, row, outcome, polls)
    ensures outcome.Pay? ==> Goes(ts(polls - 1), i, x(polls - 1), Paying(pid, msats, Blank))
    ensures outcome == Release(Rejected) ==> Goes(ts(polls - 1), i, x(polls - 1), WaitDropped(pid, msats))
    ensures outcome == Release(TimedOut) ==> Goes(ts(polls), i, x(polls), WaitDropped(pid, msats))
  {
    var k: nat := if outcome == Release(TimedOut) then polls else polls - 1;
    StillPolling(s, i, others, x, ts, pid, msats, k);
    OnePoll(ts(k), i, pid, msats, x(k));
  }
}
