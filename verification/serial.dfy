/**
 Runs whose callbacks do not overlap on one k1: every process agrees with the row it works on, no two work on one row,
 and so every event keeps the exact rule.
 */
module Serial {
  import opened Sums
  import opened Tables
  import opened System
  import opened Spent
  import opened Hands
  import opened Amounts

  /** A callback's row is unpaid, and records the callback's invoice once it has been recorded. */
  predicate FoundOk(db: Db, p: Proc) {
    PreClaim(p) ==>
      && p.pid < |db.payments| && !db.payments[p.pid].paid
      && (p.CbRecorded? || p.CbReady? || p.CbRouted? ==> db.payments[p.pid].amount == Some(p.msats))
  }

  predicate CallbacksOk(s: Sys) {
    && (forall i | 0 <= i < |s.procs| :: FoundOk(s.db, s.procs[i]))
    && (forall i, j | 0 <= i < j < |s.procs| && PreClaim(s.procs[i]) && PreClaim(s.procs[j]) ::
          s.procs[i].pid != s.procs[j].pid)
  }

  /** No two processes work on one row. */
  predicate Apart(s: Sys) {
    forall i, j | 0 <= i < j < |s.procs| && Owns(s.procs[i]) && Owns(s.procs[j]) :: s.procs[i].pid != s.procs[j].pid
  }

  predicate SerialOk(s: Sys) {
    KnownOk(s) && CallbacksOk(s)
  }

  lemma SerialApart(s: Sys)
    requires TicketsOk(s) && HandsOk(s) && CallbacksOk(s)
    ensures Apart(s)
  {
    forall i | 0 <= i < |s.procs| ensures HandOk(s.db, s.procs[i]) && FoundOk(s.db, s.procs[i]) {}
  }

  /** From every state of such a run, every event keeps the exact rule. */
  lemma SerialIsExact(s: Sys, e: Event)
    requires RowsOk(s) && CallbacksOk(s)
    ensures Exact(s, e)
  {
    if e.Move? && e.i < |s.procs| {
      assert FoundOk(s.db, s.procs[e.i]);
      if PreClaim(s.procs[e.i]) { assert RowOk(s, s.procs[e.i].pid); }
    }
  }

  lemma OwnRow(s: Sys, i: nat, x: Input)
    requires i < |s.procs| && FoundOk(s.db, s.procs[i]) && PreClaim(s.procs[i])
    ensures FoundOk(StepCallback(s, i, x).db, StepCallback(s, i, x).procs[i])
  {
  }

  /** What callback j found stays so while process i moves. */
  lemma OtherRow(s: Sys, t: Sys, i: nat, j: nat)
    requires HandsOk(s) && CallbacksOk(s) && i < |s.procs| && j < |s.procs| && j != i && Moved(s, t, i)
    ensures FoundOk(t.db, s.procs[j])
  {
    assert FoundOk(s.db, s.procs[j]) && HandOk(s.db, s.procs[i]);
  }

  lemma StepCallbacks(s: Sys, i: nat, x: Input)
    requires HandsOk(s) && CallbacksOk(s) && i < |s.procs|
    ensures CallbacksOk(Step(s, i, x))
  {
    var t := Step(s, i, x);
    StepMoved(s, i, x);
    assert FoundOk(s.db, s.procs[i]);
    if PreClaim(s.procs[i]) { OwnRow(s, i, x); } else { NotACallback(s, i, x); }
    forall j | 0 <= j < |t.procs| ensures FoundOk(t.db, t.procs[j]) {
      if j != i { OtherRow(s, t, i, j); }
    }
  }

  lemma NotACallback(s: Sys, i: nat, x: Input)
    requires i < |s.procs| && !PreClaim(s.procs[i])
    ensures !PreClaim(Step(s, i, x).procs[i])
  {
    StepMoved(s, i, x);
  }

  lemma PresentCallbacks(s: Sys, e: Event)
    requires CallbacksOk(s) && e.Present? && NoOverlap(s, e)
    ensures CallbacksOk(Next(s, e))
  {
    var t := Next(s, e);
    forall j | 0 <= j < |s.procs| ensures FoundOk(s.db, s.procs[j]) {}
  }

  /** A request that presents nothing starts no callback. */
  lemma RequestCallbacks(s: Sys, e: Event)
    requires CallbacksOk(s) && !e.Move? && !e.Present?
    ensures CallbacksOk(Next(s, e))
  {
    var t := Next(s, e);
    RequestElsewhere(s, e);
    RequestProcs(s, e);
    forall j | 0 <= j < |t.procs| ensures FoundOk(t.db, t.procs[j]) {
      if j < |s.procs| { assert FoundOk(s.db, s.procs[j]); }
    }
  }

  lemma RequestProcs(s: Sys, e: Event)
    requires !e.Move? && !e.Present?
    ensures var t := Next(s, e);
            && |s.procs| <= |t.procs|
            && (forall j | 0 <= j < |s.procs| :: t.procs[j] == s.procs[j] || t.procs[j].Done?)
            && (forall j | |s.procs| <= j < |t.procs| :: !PreClaim(t.procs[j]))
  {
  }

  lemma NextCallbacks(s: Sys, e: Event)
    requires HandsOk(s) && CallbacksOk(s) && NoOverlap(s, e)
    ensures CallbacksOk(Next(s, e))
  {
    if e.Present? {
      PresentCallbacks(s, e);
    } else if !e.Move? {
      RequestCallbacks(s, e);
    } else if e.i < |s.procs| {
      StepCallbacks(s, e.i, e.x);
    }
  }

  lemma NextKeepsSerial(s: Sys, e: Event)
    requires SerialOk(s) && NoOverlap(s, e)
    ensures SerialOk(Next(s, e))
  {
    NextKnown(s, e);
    NextCallbacks(s, e);
  }

  lemma {:induction false} RunKeepsSerial(s: Sys, es: seq<Event>)
    requires SerialOk(s) && Respects(s, es, NoOverlap)
    ensures SerialOk(Run(s, es)) && Apart(Run(s, es))
    ensures Respects(s, es, Exact)
    decreases |es|
  {
    SerialApart(s);
    if es != [] {
      SerialIsExact(s, es[0]);
      NextKeepsSerial(s, es[0]);
      RunKeepsSerial(Next(s, es[0]), es[1..]);
    }
  }

  lemma StartSerial()
    ensures SerialOk(INIT)
  {
    StartKnown();
  }

  /** Whatever holds of every run under the exact rule holds of every run without overlapping callbacks. */
  lemma NoOverlapIsExact(es: seq<Event>)
    requires Respects(INIT, es, NoOverlap)
    ensures Respects(INIT, es, Exact)
  {
    StartSerial();
    RunKeepsSerial(INIT, es);
  }

  /** And so do a card's own rules. */
  lemma NoOverlapRules(es: seq<Event>, card: nat)
    requires Respects(INIT, es, NoOverlap)
    ensures Respects(INIT, es, ExactFor(card)) && Respects(INIT, es, SoundFor(card))
  {
    NoOverlapIsExact(es);
    ExactRunIsExactFor(INIT, es, card);
    ExactRunIsSound(INIT, es, card);
  }
}
