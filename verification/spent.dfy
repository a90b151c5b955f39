/**
 At most once, under every interleaving of database statements: nothing here restricts the events of a run.
 */
module Spent {
  import opened Sums
  import opened Tables
  import opened System

  /** An unpaid row is untouched, a spoiled one has failed, and a claimed one carries the time of the log's claim. */
  predicate RowsOk(s: Sys) {
    && |s.notes| == |s.db.payments|
    && (forall k | 0 <= k < |s.notes| :: RowOk(s, k))
  }

  predicate RowOk(s: Sys, k: nat)
    requires |s.notes| == |s.db.payments| && k < |s.notes|
  {
    var p, n := s.db.payments[k], s.notes[k];
    && (!p.paid ==> p.status == Blank && p.payTime.None? && n.claim.None?)
    && (p.paid && p.payTime.None? ==> p.status == Failed)
    && (p.payTime.Some? <==> n.claim.Some?)
    && (n.claim.Some? ==>
          && n.claim.value < |s.log|
          && var e := s.log[n.claim.value];
             e.Claimed? && e.pid == k && e.card == p.cardId && p.payTime == Some(e.at))
  }

  predicate Spends(e: Entry) {
    e.Claimed? || e.Spoiled?
  }

  /** A claim entry is the one its row's note points at; a spoiled row has none. */
  predicate LogOk(s: Sys) {
    && (forall j | 0 <= j < |s.log| && Spends(s.log[j]) ::
          && s.log[j].pid < |s.notes|
          && s.log[j].pid < |s.db.payments| && s.db.payments[s.log[j].pid].paid
          && s.notes[s.log[j].pid].claim == if s.log[j].Claimed? then Some(j) else None)
    && (forall i, j | 0 <= i < j < |s.log| && s.log[i].Spoiled? && s.log[j].Spoiled? :: s.log[i].pid != s.log[j].pid)
  }

  /** The claim on a row is in one pair of hands, and it is gone once a payment has been started. */
  predicate TicketsOk(s: Sys) {
    && (forall i | 0 <= i < |s.procs| && Ticket(s.procs[i]) ::
          s.procs[i].pid < |s.notes| && s.notes[s.procs[i].pid].claim.Some?)
    && (forall i, j | 0 <= i < j < |s.procs| && Ticket(s.procs[i]) && Ticket(s.procs[j]) ::
          s.procs[i].pid != s.procs[j].pid)
  }

  predicate Starts(e: Entry) {
    e.PayStarted? || e.WaitStarted?
  }

  predicate StartsOk(s: Sys) {
    && (forall j | 0 <= j < |s.log| && Starts(s.log[j]) ::
          s.log[j].pid < |s.notes| && s.notes[s.log[j].pid].claim.Some? && s.notes[s.log[j].pid].claim.value < j)
    && (forall i, j | 0 <= i < j < |s.log| && s.log[i].PayStarted? && Starts(s.log[j]) :: s.log[i].pid != s.log[j].pid)
    && (forall i, j | 0 <= i < j < |s.log| && s.log[i].WaitStarted? && s.log[j].WaitStarted? ::
          s.log[i].pid != s.log[j].pid)
    && (forall i, j | 0 <= i < |s.procs| && 0 <= j < |s.log| && MayPay(s.procs[i]) && s.log[j].PayStarted? ::
          s.procs[i].pid != s.log[j].pid)
    && (forall i, j | 0 <= i < |s.procs| && 0 <= j < |s.log| && s.procs[i].CbClaimed? && s.log[j].WaitStarted? ::
          s.procs[i].pid != s.log[j].pid)
  }

  predicate Once(s: Sys) {
    RowsOk(s) && LogOk(s) && TicketsOk(s) && StartsOk(s)
  }

  // ---------- steps that neither claim, spoil nor start anything ----------

  predicate SameClaim(p: Payment, q: Payment) {
    p.cardId == q.cardId && p.paid == q.paid && p.payTime == q.payTime && (p.payTime.Some? || p.status == q.status)
  }

  predicate QuietRows(s: Sys, t: Sys) {
    && |t.db.payments| == |s.db.payments|
    && t.notes == s.notes
    && forall k | 0 <= k < |s.db.payments| :: SameClaim(s.db.payments[k], t.db.payments[k])
  }

  predicate QuietLog(s: Sys, t: Sys) {
    && s.log <= t.log
    && forall j | |s.log| <= j < |t.log| :: !Spends(t.log[j]) && !Starts(t.log[j])
  }

  predicate Downgrade(p: Proc, q: Proc) {
    Ticket(q) ==> Ticket(p) && p.pid == q.pid && (MayPay(q) ==> MayPay(p)) && (q.CbClaimed? ==> p.CbClaimed?)
  }

  predicate QuietProcs(s: Sys, t: Sys) {
    && |s.procs| <= |t.procs|
    && (forall i | 0 <= i < |s.procs| :: Downgrade(s.procs[i], t.procs[i]))
    && (forall i | |s.procs| <= i < |t.procs| :: !Ticket(t.procs[i]))
  }

  predicate Quiet(s: Sys, t: Sys) {
    QuietRows(s, t) && QuietLog(s, t) && QuietProcs(s, t)
  }

  lemma QuietKeepsRows(s: Sys, t: Sys)
    requires RowsOk(s) && LogOk(s) && QuietRows(s, t) && QuietLog(s, t)
    ensures RowsOk(t) && LogOk(t)
  {
    forall k | 0 <= k < |t.notes| ensures RowOk(t, k) {
      assert RowOk(s, k) && SameClaim(s.db.payments[k], t.db.payments[k]);
    }
    forall j | 0 <= j < |t.log| && Spends(t.log[j]) ensures t.log[j] == s.log[j] && j < |s.log| {}
  }

  predicate NotesGrow(s: Sys, t: Sys) {
    && |s.notes| <= |t.notes|
    && forall k | 0 <= k < |s.notes| && s.notes[k].claim.Some? :: t.notes[k].claim == s.notes[k].claim
  }

  predicate NoStarts(s: Sys, t: Sys) {
    && s.log <= t.log
    && forall j | |s.log| <= j < |t.log| :: !Starts(t.log[j])
  }

  lemma QuietKeepsTickets(s: Sys, t: Sys)
    requires TicketsOk(s) && NotesGrow(s, t) && QuietProcs(s, t)
    ensures TicketsOk(t)
  {
    forall i | 0 <= i < |t.procs| && Ticket(t.procs[i]) ensures i < |s.procs| && Downgrade(s.procs[i], t.procs[i]) {}
  }

  lemma QuietKeepsStarts(s: Sys, t: Sys)
    requires StartsOk(s) && NotesGrow(s, t) && NoStarts(s, t) && QuietProcs(s, t)
    ensures StartsOk(t)
  {
    forall j | 0 <= j < |t.log| && Starts(t.log[j]) ensures j < |s.log| && t.log[j] == s.log[j] {}
    forall i | 0 <= i < |t.procs| && Ticket(t.procs[i]) ensures i < |s.procs| && Downgrade(s.procs[i], t.procs[i]) {}
  }

  lemma QuietKeeps(s: Sys, t: Sys)
    requires Once(s) && Quiet(s, t)
    ensures Once(t)
  {
    QuietKeepsRows(s, t);
    QuietKeepsTickets(s, t);
    QuietKeepsStarts(s, t);
  }

  // ---------- every step keeps the invariant ----------

  lemma TapQuiet(s: Sys, i: nat, x: Input)
    requires Once(s) && i < |s.procs| && !s.procs[i].TapAccepted?
    ensures Quiet(s, StepTap(s, i, x))
  {
    if s.procs[i].TapBinding? || s.procs[i].TapFound? { CardQuiet(s, i, x); } else { LookQuiet(s, i, x); }
  }

  lemma CardQuiet(s: Sys, i: nat, x: Input)
    requires i < |s.procs| && (s.procs[i].TapBinding? || s.procs[i].TapFound?)
    ensures Quiet(s, StepTap(s, i, x))
  {
  }

  lemma LookQuiet(s: Sys, i: nat, x: Input)
    requires i < |s.procs| && !s.procs[i].TapAccepted? && !s.procs[i].TapBinding? && !s.procs[i].TapFound?
    ensures Quiet(s, StepTap(s, i, x))
  {
  }

  lemma MintKeeps(s: Sys, i: nat, x: Input)
    requires Once(s) && i < |s.procs| && s.procs[i].TapAccepted?
    ensures Once(StepTap(s, i, x))
  {
    var t := StepTap(s, i, x);
    if InsertPayment(s.db, s.procs[i].card, x.text, x.now).1 {
      forall k | 0 <= k < |t.notes| ensures RowOk(t, k) {
        if k < |s.notes| { assert RowOk(s, k); }
      }
      QuietKeepsTickets(s, t);
      QuietKeepsStarts(s, t);
    } else {
      QuietKeeps(s, t);
    }
  }

  /** A callback step is quiet unless it spoils, claims or starts something. */
  predicate LoudCallback(s: Sys, i: nat, x: Input)
    requires i < |s.procs|
  {
    s.procs[i].CbWrongPin? || s.procs[i].CbRouted? || s.procs[i].CbClaimed?
  }

  lemma CallbackQuiet(s: Sys, i: nat, x: Input)
    requires i < |s.procs| && !LoudCallback(s, i, x)
    ensures Quiet(s, StepCallback(s, i, x))
  {
    if s.procs[i].CbInTime? { InvoiceQuiet(s, i, x); } else { ReadQuiet(s, i, x); }
  }

  lemma InvoiceQuiet(s: Sys, i: nat, x: Input)
    requires i < |s.procs| && s.procs[i].CbInTime?
    ensures Quiet(s, StepCallback(s, i, x))
  {
  }

  lemma ReadQuiet(s: Sys, i: nat, x: Input)
    requires i < |s.procs| && !LoudCallback(s, i, x) && !s.procs[i].CbInTime?
    ensures Quiet(s, StepCallback(s, i, x))
  {
  }

  lemma SpoilKeepsRows(s: Sys, i: nat, x: Input)
    requires RowsOk(s) && LogOk(s) && i < |s.procs| && s.procs[i].CbWrongPin?
    requires FailPayment(s.db, s.procs[i].pid, x.now).1
    ensures RowsOk(StepCallback(s, i, x)) && LogOk(StepCallback(s, i, x))
  {
    var t, pid := StepCallback(s, i, x), s.procs[i].pid;
    assert RowOk(s, pid);
    forall k | 0 <= k < |t.notes| ensures RowOk(t, k) { assert RowOk(s, k); }
  }

  lemma SpoilKeeps(s: Sys, i: nat, x: Input)
    requires Once(s) && i < |s.procs| && s.procs[i].CbWrongPin?
    ensures Once(StepCallback(s, i, x))
  {
    var t := StepCallback(s, i, x);
    if FailPayment(s.db, s.procs[i].pid, x.now).1 {
      SpoilKeepsRows(s, i, x);
      QuietKeepsTickets(s, t);
      QuietKeepsStarts(s, t);
    } else {
      QuietKeeps(s, t);
    }
  }

  lemma ClaimKeepsRows(s: Sys, i: nat, x: Input)
    requires Once(s) && i < |s.procs| && s.procs[i].CbRouted?
    requires StepCallback(s, i, x).procs[i].CbClaimed?
    ensures RowsOk(StepCallback(s, i, x)) && LogOk(StepCallback(s, i, x))
  {
    var t, pid := StepCallback(s, i, x), s.procs[i].pid;
    assert RowOk(s, pid);
    forall k | 0 <= k < |t.notes| ensures RowOk(t, k) { assert RowOk(s, k); }
  }

  lemma ClaimKeepsTickets(s: Sys, t: Sys, i: nat, q: Proc, e: Entry)
    requires TicketsOk(s) && StartsOk(s) && i < |s.procs| && NotesGrow(s, t)
    requires q.CbClaimed? && q.pid < |s.notes| && s.notes[q.pid].claim.None? && t.notes[q.pid].claim.Some?
    requires t.procs == s.procs[i := q] && t.log == s.log + [e] && e.Claimed?
    ensures TicketsOk(t) && StartsOk(t)
  {
    forall j | 0 <= j < |t.log| && Starts(t.log[j]) ensures j < |s.log| && t.log[j] == s.log[j] {}
    forall j | 0 <= j < |t.procs| && Ticket(t.procs[j]) && j != i
      ensures t.procs[j] == s.procs[j] && s.procs[j].pid != q.pid {}
  }

  lemma ClaimKeeps(s: Sys, i: nat, x: Input)
    requires Once(s) && i < |s.procs| && s.procs[i].CbRouted?
    ensures Once(StepCallback(s, i, x))
  {
    var t, pid := StepCallback(s, i, x), s.procs[i].pid;
    if t.procs[i].CbClaimed? {
      ClaimKeepsRows(s, i, x);
      assert RowOk(s, pid);
      ClaimKeepsTickets(s, t, i, t.procs[i], t.log[|s.log|]);
    } else {
      QuietKeeps(s, t);
    }
  }

  lemma StartKeepsTickets(s: Sys, t: Sys, i: nat, p: Proc, e: Entry)
    requires RowsOk(s) && TicketsOk(s) && StartsOk(s)
    requires i < |s.procs| && MayPay(s.procs[i]) && Ticket(p) && p.pid == s.procs[i].pid
    requires t == Put(Log(s, e), i, p) && !p.CbClaimed?
    requires e == if MayPay(p) then WaitStarted(p.pid) else PayStarted(p.pid)
    requires MayPay(p) ==> s.procs[i].CbClaimed?
    ensures TicketsOk(t) && StartsOk(t)
  {
    assert RowOk(s, p.pid);
    forall j | 0 <= j < |t.procs| && Ticket(t.procs[j]) && j != i
      ensures t.procs[j] == s.procs[j] && s.procs[j].pid != p.pid {}
    forall j | 0 <= j < |t.log| && j != |s.log| ensures t.log[j] == s.log[j] {}
    assert TicketsOk(t);
  }

  lemma StartKeeps(s: Sys, t: Sys, i: nat, p: Proc, e: Entry)
    requires Once(s)
    requires i < |s.procs| && MayPay(s.procs[i]) && Ticket(p) && p.pid == s.procs[i].pid
    requires t == Put(Log(s, e), i, p) && !p.CbClaimed?
    requires e == if MayPay(p) then WaitStarted(p.pid) else PayStarted(p.pid)
    requires MayPay(p) ==> s.procs[i].CbClaimed?
    ensures Once(t)
  {
    StartKeepsTickets(s, t, i, p, e);
    forall k | 0 <= k < |t.notes| ensures RowOk(t, k) { assert RowOk(s, k); }
  }

  /** A release writes only the status of a row that has been claimed. */
  lemma DropQuiet(s: Sys, i: nat, x: Input)
    requires RowsOk(s) && TicketsOk(s) && i < |s.procs| && s.procs[i].WaitDropped?
    ensures Quiet(s, StepWait(s, i, x))
  {
    assert RowOk(s, s.procs[i].pid);
  }

  lemma PollQuiet(s: Sys, i: nat, x: Input)
    requires i < |s.procs| && !s.procs[i].WaitDropped?
    requires !(s.procs[i].WaitPolling? && StepWait(s, i, x).procs[i].Paying?)
    ensures Quiet(s, StepWait(s, i, x))
  {
  }

  lemma WaitQuiet(s: Sys, i: nat, x: Input)
    requires Once(s) && i < |s.procs| && !(s.procs[i].WaitPolling? && StepWait(s, i, x).procs[i].Paying?)
    ensures Quiet(s, StepWait(s, i, x))
  {
    if s.procs[i].WaitDropped? { DropQuiet(s, i, x); } else { PollQuiet(s, i, x); }
  }

  lemma WaitKeeps(s: Sys, i: nat, x: Input)
    requires Once(s) && i < |s.procs|
    ensures Once(StepWait(s, i, x))
  {
    var t := StepWait(s, i, x);
    if s.procs[i].WaitPolling? && t.procs[i].Paying? {
      StartKeeps(s, t, i, t.procs[i], PayStarted(s.procs[i].pid));
    } else {
      WaitQuiet(s, i, x);
      QuietKeeps(s, t);
    }
  }

  lemma NodeQuiet(s: Sys, i: nat, x: Input)
    requires RowsOk(s) && TicketsOk(s) && i < |s.procs|
    ensures Quiet(s, StepNode(s, i, x))
  {
    if Ticket(s.procs[i]) { assert RowOk(s, s.procs[i].pid); }
  }

  lemma CallbackKeeps(s: Sys, i: nat, x: Input)
    requires Once(s) && i < |s.procs|
    ensures Once(StepCallback(s, i, x))
  {
    var t := StepCallback(s, i, x);
    if s.procs[i].CbWrongPin? {
      SpoilKeeps(s, i, x);
    } else if s.procs[i].CbRouted? {
      ClaimKeeps(s, i, x);
    } else if s.procs[i].CbClaimed? {
      var e := if t.procs[i].WaitAsked? then WaitStarted(s.procs[i].pid) else PayStarted(s.procs[i].pid);
      StartKeeps(s, t, i, t.procs[i], e);
    } else {
      CallbackQuiet(s, i, x);
      QuietKeeps(s, t);
    }
  }

  lemma StepKeeps(s: Sys, i: nat, x: Input)
    requires Once(s) && i < |s.procs|
    ensures Once(Step(s, i, x))
  {
    WaitKeeps(s, i, x);
    CallbackKeeps(s, i, x);
    NodeQuiet(s, i, x);
    QuietKeeps(s, StepNode(s, i, x));
    if s.procs[i].TapAccepted? {
      MintKeeps(s, i, x);
    } else {
      TapQuiet(s, i, x);
      QuietKeeps(s, StepTap(s, i, x));
    }
  }

  lemma RequestQuietRows(s: Sys, e: Event)
    requires !e.Move?
    ensures QuietRows(s, Next(s, e))
  {
  }

  lemma RequestQuietProcs(s: Sys, e: Event)
    requires !e.Move?
    ensures QuietLog(s, Next(s, e)) && QuietProcs(s, Next(s, e))
  {
  }

  lemma RequestQuiet(s: Sys, e: Event)
    requires !e.Move?
    ensures Quiet(s, Next(s, e))
  {
    RequestQuietRows(s, e);
    RequestQuietProcs(s, e);
  }

  lemma NextKeeps(s: Sys, e: Event)
    requires Once(s)
    ensures Once(Next(s, e))
  {
    if e.Move? && e.i < |s.procs| {
      StepKeeps(s, e.i, e.x);
    } else if !e.Move? {
      RequestQuiet(s, e);
      QuietKeeps(s, Next(s, e));
    }
  }

  lemma {:induction false} RunKeeps(s: Sys, es: seq<Event>)
    requires Once(s)
    ensures Once(Run(s, es))
    decreases |es|
  {
    if es != [] {
      NextKeeps(s, es[0]);
      RunKeeps(Next(s, es[0]), es[1..]);
    }
  }

  // ---------- over every run ----------

  lemma Reached(es: seq<Event>, s: Sys)
    requires s == Run(INIT, es)
    ensures Once(s)
  {
    RunKeeps(INIT, es);
  }

  lemma StartedOnce(s: Sys, i: nat, j: nat)
    requires StartsOk(s) && i < j < |s.log| && Starts(s.log[i]) && Starts(s.log[j]) && s.log[i].pid == s.log[j].pid
    ensures s.log[i].WaitStarted? && s.log[j].PayStarted?
  {
  }

  lemma StartHasClaim(s: Sys, j: nat)
    requires RowsOk(s) && StartsOk(s) && j < |s.log| && Starts(s.log[j])
    ensures exists c: nat :: c < j && s.log[c].Claimed? && s.log[c].pid == s.log[j].pid
  {
    assert RowOk(s, s.log[j].pid);
  }

  /** Of the true answers of Authorize_payment and the successes of Fail_payment on one row there is at most one. */
  lemma AtMostOneSpend(es: seq<Event>, s: Sys, i: nat, j: nat)
    requires s == Run(INIT, es) && i < j < |s.log| && Spends(s.log[i]) && Spends(s.log[j])
    ensures s.log[i].pid != s.log[j].pid
  {
    Reached(es, s);
    SpentOnce(s, i, j);
  }

  lemma SpentOnce(s: Sys, i: nat, j: nat)
    requires LogOk(s) && i < j < |s.log| && Spends(s.log[i]) && Spends(s.log[j])
    ensures s.log[i].pid != s.log[j].pid
  {
  }

  /** A true answer starts at most one approval wait and at most one payment, in that order, and a payment needs one. */
  lemma AtMostOneStart(es: seq<Event>, s: Sys, j: nat)
    requires s == Run(INIT, es) && j < |s.log| && Starts(s.log[j])
    ensures exists c: nat :: c < j && s.log[c].Claimed? && s.log[c].pid == s.log[j].pid
    ensures forall i: nat | i < j && Starts(s.log[i]) && s.log[i].pid == s.log[j].pid ::
              s.log[i].WaitStarted? && s.log[j].PayStarted?
  {
    Reached(es, s);
    StartHasClaim(s, j);
    forall i: nat | i < j && Starts(s.log[i]) && s.log[i].pid == s.log[j].pid
      ensures s.log[i].WaitStarted? && s.log[j].PayStarted?
    {
      StartedOnce(s, i, j);
    }
  }

  predicate PaidStays(s: Sys, t: Sys) {
    && |s.db.payments| <= |t.db.payments|
    && forall k | 0 <= k < |s.db.payments| && s.db.payments[k].paid :: t.db.payments[k].paid
  }

  lemma CallbackPaid(s: Sys, i: nat, x: Input)
    requires i < |s.procs|
    ensures PaidStays(s, StepCallback(s, i, x))
  {
  }

  lemma OtherPaid(s: Sys, i: nat, x: Input)
    requires i < |s.procs|
    ensures PaidStays(s, StepTap(s, i, x)) && PaidStays(s, StepWait(s, i, x)) && PaidStays(s, StepNode(s, i, x))
  {
  }

  lemma PaidStep(s: Sys, e: Event)
    ensures PaidStays(s, Next(s, e))
  {
    if !e.Move? {
      RequestQuietRows(s, e);
    } else if e.i < |s.procs| {
      CallbackPaid(s, e.i, e.x);
      OtherPaid(s, e.i, e.x);
    }
  }

  /** paid_flag never goes back to N, from any state and under any statements. */
  lemma {:induction false} PaidIsForever(s: Sys, es: seq<Event>, pid: nat)
    requires pid < |s.db.payments| && s.db.payments[pid].paid
    ensures pid < |Run(s, es).db.payments| && Run(s, es).db.payments[pid].paid
    decreases |es|
  {
    if es != [] {
      PaidStep(s, es[0]);
      PaidIsForever(Next(s, es[0]), es[1..], pid);
    }
  }

  /** Once a wrong PIN is committed, the row is never authorised and never paid, whatever follows. */
  lemma WrongPinEndsTheTap(es: seq<Event>, s: Sys, fs: seq<Event>, t: Sys, j: nat, k: nat)
    requires s == Run(INIT, es) && t == Run(s, fs)
    requires j < |s.log| && s.log[j].Spoiled?
    requires k < |t.log| && (t.log[k].Claimed? || Starts(t.log[k]))
    ensures t.log[k].pid != s.log[j].pid
  {
    Reached(es, s);
    RunKeeps(s, fs);
    LogExtends(s, fs);
    SpoiledIsNotClaimed(t, j, k);
  }

  lemma SpoiledIsNotClaimed(t: Sys, j: nat, k: nat)
    requires LogOk(t) && StartsOk(t) && j < |t.log| && t.log[j].Spoiled?
    requires k < |t.log| && (t.log[k].Claimed? || Starts(t.log[k]))
    ensures t.log[k].pid != t.log[j].pid
  {
  }

  lemma StepLogs(s: Sys, i: nat, x: Input)
    requires i < |s.procs|
    ensures s.log <= StepTap(s, i, x).log && s.log <= StepCallback(s, i, x).log
    ensures s.log <= StepWait(s, i, x).log && s.log <= StepNode(s, i, x).log
  {
  }

  lemma LogStep(s: Sys, e: Event)
    ensures s.log <= Next(s, e).log
  {
    if e.Move? && e.i < |s.procs| { StepLogs(s, e.i, e.x); }
  }

  lemma {:induction false} LogExtends(s: Sys, es: seq<Event>)
    ensures s.log <= Run(s, es).log
    decreases |es|
  {
    if es != [] {
      LogStep(s, es[0]);
      LogExtends(Next(s, es[0]), es[1..]);
    }
  }
}
