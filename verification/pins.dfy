/** One PIN for each tap: exactly when a refused PIN is the only one tried, and ends the tap. */
module Pins {
  import opened Sums
  import opened System
  import opened Spent
  import opened Hands
  import opened Amounts
  import opened Serial

  /** The event refuses a PIN on the row. */
  predicate Refuses(s: Sys, e: Event, pid: nat) {
    && e.Move? && e.i < |s.procs| && s.procs[e.i].CbRecorded? && s.procs[e.i].pid == pid
    && pid < |s.db.payments| && s.db.payments[pid].cardId < |s.db.cards|
    && WrongPin(s.db.cards[s.db.payments[pid].cardId], s.procs[e.i].msats, e.x.text)
  }

  /** The event claims the row. */
  predicate ClaimsRow(s: Sys, e: Event, pid: nat) {
    IsClaim(s, e) && s.procs[e.i].pid == pid
  }

  /** The event is Fail_payment on the row. */
  predicate Fails(s: Sys, e: Event, pid: nat) {
    e.Move? && e.i < |s.procs| && s.procs[e.i] == CbWrongPin(pid)
  }

  /** A callback, other than the one at position but, has refused a PIN on the row and not yet failed the payment. */
  predicate Pending(procs: seq<Proc>, pid: nat, but: int) {
    exists i :: 0 <= i < |procs| && i != but && procs[i] == CbWrongPin(pid)
  }

  /**
   A PIN is refused, and a payment claimed, only on a row on which no refusal is pending, and refused only on an unspent
   one; and a callback that refused a PIN stops only when the row is spent or will be.
   */
  predicate TriesOnce(s: Sys, e: Event) {
    && (forall pid: nat | pid < |s.db.payments| && Refuses(s, e, pid) ::
          !s.db.payments[pid].paid && !Pending(s.procs, pid, -1))
    && (forall pid: nat | pid < |s.db.payments| && ClaimsRow(s, e, pid) :: !Pending(s.procs, pid, -1))
    && (e.Stop? && e.i < |s.procs| && s.procs[e.i].CbWrongPin? && s.procs[e.i].pid < |s.db.payments| ==>
          s.db.payments[s.procs[e.i].pid].paid || Pending(s.procs, s.procs[e.i].pid, e.i))
  }

  /** A row with a refused PIN is spent without a claim, or is about to be by the callback that refused it. */
  predicate RefusedRow(s: Sys, pid: nat) {
    && pid < |s.db.payments| && s.db.payments[pid].payTime.None?
    && (s.db.payments[pid].paid || Pending(s.procs, pid, -1))
  }

  /** The promise: each refused PIN is the only one for its row, and has ended the tap or is about to. */
  predicate PinsOk(s: Sys) {
    && (forall j | 0 <= j < |s.log| && s.log[j].PinRefused? :: RefusedRow(s, s.log[j].pid))
    && (forall i, j | 0 <= i < j < |s.log| && s.log[i].PinRefused? && s.log[j].PinRefused? ::
          s.log[i].pid != s.log[j].pid)
  }

  predicate Told(log: seq<Entry>, pid: nat) {
    exists j :: 0 <= j < |log| && log[j] == PinRefused(pid)
  }

  /** Rows are spent without a claim, and about to be, only for a refused PIN. */
  predicate PinsTold(s: Sys) {
    && (forall i | 0 <= i < |s.procs| && s.procs[i].CbWrongPin? :: Told(s.log, s.procs[i].pid))
    && (forall k: nat | k < |s.db.payments| && s.db.payments[k].paid && s.db.payments[k].payTime.None? ::
          Told(s.log, k))
  }

  // ---------- what an event does to flags, processes and log ----------

  predicate FlagsAfter(s: Sys, e: Event, t: Sys) {
    && |s.db.payments| <= |t.db.payments|
    && (forall k: nat | k < |s.db.payments| ::
          && t.db.payments[k].payTime == (if ClaimsRow(s, e, k) then Some(e.x.now) else s.db.payments[k].payTime)
          && t.db.payments[k].paid == (s.db.payments[k].paid || ClaimsRow(s, e, k) || Fails(s, e, k)))
    && (forall k: nat | |s.db.payments| <= k < |t.db.payments| :: !t.db.payments[k].paid)
  }

  lemma RoutedFlags(s: Sys, i: nat, x: Input)
    requires i < |s.procs| && s.procs[i].CbRouted?
    ensures FlagsAfter(s, Move(i, x), StepCallback(s, i, x))
  {
  }

  lemma SpoilFlags(s: Sys, i: nat, x: Input)
    requires i < |s.procs| && s.procs[i].CbWrongPin?
    ensures FlagsAfter(s, Move(i, x), StepCallback(s, i, x))
  {
  }

  lemma InvoiceFlags(s: Sys, i: nat, x: Input)
    requires i < |s.procs| && s.procs[i].CbInTime?
    ensures FlagsAfter(s, Move(i, x), StepCallback(s, i, x))
  {
  }

  lemma CallbackFlags(s: Sys, i: nat, x: Input)
    requires i < |s.procs| && !s.procs[i].CbInTime? && !s.procs[i].CbWrongPin? && !s.procs[i].CbRouted?
    ensures FlagsAfter(s, Move(i, x), StepCallback(s, i, x))
  {
  }

  lemma TapFlags(s: Sys, i: nat, x: Input)
    requires i < |s.procs| && IsTap(s.procs[i])
    ensures FlagsAfter(s, Move(i, x), StepTap(s, i, x))
  {
  }

  lemma WaitFlags(s: Sys, i: nat, x: Input)
    requires i < |s.procs|
    requires s.procs[i].WaitAsked? || s.procs[i].WaitTokened? || s.procs[i].WaitPolling? || s.procs[i].WaitDropped?
    ensures FlagsAfter(s, Move(i, x), StepWait(s, i, x))
  {
  }

  lemma NodeFlags(s: Sys, i: nat, x: Input)
    requires i < |s.procs| && (s.procs[i].Paying? || s.procs[i].Watching?)
    ensures FlagsAfter(s, Move(i, x), StepNode(s, i, x))
  {
  }

  lemma RequestFlags(s: Sys, e: Event)
    requires !e.Move?
    ensures FlagsAfter(s, e, Next(s, e))
  {
  }

  lemma NextFlags(s: Sys, e: Event)
    ensures FlagsAfter(s, e, Next(s, e))
  {
    if !e.Move? {
      RequestFlags(s, e);
    } else if e.i < |s.procs| {
      var i, x, p := e.i, e.x, s.procs[e.i];
      if IsTap(p) { TapFlags(s, i, x); }
      else if p.WaitAsked? || p.WaitTokened? || p.WaitPolling? || p.WaitDropped? { WaitFlags(s, i, x); }
      else if p.Paying? || p.Watching? { NodeFlags(s, i, x); }
      else if p.CbInTime? { InvoiceFlags(s, i, x); }
      else if p.CbWrongPin? { SpoilFlags(s, i, x); }
      else if p.CbRouted? { RoutedFlags(s, i, x); }
      else { CallbackFlags(s, i, x); }
    }
  }

  /** The process that moves or stops, if one does. */
  function Mover(s: Sys, e: Event): int {
    if (e.Move? || e.Stop?) && e.i < |s.procs| then e.i else -1
  }

  /** Only a refused PIN makes a callback one that has refused it, and its next step or end makes it none. */
  predicate ProcsAfter(s: Sys, e: Event, t: Sys) {
    && |s.procs| <= |t.procs|
    && (forall j | 0 <= j < |s.procs| && j != Mover(s, e) :: t.procs[j] == s.procs[j])
    && (forall j | |s.procs| <= j < |t.procs| :: !t.procs[j].CbWrongPin?)
    && (Mover(s, e) >= 0 && t.procs[Mover(s, e)].CbWrongPin? ==> Refuses(s, e, t.procs[Mover(s, e)].pid))
  }

  lemma CallbackProcs(s: Sys, i: nat, x: Input)
    requires i < |s.procs|
    ensures s.procs[i].CbRecorded? ==> ProcsAfter(s, Move(i, x), StepCallback(s, i, x))
  {
  }

  lemma StepProcs(s: Sys, i: nat, x: Input)
    requires i < |s.procs|
    ensures ProcsAfter(s, Move(i, x), Step(s, i, x))
  {
    StepMoved(s, i, x);
    CallbackProcs(s, i, x);
    if !s.procs[i].CbRecorded? { NeverRefuses(s, i, x); }
  }

  lemma CallbackNeverRefuses(s: Sys, i: nat, x: Input)
    requires i < |s.procs| && !s.procs[i].CbRecorded?
    ensures i < |StepCallback(s, i, x).procs|
    ensures !StepCallback(s, i, x).procs[i].CbWrongPin? || StepCallback(s, i, x) == s
    ensures s.procs[i].CbWrongPin? ==> StepCallback(s, i, x).procs[i].Done?
  {
  }

  lemma NeverRefuses(s: Sys, i: nat, x: Input)
    requires i < |s.procs| && !s.procs[i].CbRecorded?
    ensures i < |Step(s, i, x).procs| && !Step(s, i, x).procs[i].CbWrongPin?
  {
    CallbackNeverRefuses(s, i, x);
  }

  lemma RequestProcs(s: Sys, e: Event)
    requires !e.Move?
    ensures ProcsAfter(s, e, Next(s, e))
  {
  }

  lemma NextProcs(s: Sys, e: Event)
    ensures ProcsAfter(s, e, Next(s, e))
  {
    if !e.Move? { RequestProcs(s, e); } else if e.i < |s.procs| { StepProcs(s, e.i, e.x); }
  }

  predicate RefusedAfter(s: Sys, e: Event, t: Sys) {
    && OneEntry(s, t)
    && (|t.log| > |s.log| && t.log[|s.log|].PinRefused? ==> Refuses(s, e, t.log[|s.log|].pid))
    && (e.Move? && e.i < |s.procs| && s.procs[e.i].CbRecorded? && Refuses(s, e, s.procs[e.i].pid) ==>
          t == Put(Log(s, PinRefused(s.procs[e.i].pid)), e.i, CbWrongPin(s.procs[e.i].pid)))
  }

  lemma CallbackRefuses(s: Sys, i: nat, x: Input)
    requires i < |s.procs|
    ensures s.procs[i].CbRecorded? ==> RefusedAfter(s, Move(i, x), StepCallback(s, i, x))
    ensures !s.procs[i].CbRecorded? ==> RefusedAfter(s, Move(i, x), StepCallback(s, i, x))
  {
  }

  lemma OtherRefuses(s: Sys, i: nat, x: Input)
    requires i < |s.procs| && !s.procs[i].CbRecorded?
    ensures RefusedAfter(s, Move(i, x), StepTap(s, i, x)) && RefusedAfter(s, Move(i, x), StepNode(s, i, x))
    ensures RefusedAfter(s, Move(i, x), StepWait(s, i, x))
  {
  }

  lemma RequestRefuses(s: Sys, e: Event)
    requires !e.Move?
    ensures RefusedAfter(s, e, Next(s, e))
  {
  }

  lemma NextRefuses(s: Sys, e: Event)
    ensures RefusedAfter(s, e, Next(s, e))
  {
    if !e.Move? {
      RequestRefuses(s, e);
    } else if e.i < |s.procs| {
      CallbackRefuses(s, e.i, e.x);
      if !s.procs[e.i].CbRecorded? { OtherRefuses(s, e.i, e.x); }
    }
  }

  predicate PinsAfter(s: Sys, e: Event, t: Sys) {
    FlagsAfter(s, e, t) && ProcsAfter(s, e, t) && RefusedAfter(s, e, t)
  }

  lemma NextPinsAfter(s: Sys, e: Event)
    ensures PinsAfter(s, e, Next(s, e))
  {
    NextFlags(s, e);
    NextProcs(s, e);
    NextRefuses(s, e);
  }

  // ---------- the rule is exact ----------

  lemma ToldStays(s: Sys, t: Sys, pid: nat)
    requires s.log <= t.log && Told(s.log, pid)
    ensures Told(t.log, pid)
  {
    var j :| 0 <= j < |s.log| && s.log[j] == PinRefused(pid);
    assert t.log[j] == PinRefused(pid);
  }

  lemma RefusalIsTold(s: Sys, e: Event, t: Sys, pid: nat)
    requires PinsAfter(s, e, t) && Refuses(s, e, pid)
    ensures Told(t.log, pid) && t.log == s.log + [PinRefused(pid)] && t.db == s.db && t.procs[e.i] == CbWrongPin(pid)
  {
    assert t.log[|s.log|] == PinRefused(pid);
  }

  lemma NextTold(s: Sys, e: Event, t: Sys)
    requires RowsOk(s) && PinsTold(s) && PinsAfter(s, e, t)
    ensures PinsTold(t)
  {
    forall i: nat | i < |t.procs| && t.procs[i].CbWrongPin? ensures Told(t.log, t.procs[i].pid) {
      if i == Mover(s, e) { RefusalIsTold(s, e, t, t.procs[i].pid); } else { ToldStays(s, t, s.procs[i].pid); }
    }
    forall k: nat | k < |t.db.payments| && t.db.payments[k].paid && t.db.payments[k].payTime.None?
      ensures Told(t.log, k)
    {
      ToldStays(s, t, k);
    }
  }

  /** Whatever waits for a row with a refused PIN goes on to wait, or has spent it. */
  lemma OldRefusal(s: Sys, e: Event, t: Sys, pid: nat)
    requires RefusedRow(s, pid) && PinsAfter(s, e, t) && TriesOnce(s, e)
    ensures RefusedRow(t, pid)
  {
    if ClaimsRow(s, e, pid) { ClaimWrites(s, e); }
    if !s.db.payments[pid].paid && !Fails(s, e, pid) {
      var i :| 0 <= i < |s.procs| && s.procs[i] == CbWrongPin(pid);
      if i == Mover(s, e) { i :| 0 <= i < |s.procs| && i != e.i && s.procs[i] == CbWrongPin(pid); }
      assert t.procs[i] == CbWrongPin(pid);
    }
  }

  lemma NewRefusal(s: Sys, e: Event, t: Sys, pid: nat)
    requires RowsOk(s) && PinsOk(s) && PinsAfter(s, e, t) && TriesOnce(s, e) && Refuses(s, e, pid)
    ensures RefusedRow(t, pid) && !Told(s.log, pid)
  {
    RefusalIsTold(s, e, t, pid);
    assert RowOk(s, pid);
    NotTold(s, pid);
  }

  lemma NotTold(s: Sys, pid: nat)
    requires PinsOk(s) && !RefusedRow(s, pid)
    ensures !Told(s.log, pid)
  {
    forall j | 0 <= j < |s.log| && s.log[j].PinRefused? ensures s.log[j].pid != pid {
      assert RefusedRow(s, s.log[j].pid);
    }
  }

  lemma PinsKept(s: Sys, e: Event, t: Sys)
    requires RowsOk(s) && PinsOk(s) && PinsAfter(s, e, t) && TriesOnce(s, e)
    ensures PinsOk(t)
  {
    forall j: nat | j < |t.log| && t.log[j].PinRefused? ensures RefusedRow(t, t.log[j].pid) {
      if j < |s.log| {
        assert t.log[j] == s.log[j];
        OldRefusal(s, e, t, s.log[j].pid);
      } else {
        NewRefusal(s, e, t, t.log[j].pid);
      }
    }
    forall i: nat, j: nat | i < j < |t.log| && t.log[i].PinRefused? && t.log[j].PinRefused?
      ensures t.log[i].pid != t.log[j].pid
    {
      assert t.log[i] == s.log[i];
      if j == |s.log| {
        NewRefusal(s, e, t, t.log[j].pid);
        assert t.log[i] == PinRefused(t.log[i].pid);
      }
    }
  }

  /** A second refusal: the row has one already. */
  lemma SecondRefusal(s: Sys, e: Event, t: Sys, pid: nat)
    requires PinsTold(s) && PinsAfter(s, e, t) && PinsOk(t) && Refuses(s, e, pid)
    ensures !s.db.payments[pid].paid && !Pending(s.procs, pid, -1)
  {
    RefusalIsTold(s, e, t, pid);
    assert RefusedRow(t, t.log[|s.log|].pid);
    if s.db.payments[pid].paid || Pending(s.procs, pid, -1) { ToldTwice(s, t, pid); }
  }

  lemma ToldTwice(s: Sys, t: Sys, pid: nat)
    requires Told(s.log, pid) && t.log == s.log + [PinRefused(pid)]
    ensures !PinsOk(t)
  {
    var j :| 0 <= j < |s.log| && s.log[j] == PinRefused(pid);
    assert t.log[j] == s.log[j] && t.log[|s.log|] == PinRefused(pid);
  }

  lemma TriedOnce(s: Sys, e: Event, t: Sys)
    requires PinsTold(s) && PinsAfter(s, e, t) && PinsOk(t)
    ensures TriesOnce(s, e)
  {
    forall pid: nat | pid < |s.db.payments| && Refuses(s, e, pid)
      ensures !s.db.payments[pid].paid && !Pending(s.procs, pid, -1)
    {
      SecondRefusal(s, e, t, pid);
    }
    forall pid: nat | pid < |s.db.payments| && ClaimsRow(s, e, pid) ensures !Pending(s.procs, pid, -1) {
      if Pending(s.procs, pid, -1) { PendingIsRefused(s, t, pid); ClaimWrites(s, e); }
    }
    if e.Stop? && e.i < |s.procs| && s.procs[e.i].CbWrongPin? {
      assert Pending(s.procs, s.procs[e.i].pid, -1);
      PendingIsRefused(s, t, s.procs[e.i].pid);
    }
  }

  /** A row on which a refusal is pending is among those the promise is about. */
  lemma PendingIsRefused(s: Sys, t: Sys, pid: nat)
    requires PinsTold(s) && s.log <= t.log && PinsOk(t) && Pending(s.procs, pid, -1)
    ensures RefusedRow(t, pid)
  {
    assert Told(s.log, pid);
    var j :| 0 <= j < |s.log| && s.log[j] == PinRefused(pid);
    assert t.log[j] == s.log[j];
  }

  /** An event keeps the promise about PINs if and only if it tries no PIN twice. */
  lemma PinsKeptIff(s: Sys, e: Event)
    requires RowsOk(s) && PinsOk(s) && PinsTold(s)
    ensures PinsOk(Next(s, e)) <==> TriesOnce(s, e)
    ensures PinsTold(Next(s, e))
  {
    var t := Next(s, e);
    NextPinsAfter(s, e);
    NextTold(s, e, t);
    if TriesOnce(s, e) { PinsKept(s, e, t); } else if PinsOk(t) { TriedOnce(s, e, t); }
  }

  // ---------- over runs ----------

  predicate PinState(s: Sys) {
    Once(s) && PinsOk(s) && PinsTold(s)
  }

  lemma {:induction false} RunPins(s: Sys, es: seq<Event>)
    requires PinState(s) && Respects(s, es, TriesOnce)
    ensures PinState(Run(s, es))
    decreases |es|
  {
    if es != [] {
      NextKeeps(s, es[0]);
      PinsKeptIff(s, es[0]);
      RunPins(Next(s, es[0]), es[1..]);
    }
  }

  lemma RefusedAndClaimed(s: Sys, i: nat, j: nat)
    requires PinState(s) && i < |s.log| && s.log[i].PinRefused? && j < |s.log|
    requires s.log[j].Claimed? || Starts(s.log[j])
    ensures s.log[i].pid != s.log[j].pid
  {
    assert RefusedRow(s, s.log[i].pid) && RowOk(s, s.log[i].pid);
  }

  lemma RefusedApart(s: Sys, i: nat, j: nat)
    requires PinState(s) && i < |s.log| && s.log[i].PinRefused? && j < |s.log| && i != j
    requires s.log[j].PinRefused? || s.log[j].Claimed? || Starts(s.log[j])
    ensures s.log[i].pid != s.log[j].pid
  {
    if !s.log[j].PinRefused? { RefusedAndClaimed(s, i, j); }
  }

  lemma ReachedPins(es: seq<Event>, s: Sys)
    requires Respects(INIT, es, TriesOnce) && s == Run(INIT, es)
    ensures PinState(s)
  {
    RunPins(INIT, es);
  }

  /** A refused PIN is the only one refused for its tap, and the tap is never authorised and never paid. */
  lemma OneRefusalEndsTheTap(es: seq<Event>, s: Sys, i: nat, j: nat)
    requires Respects(INIT, es, TriesOnce) && s == Run(INIT, es)
    requires i < |s.log| && s.log[i].PinRefused? && j < |s.log| && i != j
    requires s.log[j].PinRefused? || s.log[j].Claimed? || Starts(s.log[j])
    ensures s.log[i].pid != s.log[j].pid
  {
    ReachedPins(es, s);
    RefusedApart(s, i, j);
  }

  // ---------- callbacks that do not overlap ----------

  /** Callbacks on one k1 do not overlap, and one that has refused a PIN goes on to spend the row. */
  predicate SpendsRefused(s: Sys, e: Event) {
    NoOverlap(s, e) && (e.Stop? && e.i < |s.procs| ==> !s.procs[e.i].CbWrongPin?)
  }

  lemma SpendsRefusedOnce(s: Sys, e: Event)
    requires CallbacksOk(s) && SpendsRefused(s, e)
    ensures TriesOnce(s, e)
  {
    if e.Move? && e.i < |s.procs| && PreClaim(s.procs[e.i]) && !s.procs[e.i].CbWrongPin? { NothingPending(s, e.i); }
  }

  lemma NothingPending(s: Sys, i: nat)
    requires CallbacksOk(s) && i < |s.procs| && PreClaim(s.procs[i]) && !s.procs[i].CbWrongPin?
    ensures FoundOk(s.db, s.procs[i]) && !Pending(s.procs, s.procs[i].pid, -1)
  {
    forall k | 0 <= k < |s.procs| && s.procs[k].CbWrongPin? ensures s.procs[k].pid != s.procs[i].pid {
      assert k < i || i < k;
    }
  }

  lemma {:induction false} SerialTriesOnce(s: Sys, es: seq<Event>)
    requires SerialOk(s) && Respects(s, es, SpendsRefused)
    ensures Respects(s, es, TriesOnce)
    decreases |es|
  {
    if es != [] {
      SpendsRefusedOnce(s, es[0]);
      NextKeepsSerial(s, es[0]);
      SerialTriesOnce(Next(s, es[0]), es[1..]);
    }
  }

  /** When callbacks do not overlap and none is lost between refusing a PIN and spending the row, none tries twice. */
  lemma NoOverlapTriesOnce(es: seq<Event>)
    requires Respects(INIT, es, SpendsRefused)
    ensures Respects(INIT, es, TriesOnce)
  {
    StartSerial();
    SerialTriesOnce(INIT, es);
  }
}
