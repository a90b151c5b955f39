/** What a released, spoiled or failed payment still counts towards. */
module Erasure {
  import opened Sums
  import opened Tables
  import opened System
  import opened Spent
  import opened Hands
  import opened Outcomes
  import opened Amounts
  import opened Agree

  /** The database with one payment row taken out. */
  function Without(db: Db, pid: nat): Db
    requires pid < |db.payments|
  {
    db.(payments := db.payments[..pid] + db.payments[pid + 1..])
  }

  lemma WithoutRow(db: Db, pid: nat, card: nat, now: int)
    requires pid < |db.payments|
    ensures Balance(Without(db, pid), card) == Balance(db, card) - DebitWeight(card)(pid, db.payments[pid])
    ensures DayMsats(Without(db, pid), card, now)
            == DayMsats(db, card, now) - DayWeight(card, now - DAY)(pid, db.payments[pid])
  {
    SumWithout(db.payments, pid, DebitWeight(card));
    SumWithout(db.payments, pid, DayWeight(card, now - DAY));
  }

  // ---------- released and spoiled rows ----------

  predicate Erases(e: Entry) {
    e.Released? || e.Spoiled?
  }

  /** A released row has failed for good. */
  predicate ReleasedFailed(s: Sys) {
    forall j | 0 <= j < |s.log| && s.log[j].Released? ::
      s.log[j].pid < |s.db.payments| && s.db.payments[s.log[j].pid].status == Failed
  }

  lemma OldReleased(s: Sys, e: Event, j: nat)
    requires OutcomesOk(s) && HandsOk(s) && ReleasedFailed(s) && j < |s.log| && s.log[j].Released?
    ensures s.log[j].pid < |Next(s, e).db.payments| && Next(s, e).db.payments[s.log[j].pid].status == Failed
  {
    assert RowOk(s, s.log[j].pid);
    FailedStays(s, e, s.log[j].pid);
  }

  lemma NextReleasedFailed(s: Sys, e: Event)
    requires OutcomesOk(s) && HandsOk(s) && ReleasedFailed(s)
    ensures ReleasedFailed(Next(s, e))
  {
    var t := Next(s, e);
    NextNewErased(s, e);
    forall j: nat | j < |t.log| && t.log[j].Released?
      ensures t.log[j].pid < |t.db.payments| && t.db.payments[t.log[j].pid].status == Failed
    {
      if j < |s.log| { OldReleased(s, e, j); }
    }
  }

  predicate FreedOk(s: Sys) {
    OutcomesOk(s) && HandsOk(s) && ReleasedFailed(s)
  }

  lemma NextFreed(s: Sys, e: Event)
    requires FreedOk(s)
    ensures FreedOk(Next(s, e))
  {
    NextKeepsOutcomes(s, e);
    NextKnown(s, e);
    NextReleasedFailed(s, e);
  }

  lemma {:induction false} RunFreed(s: Sys, es: seq<Event>)
    requires FreedOk(s)
    ensures FreedOk(Run(s, es))
    decreases |es|
  {
    if es != [] {
      NextFreed(s, es[0]);
      RunFreed(Next(s, es[0]), es[1..]);
    }
  }

  lemma StartFreed()
    ensures FreedOk(INIT)
  {
    StartOutcomes();
    StartKnown();
  }

  lemma FreedRow(s: Sys, j: nat)
    requires FreedOk(s) && j < |s.log| && Erases(s.log[j])
    ensures s.log[j].pid < |s.db.payments|
    ensures s.db.payments[s.log[j].pid].paid && s.db.payments[s.log[j].pid].status == Failed
    ensures s.log[j].Spoiled? ==> s.db.payments[s.log[j].pid].payTime.None?
  {
    assert RowOk(s, s.log[j].pid);
  }

  /**
   From the moment a payment is released or its tap is spoiled, under every interleaving: the balance is that of the
   database without the row, and the row stays spent.
   */
  lemma ReleaseFreesTheBalance(es: seq<Event>, s: Sys, j: nat, card: nat)
    requires s == Run(INIT, es) && j < |s.log| && (s.log[j].Released? || s.log[j].Spoiled?)
    ensures s.log[j].pid < |s.db.payments| && s.db.payments[s.log[j].pid].paid
    ensures Balance(s.db, card) == Balance(Without(s.db, s.log[j].pid), card)
  {
    StartFreed();
    RunFreed(INIT, es);
    FreedRow(s, j);
    WithoutRow(s.db, s.log[j].pid, card, 0);
  }

  predicate ErasureOk(s: Sys, card: nat) {
    FreedOk(s) && ErasedOk(s, card)
  }

  lemma {:induction false} RunErased(s: Sys, es: seq<Event>, card: nat)
    requires ErasureOk(s, card) && Respects(s, es, SoundFor(card))
    ensures ErasureOk(Run(s, es), card)
    decreases |es|
  {
    if es != [] {
      NextFreed(s, es[0]);
      NextErased(s, es[0], card);
      RunErased(Next(s, es[0]), es[1..], card);
    }
  }

  lemma StartErased(card: nat)
    ensures ErasureOk(INIT, card)
  {
    StartFreed();
  }

  lemma ErasedRow(s: Sys, j: nat, card: nat, now: int)
    requires ErasureOk(s, card) && j < |s.log| && Erases(s.log[j])
    ensures s.log[j].pid < |s.db.payments| && s.db.payments[s.log[j].pid].paid
    ensures Balance(s.db, card) == Balance(Without(s.db, s.log[j].pid), card)
    ensures DayMsats(s.db, card, now) == DayMsats(Without(s.db, s.log[j].pid), card, now)
  {
    FreedRow(s, j);
    WithoutRow(s.db, s.log[j].pid, card, now);
  }

  /** In every run that is sound for the card, its daily totals are those without the row as well. */
  lemma ReleaseErasesTheClaim(es: seq<Event>, s: Sys, j: nat, card: nat, now: int)
    requires Respects(INIT, es, SoundFor(card)) && s == Run(INIT, es)
    requires j < |s.log| && (s.log[j].Released? || s.log[j].Spoiled?)
    ensures s.log[j].pid < |s.db.payments| && s.db.payments[s.log[j].pid].paid
    ensures Balance(s.db, card) == Balance(Without(s.db, s.log[j].pid), card)
    ensures DayMsats(s.db, card, now) == DayMsats(Without(s.db, s.log[j].pid), card, now)
  {
    StartErased(card);
    RunErased(INIT, es, card);
    ErasedRow(s, j, card, now);
  }

  // ---------- failed rows ----------

  /** A row the node reported as failed: out of the balance, with its amount and claim time still there. */
  predicate HeldFailed(p: Payment, card: nat, msats: int) {
    p.cardId == card && p.paid && p.status == Failed && p.amount == Some(msats) && p.payTime.Some?
  }

  predicate FailedOk(s: Sys, card: nat) {
    forall j | 0 <= j < |s.log| && s.log[j].Reported? && s.log[j].status == Failed && s.log[j].card == card ::
      s.log[j].pid < |s.db.payments| && HeldFailed(s.db.payments[s.log[j].pid], card, s.log[j].msats)
  }

  /** The rule of a card whose failed payments keep their amount. */
  function ReportedFor(card: nat): (Sys, Event) -> bool {
    (s: Sys, e: Event) => ExactOn(s, e, card) && FinalStates(s, e)
  }

  /** Nothing under the rule takes a failed row back: the node's FAILED is final, and its amount stands. */
  lemma FailedHolds(s: Sys, e: Event, k: nat, card: nat, msats: int)
    requires KnownOk(s) && ReportedFor(card)(s, e)
    requires k < |s.db.payments| && HeldFailed(s.db.payments[k], card, msats)
    ensures k < |Next(s, e).db.payments| && HeldFailed(Next(s, e).db.payments[k], card, msats)
  {
    var t := Next(s, e);
    FailedStays(s, e, k);
    ExactAmount(s, e, k);
    SameCard(s, e, k, card);
    if e.Move? && e.i < |s.procs| { assert HandOk(s.db, s.procs[e.i]); }
    NextKeeps(s, e);
    NextGrows(s, e);
    assert RowOk(s, k) && RowOk(t, k);
  }

  /** Every FAILED report that t adds to the log for the card is for a row it holds. */
  predicate ReportsHeld(s: Sys, t: Sys, card: nat) {
    && s.log <= t.log
    && forall j | |s.log| <= j < |t.log| && t.log[j].Reported? && t.log[j].status == Failed && t.log[j].card == card ::
         t.log[j].pid < |t.db.payments| && HeldFailed(t.db.payments[t.log[j].pid], card, t.log[j].msats)
  }

  lemma NodeReport(s: Sys, i: nat, x: Input, card: nat)
    requires RowsOk(s) && TicketsOk(s) && HoldersOk(s, card) && i < |s.procs|
    requires s.procs[i].Paying? || s.procs[i].Watching?
    ensures ReportsHeld(s, StepNode(s, i, x), card)
  {
    if s.procs[i].Paying? {
      HeldIsClaimed(s, i);
      if OnCard(s.db, s.procs[i].pid, card) { assert Records(s, s.procs[i].pid, s.procs[i].msats); }
    }
  }

  lemma CallbackReport(s: Sys, i: nat, x: Input, card: nat)
    requires i < |s.procs|
    ensures ReportsHeld(s, StepCallback(s, i, x), card)
  {
  }

  lemma TapWaitReport(s: Sys, i: nat, x: Input, card: nat)
    requires i < |s.procs|
    ensures ReportsHeld(s, StepTap(s, i, x), card) && ReportsHeld(s, StepWait(s, i, x), card)
  {
  }

  lemma RequestReport(s: Sys, e: Event, card: nat)
    requires !e.Move?
    ensures ReportsHeld(s, Next(s, e), card)
  {
  }

  lemma NewReport(s: Sys, e: Event, card: nat)
    requires AgreeOk(s, card)
    ensures ReportsHeld(s, Next(s, e), card)
  {
    if !e.Move? {
      RequestReport(s, e, card);
    } else if e.i < |s.procs| {
      TapWaitReport(s, e.i, e.x, card);
      CallbackReport(s, e.i, e.x, card);
      if s.procs[e.i].Paying? || s.procs[e.i].Watching? { NodeReport(s, e.i, e.x, card); }
    }
  }

  lemma NextFailed(s: Sys, e: Event, card: nat)
    requires AgreeOk(s, card) && FailedOk(s, card) && ReportedFor(card)(s, e)
    ensures FailedOk(Next(s, e), card)
  {
    var t := Next(s, e);
    NewReport(s, e, card);
    forall j: nat | j < |t.log| && t.log[j].Reported? && t.log[j].status == Failed && t.log[j].card == card
      ensures t.log[j].pid < |t.db.payments|
      ensures HeldFailed(t.db.payments[t.log[j].pid], card, t.log[j].msats)
    {
      if j < |s.log| { FailedHolds(s, e, s.log[j].pid, card, s.log[j].msats); }
    }
  }

  predicate FailuresOk(s: Sys, card: nat) {
    AgreeOk(s, card) && FailedOk(s, card)
  }

  lemma {:induction false} RunFailed(s: Sys, es: seq<Event>, card: nat)
    requires FailuresOk(s, card) && Respects(s, es, ReportedFor(card))
    ensures FailuresOk(Run(s, es), card)
    decreases |es|
  {
    if es != [] {
      NextFailed(s, es[0], card);
      NextAgree(s, es[0], card);
      RunFailed(Next(s, es[0]), es[1..], card);
    }
  }

  lemma StartFailed(card: nat)
    ensures FailuresOk(INIT, card)
  {
    StartAgree(card);
  }

  lemma FailedRow(s: Sys, j: nat, now: int)
    requires j < |s.log| && s.log[j].Reported?
    requires FailedOk(s, s.log[j].card) && s.log[j].status == Failed
    ensures s.log[j].pid < |s.db.payments| && s.db.payments[s.log[j].pid].payTime.Some?
    ensures var e := s.log[j]; Balance(s.db, e.card) == Balance(Without(s.db, e.pid), e.card)
    ensures var e := s.log[j];
            DayMsats(s.db, e.card, now) == DayMsats(Without(s.db, e.pid), e.card, now)
                                           + if s.db.payments[e.pid].payTime.value > now - DAY then e.msats else 0
  {
    WithoutRow(s.db, s.log[j].pid, s.log[j].card, now);
  }

  /**
   After the node reports FAILED the balance drops the row for good, while its day still counts the amount: in every run
   that is exact for the card and whose node does not take its reports back.
   */
  lemma FailureKeepsTheDay(es: seq<Event>, s: Sys, j: nat, now: int)
    requires s == Run(INIT, es) && j < |s.log| && s.log[j].Reported? && s.log[j].status == Failed
    requires Respects(INIT, es, ReportedFor(s.log[j].card))
    ensures s.log[j].pid < |s.db.payments| && s.db.payments[s.log[j].pid].payTime.Some?
    ensures var e := s.log[j]; Balance(s.db, e.card) == Balance(Without(s.db, e.pid), e.card)
    ensures var e := s.log[j];
            DayMsats(s.db, e.card, now) == DayMsats(Without(s.db, e.pid), e.card, now)
                                           + if s.db.payments[e.pid].payTime.value > now - DAY then e.msats else 0
  {
    StartFailed(s.log[j].card);
    RunFailed(INIT, es, s.log[j].card);
    FailedRow(s, j, now);
  }
}
