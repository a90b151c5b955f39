/**
 What runs under a card's rules keep: a claim on the card stays recorded, with the amount it was measured with, for as
 long as somebody holds it and for ever once its payment has been started; a released row of the card records nothing.
 */
module Agree {
  import opened Sums
  import opened Tables
  import opened System
  import opened Spent
  import opened Hands
  import opened Outcomes
  import opened Amounts

  /** The claim on the row was for this amount. */
  predicate Backed(s: Sys, pid: nat, msats: int) {
    && pid < |s.notes| && s.notes[pid].claim.Some? && s.notes[pid].claim.value < |s.log|
    && s.log[s.notes[pid].claim.value].Claimed? && s.log[s.notes[pid].claim.value].msats == msats
  }

  /** And the row still records it. */
  predicate Records(s: Sys, pid: nat, msats: int) {
    pid < |s.db.payments| && s.db.payments[pid].amount == Some(msats) && Backed(s, pid, msats)
  }

  predicate OnCard(db: Db, pid: nat, card: nat) {
    pid < |db.payments| && db.payments[pid].cardId == card
  }

  predicate HoldersOk(s: Sys, card: nat) {
    forall i | 0 <= i < |s.procs| && Ticket(s.procs[i]) && OnCard(s.db, s.procs[i].pid, card) ::
      Records(s, s.procs[i].pid, s.procs[i].msats)
  }

  predicate StartedRow(s: Sys, pid: nat) {
    && pid < |s.db.payments| && s.db.payments[pid].amount.Some?
    && Backed(s, pid, s.db.payments[pid].amount.value)
  }

  predicate StartedOk(s: Sys, card: nat) {
    forall j | 0 <= j < |s.log| && s.log[j].PayStarted? && OnCard(s.db, s.log[j].pid, card) ::
      StartedRow(s, s.log[j].pid)
  }

  predicate ErasedOk(s: Sys, card: nat) {
    forall j | 0 <= j < |s.log| && s.log[j].Released? && OnCard(s.db, s.log[j].pid, card) ::
      s.db.payments[s.log[j].pid].amount.None?
  }

  predicate AgreeOk(s: Sys, card: nat) {
    && OutcomesOk(s) && HandsOk(s) && Positive(s.db)
    && HoldersOk(s, card) && StartedOk(s, card)
  }

  // ---------- holders ----------

  lemma RecordsStay(s: Sys, t: Sys, pid: nat, msats: int)
    requires Records(s, pid, msats) && NotesGrow(s, t) && s.log <= t.log
    requires pid < |t.db.payments| && t.db.payments[pid].amount == s.db.payments[pid].amount
    ensures Records(t, pid, msats)
  {
  }

  /** Whoever holds a claim in t held it in s, for the same amount, and was not about to release it. */
  predicate SameHolders(s: Sys, t: Sys) {
    && NotesGrow(s, t) && s.log <= t.log && |s.procs| <= |t.procs|
    && (forall i | 0 <= i < |s.procs| && Ticket(t.procs[i]) ::
          Ticket(s.procs[i]) && t.procs[i].pid == s.procs[i].pid && t.procs[i].msats == s.procs[i].msats)
    && (forall i | |s.procs| <= i < |t.procs| :: !Ticket(t.procs[i]))
  }

  lemma TapHolders(s: Sys, i: nat, x: Input)
    requires i < |s.procs|
    ensures SameHolders(s, StepTap(s, i, x))
  {
  }

  lemma SpoilHolders(s: Sys, i: nat, x: Input)
    requires i < |s.procs| && (s.procs[i].CbInTime? || s.procs[i].CbWrongPin?)
    ensures SameHolders(s, StepCallback(s, i, x))
  {
  }

  lemma CallbackHolders(s: Sys, i: nat, x: Input)
    requires i < |s.procs| && !s.procs[i].CbRouted? && !s.procs[i].CbInTime? && !s.procs[i].CbWrongPin?
    ensures SameHolders(s, StepCallback(s, i, x))
  {
  }

  lemma RefusedHolders(s: Sys, e: Event)
    requires e.Move? && e.i < |s.procs| && s.procs[e.i].CbRouted? && !IsClaim(s, e)
    ensures SameHolders(s, Next(s, e))
  {
  }

  lemma WaitHolders(s: Sys, i: nat, x: Input)
    requires i < |s.procs|
    ensures SameHolders(s, StepWait(s, i, x))
  {
  }

  lemma NodeHolders(s: Sys, i: nat, x: Input)
    requires i < |s.procs|
    ensures SameHolders(s, StepNode(s, i, x))
  {
  }

  lemma RequestHolders(s: Sys, e: Event)
    requires !e.Move?
    ensures SameHolders(s, Next(s, e))
  {
  }

  lemma NextSameHolders(s: Sys, e: Event)
    requires !IsClaim(s, e)
    ensures SameHolders(s, Next(s, e))
  {
    if !e.Move? {
      RequestHolders(s, e);
    } else if e.i < |s.procs| {
      var i, x := e.i, e.x;
      TapHolders(s, i, x);
      WaitHolders(s, i, x);
      NodeHolders(s, i, x);
      if s.procs[i].CbRouted? { RefusedHolders(s, e); }
      else if s.procs[i].CbInTime? || s.procs[i].CbWrongPin? { SpoilHolders(s, i, x); }
      else { CallbackHolders(s, i, x); }
    }
  }

  lemma DropEnds(s: Sys, i: nat, x: Input)
    requires i < |s.procs| && s.procs[i].WaitDropped?
    ensures Step(s, i, x).procs == s.procs[i := Done]
  {
  }

  /** A row stays on its card. */
  lemma SameCard(s: Sys, e: Event, pid: nat, card: nat)
    requires pid < |s.db.payments|
    ensures OnCard(Next(s, e).db, pid, card) <==> OnCard(s.db, pid, card)
  {
    NextAmounts(s, e);
  }

  lemma HeldIsClaimed(s: Sys, i: nat)
    requires RowsOk(s) && TicketsOk(s) && i < |s.procs| && Ticket(s.procs[i])
    ensures s.procs[i].pid < |s.db.payments|
    ensures s.db.payments[s.procs[i].pid].payTime.Some? && s.db.payments[s.procs[i].pid].paid
  {
    assert RowOk(s, s.procs[i].pid);
  }

  /** The amount a holder's row records stands while anything happens but that holder's own release. */
  lemma HeldAmountStands(s: Sys, e: Event, j: nat)
    requires RowsOk(s) && TicketsOk(s) && j < |s.procs| && Ticket(s.procs[j])
    requires s.procs[j].pid < |s.db.payments| && ExactOn(s, e, s.db.payments[s.procs[j].pid].cardId)
    requires !(e.Move? && e.i == j && s.procs[j].WaitDropped?)
    ensures var pid := s.procs[j].pid;
            && pid < |Next(s, e).db.payments|
            && Next(s, e).db.payments[pid].amount == s.db.payments[pid].amount
  {
    HeldIsClaimed(s, j);
    ExactAmount(s, e, s.procs[j].pid);
  }

  lemma OldHolder(s: Sys, e: Event, card: nat, t: Sys, j: nat)
    requires RowsOk(s) && TicketsOk(s) && HoldersOk(s, card) && ExactOn(s, e, card) && t == Next(s, e)
    requires j < |s.procs| && Ticket(s.procs[j]) && OnCard(t.db, s.procs[j].pid, card)
    requires NotesGrow(s, t) && s.log <= t.log && !(e.Move? && e.i == j && s.procs[j].WaitDropped?)
    ensures Records(t, s.procs[j].pid, s.procs[j].msats)
  {
    HeldIsClaimed(s, j);
    SameCard(s, e, s.procs[j].pid, card);
    HeldAmountStands(s, e, j);
    RecordsStay(s, t, s.procs[j].pid, s.procs[j].msats);
  }

  lemma OtherHolders(s: Sys, e: Event, card: nat)
    requires RowsOk(s) && TicketsOk(s) && HoldersOk(s, card) && ExactOn(s, e, card) && !IsClaim(s, e)
    ensures HoldersOk(Next(s, e), card)
  {
    var t := Next(s, e);
    NextSameHolders(s, e);
    if e.Move? && e.i < |s.procs| && s.procs[e.i].WaitDropped? { DropEnds(s, e.i, e.x); }
    forall j: nat | j < |t.procs| && Ticket(t.procs[j]) && OnCard(t.db, t.procs[j].pid, card)
      ensures Records(t, t.procs[j].pid, t.procs[j].msats)
    {
      OldHolder(s, e, card, t, j);
    }
  }

  lemma ClaimGrows(s: Sys, e: Event)
    requires RowsOk(s) && IsClaim(s, e)
    ensures NotesGrow(s, Next(s, e)) && s.log <= Next(s, e).log
  {
    ClaimWrites(s, e);
    assert RowOk(s, s.procs[e.i].pid);
  }

  /** The claimer is a new holder, and its row records what it has just claimed. */
  lemma ClaimerHolds(s: Sys, e: Event, card: nat)
    requires RowsOk(s) && ExactOn(s, e, card) && Claims(s, e, card)
    ensures var q := Next(s, e).procs[e.i];
            e.i < |Next(s, e).procs| && q.CbClaimed? && Records(Next(s, e), q.pid, q.msats)
  {
    ClaimWrites(s, e);
  }

  lemma ClaimHolders(s: Sys, e: Event, card: nat)
    requires RowsOk(s) && TicketsOk(s) && HoldersOk(s, card) && ExactOn(s, e, card) && IsClaim(s, e)
    ensures HoldersOk(Next(s, e), card)
  {
    var t := Next(s, e);
    ClaimGrows(s, e);
    ClaimWrites(s, e);
    forall j: nat | j < |t.procs| && Ticket(t.procs[j]) && OnCard(t.db, t.procs[j].pid, card)
      ensures Records(t, t.procs[j].pid, t.procs[j].msats)
    {
      if j == e.i { ClaimerHolds(s, e, card); } else { OldHolder(s, e, card, t, j); }
    }
  }

  lemma NextHolders(s: Sys, e: Event, card: nat)
    requires RowsOk(s) && TicketsOk(s) && HoldersOk(s, card) && ExactOn(s, e, card)
    ensures HoldersOk(Next(s, e), card)
  {
    if IsClaim(s, e) { ClaimHolders(s, e, card); } else { OtherHolders(s, e, card); }
  }

  lemma NextGrows(s: Sys, e: Event)
    requires RowsOk(s)
    ensures NotesGrow(s, Next(s, e)) && s.log <= Next(s, e).log
  {
    if IsClaim(s, e) { ClaimGrows(s, e); } else { NextSameHolders(s, e); }
  }

  // ---------- started payments ----------

  lemma StartedIsClaimed(s: Sys, j: nat)
    requires RowsOk(s) && StartsOk(s) && j < |s.log| && s.log[j].PayStarted?
    ensures s.log[j].pid < |s.db.payments|
    ensures s.db.payments[s.log[j].pid].payTime.Some? && s.db.payments[s.log[j].pid].paid
  {
    assert RowOk(s, s.log[j].pid);
  }

  lemma StartedAmountStands(s: Sys, e: Event, j: nat)
    requires RowsOk(s) && StartsOk(s) && ReleasesOk(s) && j < |s.log| && s.log[j].PayStarted?
    requires s.log[j].pid < |s.db.payments| && ExactOn(s, e, s.db.payments[s.log[j].pid].cardId)
    ensures var pid := s.log[j].pid;
            && pid < |Next(s, e).db.payments|
            && Next(s, e).db.payments[pid].amount == s.db.payments[pid].amount
  {
    StartedIsClaimed(s, j);
    ExactAmount(s, e, s.log[j].pid);
  }

  lemma OldStarted(s: Sys, t: Sys, pid: nat)
    requires StartedRow(s, pid) && NotesGrow(s, t) && s.log <= t.log
    requires pid < |t.db.payments| && t.db.payments[pid].amount == s.db.payments[pid].amount
    ensures StartedRow(t, pid)
  {
  }

  /** A payment is started by whoever holds the claim, and that step writes nothing. */
  predicate StartedByHolder(s: Sys, t: Sys, i: nat)
    requires i < |s.procs|
  {
    && s.log <= t.log
    && forall j | |s.log| <= j < |t.log| && t.log[j].PayStarted? ::
         && MayPay(s.procs[i]) && t.log[j].pid == s.procs[i].pid && t.db == s.db && t.notes == s.notes
  }

  lemma OtherStarts(s: Sys, i: nat, x: Input)
    requires i < |s.procs|
    ensures StartedByHolder(s, StepTap(s, i, x), i) && StartedByHolder(s, StepWait(s, i, x), i)
    ensures StartedByHolder(s, StepNode(s, i, x), i)
  {
  }

  lemma CallbackStarts(s: Sys, i: nat, x: Input)
    requires i < |s.procs|
    ensures StartedByHolder(s, StepCallback(s, i, x), i)
  {
  }

  lemma RequestStarts(s: Sys, e: Event, j: nat)
    requires !e.Move? && |s.log| <= j < |Next(s, e).log|
    ensures !Next(s, e).log[j].PayStarted?
  {
  }

  lemma StepNewStarted(s: Sys, i: nat, x: Input, card: nat, j: nat)
    requires HoldersOk(s, card) && i < |s.procs| && |s.log| <= j < |Step(s, i, x).log|
    requires Step(s, i, x).log[j].PayStarted? && OnCard(Step(s, i, x).db, Step(s, i, x).log[j].pid, card)
    ensures StartedRow(Step(s, i, x), Step(s, i, x).log[j].pid)
  {
    OtherStarts(s, i, x);
    CallbackStarts(s, i, x);
    assert Records(s, s.procs[i].pid, s.procs[i].msats);
  }

  lemma AnyStarted(s: Sys, e: Event, card: nat, t: Sys, j: nat)
    requires Once(s) && ReleasesOk(s) && HoldersOk(s, card) && StartedOk(s, card) && ExactOn(s, e, card)
    requires t == Next(s, e) && NotesGrow(s, t) && s.log <= t.log
    requires j < |t.log| && t.log[j].PayStarted? && OnCard(t.db, t.log[j].pid, card)
    ensures StartedRow(t, t.log[j].pid)
  {
    if j < |s.log| {
      StartedIsClaimed(s, j);
      SameCard(s, e, s.log[j].pid, card);
      StartedAmountStands(s, e, j);
      OldStarted(s, t, s.log[j].pid);
    } else if !e.Move? {
      RequestStarts(s, e, j);
    } else if e.i < |s.procs| {
      StepNewStarted(s, e.i, e.x, card, j);
    }
  }

  lemma NextStarted(s: Sys, e: Event, card: nat)
    requires Once(s) && ReleasesOk(s) && HoldersOk(s, card) && StartedOk(s, card) && ExactOn(s, e, card)
    ensures StartedOk(Next(s, e), card)
  {
    var t := Next(s, e);
    NextGrows(s, e);
    forall j: nat | j < |t.log| && t.log[j].PayStarted? && OnCard(t.db, t.log[j].pid, card)
      ensures StartedRow(t, t.log[j].pid)
    {
      AnyStarted(s, e, card, t, j);
    }
  }

  // ---------- released rows ----------

  /** A sound event records nothing on a released row. */
  lemma OldErased(s: Sys, e: Event, card: nat, j: nat)
    requires RowsOk(s) && ReleasesOk(s) && ErasedOk(s, card) && SoundOn(s, e, card)
    requires j < |s.log| && s.log[j].Released? && OnCard(s.db, s.log[j].pid, card)
    ensures s.log[j].pid < |Next(s, e).db.payments| && Next(s, e).db.payments[s.log[j].pid].amount.None?
  {
    assert RowOk(s, s.log[j].pid);
    NextAmounts(s, e);
  }

  predicate NewErased(s: Sys, t: Sys) {
    && s.log <= t.log
    && forall j | |s.log| <= j < |t.log| && t.log[j].Released? ::
         t.log[j].pid < |t.db.payments| && t.db.payments[t.log[j].pid].amount.None?
         && t.db.payments[t.log[j].pid].status == Failed
  }

  lemma StepErases(s: Sys, i: nat, x: Input)
    requires i < |s.procs|
    ensures NewErased(s, StepTap(s, i, x)) && NewErased(s, StepNode(s, i, x)) && NewErased(s, StepWait(s, i, x))
  {
  }

  lemma CallbackErases(s: Sys, i: nat, x: Input)
    requires i < |s.procs|
    ensures NewErased(s, StepCallback(s, i, x))
  {
  }

  lemma RequestErases(s: Sys, e: Event)
    requires !e.Move?
    ensures NewErased(s, Next(s, e))
  {
  }

  lemma NextNewErased(s: Sys, e: Event)
    ensures NewErased(s, Next(s, e))
  {
    if !e.Move? {
      RequestErases(s, e);
    } else if e.i < |s.procs| {
      StepErases(s, e.i, e.x);
      CallbackErases(s, e.i, e.x);
    }
  }

  lemma NextErased(s: Sys, e: Event, card: nat)
    requires RowsOk(s) && ReleasesOk(s) && ErasedOk(s, card) && SoundOn(s, e, card)
    ensures ErasedOk(Next(s, e), card)
  {
    var t := Next(s, e);
    NextNewErased(s, e);
    forall j: nat | j < |t.log| && t.log[j].Released? && OnCard(t.db, t.log[j].pid, card)
      ensures t.db.payments[t.log[j].pid].amount.None?
    {
      if j < |s.log| {
        SameCard(s, e, s.log[j].pid, card);
        OldErased(s, e, card, j);
      }
    }
  }

  // ---------- over every run ----------

  lemma NextAgree(s: Sys, e: Event, card: nat)
    requires AgreeOk(s, card) && ExactOn(s, e, card)
    ensures AgreeOk(Next(s, e), card)
  {
    NextKeepsOutcomes(s, e);
    NextKnown(s, e);
    NextPositive(s, e);
    NextHolders(s, e, card);
    NextStarted(s, e, card);
  }

  lemma {:induction false} RunAgree(s: Sys, es: seq<Event>, card: nat)
    requires AgreeOk(s, card) && Respects(s, es, ExactFor(card))
    ensures AgreeOk(Run(s, es), card)
    decreases |es|
  {
    if es != [] {
      NextAgree(s, es[0], card);
      RunAgree(Next(s, es[0]), es[1..], card);
    }
  }

  lemma EmptyAgree(s: Sys, card: nat)
    requires OutcomesOk(s) && HandsOk(s) && s.db == EMPTY_DB && s.log == [] && s.procs == []
    ensures AgreeOk(s, card)
  {
  }

  lemma StartAgree(card: nat)
    ensures AgreeOk(INIT, card)
  {
    StartOutcomes();
    StartKnown();
    EmptyAgree(INIT, card);
  }

  lemma ReachedAgree(es: seq<Event>, s: Sys, card: nat)
    requires Respects(INIT, es, ExactFor(card)) && s == Run(INIT, es)
    ensures AgreeOk(s, card)
  {
    StartAgree(card);
    RunAgree(INIT, es, card);
  }
}
