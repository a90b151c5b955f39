/**
 What an event does to the amounts on the payment rows, and the rules that say exactly when it does no harm to the
 amounts the limits are measured with.
 */
module Amounts {
  import opened Sums
  import opened Tables
  import opened System

  // ---------- claims ----------

  /** The event is a routed callback that the rules grant. */
  predicate IsClaim(s: Sys, e: Event) {
    && e.Move? && e.i < |s.procs| && s.procs[e.i].CbRouted? && s.procs[e.i].pid < |s.notes|
    && Judge(s.db, s.procs[e.i].pid, TruncDiv(s.procs[e.i].msats, 1000), !s.procs[e.i].hub, e.x.now).Granted?
  }

  /** A claim marks one unpaid row with its time, sets one note and logs one entry, for the amount the process holds. */
  lemma ClaimWrites(s: Sys, e: Event)
    requires IsClaim(s, e)
    ensures var p, t := s.procs[e.i], Next(s, e);
            && p.pid < |s.db.payments| && !s.db.payments[p.pid].paid
            && var q := s.db.payments[p.pid];
               && q.cardId < |s.db.cards|
               && t.db == s.db.(payments := s.db.payments[p.pid := q.(paid := true, payTime := Some(e.x.now))])
               && t.notes == s.notes[p.pid := s.notes[p.pid].(claim := Some(|s.log|))]
               && t.log == s.log + [Claimed(p.pid, q.cardId, p.msats, e.x.now, !p.hub,
                                            s.db.cards[q.cardId].dayLimitSats, s.db.cards[q.cardId].txLimitSats,
                                            p.pin)]
               && t.procs == s.procs[e.i := CbClaimed(p.pid, p.msats, p.hub)]
  {
  }

  /** What a step writes in the log: nothing, or one entry. */
  predicate OneEntry(s: Sys, t: Sys) {
    s.log <= t.log && |t.log| <= |s.log| + 1
  }

  /** What t adds to the log is no claim. */
  predicate NoClaim(s: Sys, t: Sys) {
    OneEntry(s, t) && (|t.log| > |s.log| ==> !t.log[|s.log|].Claimed?)
  }

  lemma OtherLog(s: Sys, i: nat, x: Input)
    requires i < |s.procs|
    ensures NoClaim(s, StepTap(s, i, x)) && NoClaim(s, StepWait(s, i, x)) && NoClaim(s, StepNode(s, i, x))
  {
  }

  lemma CallbackLog(s: Sys, i: nat, x: Input)
    requires i < |s.procs| && !s.procs[i].CbRouted?
    ensures NoClaim(s, StepCallback(s, i, x))
  {
  }

  lemma RequestLog(s: Sys, e: Event)
    requires !e.Move?
    ensures NoClaim(s, Next(s, e))
  {
  }

  lemma RoutedLog(s: Sys, e: Event)
    requires e.Move? && e.i < |s.procs| && s.procs[e.i].CbRouted? && !IsClaim(s, e)
    ensures NoClaim(s, Next(s, e))
  {
  }

  /** One entry at most is logged, and it is a claim exactly when the event is one. */
  predicate LogAfter(s: Sys, e: Event, t: Sys) {
    && OneEntry(s, t) && (!IsClaim(s, e) ==> NoClaim(s, t))
    && (IsClaim(s, e) ==>
          && |t.log| == |s.log| + 1 && t.log[|s.log|].Claimed?
          && t.log[|s.log|].pid == s.procs[e.i].pid && t.log[|s.log|].msats == s.procs[e.i].msats
          && t.log[|s.log|].card == s.db.payments[s.procs[e.i].pid].cardId
          && t.log[|s.log|].checked == !s.procs[e.i].hub)
  }

  lemma NextLog(s: Sys, e: Event)
    ensures LogAfter(s, e, Next(s, e))
  {
    if IsClaim(s, e) {
      ClaimWrites(s, e);
    } else if !e.Move? {
      RequestLog(s, e);
    } else if e.i < |s.procs| {
      OtherLog(s, e.i, e.x);
      if s.procs[e.i].CbRouted? { RoutedLog(s, e); } else { CallbackLog(s, e.i, e.x); }
    }
  }

  // ---------- amounts ----------

  /** The event is a callback recording its invoice on row k. */
  predicate Invoices(s: Sys, e: Event, k: nat) {
    e.Move? && e.i < |s.procs| && s.procs[e.i] == CbInTime(k) && e.x.msats > 0
  }

  /** The event takes the amount off row k: a wrong PIN on an unpaid row, or a release. */
  predicate Clears(s: Sys, e: Event, k: nat)
    requires k < |s.db.payments|
  {
    && e.Move? && e.i < |s.procs|
    && ((s.procs[e.i] == CbWrongPin(k) && !s.db.payments[k].paid)
        || (s.procs[e.i].WaitDropped? && s.procs[e.i].pid == k && s.db.payments[k].status == Blank))
  }

  function AmountAfter(s: Sys, e: Event, k: nat): Option<int>
    requires k < |s.db.payments|
  {
    if Invoices(s, e, k) then Some(e.x.msats) else if Clears(s, e, k) then None else s.db.payments[k].amount
  }

  predicate AmountsAfter(s: Sys, e: Event, t: Sys) {
    && |s.db.payments| <= |t.db.payments| <= |s.db.payments| + 1
    && (forall k: nat | k < |s.db.payments| ::
          && t.db.payments[k].amount == AmountAfter(s, e, k) && t.db.payments[k].cardId == s.db.payments[k].cardId
          && (s.db.payments[k].paid ==> t.db.payments[k].paid))
    && (forall k: nat | |s.db.payments| <= k < |t.db.payments| :: t.db.payments[k].amount.None?)
  }

  lemma InvoiceAmounts(s: Sys, i: nat, x: Input)
    requires i < |s.procs| && s.procs[i].CbInTime?
    ensures AmountsAfter(s, Move(i, x), StepCallback(s, i, x))
  {
  }

  lemma SpoilAmounts(s: Sys, i: nat, x: Input)
    requires i < |s.procs| && s.procs[i].CbWrongPin?
    ensures AmountsAfter(s, Move(i, x), StepCallback(s, i, x))
  {
  }

  lemma RoutedAmounts(s: Sys, i: nat, x: Input)
    requires i < |s.procs| && s.procs[i].CbRouted?
    ensures AmountsAfter(s, Move(i, x), StepCallback(s, i, x))
  {
  }

  lemma CallbackAmounts(s: Sys, i: nat, x: Input)
    requires i < |s.procs| && !s.procs[i].CbInTime? && !s.procs[i].CbWrongPin? && !s.procs[i].CbRouted?
    requires !s.procs[i].WaitDropped?
    ensures AmountsAfter(s, Move(i, x), StepCallback(s, i, x))
  {
  }

  lemma TapAmounts(s: Sys, i: nat, x: Input)
    requires i < |s.procs|
    requires IsTap(s.procs[i])
    ensures AmountsAfter(s, Move(i, x), StepTap(s, i, x))
  {
  }

  lemma WaitAmounts(s: Sys, i: nat, x: Input)
    requires i < |s.procs|
    requires s.procs[i].WaitAsked? || s.procs[i].WaitTokened? || s.procs[i].WaitPolling? || s.procs[i].WaitDropped?
    ensures AmountsAfter(s, Move(i, x), StepWait(s, i, x))
  {
  }

  lemma NodeAmounts(s: Sys, i: nat, x: Input)
    requires i < |s.procs| && (s.procs[i].Paying? || s.procs[i].Watching?)
    ensures AmountsAfter(s, Move(i, x), StepNode(s, i, x))
  {
  }

  lemma RequestAmounts(s: Sys, e: Event)
    requires !e.Move?
    ensures AmountsAfter(s, e, Next(s, e))
  {
  }

  /** Two kinds of event change an amount: a callback records its invoice, a spoiled or released row loses it. */
  lemma NextAmounts(s: Sys, e: Event)
    ensures AmountsAfter(s, e, Next(s, e))
  {
    if !e.Move? {
      RequestAmounts(s, e);
    } else if e.i < |s.procs| {
      var i, x, p := e.i, e.x, s.procs[e.i];
      if IsTap(p) { TapAmounts(s, i, x); }
      else if p.WaitAsked? || p.WaitTokened? || p.WaitPolling? || p.WaitDropped? { WaitAmounts(s, i, x); }
      else if p.Paying? || p.Watching? { NodeAmounts(s, i, x); }
      else if p.CbInTime? { InvoiceAmounts(s, i, x); }
      else if p.CbWrongPin? { SpoilAmounts(s, i, x); }
      else if p.CbRouted? { RoutedAmounts(s, i, x); }
      else { CallbackAmounts(s, i, x); }
    }
  }

  /** The table's own CHECK: a recorded amount is positive. */
  predicate Positive(db: Db) {
    forall k | 0 <= k < |db.payments| && db.payments[k].amount.Some? :: db.payments[k].amount.value > 0
  }

  lemma NextPositive(s: Sys, e: Event)
    requires Positive(s.db)
    ensures Positive(Next(s, e).db)
  {
    NextAmounts(s, e);
  }

  // ---------- the rules ----------

  /** The event claims a row of the card. */
  predicate Claims(s: Sys, e: Event, card: nat) {
    IsClaim(s, e) && s.db.payments[s.procs[e.i].pid].cardId == card
  }

  /** The event records an invoice on a row of the card that has been claimed. */
  predicate InvoicesClaimed(s: Sys, e: Event, card: nat) {
    && e.Move? && e.i < |s.procs| && s.procs[e.i].CbInTime? && s.procs[e.i].pid < |s.db.payments| && e.x.msats > 0
    && s.db.payments[s.procs[e.i].pid].cardId == card && s.db.payments[s.procs[e.i].pid].payTime.Some?
  }

  /** The same, of a row that has not failed and so counts in the balance. */
  predicate InvoicesCounted(s: Sys, e: Event, card: nat) {
    InvoicesClaimed(s, e, card) && s.db.payments[s.procs[e.i].pid].status != Failed
  }

  /** A claim on the card finds no more on its row than it was measured with, an invoice raises no claimed row of it. */
  predicate SoundOn(s: Sys, e: Event, card: nat) {
    && (Claims(s, e, card) ==> Msats(s.db.payments[s.procs[e.i].pid]) <= s.procs[e.i].msats)
    && (InvoicesClaimed(s, e, card) ==> e.x.msats <= Msats(s.db.payments[s.procs[e.i].pid]))
  }

  /** A claim on the card finds the very amount it was measured with, an invoice leaves a claimed row of it as it is. */
  predicate ExactOn(s: Sys, e: Event, card: nat) {
    && (Claims(s, e, card) ==> s.db.payments[s.procs[e.i].pid].amount == Some(s.procs[e.i].msats))
    && (InvoicesClaimed(s, e, card) ==> s.db.payments[s.procs[e.i].pid].amount == Some(e.x.msats))
  }

  /** SoundOn and ExactOn as the balance needs them: rows that have failed are free. */
  predicate BalancedOn(s: Sys, e: Event, card: nat) {
    && (Claims(s, e, card) ==> Msats(s.db.payments[s.procs[e.i].pid]) <= s.procs[e.i].msats)
    && (InvoicesCounted(s, e, card) ==> e.x.msats <= Msats(s.db.payments[s.procs[e.i].pid]))
  }

  predicate MatchedOn(s: Sys, e: Event, card: nat) {
    && (Claims(s, e, card) ==> s.db.payments[s.procs[e.i].pid].amount == Some(s.procs[e.i].msats))
    && (InvoicesCounted(s, e, card) ==> s.db.payments[s.procs[e.i].pid].amount == Some(e.x.msats))
  }

  /** ExactOn for every card. */
  predicate Exact(s: Sys, e: Event) {
    && (IsClaim(s, e) ==> ExactOn(s, e, s.db.payments[s.procs[e.i].pid].cardId))
    && (e.Move? && e.i < |s.procs| && s.procs[e.i].CbInTime? && s.procs[e.i].pid < |s.db.payments| ==>
          ExactOn(s, e, s.db.payments[s.procs[e.i].pid].cardId))
  }

  function SoundFor(card: nat): (Sys, Event) -> bool {
    (s: Sys, e: Event) => SoundOn(s, e, card)
  }

  function ExactFor(card: nat): (Sys, Event) -> bool {
    (s: Sys, e: Event) => ExactOn(s, e, card)
  }

  /** How the rules follow from each other. */
  lemma RulesFollow(s: Sys, e: Event, card: nat)
    ensures Exact(s, e) ==> ExactOn(s, e, card)
    ensures ExactOn(s, e, card) ==> SoundOn(s, e, card) && MatchedOn(s, e, card)
    ensures SoundOn(s, e, card) || MatchedOn(s, e, card) ==> BalancedOn(s, e, card)
  {
  }

  lemma ExactRunIsExactFor(s: Sys, es: seq<Event>, card: nat)
    requires Respects(s, es, Exact)
    ensures Respects(s, es, ExactFor(card))
  {
    forall u, e ensures Exact(u, e) ==> ExactFor(card)(u, e) { RulesFollow(u, e, card); }
    RespectsLess(s, es, Exact, ExactFor(card));
  }

  lemma ExactRunIsSound(s: Sys, es: seq<Event>, card: nat)
    requires Respects(s, es, ExactFor(card))
    ensures Respects(s, es, SoundFor(card))
  {
    forall u, e ensures ExactFor(card)(u, e) ==> SoundFor(card)(u, e) { RulesFollow(u, e, card); }
    RespectsLess(s, es, ExactFor(card), SoundFor(card));
  }

  // ---------- the rules are exact ----------

  /** No claimed row of the card records more than before, and a new claim on it covers what its row records. */
  predicate KeptOn(s: Sys, t: Sys, card: nat) {
    && |s.db.payments| <= |t.db.payments|
    && (forall k | 0 <= k < |s.db.payments| && s.db.payments[k].cardId == card && s.db.payments[k].payTime.Some? ::
          Msats(t.db.payments[k]) <= Msats(s.db.payments[k]))
    && (forall j | |s.log| <= j < |t.log| && t.log[j].Claimed? && t.log[j].card == card ::
          t.log[j].pid < |t.db.payments| && Msats(t.db.payments[t.log[j].pid]) <= t.log[j].msats)
  }

  /** A claimed row of the card keeps its amount or loses it, and a new claim is for what its row records. */
  predicate SteadyOn(s: Sys, t: Sys, card: nat) {
    && |s.db.payments| <= |t.db.payments|
    && (forall k | 0 <= k < |s.db.payments| && s.db.payments[k].cardId == card && s.db.payments[k].payTime.Some? ::
          t.db.payments[k].amount == s.db.payments[k].amount || t.db.payments[k].amount.None?)
    && (forall j | |s.log| <= j < |t.log| && t.log[j].Claimed? && t.log[j].card == card ::
          t.log[j].pid < |t.db.payments| && t.db.payments[t.log[j].pid].amount == Some(t.log[j].msats))
  }

  lemma KeptAfter(s: Sys, e: Event, t: Sys, card: nat)
    requires Positive(s.db) && LogAfter(s, e, t) && AmountsAfter(s, e, t)
    ensures KeptOn(s, t, card) <==> SoundOn(s, e, card)
  {
    if InvoicesClaimed(s, e, card) { assert t.db.payments[s.procs[e.i].pid].amount == Some(e.x.msats); }
    if IsClaim(s, e) { assert t.log[|s.log|].pid == s.procs[e.i].pid; }
  }

  /** A card's claimed rows never rise and every claim on it is covered if and only if the event is sound for it. */
  lemma KeptIffSound(s: Sys, e: Event, card: nat)
    requires Positive(s.db)
    ensures KeptOn(s, Next(s, e), card) <==> SoundOn(s, e, card)
  {
    NextLog(s, e);
    NextAmounts(s, e);
    KeptAfter(s, e, Next(s, e), card);
  }

  lemma SteadyAfter(s: Sys, e: Event, t: Sys, card: nat)
    requires LogAfter(s, e, t) && AmountsAfter(s, e, t)
    ensures SteadyOn(s, t, card) <==> ExactOn(s, e, card)
  {
    if InvoicesClaimed(s, e, card) { assert t.db.payments[s.procs[e.i].pid].amount == Some(e.x.msats); }
    if IsClaim(s, e) { assert t.log[|s.log|].pid == s.procs[e.i].pid; }
  }

  /** The amounts of a card's claimed rows stand and every claim on it is exact if and only if the event is, for it. */
  lemma SteadyIffExact(s: Sys, e: Event, card: nat)
    ensures SteadyOn(s, Next(s, e), card) <==> ExactOn(s, e, card)
  {
    NextLog(s, e);
    NextAmounts(s, e);
    SteadyAfter(s, e, Next(s, e), card);
  }

  /** An amount that leaves a claimed row under the exact rule is taken off it by a release. */
  lemma ExactAmount(s: Sys, e: Event, k: nat)
    requires k < |s.db.payments| && s.db.payments[k].payTime.Some? && s.db.payments[k].paid
    requires ExactOn(s, e, s.db.payments[k].cardId)
    ensures k < |Next(s, e).db.payments|
    ensures Next(s, e).db.payments[k].amount == s.db.payments[k].amount
            || (Next(s, e).db.payments[k].amount.None?
                && e.Move? && e.i < |s.procs| && s.procs[e.i].WaitDropped? && s.procs[e.i].pid == k)
  {
    NextAmounts(s, e);
  }
}
