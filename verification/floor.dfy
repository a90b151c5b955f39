/** The floor under the balance of a card that must not go negative. */
module Floors {
  import opened Sums
  import opened Tables
  import opened System
  import opened Spent
  import opened Hands
  import opened Amounts
  import opened Ledger

  // ---------- the balance floor ----------

  /** The card must not go negative: every card but an existing one marked otherwise. */
  predicate Guarded(db: Db, card: nat) {
    card < |db.cards| ==> !db.cards[card].allowNegative
  }

  /** No payment of the card takes the lndhub path, which checks neither the day nor the balance. */
  predicate LndOnly(s: Sys, e: Event, card: nat) {
    e.Move? && e.i < |s.procs| && s.procs[e.i].CbRouted? && s.procs[e.i].hub && s.procs[e.i].pid < |s.db.payments| ==>
      s.db.payments[s.procs[e.i].pid].cardId != card
  }

  /** Invoices presented for the card are for whole satoshis. */
  predicate WholeInvoice(s: Sys, e: Event, card: nat) {
    (&& e.Move? && e.i < |s.procs| && s.procs[e.i].CbInTime? && s.procs[e.i].pid < |s.db.payments|
     && s.db.payments[s.procs[e.i].pid].cardId == card)
    ==> e.x.msats % 1000 == 0
  }

  function FloorRule(card: nat, whole: bool): (Sys, Event) -> bool {
    (s: Sys, e: Event) =>
      BalancedOn(s, e, card) && FinalStates(s, e) && LndOnly(s, e, card) && (whole ==> WholeInvoice(s, e, card))
  }

  function Floor(whole: bool): int {
    if whole then 0 else -1998
  }

  predicate ReceiptsWhole(s: Sys) {
    forall k | 0 <= k < |s.db.receipts| :: s.db.receipts[k].msats > 0 && s.db.receipts[k].msats % 1000 == 0
  }

  predicate PaymentsWhole(s: Sys, card: nat) {
    forall k | 0 <= k < |s.db.payments| && s.db.payments[k].cardId == card :: Msats(s.db.payments[k]) % 1000 == 0
  }

  predicate FloorOk(s: Sys, card: nat, whole: bool) {
    && KnownOk(s) && Positive(s.db) && ReceiptsWhole(s)
    && (whole ==> PaymentsWhole(s, card))
    && (Guarded(s.db, card) ==> Balance(s.db, card) >= Floor(whole))
  }

  lemma WholeBalance(s: Sys, card: nat)
    requires ReceiptsWhole(s) && PaymentsWhole(s, card)
    ensures Balance(s.db, card) % 1000 == 0
  {
    SumWhole(s.db.payments, DebitWeight(card));
    SumWhole(s.db.receipts, CreditWeight(card));
  }

  /** The arithmetic of the balance check: truncation lets at most 999 msat through on each side. */
  lemma CheckedClaimFloor(balance: int, msats: int, recorded: int)
    requires recorded <= msats && TruncDiv(balance, 1000) - TruncDiv(msats, 1000) >= 0
    ensures balance - recorded >= -1998
    ensures balance % 1000 == 0 && recorded % 1000 == 0 ==> balance - recorded >= 0
  {
    SatsBracketMsats(balance);
    SatsBracketMsats(msats);
  }

  // ---------- what lowers a balance ----------

  /** The rows process i works on weigh no less than before. */
  predicate NoLess(s: Sys, t: Sys, i: nat, card: nat)
    requires i < |s.procs|
  {
    DebitAt(t.db, PidOf(s.procs[i]), card) + CreditAt(t.db, RidOf(s.procs[i]), card)
    >= DebitAt(s.db, PidOf(s.procs[i]), card) + CreditAt(s.db, RidOf(s.procs[i]), card)
  }

  lemma TapNoLess(s: Sys, i: nat, x: Input, card: nat)
    requires i < |s.procs|
    requires IsTap(s.procs[i])
    ensures NoLess(s, StepTap(s, i, x), i, card)
  {
  }

  /** An invoice lowers no balance if and only if it records no more than a counted row does. */
  lemma InvoiceNoLess(s: Sys, i: nat, x: Input, card: nat)
    requires RowsOk(s) && Positive(s.db) && i < |s.procs| && s.procs[i].CbInTime?
    ensures NoLess(s, StepCallback(s, i, x), i, card) <==> BalancedOn(s, Move(i, x), card)
  {
    var k := s.procs[i].pid;
    if k < |s.db.payments| { assert RowOk(s, k); }
  }

  lemma SpoilNoLess(s: Sys, i: nat, x: Input, card: nat)
    requires Positive(s.db) && i < |s.procs| && s.procs[i].CbWrongPin?
    ensures NoLess(s, StepCallback(s, i, x), i, card)
  {
  }

  lemma CallbackNoLess(s: Sys, i: nat, x: Input, card: nat)
    requires i < |s.procs|
    requires s.procs[i].CbFound? || s.procs[i].CbRecorded? || s.procs[i].CbReady? || s.procs[i].CbClaimed?
    ensures NoLess(s, StepCallback(s, i, x), i, card)
  {
  }

  lemma RefusedNoLess(s: Sys, i: nat, x: Input, card: nat)
    requires RowsOk(s) && i < |s.procs| && s.procs[i].CbRouted? && !IsClaim(s, Move(i, x))
    ensures NoLess(s, StepCallback(s, i, x), i, card)
  {
  }

  lemma WaitNoLess(s: Sys, i: nat, x: Input, card: nat)
    requires Positive(s.db) && i < |s.procs|
    requires s.procs[i].WaitAsked? || s.procs[i].WaitTokened? || s.procs[i].WaitPolling? || s.procs[i].WaitDropped?
    ensures NoLess(s, StepWait(s, i, x), i, card)
  {
  }

  lemma NodeNoLess(s: Sys, i: nat, x: Input, card: nat)
    requires HandsOk(s) && Positive(s.db) && ReceiptsWhole(s) && FinalStates(s, Move(i, x)) && i < |s.procs|
    requires s.procs[i].Paying? || s.procs[i].Watching?
    ensures NoLess(s, StepNode(s, i, x), i, card)
  {
    assert HandOk(s.db, s.procs[i]);
  }

  lemma StepNoLess(s: Sys, i: nat, x: Input, card: nat)
    requires KnownOk(s) && Positive(s.db) && ReceiptsWhole(s) && i < |s.procs| && !IsClaim(s, Move(i, x))
    requires FinalStates(s, Move(i, x))
    ensures NoLess(s, Step(s, i, x), i, card) <==> BalancedOn(s, Move(i, x), card)
  {
    var p := s.procs[i];
    if IsTap(p) { TapNoLess(s, i, x, card); }
    else if p.WaitAsked? || p.WaitTokened? || p.WaitPolling? || p.WaitDropped? { WaitNoLess(s, i, x, card); }
    else if p.Paying? || p.Watching? { NodeNoLess(s, i, x, card); }
    else if p.CbRouted? { RefusedNoLess(s, i, x, card); }
    else if p.CbInTime? { InvoiceNoLess(s, i, x, card); }
    else if p.CbWrongPin? { SpoilNoLess(s, i, x, card); }
    else if PreClaim(p) || p.CbClaimed? { CallbackNoLess(s, i, x, card); }
  }

  lemma MovedNoLess(s: Sys, t: Sys, i: nat, card: nat)
    requires i < |s.procs| && Moved(s, t, i)
    ensures Balance(t.db, card) >= Balance(s.db, card) <==> NoLess(s, t, i, card)
  {
    DebitsElsewhere(s.db, t.db, PidOf(s.procs[i]), RidOf(s.procs[i]), card);
    CreditsElsewhere(s.db, t.db, PidOf(s.procs[i]), RidOf(s.procs[i]), card);
  }

  lemma OtherDebits(s: Sys, e: Event, card: nat)
    requires KnownOk(s) && Positive(s.db) && ReceiptsWhole(s) && !IsClaim(s, e) && FinalStates(s, e)
    ensures Balance(Next(s, e).db, card) >= Balance(s.db, card) <==> BalancedOn(s, e, card)
  {
    if !e.Move? {
      RequestBalance(s, e, card);
    } else if e.i < |s.procs| {
      StepNoLess(s, e.i, e.x, card);
      StepMoved(s, e.i, e.x);
      MovedNoLess(s, Next(s, e), e.i, card);
    }
  }

  /** In every run, a card's balance falls by no more than a claim on it was measured with, and by nothing else, if and
      only if the event is balanced for the card. */
  lemma OnlyClaimsDebit(s: Sys, e: Event, card: nat)
    requires KnownOk(s) && Positive(s.db) && ReceiptsWhole(s) && FinalStates(s, e)
    ensures Balance(Next(s, e).db, card) >= Balance(s.db, card) - (if Claims(s, e, card) then s.procs[e.i].msats else 0)
            <==> BalancedOn(s, e, card)
  {
    if IsClaim(s, e) { ClaimEffect(s, e, card, 0); } else { OtherDebits(s, e, card); }
  }

  lemma ClaimFloor(s: Sys, e: Event, card: nat, whole: bool)
    requires FloorOk(s, card, whole) && FloorRule(card, whole)(s, e) && IsClaim(s, e)
    ensures Guarded(Next(s, e).db, card) ==> Balance(Next(s, e).db, card) >= Floor(whole)
  {
    var p := s.procs[e.i];
    ClaimEffect(s, e, card, 0);
    ClaimWrites(s, e);
    if s.db.payments[p.pid].cardId == card && Guarded(s.db, card) {
      CheckedClaimFloor(Balance(s.db, card), p.msats, Msats(s.db.payments[p.pid]));
      if whole { WholeBalance(s, card); }
    }
  }

  /** Rows keep or lose their amount, new ones have none, and receipts keep theirs. */
  predicate AmountsKept(s: Sys, t: Sys) {
    && |s.db.payments| <= |t.db.payments| && |s.db.receipts| == |t.db.receipts|
    && (forall k | 0 <= k < |s.db.payments| ::
          && t.db.payments[k].cardId == s.db.payments[k].cardId
          && (t.db.payments[k].amount == s.db.payments[k].amount || t.db.payments[k].amount.None?))
    && (forall k | |s.db.payments| <= k < |t.db.payments| :: t.db.payments[k].amount.None?)
    && (forall k | 0 <= k < |s.db.receipts| :: t.db.receipts[k].msats == s.db.receipts[k].msats)
  }

  lemma KeptWhole(s: Sys, t: Sys, card: nat, whole: bool)
    requires ReceiptsWhole(s) && (whole ==> PaymentsWhole(s, card)) && AmountsKept(s, t)
    ensures ReceiptsWhole(t) && (whole ==> PaymentsWhole(t, card))
  {
  }

  lemma InvoiceWhole(s: Sys, e: Event, card: nat, whole: bool)
    requires FloorOk(s, card, whole) && FloorRule(card, whole)(s, e)
    requires e.Move? && e.i < |s.procs| && s.procs[e.i].CbInTime?
    ensures ReceiptsWhole(Next(s, e)) && (whole ==> PaymentsWhole(Next(s, e), card))
  {
  }

  lemma RoutedKept(s: Sys, i: nat, x: Input)
    requires i < |s.procs| && s.procs[i].CbRouted?
    ensures AmountsKept(s, StepCallback(s, i, x))
  {
  }

  lemma CallbackKept(s: Sys, i: nat, x: Input)
    requires i < |s.procs| && !s.procs[i].CbRouted? && !s.procs[i].CbInTime?
    ensures AmountsKept(s, StepCallback(s, i, x))
  {
  }

  lemma TapKept(s: Sys, i: nat, x: Input)
    requires i < |s.procs|
    ensures AmountsKept(s, StepTap(s, i, x))
  {
  }

  lemma WaitKept(s: Sys, i: nat, x: Input)
    requires i < |s.procs|
    ensures AmountsKept(s, StepWait(s, i, x))
  {
  }

  lemma NodeKept(s: Sys, i: nat, x: Input)
    requires i < |s.procs|
    ensures AmountsKept(s, StepNode(s, i, x))
  {
  }

  lemma StepKept(s: Sys, i: nat, x: Input)
    requires i < |s.procs| && !s.procs[i].CbInTime?
    ensures AmountsKept(s, Step(s, i, x))
  {
    TapKept(s, i, x);
    WaitKept(s, i, x);
    NodeKept(s, i, x);
    if s.procs[i].CbRouted? { RoutedKept(s, i, x); } else { CallbackKept(s, i, x); }
  }

  lemma StepWhole(s: Sys, e: Event, card: nat, whole: bool)
    requires FloorOk(s, card, whole) && FloorRule(card, whole)(s, e) && e.Move? && e.i < |s.procs|
    ensures ReceiptsWhole(Next(s, e)) && (whole ==> PaymentsWhole(Next(s, e), card))
  {
    if s.procs[e.i].CbInTime? {
      InvoiceWhole(s, e, card, whole);
    } else {
      StepKept(s, e.i, e.x);
      KeptWhole(s, Next(s, e), card, whole);
    }
  }

  lemma RequestReceipts(s: Sys, e: Event)
    requires ReceiptsWhole(s) && !e.Move?
    ensures ReceiptsWhole(Next(s, e))
  {
  }

  lemma RequestWhole(s: Sys, e: Event, card: nat, whole: bool)
    requires FloorOk(s, card, whole) && !e.Move?
    ensures ReceiptsWhole(Next(s, e)) && (whole ==> PaymentsWhole(Next(s, e), card))
  {
    RequestElsewhere(s, e);
    RequestReceipts(s, e);
  }

  lemma NextWhole(s: Sys, e: Event, card: nat, whole: bool)
    requires FloorOk(s, card, whole) && FloorRule(card, whole)(s, e)
    ensures ReceiptsWhole(Next(s, e)) && (whole ==> PaymentsWhole(Next(s, e), card))
  {
    if !e.Move? {
      RequestWhole(s, e, card, whole);
    } else if e.i < |s.procs| {
      StepWhole(s, e, card, whole);
    }
  }

  /** No statement gives an existing card another answer to whether it may go negative. */
  lemma StepGuard(s: Sys, i: nat, x: Input, card: nat)
    requires i < |s.procs|
    ensures Guarded(Step(s, i, x).db, card) ==> Guarded(s.db, card)
  {
    assert StepCallback(s, i, x).db.cards == s.db.cards;
    assert StepWait(s, i, x).db.cards == s.db.cards;
    assert StepNode(s, i, x).db.cards == s.db.cards;
  }

  lemma RequestGuard(s: Sys, e: Event, card: nat)
    requires !e.Move?
    ensures Guarded(Next(s, e).db, card) ==> Guarded(s.db, card)
  {
  }

  lemma NextGuard(s: Sys, e: Event, card: nat)
    ensures Guarded(Next(s, e).db, card) ==> Guarded(s.db, card)
  {
    if !e.Move? { RequestGuard(s, e, card); } else if e.i < |s.procs| { StepGuard(s, e.i, e.x, card); }
  }

  lemma NextFloor(s: Sys, e: Event, card: nat, whole: bool)
    requires FloorOk(s, card, whole) && FloorRule(card, whole)(s, e)
    ensures FloorOk(Next(s, e), card, whole)
  {
    NextKnown(s, e);
    NextPositive(s, e);
    NextGuard(s, e, card);
    NextWhole(s, e, card, whole);
    if IsClaim(s, e) { ClaimFloor(s, e, card, whole); } else { OnlyClaimsDebit(s, e, card); }
  }

  lemma {:induction false} RunFloor(s: Sys, es: seq<Event>, card: nat, whole: bool)
    requires FloorOk(s, card, whole) && Respects(s, es, FloorRule(card, whole))
    ensures FloorOk(Run(s, es), card, whole)
    decreases |es|
  {
    if es != [] {
      NextFloor(s, es[0], card, whole);
      RunFloor(Next(s, es[0]), es[1..], card, whole);
    }
  }

  lemma StartBalance(card: nat)
    ensures Balance(EMPTY_DB, card) == 0
  {
  }

  lemma EmptyFloor(s: Sys, card: nat, whole: bool)
    requires KnownOk(s) && s.db == EMPTY_DB
    ensures FloorOk(s, card, whole)
  {
    StartBalance(card);
  }

  lemma StartFloor(card: nat, whole: bool)
    ensures FloorOk(INIT, card, whole)
  {
    StartKnown();
    EmptyFloor(INIT, card, whole);
  }

  /** A card that must not go negative stays at or above -1998 msat, and above zero when its invoices are whole sats. */
  lemma BalanceFloor(es: seq<Event>, s: Sys, card: nat, whole: bool)
    requires Respects(INIT, es, FloorRule(card, whole)) && s == Run(INIT, es)
    requires card < |s.db.cards| && !s.db.cards[card].allowNegative
    ensures UnionMsats(s.db, card) >= if whole then 0 else -1998
  {
    StartFloor(card, whole);
    RunFloor(INIT, es, card, whole);
    assert FloorOk(s, card, whole);
    UnionKeepsEveryRow(s.db, card);
  }
}
