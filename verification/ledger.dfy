/** The balance recomputed from the rows agrees with the one kept incrementally from what happened, and has a floor. */
module Ledger {
  import opened Sums
  import opened Tables
  import opened System
  import opened Spent
  import opened Hands
  import opened Amounts
  import opened Agree

  /** The incremental ledger: what each kind of event is worth to a card, from the amounts the processes hold. */
  function BookWeight(card: nat): (nat, Entry) -> int {
    (k: nat, e: Entry) =>
      if e.Claimed? && e.card == card then -e.msats
      else if e.Released? && e.card == card then e.msats
      else if e.Reported? && e.card == card && e.was != Failed && e.status == Failed then e.msats
      else if e.Observed? && e.card == card && e.seen != Settled && e.state == Settled then e.msats
      else 0
  }

  function Book(log: seq<Entry>, card: nat): int {
    Sum(log, BookWeight(card))
  }

  // ---------- the change in the recomputed balance ----------

  function DebitAt(db: Db, pid: int, card: nat): int {
    if 0 <= pid < |db.payments| then DebitWeight(card)(pid, db.payments[pid]) else 0
  }

  function CreditAt(db: Db, rid: int, card: nat): int {
    if 0 <= rid < |db.receipts| then CreditWeight(card)(rid, db.receipts[rid]) else 0
  }

  lemma DebitsElsewhere(a: Db, b: Db, pid: int, rid: int, card: nat)
    requires Elsewhere(a, b, pid, rid)
    requires forall k | |a.payments| <= k < |b.payments| ::
               b.payments[k].amount.None? && |b.payments| == |a.payments| + 1
    ensures Sum(b.payments, DebitWeight(card)) - Sum(a.payments, DebitWeight(card))
            == DebitAt(b, pid, card) - DebitAt(a, pid, card)
  {
    var w, n := DebitWeight(card), |a.payments|;
    var c := if 0 <= pid < n then a.payments[pid := b.payments[pid]] else a.payments;
    if 0 <= pid < n { SumUpdate(a.payments, pid, b.payments[pid], w); }
    SumEq(c, w, b.payments[..n], w);
    if |b.payments| == n {
      assert b.payments[..n] == b.payments;
    } else {
      assert b.payments == b.payments[..n] + [b.payments[n]];
      SumAppend(b.payments[..n], b.payments[n], w);
    }
  }

  lemma CreditsElsewhere(a: Db, b: Db, pid: int, rid: int, card: nat)
    requires Elsewhere(a, b, pid, rid)
    requires forall k | |a.receipts| <= k < |b.receipts| ::
               b.receipts[k].state == Unset && |b.receipts| == |a.receipts| + 1
    ensures Sum(b.receipts, CreditWeight(card)) - Sum(a.receipts, CreditWeight(card))
            == CreditAt(b, rid, card) - CreditAt(a, rid, card)
  {
    var w, n := CreditWeight(card), |a.receipts|;
    var c := if 0 <= rid < n then a.receipts[rid := b.receipts[rid]] else a.receipts;
    if 0 <= rid < n { SumUpdate(a.receipts, rid, b.receipts[rid], w); }
    SumEq(c, w, b.receipts[..n], w);
    if |b.receipts| == n {
      assert b.receipts[..n] == b.receipts;
    } else {
      assert b.receipts == b.receipts[..n] + [b.receipts[n]];
      SumAppend(b.receipts[..n], b.receipts[n], w);
    }
  }

  /** What a step wrote in the book: nothing, or one entry. */
  function NewBook(s: Sys, t: Sys, card: nat): int
    requires s.log <= t.log
  {
    if |t.log| > |s.log| then BookWeight(card)(|s.log|, t.log[|s.log|]) else 0
  }

  lemma BookGrows(s: Sys, t: Sys, card: nat)
    requires OneEntry(s, t)
    ensures Book(t.log, card) == Book(s.log, card) + NewBook(s, t, card)
  {
    if |t.log| > |s.log| {
      assert t.log == s.log + [t.log[|s.log|]];
      SumAppend(s.log, t.log[|s.log|], BookWeight(card));
    } else {
      assert t.log == s.log;
    }
  }

  /** The rows process i owns change weight by what the step wrote in the book. */
  predicate Booked(s: Sys, t: Sys, i: nat, card: nat)
    requires i < |s.procs|
  {
    && OneEntry(s, t)
    && var pid, rid := PidOf(s.procs[i]), RidOf(s.procs[i]);
       DebitAt(t.db, pid, card) - DebitAt(s.db, pid, card) + CreditAt(t.db, rid, card) - CreditAt(s.db, rid, card)
       == NewBook(s, t, card)
  }

  lemma TapBooked(s: Sys, i: nat, x: Input, card: nat)
    requires i < |s.procs|
    requires IsTap(s.procs[i])
    ensures Booked(s, StepTap(s, i, x), i, card)
  {
  }

  /** An invoice is worth nothing if and only if it matches what a counted row records. */
  lemma InvoiceBooked(s: Sys, i: nat, x: Input, card: nat)
    requires RowsOk(s) && Positive(s.db) && i < |s.procs| && s.procs[i].CbInTime?
    ensures Booked(s, StepCallback(s, i, x), i, card) <==> MatchedOn(s, Move(i, x), card)
  {
    var k := s.procs[i].pid;
    if k < |s.db.payments| { assert RowOk(s, k); }
  }

  lemma SpoilBooked(s: Sys, i: nat, x: Input, card: nat)
    requires RowsOk(s) && i < |s.procs| && s.procs[i].CbWrongPin?
    ensures Booked(s, StepCallback(s, i, x), i, card)
  {
    var k := s.procs[i].pid;
    if k < |s.db.payments| { assert RowOk(s, k); }
  }

  lemma CallbackBooked(s: Sys, i: nat, x: Input, card: nat)
    requires i < |s.procs|
    requires s.procs[i].CbFound? || s.procs[i].CbRecorded? || s.procs[i].CbReady? || s.procs[i].CbClaimed?
    ensures Booked(s, StepCallback(s, i, x), i, card)
  {
  }

  lemma RefusedBooked(s: Sys, e: Event, card: nat)
    requires e.Move? && e.i < |s.procs| && s.procs[e.i].CbRouted? && !IsClaim(s, e) && RowsOk(s)
    ensures Booked(s, Next(s, e), e.i, card)
  {
  }

  /** A claim is worth what is booked if and only if its row records what it was measured with. */
  lemma ClaimBooked(s: Sys, e: Event, card: nat)
    requires RowsOk(s) && HandsOk(s) && Positive(s.db) && IsClaim(s, e)
    ensures Booked(s, Next(s, e), e.i, card) <==> MatchedOn(s, e, card)
  {
    ClaimWrites(s, e);
    assert HandOk(s.db, s.procs[e.i]);
    assert RowOk(s, s.procs[e.i].pid);
  }

  /** A holder's row records what was claimed, as long as it counts. */
  predicate CountedOk(s: Sys, card: nat) {
    forall i | 0 <= i < |s.procs| && Ticket(s.procs[i]) && OnCard(s.db, s.procs[i].pid, card) ::
      CountedRow(s.db, s.procs[i])
  }

  predicate CountedRow(db: Db, p: Proc)
    requires Ticket(p) && p.pid < |db.payments|
  {
    db.payments[p.pid].status != Failed ==> db.payments[p.pid].amount == Some(p.msats)
  }

  lemma WaitBooked(s: Sys, i: nat, x: Input, card: nat)
    requires HandsOk(s) && CountedOk(s, card) && Positive(s.db) && i < |s.procs|
    requires s.procs[i].WaitAsked? || s.procs[i].WaitTokened? || s.procs[i].WaitPolling? || s.procs[i].WaitDropped?
    ensures Booked(s, StepWait(s, i, x), i, card)
  {
    assert HandOk(s.db, s.procs[i]);
    if OnCard(s.db, s.procs[i].pid, card) { assert CountedRow(s.db, s.procs[i]); }
  }

  lemma PayBooked(s: Sys, i: nat, x: Input, card: nat)
    requires HandsOk(s) && CountedOk(s, card) && Positive(s.db) && i < |s.procs| && s.procs[i].Paying?
    requires FinalStates(s, Move(i, x))
    ensures Booked(s, StepNode(s, i, x), i, card)
  {
    assert HandOk(s.db, s.procs[i]);
    if OnCard(s.db, s.procs[i].pid, card) { assert CountedRow(s.db, s.procs[i]); }
  }

  lemma WatchBooked(s: Sys, i: nat, x: Input, card: nat)
    requires HandsOk(s) && i < |s.procs| && s.procs[i].Watching? && FinalStates(s, Move(i, x))
    ensures Booked(s, StepNode(s, i, x), i, card)
  {
    assert HandOk(s.db, s.procs[i]);
  }

  predicate LedgerOk(s: Sys, card: nat) {
    KnownOk(s) && Positive(s.db) && CountedOk(s, card)
  }

  lemma StepBooked(s: Sys, i: nat, x: Input, card: nat)
    requires LedgerOk(s, card) && i < |s.procs| && FinalStates(s, Move(i, x))
    ensures Booked(s, Step(s, i, x), i, card) <==> MatchedOn(s, Move(i, x), card)
  {
    var p := s.procs[i];
    if IsTap(p) { TapBooked(s, i, x, card); }
    else if p.WaitAsked? || p.WaitTokened? || p.WaitPolling? || p.WaitDropped? { WaitBooked(s, i, x, card); }
    else if p.Paying? { PayBooked(s, i, x, card); }
    else if p.Watching? { WatchBooked(s, i, x, card); }
    else if IsClaim(s, Move(i, x)) { ClaimBooked(s, Move(i, x), card); }
    else if p.CbRouted? { RefusedBooked(s, Move(i, x), card); }
    else if p.CbInTime? { InvoiceBooked(s, i, x, card); }
    else if p.CbWrongPin? { SpoilBooked(s, i, x, card); }
    else if PreClaim(p) || p.CbClaimed? { CallbackBooked(s, i, x, card); }
  }

  lemma MovedBalance(s: Sys, t: Sys, i: nat, card: nat)
    requires i < |s.procs| && Moved(s, t, i) && OneEntry(s, t)
    ensures Balance(t.db, card) - Balance(s.db, card) == Book(t.log, card) - Book(s.log, card)
            <==> Booked(s, t, i, card)
  {
    BookGrows(s, t, card);
    DebitsElsewhere(s.db, t.db, PidOf(s.procs[i]), RidOf(s.procs[i]), card);
    CreditsElsewhere(s.db, t.db, PidOf(s.procs[i]), RidOf(s.procs[i]), card);
  }

  lemma RequestBook(s: Sys, e: Event, card: nat)
    requires !e.Move?
    ensures OneEntry(s, Next(s, e)) && NewBook(s, Next(s, e), card) == 0
  {
  }

  lemma RequestBalance(s: Sys, e: Event, card: nat)
    requires !e.Move?
    ensures var t := Next(s, e);
            Balance(t.db, card) == Balance(s.db, card) && Book(t.log, card) == Book(s.log, card)
  {
    var t := Next(s, e);
    RequestBook(s, e, card);
    BookGrows(s, t, card);
    RequestElsewhere(s, e);
    DebitsElsewhere(s.db, t.db, -1, -1, card);
    CreditsElsewhere(s.db, t.db, -1, -1, card);
  }

  /** The recomputed balance moves with the book if and only if the event is matched, for this card. */
  lemma NextBalance(s: Sys, e: Event, card: nat)
    requires LedgerOk(s, card) && FinalStates(s, e)
    ensures var t := Next(s, e);
            Balance(t.db, card) - Balance(s.db, card) == Book(t.log, card) - Book(s.log, card)
            <==> MatchedOn(s, e, card)
  {
    if !e.Move? {
      RequestBalance(s, e, card);
    } else if e.i < |s.procs| {
      StepBooked(s, e.i, e.x, card);
      StepMoved(s, e.i, e.x);
      NextLog(s, e);
      MovedBalance(s, Next(s, e), e.i, card);
    }
  }

  // ---------- what holders' rows record ----------

  lemma MatchedAmount(s: Sys, e: Event, k: nat)
    requires k < |s.db.payments| && s.db.payments[k].payTime.Some? && s.db.payments[k].paid
    requires s.db.payments[k].status != Failed && MatchedOn(s, e, s.db.payments[k].cardId)
    ensures k < |Next(s, e).db.payments|
    ensures Next(s, e).db.payments[k].amount == s.db.payments[k].amount
            || (e.Move? && e.i < |s.procs| && s.procs[e.i].WaitDropped? && s.procs[e.i].pid == k)
  {
    NextAmounts(s, e);
  }

  lemma OldCounted(s: Sys, e: Event, card: nat, t: Sys, j: nat)
    requires LedgerOk(s, card) && MatchedOn(s, e, card) && FinalStates(s, e) && t == Next(s, e)
    requires j < |s.procs| && Ticket(s.procs[j]) && OnCard(t.db, s.procs[j].pid, card)
    requires !(e.Move? && e.i == j && s.procs[j].WaitDropped?)
    ensures CountedRow(t.db, s.procs[j])
  {
    var pid := s.procs[j].pid;
    HeldIsClaimed(s, j);
    SameCard(s, e, pid, card);
    assert CountedRow(s.db, s.procs[j]);
    if s.db.payments[pid].status == Failed { FailedStays(s, e, pid); } else { MatchedAmount(s, e, pid); }
  }

  lemma ClaimCounted(s: Sys, e: Event, card: nat)
    requires LedgerOk(s, card) && MatchedOn(s, e, card) && FinalStates(s, e) && IsClaim(s, e)
    ensures CountedOk(Next(s, e), card)
  {
    var t := Next(s, e);
    ClaimWrites(s, e);
    forall j: nat | j < |t.procs| && Ticket(t.procs[j]) && OnCard(t.db, t.procs[j].pid, card)
      ensures CountedRow(t.db, t.procs[j])
    {
      if j != e.i { OldCounted(s, e, card, t, j); }
    }
  }

  lemma OtherCounted(s: Sys, e: Event, card: nat)
    requires LedgerOk(s, card) && MatchedOn(s, e, card) && FinalStates(s, e) && !IsClaim(s, e)
    ensures CountedOk(Next(s, e), card)
  {
    var t := Next(s, e);
    NextSameHolders(s, e);
    if e.Move? && e.i < |s.procs| && s.procs[e.i].WaitDropped? { DropEnds(s, e.i, e.x); }
    forall j: nat | j < |t.procs| && Ticket(t.procs[j]) && OnCard(t.db, t.procs[j].pid, card)
      ensures CountedRow(t.db, t.procs[j])
    {
      OldCounted(s, e, card, t, j);
    }
  }

  // ---------- over every run ----------

  /** The rule of the ledger of a card. */
  function LawfulFor(card: nat): (Sys, Event) -> bool {
    (s: Sys, e: Event) => MatchedOn(s, e, card) && FinalStates(s, e)
  }

  predicate BookOk(s: Sys, card: nat) {
    LedgerOk(s, card) && Balance(s.db, card) == Book(s.log, card)
  }

  lemma NextBook(s: Sys, e: Event, card: nat)
    requires BookOk(s, card) && LawfulFor(card)(s, e)
    ensures BookOk(Next(s, e), card)
  {
    NextKnown(s, e);
    NextPositive(s, e);
    if IsClaim(s, e) { ClaimCounted(s, e, card); } else { OtherCounted(s, e, card); }
    NextBalance(s, e, card);
  }

  lemma {:induction false} RunBalance(s: Sys, es: seq<Event>, card: nat)
    requires BookOk(s, card) && Respects(s, es, LawfulFor(card))
    ensures BookOk(Run(s, es), card)
    decreases |es|
  {
    if es != [] {
      NextBook(s, es[0], card);
      RunBalance(Next(s, es[0]), es[1..], card);
    }
  }

  lemma EmptyBook(s: Sys, card: nat)
    requires KnownOk(s) && s.db == EMPTY_DB && s.log == [] && s.procs == []
    ensures BookOk(s, card)
  {
  }

  lemma StartBook(card: nat)
    ensures BookOk(INIT, card)
  {
    StartKnown();
    EmptyBook(INIT, card);
  }

  /** In every state of a lawful run, what card_total_sats_sql adds up is the incremental book. */
  lemma LedgerRefinesBook(es: seq<Event>, s: Sys, card: nat)
    requires Respects(INIT, es, LawfulFor(card)) && s == Run(INIT, es)
    ensures UnionMsats(s.db, card) == Book(s.log, card)
  {
    StartBook(card);
    RunBalance(INIT, es, card);
    UnionKeepsEveryRow(s.db, card);
  }

  // ---------- what a claim is worth ----------

  /**
   A claim takes exactly what its row records off its own card's balance, adds it to that card's daily total for 24
   hours from the claim's time on, and moves no total of any other card.
   */
  lemma ClaimEffect(s: Sys, e: Event, card: nat, now: int)
    requires RowsOk(s) && IsClaim(s, e)
    ensures var p, t := s.db.payments[s.procs[e.i].pid], Next(s, e);
            && Balance(t.db, card) == Balance(s.db, card) - (if p.cardId == card then Msats(p) else 0)
            && DayMsats(t.db, card, now)
               == DayMsats(s.db, card, now) + if p.cardId == card && e.x.now > now - 86_400_000_000 then Msats(p) else 0
  {
    var pid := s.procs[e.i].pid;
    ClaimWrites(s, e);
    assert RowOk(s, pid);
    SumUpdate(s.db.payments, pid, Next(s, e).db.payments[pid], DebitWeight(card));
    SumUpdate(s.db.payments, pid, Next(s, e).db.payments[pid], DayWeight(card, now - DAY));
  }
}
