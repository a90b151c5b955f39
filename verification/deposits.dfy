/** Which card a deposit credits: the one it was made for, on the receipts, in the log and in the balance. */
module Deposits {
  import opened Sums
  import opened Tables
  import opened System
  import opened Hands

  /** A deposit is taken when it is for whole satoshis in range, for an existing card and with a hash of its own. */
  lemma DepositTakenIff(s: Sys, card: nat, hash: string, msats: int, now: int)
    ensures var t := Next(s, Deposit(card, hash, msats, now));
            if && card < |s.db.cards| && 1000 <= msats <= 1_000_000_000 && msats % 1000 == 0
               && (forall k | 0 <= k < |s.db.receipts| :: s.db.receipts[k].hash != hash)
            then var rid := |s.db.receipts|;
                 && t.db == s.db.(receipts := s.db.receipts + [Receipt(card, hash, msats, Unset, now)])
                 && t.procs == s.procs + [Watching(rid, card, msats, Unset)]
                 && t.log == s.log + [Deposited(rid, card, hash, msats)]
            else t == s
  {
    assert FindHash(s.db.receipts, hash).None? <==>
      forall k | 0 <= k < |s.db.receipts| :: s.db.receipts[k].hash != hash;
  }

  // ---------- receipts, log and requests agree ----------

  predicate Asks(e: Event, r: Receipt) {
    e.Deposit? && e.card == r.cardId && e.hash == r.hash && e.msats == r.msats
  }

  predicate SameReceipt(r: Receipt, q: Receipt) {
    r.cardId == q.cardId && r.hash == q.hash && r.msats == q.msats
  }

  /** Receipts keep their card, hash and amount; a new one has those of the deposit it was added for. */
  predicate ReceiptsAfter(s: Sys, e: Event, t: Sys) {
    && |s.db.receipts| <= |t.db.receipts| <= |s.db.receipts| + 1
    && (forall k | 0 <= k < |s.db.receipts| :: SameReceipt(s.db.receipts[k], t.db.receipts[k]))
    && (|t.db.receipts| > |s.db.receipts| ==>
          var r := t.db.receipts[|s.db.receipts|];
          Asks(e, r) && t.log == s.log + [Deposited(|s.db.receipts|, r.cardId, r.hash, r.msats)])
  }

  /** A new entry about a deposit is for a receipt added now, one about a state for a receipt of the card it credits. */
  predicate EntriesAfter(s: Sys, t: Sys) {
    && s.log <= t.log && |t.log| <= |s.log| + 1
    && (|t.log| > |s.log| && t.log[|s.log|].Deposited? ==>
          |t.db.receipts| > |s.db.receipts| && t.log[|s.log|].rid == |s.db.receipts|)
    && (|t.log| > |s.log| && t.log[|s.log|].Observed? ==>
          && t.log[|s.log|].rid < |s.db.receipts|
          && t.log[|s.log|].card == s.db.receipts[t.log[|s.log|].rid].cardId
          && t.log[|s.log|].msats == s.db.receipts[t.log[|s.log|].rid].msats)
  }

  lemma StepReceipts(s: Sys, i: nat, x: Input)
    requires i < |s.procs|
    ensures StepTap(s, i, x).db.receipts == s.db.receipts && StepWait(s, i, x).db.receipts == s.db.receipts
    ensures ReceiptsAfter(s, Move(i, x), StepNode(s, i, x))
  {
  }

  lemma CallbackReceipts(s: Sys, i: nat, x: Input)
    requires i < |s.procs|
    ensures StepCallback(s, i, x).db.receipts == s.db.receipts
  {
  }

  lemma StepEntries(s: Sys, i: nat, x: Input)
    requires i < |s.procs|
    ensures EntriesAfter(s, StepTap(s, i, x)) && EntriesAfter(s, StepWait(s, i, x))
    ensures HandOk(s.db, s.procs[i]) ==> EntriesAfter(s, StepNode(s, i, x))
  {
  }

  lemma CallbackEntries(s: Sys, i: nat, x: Input)
    requires i < |s.procs|
    ensures EntriesAfter(s, StepCallback(s, i, x))
  {
  }

  lemma RequestAfter(s: Sys, e: Event)
    requires !e.Move? && !e.Deposit?
    ensures ReceiptsAfter(s, e, Next(s, e)) && EntriesAfter(s, Next(s, e))
  {
  }

  lemma NextAfter(s: Sys, e: Event)
    requires HandsOk(s)
    ensures ReceiptsAfter(s, e, Next(s, e)) && EntriesAfter(s, Next(s, e))
  {
    if e.Deposit? {
      DepositTakenIff(s, e.card, e.hash, e.msats, e.now);
    } else if !e.Move? {
      RequestAfter(s, e);
    } else if e.i < |s.procs| {
      assert HandOk(s.db, s.procs[e.i]);
      StepReceipts(s, e.i, e.x);
      CallbackReceipts(s, e.i, e.x);
      StepEntries(s, e.i, e.x);
      CallbackEntries(s, e.i, e.x);
    }
  }

  predicate EntryOk(db: Db, e: Entry) {
    && (e.Deposited? ==>
          && e.rid < |db.receipts| && db.receipts[e.rid].cardId == e.card && db.receipts[e.rid].hash == e.hash
          && db.receipts[e.rid].msats == e.msats)
    && (e.Observed? ==>
          e.rid < |db.receipts| && db.receipts[e.rid].cardId == e.card && db.receipts[e.rid].msats == e.msats)
  }

  predicate Told(log: seq<Entry>, rid: nat, r: Receipt) {
    exists j :: 0 <= j < |log| && log[j] == Deposited(rid, r.cardId, r.hash, r.msats)
  }

  predicate DepositsOk(s: Sys) {
    && (forall j | 0 <= j < |s.log| :: EntryOk(s.db, s.log[j]))
    && (forall k: nat | k < |s.db.receipts| :: Told(s.log, k, s.db.receipts[k]))
  }

  lemma EntryStays(s: Sys, e: Event, t: Sys, j: nat)
    requires ReceiptsAfter(s, e, t) && j < |s.log| && EntryOk(s.db, s.log[j])
    ensures EntryOk(t.db, s.log[j])
  {
    var x := s.log[j];
    if x.Deposited? || x.Observed? { assert SameReceipt(s.db.receipts[x.rid], t.db.receipts[x.rid]); }
  }

  lemma ToldStays(s: Sys, e: Event, t: Sys, k: nat)
    requires ReceiptsAfter(s, e, t) && s.log <= t.log && k < |s.db.receipts| && Told(s.log, k, s.db.receipts[k])
    ensures Told(t.log, k, t.db.receipts[k])
  {
    var r := s.db.receipts[k];
    assert SameReceipt(r, t.db.receipts[k]);
    var j :| 0 <= j < |s.log| && s.log[j] == Deposited(k, r.cardId, r.hash, r.msats);
    assert t.log[j] == s.log[j];
  }

  lemma NewTold(s: Sys, e: Event, t: Sys)
    requires ReceiptsAfter(s, e, t) && |t.db.receipts| > |s.db.receipts|
    ensures Told(t.log, |s.db.receipts|, t.db.receipts[|s.db.receipts|])
  {
    var r := t.db.receipts[|s.db.receipts|];
    assert t.log[|s.log|] == Deposited(|s.db.receipts|, r.cardId, r.hash, r.msats);
  }

  lemma DepositsAfter(s: Sys, e: Event, t: Sys)
    requires DepositsOk(s) && ReceiptsAfter(s, e, t) && EntriesAfter(s, t)
    ensures DepositsOk(t)
  {
    forall j: nat | j < |t.log| ensures EntryOk(t.db, t.log[j]) {
      if j < |s.log| {
        assert t.log[j] == s.log[j];
        EntryStays(s, e, t, j);
      } else if t.log[j].Observed? {
        assert SameReceipt(s.db.receipts[t.log[j].rid], t.db.receipts[t.log[j].rid]);
      }
    }
    forall k: nat | k < |t.db.receipts| ensures Told(t.log, k, t.db.receipts[k]) {
      if k < |s.db.receipts| { ToldStays(s, e, t, k); } else { NewTold(s, e, t); }
    }
  }

  predicate ReceiptsOk(s: Sys) {
    KnownOk(s) && DepositsOk(s)
  }

  lemma {:induction false} RunDeposits(s: Sys, es: seq<Event>)
    requires ReceiptsOk(s)
    ensures ReceiptsOk(Run(s, es))
    decreases |es|
  {
    if es != [] {
      NextKnown(s, es[0]);
      NextAfter(s, es[0]);
      DepositsAfter(s, es[0], Next(s, es[0]));
      RunDeposits(Next(s, es[0]), es[1..]);
    }
  }

  lemma StartReceipts()
    ensures ReceiptsOk(INIT)
  {
    StartKnown();
  }

  lemma ReachedReceipts(es: seq<Event>, s: Sys)
    requires s == Run(INIT, es)
    ensures ReceiptsOk(s)
  {
    StartReceipts();
    RunDeposits(INIT, es);
  }

  lemma DepositBehind(s: Sys, j: nat)
    requires DepositsOk(s) && j < |s.log| && s.log[j].Observed?
    ensures exists k, hash ::
              0 <= k < |s.log| && s.log[k] == Deposited(s.log[j].rid, s.log[j].card, hash, s.log[j].msats)
  {
    assert EntryOk(s.db, s.log[j]);
    var r := s.db.receipts[s.log[j].rid];
    assert Told(s.log, s.log[j].rid, r);
    var k :| 0 <= k < |s.log| && s.log[k] == Deposited(s.log[j].rid, r.cardId, r.hash, r.msats);
    assert s.log[k] == Deposited(s.log[j].rid, s.log[j].card, r.hash, s.log[j].msats);
  }

  /** Under every interleaving, the card and the amount the ledger credits are those of the deposit. */
  lemma CreditsWereDeposited(es: seq<Event>, s: Sys, j: nat)
    requires s == Run(INIT, es) && j < |s.log| && s.log[j].Observed?
    ensures exists k, hash ::
              0 <= k < |s.log| && s.log[k] == Deposited(s.log[j].rid, s.log[j].card, hash, s.log[j].msats)
  {
    ReachedReceipts(es, s);
    DepositBehind(s, j);
  }

  /** A receipt of a later state was there before, or was asked for by one of the events in between. */
  lemma {:induction false} RunReceipts(s: Sys, es: seq<Event>, rid: nat)
    requires KnownOk(s) && rid < |Run(s, es).db.receipts|
    ensures || (rid < |s.db.receipts| && SameReceipt(s.db.receipts[rid], Run(s, es).db.receipts[rid]))
            || (exists e :: e in es && Asks(e, Run(s, es).db.receipts[rid]))
    decreases |es|
  {
    if es != [] {
      var t, r := Next(s, es[0]), Run(s, es).db.receipts[rid];
      NextKnown(s, es[0]);
      NextAfter(s, es[0]);
      RunReceipts(t, es[1..], rid);
      if rid < |t.db.receipts| && SameReceipt(t.db.receipts[rid], r) {
        if rid >= |s.db.receipts| { assert es[0] in es && Asks(es[0], r); }
      } else {
        var e :| e in es[1..] && Asks(e, r);
        assert e in es;
      }
    }
  }

  lemma ReceiptWasAskedFor(s: Sys, es: seq<Event>, t: Sys, rid: nat)
    requires KnownOk(s) && s.db.receipts == [] && t == Run(s, es) && rid < |t.db.receipts|
    ensures exists e :: e in es && Asks(e, t.db.receipts[rid])
  {
    RunReceipts(s, es, rid);
  }

  /** Under every interleaving, a receipt has the card, the hash and the amount of a deposit that was asked for. */
  lemma EveryReceiptWasAskedFor(es: seq<Event>, s: Sys, rid: nat)
    requires s == Run(INIT, es) && rid < |s.db.receipts|
    ensures exists e :: e in es && e.Deposit? && e.card == s.db.receipts[rid].cardId
                        && e.hash == s.db.receipts[rid].hash && e.msats == s.db.receipts[rid].msats
  {
    StartReceipts();
    ReceiptWasAskedFor(INIT, es, s, rid);
    var e :| e in es && Asks(e, s.db.receipts[rid]);
  }

  // ---------- what a deposit is worth ----------

  /** The first SETTLED raises the balance of the card the deposit was made for, by its amount, and no other card's. */
  lemma SettledEffect(s: Sys, i: nat, x: Input, card: nat)
    requires HandsOk(s) && i < |s.procs| && s.procs[i].Watching? && s.procs[i].seen != Settled && x.state == Settled
    ensures Balance(Step(s, i, x).db, card)
            == Balance(s.db, card) + if s.procs[i].card == card then s.procs[i].msats else 0
  {
    assert HandOk(s.db, s.procs[i]);
    SumUpdate(s.db.receipts, s.procs[i].rid, Step(s, i, x).db.receipts[s.procs[i].rid], CreditWeight(card));
  }

  predicate Takes(s: Sys, card: nat, hash: string, msats: int) {
    && card < |s.db.cards| && 1000 <= msats <= 1_000_000_000 && msats % 1000 == 0
    && forall k | 0 <= k < |s.db.receipts| :: s.db.receipts[k].hash != hash
  }

  /** A deposit alone is worth nothing; settled, it is worth its amount to its card and nothing to any other. */
  lemma DepositEffect(s: Sys, card: nat, hash: string, msats: int, now: int, x: Input, other: nat)
    requires HandsOk(s) && Takes(s, card, hash, msats) && x.state == Settled
    ensures var t := Next(s, Deposit(card, hash, msats, now));
            && Balance(t.db, other) == Balance(s.db, other) && |t.procs| == |s.procs| + 1
            && Balance(Next(t, Move(|s.procs|, x)).db, other)
               == Balance(s.db, other) + if other == card then msats else 0
  {
    var t := Next(s, Deposit(card, hash, msats, now));
    DepositTakenIff(s, card, hash, msats, now);
    DepositHands(s, card, hash, msats, now);
    SumAppend(s.db.receipts, Receipt(card, hash, msats, Unset, now), CreditWeight(other));
    SettledEffect(t, |s.procs|, x, other);
  }
}
