/** A wallet that presents one amount only with each k1 keeps the exact rule, however its callbacks overlap. */
module OneInvoices {
  import opened Sums
  import opened Tables
  import opened System
  import opened Spent
  import opened Hands
  import opened Amounts
  import opened Serial

  /** The invoices presented with one k1 are all for one amount, and none is recorded on a row that was released. */
  function OneInvoice(amount: nat -> int): (Sys, Event) -> bool {
    (s: Sys, e: Event) =>
      (e.Move? && e.i < |s.procs| && s.procs[e.i].CbInTime? && e.x.msats > 0 ==>
        && e.x.msats == amount(s.procs[e.i].pid)
        && (s.procs[e.i].pid < |s.db.payments| && s.db.payments[s.procs[e.i].pid].payTime.Some? ==>
              s.db.payments[s.procs[e.i].pid].amount.Some?))
  }

  predicate RowOfOne(p: Payment, msats: int) {
    p.amount.None? || p.amount == Some(msats)
  }

  predicate CallbackOfOne(db: Db, p: Proc, amount: nat -> int) {
    p.CbRecorded? || p.CbReady? || p.CbRouted? ==>
      && p.msats == amount(p.pid)
      && (p.pid < |db.payments| && !db.payments[p.pid].paid ==> db.payments[p.pid].amount == Some(p.msats))
  }

  predicate AmountsOfOne(s: Sys, amount: nat -> int) {
    && (forall k | 0 <= k < |s.db.payments| :: RowOfOne(s.db.payments[k], amount(k)))
    && (forall i | 0 <= i < |s.procs| :: CallbackOfOne(s.db, s.procs[i], amount))
  }

  lemma OneInvoiceIsExactStep(s: Sys, e: Event, amount: nat -> int)
    requires AmountsOfOne(s, amount) && OneInvoice(amount)(s, e)
    ensures Exact(s, e)
  {
    if e.Move? && e.i < |s.procs| {
      assert CallbackOfOne(s.db, s.procs[e.i], amount);
      if s.procs[e.i].CbInTime? && s.procs[e.i].pid < |s.db.payments| {
        assert RowOfOne(s.db.payments[s.procs[e.i].pid], amount(s.procs[e.i].pid));
      }
    }
  }

  lemma RowsOfOne(s: Sys, e: Event, amount: nat -> int, k: nat)
    requires AmountsOfOne(s, amount) && OneInvoice(amount)(s, e) && k < |Next(s, e).db.payments|
    ensures RowOfOne(Next(s, e).db.payments[k], amount(k))
  {
    NextAmounts(s, e);
    if k < |s.db.payments| { assert RowOfOne(s.db.payments[k], amount(k)); }
  }

  /** What a callback recorded is still there while its row is unpaid: a row loses its amount only as it is spent. */
  lemma RecordedStays(s: Sys, e: Event, amount: nat -> int, p: Proc)
    requires HandsOk(s) && RowsOk(s) && OneInvoice(amount)(s, e)
    requires CallbackOfOne(s.db, p, amount) && PreClaim(p) && p.pid < |s.db.payments|
    ensures CallbackOfOne(Next(s, e).db, p, amount)
  {
    NextAmounts(s, e);
    if e.Move? && e.i < |s.procs| {
      assert HandOk(s.db, s.procs[e.i]);
      if s.procs[e.i] == CbWrongPin(p.pid) { SpoilPays(s, e.i, e.x); }
    }
  }

  lemma SpoilPays(s: Sys, i: nat, x: Input)
    requires i < |s.procs| && s.procs[i].CbWrongPin? && s.procs[i].pid < |s.db.payments|
    ensures s.procs[i].pid < |Step(s, i, x).db.payments| && Step(s, i, x).db.payments[s.procs[i].pid].paid
  {
  }

  lemma OwnOfOne(s: Sys, i: nat, x: Input, amount: nat -> int)
    requires i < |s.procs| && HandOk(s.db, s.procs[i]) && OneInvoice(amount)(s, Move(i, x))
    requires CallbackOfOne(s.db, s.procs[i], amount) && PreClaim(s.procs[i])
    ensures CallbackOfOne(StepCallback(s, i, x).db, StepCallback(s, i, x).procs[i], amount)
  {
  }

  lemma StepOfOne(s: Sys, i: nat, x: Input, amount: nat -> int)
    requires KnownOk(s) && AmountsOfOne(s, amount) && i < |s.procs| && OneInvoice(amount)(s, Move(i, x))
    ensures forall j | 0 <= j < |Step(s, i, x).procs| :: CallbackOfOne(Step(s, i, x).db, Step(s, i, x).procs[j], amount)
  {
    var t := Step(s, i, x);
    StepMoved(s, i, x);
    assert HandOk(s.db, s.procs[i]) && CallbackOfOne(s.db, s.procs[i], amount);
    if PreClaim(s.procs[i]) { OwnOfOne(s, i, x, amount); } else { NotACallback(s, i, x); }
    forall j: nat | j < |t.procs| ensures CallbackOfOne(t.db, t.procs[j], amount) {
      if j != i { OtherOfOne(s, i, x, j, amount); }
    }
  }

  lemma OtherOfOne(s: Sys, i: nat, x: Input, j: nat, amount: nat -> int)
    requires KnownOk(s) && AmountsOfOne(s, amount) && i < |s.procs| && OneInvoice(amount)(s, Move(i, x))
    requires j < |s.procs| && j != i
    ensures CallbackOfOne(Step(s, i, x).db, s.procs[j], amount)
  {
    assert CallbackOfOne(s.db, s.procs[j], amount) && HandOk(s.db, s.procs[j]);
    if PreClaim(s.procs[j]) { RecordedStays(s, Move(i, x), amount, s.procs[j]); }
  }

  lemma RequestOfOne(s: Sys, e: Event, amount: nat -> int)
    requires KnownOk(s) && AmountsOfOne(s, amount) && OneInvoice(amount)(s, e) && !e.Move?
    ensures forall j | 0 <= j < |Next(s, e).procs| :: CallbackOfOne(Next(s, e).db, Next(s, e).procs[j], amount)
  {
    var t := Next(s, e);
    RequestElsewhere(s, e);
    RequestNew(s, e);
    forall j: nat | j < |t.procs| ensures CallbackOfOne(t.db, t.procs[j], amount) {
      if j < |s.procs| { assert CallbackOfOne(s.db, s.procs[j], amount) && HandOk(s.db, s.procs[j]); }
    }
  }

  lemma RequestNew(s: Sys, e: Event)
    requires !e.Move?
    ensures var t := Next(s, e);
            && |s.procs| <= |t.procs|
            && (forall j | 0 <= j < |s.procs| :: t.procs[j] == s.procs[j] || t.procs[j].Done?)
            && (forall j | |s.procs| <= j < |t.procs| :: PreClaim(t.procs[j]) ==> t.procs[j].CbFound?)
  {
  }

  predicate OneOk(s: Sys, amount: nat -> int) {
    KnownOk(s) && AmountsOfOne(s, amount)
  }

  lemma NextOfOne(s: Sys, e: Event, amount: nat -> int)
    requires OneOk(s, amount) && OneInvoice(amount)(s, e)
    ensures OneOk(Next(s, e), amount)
  {
    NextKnown(s, e);
    forall k: nat | k < |Next(s, e).db.payments| ensures RowOfOne(Next(s, e).db.payments[k], amount(k)) {
      RowsOfOne(s, e, amount, k);
    }
    if !e.Move? {
      RequestOfOne(s, e, amount);
    } else if e.i < |s.procs| {
      StepOfOne(s, e.i, e.x, amount);
    }
  }

  lemma {:induction false} RunOfOne(s: Sys, es: seq<Event>, amount: nat -> int)
    requires OneOk(s, amount) && Respects(s, es, OneInvoice(amount))
    ensures Respects(s, es, Exact)
    decreases |es|
  {
    if es != [] {
      OneInvoiceIsExactStep(s, es[0], amount);
      NextOfOne(s, es[0], amount);
      RunOfOne(Next(s, es[0]), es[1..], amount);
    }
  }

  lemma StartOne(amount: nat -> int)
    ensures OneOk(INIT, amount)
  {
    StartKnown();
  }

  /**
   A wallet that presents one amount only with each k1 does no harm, however its callbacks overlap, when none of them
   records its invoice on a row that was released in the meantime.
   */
  lemma OneInvoiceIsExact(es: seq<Event>, amount: nat -> int)
    requires Respects(INIT, es, OneInvoice(amount))
    ensures Respects(INIT, es, Exact)
  {
    StartOne(amount);
    RunOfOne(INIT, es, amount);
  }
}
