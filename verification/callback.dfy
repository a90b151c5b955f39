/**
 The withdraw callback (lnurlw/lnurlw_callback.go) as one method over the database, and as the run of process steps
 it is when nothing comes in between.
 */
module Callbacks {
  import opened Sums
  import opened Tables
  import opened Databases
  import opened Limits
  import opened System

  /**
   What a callback is called with: `invoice` is the amount of a payment request that can be decoded, `allowed` that
   its payee is the test node where one is set, `hub` and `asks` the settings that pick the payment path.
   */
  datatype Call = Call(
    k1: string, invoice: Option<int>, pin: string, allowed: bool, hub: bool, asks: bool, checkedAt: int, claimedAt: int)

  /** The goroutine started, if one is. */
  datatype Reply = Refused | PayByHub(pid: nat) | AskFirst(pid: nat) | PayByNode(pid: nat)

  function Started(c: Call, pid: nat): Reply {
    if c.hub then PayByHub(pid) else if c.asks then AskFirst(pid) else PayByNode(pid)
  }

  function SetRow(db: Db, pid: nat, p: Payment): Db
    requires pid < |db.payments|
  {
    db.(payments := db.payments[pid := p])
  }

  /** The row k1 names, when it is unpaid, in time, and has an invoice to be recorded. */
  function Usable(db: Db, c: Call): (r: Option<nat>)
    ensures r.Some? ==> r.value < |db.payments| && db.payments[r.value].cardId < |db.cards| && c.invoice.Some?
  {
    var p := FindK1(db.payments, c.k1);
    if && p.Some? && !db.payments[p.value].paid && db.payments[p.value].cardId < |db.cards|
       && !RequestTimedOut(db, p.value, c.checkedAt) && c.invoice.Some? && c.invoice.value > 0
    then p else None
  }

  function Invoiced(db: Db, pid: nat, msats: int): Db
    requires pid < |db.payments|
  {
    SetRow(db, pid, db.payments[pid].(amount := Some(msats)))
  }

  /** The callback's one change to its row: spoiled, invoiced, or invoiced and claimed. */
  function Outcome(db: Db, c: Call): (Db, Reply) {
    var p := Usable(db, c);
    if p.None? then (db, Refused) else
    var pid, msats := p.value, c.invoice.value;
    var row := db.payments[pid];
    if WrongPin(db.cards[row.cardId], msats, c.pin) then
      (SetRow(db, pid, row.(paid := true, amount := None, status := Failed, statusTime := c.claimedAt)), Refused)
    else if
      !c.allowed || !Judge(Invoiced(db, pid, msats), pid, TruncDiv(msats, 1000), !c.hub, c.claimedAt).Granted?
    then
      (Invoiced(db, pid, msats), Refused)
    else
      (SetRow(db, pid, row.(amount := Some(msats), paid := true, payTime := Some(c.claimedAt))),
       Started(c, pid))
  }

  lemma LetThrough(db: Db, c: Call)
    requires !Outcome(db, c).1.Refused?
    ensures var pid := Outcome(db, c).1.pid;
            && FindK1(db.payments, c.k1) == Some(pid)
            && var card := db.cards[db.payments[pid].cardId];
               && c.invoice.value <= 1000 * card.txLimitSats + 999
               && (card.pinEnabled && c.invoice.value >= 1000 * card.pinLimitSats ==> c.pin == card.pin)
  {
    var pid, msats := Usable(db, c).value, c.invoice.value;
    SatsWithin(msats, db.cards[db.payments[pid].cardId].pinLimitSats);
    GrantedIff(Invoiced(db, pid, msats), pid, msats, !c.hub, c.claimedAt);
  }

  method Callback(db: Database, c: Call) returns (reply: Reply)
    modifies db`payments
    ensures (db.State(), reply) == Outcome(old(db.State()), c)
    ensures !reply.Refused? ==>
              && reply.pid < |old(db.payments)| && old(db.payments)[reply.pid].cardId < |db.cards| && c.invoice.Some?
              && var p, card := old(db.payments)[reply.pid], db.cards[old(db.payments)[reply.pid].cardId];
                 && p.k1 == c.k1 && !p.paid && c.allowed
                 && c.checkedAt <= p.requestTime + card.timeoutSec * 1_000_000
                 && 0 < c.invoice.value <= 1000 * card.txLimitSats + 999
                 && (card.pinEnabled && c.invoice.value >= 1000 * card.pinLimitSats ==> c.pin == card.pin)
                 && (reply.PayByHub? <==> c.hub) && (reply.AskFirst? <==> !c.hub && c.asks)
  {
    if !Outcome(db.State(), c).1.Refused? { LetThrough(db.State(), c); }
    var p := FindK1(db.payments, c.k1);
    if p.None? || db.payments[p.value].paid {
      return Refused;
    }
    var pid := p.value;
    if db.payments[pid].cardId >= |db.cards| || RequestTimedOut(db.State(), pid, c.checkedAt) {
      return Refused;
    }
    if c.invoice.None? {
      return Refused;
    }
    var recorded := db.UpdateInvoice(pid, c.invoice.value);
    if !recorded {
      assert db.State() == old(db.State()) && Usable(db.State(), c).None?;
      return Refused;
    }
    Statements(old(db.State()), c, pid);
    var card := db.cards[db.payments[pid].cardId];
    if WrongPin(card, c.invoice.value, c.pin) {
      var _ := db.Fail(pid, c.claimedAt);
      return Refused;
    }
    if !c.allowed {
      return Refused;
    }
    var verdict := db.AuthorizePayment(pid, TruncDiv(c.invoice.value, 1000), !c.hub, c.claimedAt);
    if !verdict.Granted? {
      return Refused;
    }
    reply := Started(c, pid);
  }

  // ---------- the callback as a run ----------

  function At(c: Call, now: int, ok: bool): Input {
    Input(now, if c.invoice.Some? then c.invoice.value else 0, c.pin, None, ok, c.hub, false, Blank, Unset)
  }

  /** The steps of process i from the point where it has been authorised, routed, and so on back to its start. */
  function FromClaim(i: nat, c: Call): seq<Event> {
    [Move(i, At(c, c.claimedAt, c.asks))] + []
  }

  function FromRoute(i: nat, c: Call): seq<Event> {
    [Move(i, At(c, c.claimedAt, c.allowed))] + FromClaim(i, c)
  }

  function FromReady(i: nat, c: Call): seq<Event> {
    [Move(i, At(c, c.claimedAt, c.allowed))] + FromRoute(i, c)
  }

  function FromInvoice(i: nat, c: Call): seq<Event> {
    [Move(i, At(c, c.claimedAt, c.allowed))] + FromReady(i, c)
  }

  function FromTime(i: nat, c: Call): seq<Event> {
    [Move(i, At(c, c.claimedAt, c.allowed))] + FromInvoice(i, c)
  }

  function FromFound(i: nat, c: Call): seq<Event> {
    [Move(i, At(c, c.checkedAt, c.allowed))] + FromTime(i, c)
  }

  function Events(i: nat, c: Call): seq<Event> {
    [Present(c.k1)] + FromFound(i, c)
  }

  /** Process i is over, or there is none. */
  predicate Over(s: Sys, i: nat) {
    i < |s.procs| ==> s.procs[i].Done?
  }

  lemma {:induction false} NothingMore(s: Sys, i: nat, es: seq<Event>)
    requires Over(s, i) && forall e | e in es :: e.Move? && e.i == i
    ensures Run(s, es) == s
    decreases |es|
  {
    if es != [] {
      assert es[0] in es;
      assert Next(s, es[0]) == s;
      NothingMore(s, i, es[1..]);
    }
  }

  /** The state t is one the callback may end in: this database, and the process where the reply says. */
  predicate Ends(t: Sys, i: nat, o: (Db, Reply), msats: int) {
    && t.db == o.0
    && (o.1.Refused? ==> Over(t, i))
    && (!o.1.Refused? ==> i < |t.procs|)
    && (o.1.PayByHub? ==> t.procs[i] == HubPaying(o.1.pid, msats))
    && (o.1.AskFirst? ==> t.procs[i] == WaitAsked(o.1.pid, msats))
    && (o.1.PayByNode? ==> t.procs[i] == Paying(o.1.pid, msats, Blank))
  }

  /** What comes of a callback whose row has the invoice, by how far it has come. */
  function AfterRoute(db: Db, c: Call, pid: nat, msats: int): (Db, Reply) {
    var (db', v) := Authorize(db, pid, TruncDiv(msats, 1000), !c.hub, c.claimedAt);
    (db', if v.Granted? then Started(c, pid) else Refused)
  }

  function AfterReady(db: Db, c: Call, pid: nat, msats: int): (Db, Reply) {
    if c.allowed then AfterRoute(db, c, pid, msats) else (db, Refused)
  }

  function AfterInvoice(db: Db, c: Call, pid: nat, msats: int): (Db, Reply)
    requires pid < |db.payments| && db.payments[pid].cardId < |db.cards|
  {
    if WrongPin(db.cards[db.payments[pid].cardId], msats, c.pin)
    then (FailPayment(db, pid, c.claimedAt).0, Refused)
    else AfterReady(db, c, pid, msats)
  }

  lemma RunClaim(s: Sys, i: nat, c: Call, pid: nat, msats: int)
    requires i < |s.procs| && s.procs[i] == CbClaimed(pid, msats, c.hub)
    ensures Ends(Run(s, FromClaim(i, c)), i, (s.db, Started(c, pid)), msats)
  {
    StartStep(s, i, c, pid, msats);
    RunCons(s, Move(i, At(c, c.claimedAt, c.asks)), []);
  }

  lemma StartStep(s: Sys, i: nat, c: Call, pid: nat, msats: int)
    requires i < |s.procs| && s.procs[i] == CbClaimed(pid, msats, c.hub)
    ensures Ends(Next(s, Move(i, At(c, c.claimedAt, c.asks))), i, (s.db, Started(c, pid)), msats)
  {
  }

  lemma RouteStep(s: Sys, i: nat, c: Call, pid: nat, msats: int, pin: PinCheck)
    requires i < |s.procs| && s.procs[i] == CbRouted(pid, msats, c.hub, pin) && |s.notes| == |s.db.payments|
    ensures var t := Next(s, Move(i, At(c, c.claimedAt, c.allowed)));
            var (db, v) := Authorize(s.db, pid, TruncDiv(msats, 1000), !c.hub, c.claimedAt);
            && t.db == db && |t.procs| == |s.procs|
            && t.procs[i] == if v.Granted? then CbClaimed(pid, msats, c.hub) else Done
  {
  }

  lemma RunRoute(s: Sys, i: nat, c: Call, pid: nat, msats: int, pin: PinCheck)
    requires i < |s.procs| && s.procs[i] == CbRouted(pid, msats, c.hub, pin) && |s.notes| == |s.db.payments|
    ensures Ends(Run(s, FromRoute(i, c)), i, AfterRoute(s.db, c, pid, msats), msats)
  {
    var e := Move(i, At(c, c.claimedAt, c.allowed));
    var t := Next(s, e);
    RouteStep(s, i, c, pid, msats, pin);
    RunCons(s, e, FromClaim(i, c));
    if Authorize(s.db, pid, TruncDiv(msats, 1000), !c.hub, c.claimedAt).1.Granted? {
      RunClaim(t, i, c, pid, msats);
    } else {
      NothingMore(t, i, FromClaim(i, c));
    }
  }

  lemma RunReady(s: Sys, i: nat, c: Call, pid: nat, msats: int, pin: PinCheck)
    requires i < |s.procs| && s.procs[i] == CbReady(pid, msats, pin) && |s.notes| == |s.db.payments|
    ensures Ends(Run(s, FromReady(i, c)), i, AfterReady(s.db, c, pid, msats), msats)
  {
    var e := Move(i, At(c, c.claimedAt, c.allowed));
    var t := Put(s, i, if c.allowed then CbRouted(pid, msats, c.hub, pin) else Done);
    assert Next(s, e) == t;
    RunCons(s, e, FromRoute(i, c));
    if c.allowed { RunRoute(t, i, c, pid, msats, pin); } else { NothingMore(t, i, FromRoute(i, c)); }
  }

  lemma SpoilStep(s: Sys, i: nat, c: Call, pid: nat)
    requires i < |s.procs| && s.procs[i] == CbWrongPin(pid)
    ensures var t := Next(s, Move(i, At(c, c.claimedAt, c.allowed)));
            t.db == FailPayment(s.db, pid, c.claimedAt).0 && t.procs == s.procs[i := Done]
  {
  }

  lemma RunSpoil(s: Sys, i: nat, c: Call, pid: nat, msats: int)
    requires i < |s.procs| && s.procs[i] == CbWrongPin(pid)
    ensures Ends(Run(s, FromReady(i, c)), i, (FailPayment(s.db, pid, c.claimedAt).0, Refused), msats)
  {
    var e := Move(i, At(c, c.claimedAt, c.allowed));
    SpoilStep(s, i, c, pid);
    RunCons(s, e, FromRoute(i, c));
    NothingMore(Next(s, e), i, FromRoute(i, c));
  }

  /** The PIN check: the verdict goes into the log, the database stays. */
  function AfterPin(s: Sys, i: nat, c: Call, pid: nat, msats: int): (t: Sys)
    requires i < |s.procs| && pid < |s.db.payments| && s.db.payments[pid].cardId < |s.db.cards|
    ensures t.db == s.db && t.notes == s.notes && |t.procs| == |s.procs|
  {
    var card := s.db.cards[s.db.payments[pid].cardId];
    if WrongPin(card, msats, c.pin)
    then Put(Log(s, PinRefused(pid)), i, CbWrongPin(pid))
    else Put(s, i, CbReady(pid, msats, Compared(card, c.pin)))
  }

  lemma PinStep(s: Sys, i: nat, c: Call, pid: nat, msats: int)
    requires i < |s.procs| && s.procs[i] == CbRecorded(pid, msats)
    requires pid < |s.db.payments| && s.db.payments[pid].cardId < |s.db.cards|
    ensures Next(s, Move(i, At(c, c.claimedAt, c.allowed))) == AfterPin(s, i, c, pid, msats)
  {
  }

  lemma RunRecorded(s: Sys, i: nat, c: Call, pid: nat, msats: int)
    requires i < |s.procs| && s.procs[i] == CbRecorded(pid, msats) && |s.notes| == |s.db.payments|
    requires pid < |s.db.payments| && s.db.payments[pid].cardId < |s.db.cards|
    ensures Ends(Run(s, FromInvoice(i, c)), i, AfterInvoice(s.db, c, pid, msats), msats)
  {
    var t := AfterPin(s, i, c, pid, msats);
    PinStep(s, i, c, pid, msats);
    RunCons(s, Move(i, At(c, c.claimedAt, c.allowed)), FromReady(i, c));
    if WrongPin(s.db.cards[s.db.payments[pid].cardId], msats, c.pin) {
      RunSpoil(t, i, c, pid, msats);
    } else {
      RunReady(t, i, c, pid, msats, t.procs[i].pin);
    }
  }

  /** The statements of the callback add up to its one change. */
  lemma Statements(db: Db, c: Call, pid: nat)
    requires Usable(db, c) == Some(pid)
    ensures Outcome(db, c) == AfterInvoice(Invoiced(db, pid, c.invoice.value), c, pid, c.invoice.value)
  {
    var a, row := Invoiced(db, pid, c.invoice.value), db.payments[pid];
    var spoiled := row.(paid := true, amount := None, status := Failed, statusTime := c.claimedAt);
    assert a.payments[pid := spoiled] == db.payments[pid := spoiled];
    var claimed := row.(amount := Some(c.invoice.value), paid := true, payTime := Some(c.claimedAt));
    assert a.payments[pid := claimed] == db.payments[pid := claimed];
  }

  lemma InvoiceStep(s: Sys, i: nat, c: Call, pid: nat)
    requires i < |s.procs| && s.procs[i] == CbInTime(pid) && Usable(s.db, c) == Some(pid)
    ensures Next(s, Move(i, At(c, c.claimedAt, c.allowed)))
            == Put(Write(s, Invoiced(s.db, pid, c.invoice.value)), i, CbRecorded(pid, c.invoice.value))
  {
  }

  /** From the moment the row has been found usable; the invoice is not yet recorded. */
  lemma RunInvoice(s: Sys, i: nat, c: Call, pid: nat)
    requires i < |s.procs| && s.procs[i] == CbInTime(pid) && |s.notes| == |s.db.payments|
    requires Usable(s.db, c) == Some(pid)
    ensures Ends(Run(s, FromTime(i, c)), i, Outcome(s.db, c), c.invoice.value)
  {
    var msats := c.invoice.value;
    InvoiceStep(s, i, c, pid);
    RunCons(s, Move(i, At(c, c.claimedAt, c.allowed)), FromInvoice(i, c));
    RunRecorded(Put(Write(s, Invoiced(s.db, pid, msats)), i, CbRecorded(pid, msats)), i, c, pid, msats);
    Statements(s.db, c, pid);
  }

  lemma NoInvoice(s: Sys, i: nat, c: Call, pid: nat)
    requires i < |s.procs| && s.procs[i] == CbInTime(pid) && (c.invoice.Some? ==> c.invoice.value <= 0)
    ensures Ends(Run(s, FromTime(i, c)), i, (s.db, Refused), 0)
  {
    var e := Move(i, At(c, c.claimedAt, c.allowed));
    RunCons(s, e, FromInvoice(i, c));
    NothingMore(Next(s, e), i, FromInvoice(i, c));
  }

  lemma FoundStep(s: Sys, i: nat, c: Call, pid: nat)
    requires i < |s.procs| && s.procs[i] == CbFound(pid)
    requires FindK1(s.db.payments, c.k1) == Some(pid) && !s.db.payments[pid].paid
    ensures var t := Next(s, Move(i, At(c, c.checkedAt, c.allowed)));
            && t == Put(s, i, t.procs[i]) && (t.procs[i] == CbInTime(pid) || t.procs[i].Done?)
            && (Usable(s.db, c).Some? ==> Usable(s.db, c) == Some(pid) && t.procs[i].CbInTime?)
            && (Usable(s.db, c).None? && t.procs[i].CbInTime? ==> c.invoice.Some? ==> c.invoice.value <= 0)
  {
  }

  lemma RunFound(s: Sys, i: nat, c: Call, pid: nat)
    requires i < |s.procs| && s.procs[i] == CbFound(pid) && |s.notes| == |s.db.payments|
    requires FindK1(s.db.payments, c.k1) == Some(pid) && !s.db.payments[pid].paid
    ensures Ends(Run(s, FromFound(i, c)), i, Outcome(s.db, c), if c.invoice.Some? then c.invoice.value else 0)
  {
    var e := Move(i, At(c, c.checkedAt, c.allowed));
    var t := Next(s, e);
    FoundStep(s, i, c, pid);
    RunCons(s, e, FromTime(i, c));
    if Usable(s.db, c).Some? {
      RunInvoice(t, i, c, pid);
    } else if t.procs[i].Done? {
      NothingMore(t, i, FromTime(i, c));
    } else {
      NoInvoice(t, i, c, pid);
    }
  }

  lemma PresentStep(s: Sys, k1: string)
    ensures var p := FindK1(s.db.payments, k1);
            Next(s, Present(k1)) == if p.Some? && !s.db.payments[p.value].paid then Spawn(s, CbFound(p.value)) else s
  {
  }

  lemma Unusable(db: Db, c: Call)
    requires var p := FindK1(db.payments, c.k1); p.None? || db.payments[p.value].paid
    ensures Outcome(db, c) == (db, Refused)
  {
  }

  /** A callback that nothing interrupts is a run of the process steps, so what holds of every run holds of it. */
  lemma CallbackIsARun(s: Sys, c: Call)
    requires |s.notes| == |s.db.payments|
    ensures Ends(Run(s, Events(|s.procs|, c)), |s.procs|, Outcome(s.db, c),
                 if c.invoice.Some? then c.invoice.value else 0)
  {
    var i, p := |s.procs|, FindK1(s.db.payments, c.k1);
    PresentStep(s, c.k1);
    RunCons(s, Present(c.k1), FromFound(i, c));
    if p.Some? && !s.db.payments[p.value].paid {
      RunFound(Spawn(s, CbFound(p.value)), i, c, p.value);
    } else {
      Unusable(s.db, c);
      NothingMore(s, i, FromFound(i, c));
    }
  }
}
