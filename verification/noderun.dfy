/** The node's loops are runs of the paying and the watching process, and a receipt's hash names it in every run. */
module NodeRuns {
  import opened Sums
  import opened Tables
  import opened System
  import opened Node

  function Told(status: Status, state: InvoiceState, now: int): Input {
    Input(now, 0, "", None, true, false, false, status, state)
  }

  function PayMoves(i: nat, reports: seq<Update<Status>>): seq<Event> {
    seq(|reports|, k requires 0 <= k < |reports| => Move(i, Told(reports[k].status, Unset, reports[k].at)))
  }

  function WatchMoves(i: nat, updates: seq<Update<InvoiceState>>): seq<Event> {
    seq(|updates|, k requires 0 <= k < |updates| => Move(i, Told(Blank, updates[k].status, updates[k].at)))
  }

  predicate Pays(s: Sys, i: nat, pid: nat) {
    i < |s.procs| && (s.procs[i].Done? || s.procs[i].Paying?)
    && (s.procs[i].Paying? ==> s.procs[i].pid == pid) && (s.procs[i].Done? ==> pid >= |s.db.payments|)
  }

  lemma PayStep(s: Sys, i: nat, pid: nat, r: Update<Status>)
    requires Pays(s, i, pid)
    ensures var t := Next(s, Move(i, Told(r.status, Unset, r.at)));
            t.db == SetPaymentStatus(s.db, pid, r.status, r.at).0 && Pays(t, i, pid)
  {
  }

  /** What PayInvoice writes is what the run of the paying process writes. */
  lemma {:induction false} PayInvoiceIsARun(s: Sys, i: nat, pid: nat, reports: seq<Update<Status>>)
    requires Pays(s, i, pid)
    ensures Run(s, PayMoves(i, reports)).db == Wrote(s.db, pid, reports)
    decreases |reports|
  {
    if reports != [] {
      var e := Move(i, Told(reports[0].status, Unset, reports[0].at));
      PayStep(s, i, pid, reports[0]);
      PayInvoiceIsARun(Next(s, e), i, pid, reports[1..]);
      assert PayMoves(i, reports) == [e] + PayMoves(i, reports[1..]);
      RunCons(s, e, PayMoves(i, reports[1..]));
    }
  }

  predicate Watches(s: Sys, i: nat, hash: string) {
    && i < |s.procs| && s.procs[i].Watching?
    && FindHash(s.db.receipts, hash) == Some(s.procs[i].rid)
  }

  lemma WatchStep(s: Sys, i: nat, hash: string, u: Update<InvoiceState>)
    requires Watches(s, i, hash)
    ensures var t := Next(s, Move(i, Told(Blank, u.status, u.at)));
            t.db == SetStateByHash(s.db, hash, u.status, u.at).0 && Watches(t, i, hash)
  {
    var t := Next(s, Move(i, Told(Blank, u.status, u.at)));
    SameHashes(s.db.receipts, t.db.receipts, hash);
  }

  /** What Monitor_invoice_state writes is what the run of the watching process writes. */
  lemma {:induction false} MonitorIsARun(s: Sys, i: nat, hash: string, updates: seq<Update<InvoiceState>>)
    requires Watches(s, i, hash)
    ensures Run(s, WatchMoves(i, updates)).db == Watched(s.db, hash, updates)
    decreases |updates|
  {
    if updates != [] {
      var e := Move(i, Told(Blank, updates[0].status, updates[0].at));
      WatchStep(s, i, hash, updates[0]);
      MonitorIsARun(Next(s, e), i, hash, updates[1..]);
      assert WatchMoves(i, updates) == [e] + WatchMoves(i, updates[1..]);
      RunCons(s, e, WatchMoves(i, updates[1..]));
    }
  }

  // ---------- a hash names its receipt ----------

  predicate HashesOk(rows: seq<Receipt>) {
    forall j, k | 0 <= j < k < |rows| :: rows[j].hash != rows[k].hash
  }

  /** The receipts keep their hashes, and at most one with a hash of its own is added. */
  predicate HashesKept(rows: seq<Receipt>, rows': seq<Receipt>) {
    && |rows| <= |rows'| <= |rows| + 1 && (forall k | 0 <= k < |rows| :: rows'[k].hash == rows[k].hash)
    && (|rows'| > |rows| ==> forall k | 0 <= k < |rows| :: rows[k].hash != rows'[|rows|].hash)
  }

  lemma StepHashes(s: Sys, i: nat, x: Input)
    requires i < |s.procs|
    ensures StepTap(s, i, x).db.receipts == s.db.receipts && StepWait(s, i, x).db.receipts == s.db.receipts
    ensures StepCallback(s, i, x).db.receipts == s.db.receipts
    ensures HashesKept(s.db.receipts, StepNode(s, i, x).db.receipts)
  {
  }

  lemma RequestHashes(s: Sys, e: Event)
    requires !e.Move?
    ensures HashesKept(s.db.receipts, Next(s, e).db.receipts)
  {
  }

  lemma NextHashes(s: Sys, e: Event)
    requires HashesOk(s.db.receipts)
    ensures HashesOk(Next(s, e).db.receipts)
  {
    if !e.Move? { RequestHashes(s, e); } else if e.i < |s.procs| { StepHashes(s, e.i, e.x); }
  }

  lemma {:induction false} RunHashes(s: Sys, es: seq<Event>)
    requires HashesOk(s.db.receipts)
    ensures HashesOk(Run(s, es).db.receipts)
    decreases |es|
  {
    if es != [] {
      NextHashes(s, es[0]);
      RunHashes(Next(s, es[0]), es[1..]);
    }
  }

  /** In every reachable state, looking up a receipt's hash finds that receipt. */
  lemma HashNamesItsReceipt(es: seq<Event>, s: Sys, rid: nat)
    requires s == Run(INIT, es) && rid < |s.db.receipts|
    ensures FindHash(s.db.receipts, s.db.receipts[rid].hash) == Some(rid)
  {
    RunHashes(INIT, es);
    assert FindHash(s.db.receipts, s.db.receipts[rid].hash).Some?;
  }
}
