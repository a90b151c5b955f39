/** The loops of lnd/lnd.go that write what the node reports, update by update, until its stream ends. */
module Node {
  import opened Tables
  import opened Databases
  import opened Sums

  datatype Update<S> = Update(status: S, at: int)

  /** How a call to the node goes before its stream of updates starts. */
  datatype Opening = Streaming | Unreachable(at: int) | Undecodable(at: int) | NotConfigured

  /** What is written about a payment: the updates, or one FAILED when nothing could be sent. */
  function Reports(opening: Opening, updates: seq<Update<Status>>): seq<Update<Status>> {
    match opening
    case Streaming => updates
    case Unreachable(at) => [Update(Failed, at)]
    case Undecodable(at) => [Update(Failed, at)]
    case NotConfigured => []
  }

  function Wrote(db: Db, pid: nat, reports: seq<Update<Status>>): Db
    decreases |reports|
  {
    if reports == [] then db
    else Wrote(SetPaymentStatus(db, pid, reports[0].status, reports[0].at).0, pid, reports[1..])
  }

  function Watched(db: Db, hash: string, updates: seq<Update<InvoiceState>>): Db
    decreases |updates|
  {
    if updates == [] then db
    else Watched(SetStateByHash(db, hash, updates[0].status, updates[0].at).0, hash, updates[1..])
  }

  /** Of a payment only the status and its time change, and the last report stands. */
  lemma {:induction false} LastReportStands(db: Db, pid: nat, reports: seq<Update<Status>>)
    ensures var t := Wrote(db, pid, reports);
            && t.cards == db.cards && t.receipts == db.receipts && |t.payments| == |db.payments|
            && (forall k | 0 <= k < |db.payments| && k != pid :: t.payments[k] == db.payments[k])
            && (pid < |db.payments| ==>
                  t.payments[pid] == if reports == [] then db.payments[pid]
                                     else db.payments[pid].(status := reports[|reports| - 1].status,
                                                            statusTime := reports[|reports| - 1].at))
    decreases |reports|
  {
    if reports != [] {
      LastReportStands(SetPaymentStatus(db, pid, reports[0].status, reports[0].at).0, pid, reports[1..]);
    }
  }

  lemma {:induction false} SameHashes(rows: seq<Receipt>, rows': seq<Receipt>, hash: string)
    requires |rows| == |rows'| && forall k | 0 <= k < |rows| :: rows[k].hash == rows'[k].hash
    ensures FindHash(rows, hash) == FindHash(rows', hash)
  {
    if |rows| > 0 { SameHashes(rows[..|rows| - 1], rows'[..|rows| - 1], hash); }
  }

  /** Of the hash's receipt only the state and its time change, and the last update stands; no hash, no change. */
  lemma {:induction false} LastUpdateStands(db: Db, hash: string, updates: seq<Update<InvoiceState>>)
    ensures var t, rid := Watched(db, hash, updates), FindHash(db.receipts, hash);
            && t.cards == db.cards && t.payments == db.payments && |t.receipts| == |db.receipts|
            && (forall k: nat | k < |db.receipts| && rid != Some(k) :: t.receipts[k] == db.receipts[k])
            && (rid.Some? ==>
                  t.receipts[rid.value] == if updates == [] then db.receipts[rid.value]
                                           else db.receipts[rid.value].(state := updates[|updates| - 1].status,
                                                                        stateTime := updates[|updates| - 1].at))
    decreases |updates|
  {
    if updates != [] {
      var u := SetStateByHash(db, hash, updates[0].status, updates[0].at).0;
      SameHashes(db.receipts, u.receipts, hash);
      LastUpdateStands(u, hash, updates[1..]);
    }
  }

  lemma {:induction false} NothingToWrite(db: Db, pid: nat, reports: seq<Update<Status>>)
    requires pid >= |db.payments|
    ensures Wrote(db, pid, reports) == db
    decreases |reports|
  {
    if reports != [] { NothingToWrite(db, pid, reports[1..]); }
  }

  /** A status that cannot be stored ends the payment's loop. */
  method PayInvoice(db: Database, pid: nat, opening: Opening, updates: seq<Update<Status>>)
    modifies db`payments
    ensures db.State() == Wrote(old(db.State()), pid, Reports(opening, updates))
    ensures opening.NotConfigured? || pid >= |old(db.payments)| ==> db.payments == old(db.payments)
    ensures (opening.Unreachable? || opening.Undecodable?) && pid < |old(db.payments)| ==>
              db.payments == old(db.payments)[pid := old(db.payments)[pid].(status := Failed, statusTime := opening.at)]
    ensures opening.Streaming? && pid < |old(db.payments)| ==>
              && |db.payments| == |old(db.payments)|
              && db.payments[pid] == if updates == [] then old(db.payments)[pid]
                                     else old(db.payments)[pid].(status := updates[|updates| - 1].status,
                                                                 statusTime := updates[|updates| - 1].at)
    ensures pid < |old(db.payments)| && Reports(opening, updates) != [] ==>
              var last := Reports(opening, updates)[|Reports(opening, updates)| - 1];
              && |db.payments| == |old(db.payments)|
              && db.payments[pid] == old(db.payments)[pid].(status := last.status, statusTime := last.at)
  {
    LastReportStands(db.State(), pid, Reports(opening, updates));
    match opening
    case NotConfigured => return;
    case Unreachable(at) =>
      var _ := db.UpdateStatus(pid, Failed, at);
    case Undecodable(at) =>
      var _ := db.UpdateStatus(pid, Failed, at);
    case Streaming =>
      var i := 0;
      while i < |updates|
        invariant 0 <= i <= |updates|
        invariant Wrote(db.State(), pid, updates[i..]) == Wrote(old(db.State()), pid, updates)
      {
        assert updates[i..][1..] == updates[i + 1..];
        var ok := db.UpdateStatus(pid, updates[i].status, updates[i].at);
        if !ok {
          NothingToWrite(db.State(), pid, updates[i..]);
          return;
        }
        i := i + 1;
      }
  }

  /** A state that cannot be stored is passed over. */
  method MonitorInvoiceState(db: Database, hash: string, updates: seq<Update<InvoiceState>>)
    modifies db`receipts
    ensures db.State() == Watched(old(db.State()), hash, updates)
    ensures var rid := FindHash(old(db.receipts), hash);
            rid.Some? && updates != [] ==>
              && |db.receipts| == |old(db.receipts)|
              && db.receipts[rid.value] == old(db.receipts)[rid.value].(
                   state := updates[|updates| - 1].status, stateTime := updates[|updates| - 1].at)
  {
    LastUpdateStands(db.State(), hash, updates);
    var i := 0;
    while i < |updates|
      invariant 0 <= i <= |updates|
      invariant Watched(db.State(), hash, updates[i..]) == Watched(old(db.State()), hash, updates)
    {
      assert updates[i..][1..] == updates[i + 1..];
      var _ := db.UpdateReceiptState(hash, updates[i].status, updates[i].at);
      i := i + 1;
    }
  }
}
