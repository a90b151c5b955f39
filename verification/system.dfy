/**
 The service as processes over one database.
 A process is a handler or a goroutine stopped between two of its database statements; an event is one process
 taking its next step, a new request, or a statement of the internal API. A run is any sequence of events, so the
 processes interleave freely, and any process may stop for good at any point.
 */
module System {
  import opened Sums
  import opened Tables

  /** What a callback compared: the PIN it was given, and the PIN columns of the card as it read them. */
  datatype PinCheck = PinCheck(given: string, enabled: bool, number: string, limitSats: int)

  datatype Proc =
    // lnurlw.Response
    | TapRead(uid: string, counter: nat)
    | TapListing(uid: string, counter: nat)
    | TapBinding(uid: string, counter: nat, card: nat)
    | TapBound(uid: string, counter: nat, bound: Option<nat>)
    | TapFound(card: nat, counter: nat, bound: Option<nat>)
    | TapAccepted(card: nat, tap: nat)
    // lnurlw.Callback
    | CbFound(pid: nat)
    | CbInTime(pid: nat)
    | CbRecorded(pid: nat, msats: int)
    | CbWrongPin(pid: nat)
    | CbReady(pid: nat, msats: int, pin: PinCheck)
    | CbRouted(pid: nat, msats: int, hub: bool, pin: PinCheck)
    | CbClaimed(pid: nat, msats: int, hub: bool)
    // await_approval
    | WaitAsked(pid: nat, msats: int)
    | WaitTokened(pid: nat, msats: int)
    | WaitPolling(pid: nat, msats: int)
    | WaitDropped(pid: nat, msats: int)
    // lnd.PayInvoice and lndhub.PayInvoice
    | Paying(pid: nat, msats: int, last: Status)
    | HubPaying(pid: nat, msats: int)
    // lnd.Monitor_invoice_state
    | Watching(rid: nat, card: nat, msats: int, seen: InvoiceState)
    | Done

  /** Accepted counters, in the order they were accepted. */
  datatype Tap = Tap(card: nat, counter: nat, bound: Option<nat>)

  /** What happened, in commit order. */
  datatype Entry =
    | Claimed(pid: nat, card: nat, msats: int, at: int, checked: bool, dayLimit: int, txLimit: int, pin: PinCheck)
    | PinRefused(pid: nat)
    | Spoiled(pid: nat)
    | WaitStarted(pid: nat)
    | PayStarted(pid: nat)
    | TokenMade(pid: nat, token: string)
    | AnswerTaken(pid: nat, token: string)
    | Released(pid: nat, card: nat, msats: int)
    | Reported(pid: nat, card: nat, msats: int, was: Status, status: Status)
    | Deposited(rid: nat, card: nat, hash: string, msats: int)
    | Observed(rid: nat, card: nat, msats: int, seen: InvoiceState, state: InvoiceState)

  /** History of one payment row: the tap that minted it and the log entry that claimed it. */
  datatype Note = Note(tap: nat, claim: Option<nat>)

  datatype Sys = Sys(db: Db, procs: seq<Proc>, taps: seq<Tap>, notes: seq<Note>, log: seq<Entry>)

  const INIT := Sys(EMPTY_DB, [], [], [], [])

  /** Everything a step takes from outside; each process state uses the fields it needs. */
  datatype Input = Input(
    now: int, msats: int, text: string, pick: Option<nat>,
    ok: bool, hub: bool, expired: bool, status: Status, state: InvoiceState)

  datatype Event =
    | TapCard(uid: string, counter: nat)
    | Present(k1: string)
    | Move(i: nat, x: Input)
    | Stop(i: nat)
    | Answer(token: string, answer: string, now: int)
    | ApiAnswer(pid: nat, answer: string, now: int)
    | Deposit(card: nat, hash: string, msats: int, now: int)
    | ApiWipe(name: string)
    | ApiAdd(details: NewCard)
    | ApiChange(name: string, lnurlw: bool, txLimit: int, dayLimit: int, pin: PinChange)

  const MIN_SENDABLE_MSAT := 1000
  const MAX_SENDABLE_MSAT := 1_000_000_000

  function Spawn(s: Sys, p: Proc): Sys {
    s.(procs := s.procs + [p])
  }

  function Put(s: Sys, i: nat, p: Proc): Sys
    requires i < |s.procs|
  {
    s.(procs := s.procs[i := p])
  }

  function Log(s: Sys, e: Entry): Sys {
    s.(log := s.log + [e])
  }

  function Write(s: Sys, db: Db): Sys {
    s.(db := db)
  }

  predicate IsTap(p: Proc) {
    p.TapRead? || p.TapListing? || p.TapBinding? || p.TapBound? || p.TapFound? || p.TapAccepted?
  }

  predicate WrongPin(c: Card, msats: int, pin: string) {
    c.pinEnabled && TruncDiv(msats, 1000) >= c.pinLimitSats && c.pin != pin
  }

  function StepTap(s: Sys, i: nat, x: Input): Sys
    requires i < |s.procs|
  {
    match s.procs[i]
    case TapRead(uid, counter) =>
      var live := |LiveIds(s.db.cards, uid)|;
      Put(s, i, if live == 0 then TapListing(uid, counter)
                else if live == 1 then TapBound(uid, counter, None) else Done)
    case TapListing(uid, counter) =>
      // `pick` is the candidate of the list read here whose CMAC matches
      if x.pick.Some? && x.pick.value < |s.db.cards| && IsBlank(s.db.cards[x.pick.value])
      then Put(s, i, TapBinding(uid, counter, x.pick.value))
      else Put(s, i, TapBound(uid, counter, None))
    case TapBinding(uid, counter, card) =>
      // nothing asks whether the card is still blank
      var (db, ok) := UpdateUidCounter(s.db, card, uid, counter);
      Put(Write(s, db), i, TapBound(uid, counter, if ok then Some(card) else None))
    case TapBound(uid, counter, bound) =>
      // `ok` is the CMAC check under the key of the card found
      if x.pick.Some? && x.pick.value < |s.db.cards| && Live(s.db.cards[x.pick.value], uid)
         && s.db.cards[x.pick.value].lnurlw && x.ok
      then Put(s, i, TapFound(x.pick.value, counter, bound))
      else Put(s, i, Done)
    case TapFound(card, counter, bound) =>
      var (db, ok) := CheckCounter(s.db, card, counter);
      if ok then Put(Write(s, db), i, TapAccepted(card, |s.taps|)).(taps := s.taps + [Tap(card, counter, bound)])
      else Put(s, i, Done)
    case TapAccepted(card, tap) =>
      var (db, ok) := InsertPayment(s.db, card, x.text, x.now);
      if ok then Put(Write(s, db), i, Done).(notes := s.notes + [Note(tap, None)])
      else Put(s, i, Done)
    case _ => s
  }

  function Compared(c: Card, given: string): PinCheck {
    PinCheck(given, c.pinEnabled, c.pin, c.pinLimitSats)
  }

  function StepCallback(s: Sys, i: nat, x: Input): Sys
    requires i < |s.procs|
  {
    match s.procs[i]
    case CbFound(pid) =>
      if pid < |s.db.payments| && s.db.payments[pid].cardId < |s.db.cards| && !RequestTimedOut(s.db, pid, x.now)
      then Put(s, i, CbInTime(pid))
      else Put(s, i, Done)
    case CbInTime(pid) =>
      var (db, ok) := RecordInvoice(s.db, pid, x.msats);
      if ok then Put(Write(s, db), i, CbRecorded(pid, x.msats)) else Put(s, i, Done)
    case CbRecorded(pid, msats) =>
      if !(pid < |s.db.payments| && s.db.payments[pid].cardId < |s.db.cards|) then Put(s, i, Done)
      else if WrongPin(s.db.cards[s.db.payments[pid].cardId], msats, x.text) then
        Put(Log(s, PinRefused(pid)), i, CbWrongPin(pid))
      else
        Put(s, i, CbReady(pid, msats, Compared(s.db.cards[s.db.payments[pid].cardId], x.text)))
    case CbWrongPin(pid) =>
      var (db, ok) := FailPayment(s.db, pid, x.now);
      if ok then Put(Log(Write(s, db), Spoiled(pid)), i, Done) else Put(s, i, Done)
    case CbReady(pid, msats, pin) =>
      if x.ok then Put(s, i, CbRouted(pid, msats, x.hub, pin)) else Put(s, i, Done)
    case CbRouted(pid, msats, hub, pin) =>
      var (db, v) := Authorize(s.db, pid, TruncDiv(msats, 1000), !hub, x.now);
      if v.Granted? && pid < |s.notes| then
        var card := s.db.payments[pid].cardId;
        var c := s.db.cards[card];
        var e := Claimed(pid, card, msats, x.now, !hub, c.dayLimitSats, c.txLimitSats, pin);
        Put(Log(Write(s, db), e), i, CbClaimed(pid, msats, hub))
        .(notes := s.notes[pid := s.notes[pid].(claim := Some(|s.log|))])
      else Put(s, i, Done)
    case CbClaimed(pid, msats, hub) =>
      if hub then Put(Log(s, PayStarted(pid)), i, HubPaying(pid, msats))
      else if x.ok then Put(Log(s, WaitStarted(pid)), i, WaitAsked(pid, msats))
      else Put(Log(s, PayStarted(pid)), i, Paying(pid, msats, Blank))
    case _ => s
  }

  function StepWait(s: Sys, i: nat, x: Input): Sys
    requires i < |s.procs|
  {
    match s.procs[i]
    case WaitAsked(pid, msats) =>
      if x.ok && pid < |s.db.payments| then
        Put(Log(Write(s, SetToken(s.db, pid, x.text).0), TokenMade(pid, x.text)), i, WaitTokened(pid, msats))
      else Put(s, i, WaitDropped(pid, msats))
    case WaitTokened(pid, msats) =>
      Put(s, i, if x.ok then WaitPolling(pid, msats) else WaitDropped(pid, msats))
    case WaitPolling(pid, msats) =>
      if x.expired then Put(s, i, WaitDropped(pid, msats))
      else if !x.ok || pid >= |s.db.payments| then s
      else (
        match ReadAnswer(s.db.payments[pid])
        case None => s
        case Some(true) => Put(Log(s, PayStarted(pid)), i, Paying(pid, msats, Blank))
        case Some(false) => Put(s, i, WaitDropped(pid, msats))
      )
    case WaitDropped(pid, msats) =>
      var (db, ok) := ReleasePayment(s.db, pid, x.now);
      if ok then Put(Log(Write(s, db), Released(pid, s.db.payments[pid].cardId, msats)), i, Done)
      else Put(s, i, Done)
    case _ => s
  }

  function StepNode(s: Sys, i: nat, x: Input): Sys
    requires i < |s.procs|
  {
    match s.procs[i]
    case Paying(pid, msats, last) =>
      var (db, ok) := SetPaymentStatus(s.db, pid, x.status, x.now);
      if ok then
        Put(Log(Write(s, db), Reported(pid, s.db.payments[pid].cardId, msats, last, x.status)),
            i, Paying(pid, msats, x.status))
      else Put(s, i, Done)
    case Watching(rid, card, msats, seen) =>
      var (db, ok) := SetReceiptState(s.db, rid, x.state, x.now);
      if ok then
        Put(Log(Write(s, db), Observed(rid, card, msats, seen, x.state)), i, Watching(rid, card, msats, x.state))
      else s
    case _ => s
  }

  function Step(s: Sys, i: nat, x: Input): Sys
    requires i < |s.procs|
  {
    var p := s.procs[i];
    if IsTap(p) then StepTap(s, i, x)
    else if p.WaitAsked? || p.WaitTokened? || p.WaitPolling? || p.WaitDropped? then StepWait(s, i, x)
    else if p.Paying? || p.Watching? then StepNode(s, i, x)
    else StepCallback(s, i, x)
  }

  function FindAwaiting(rows: seq<Payment>, token: string): (r: Option<nat>)
    ensures r.Some? ==> r.value < |rows| && Awaits(rows[r.value], token)
    ensures r.None? ==> forall k | 0 <= k < |rows| :: !Awaits(rows[k], token)
  {
    if |rows| == 0 then None
    else if Awaits(rows[|rows| - 1], token) then Some(|rows| - 1)
    else FindAwaiting(rows[..|rows| - 1], token)
  }

  function TakeAnswer(s: Sys, token: string, answer: string, now: int): Sys {
    var (db, ok) := AnswerByToken(s.db, token, answer, now);
    var row := FindAwaiting(s.db.payments, token);
    if ok && row.Some? then Log(Write(s, db), AnswerTaken(row.value, token)) else Write(s, db)
  }

  function TakeDeposit(s: Sys, card: nat, hash: string, msats: int, now: int): Sys {
    if msats < MIN_SENDABLE_MSAT || msats > MAX_SENDABLE_MSAT || msats % 1000 != 0 then s else
    var (db, ok) := InsertReceipt(s.db, card, hash, msats, now);
    var rid := |s.db.receipts|;
    if ok then Spawn(Log(Write(s, db), Deposited(rid, card, hash, msats)), Watching(rid, card, msats, Unset)) else s
  }

  function Next(s: Sys, e: Event): Sys {
    match e
    case TapCard(uid, counter) => if uid == "" then s else Spawn(s, TapRead(uid, counter))
    case Present(k1) =>
      var p := FindK1(s.db.payments, k1);
      if p.Some? && !s.db.payments[p.value].paid then Spawn(s, CbFound(p.value)) else s
    case Move(i, x) => if i < |s.procs| then Step(s, i, x) else s
    case Stop(i) => if i < |s.procs| then Put(s, i, Done) else s
    case Answer(token, answer, now) => TakeAnswer(s, token, answer, now)
    case ApiAnswer(pid, answer, now) => Write(s, SetAnswer(s.db, pid, answer, now).0)
    case Deposit(card, hash, msats, now) => TakeDeposit(s, card, hash, msats, now)
    case ApiWipe(name) => Write(s, WipeName(s.db, name))
    case ApiAdd(card) => Write(s, AddCard(s.db, card))
    case ApiChange(name, lnurlw, tx, day, pin) => Write(s, ChangeCard(s.db, name, lnurlw, tx, day, pin))
  }

  function Run(s: Sys, es: seq<Event>): Sys
    decreases |es|
  {
    if es == [] then s else Run(Next(s, es[0]), es[1..])
  }

  lemma RunCons(s: Sys, e: Event, es: seq<Event>)
    ensures Run(s, [e] + es) == Run(Next(s, e), es)
  {
    assert ([e] + es)[1..] == es;
  }

  lemma SplitStep(s: Sys, es: seq<Event>, fs: seq<Event>)
    requires es != []
    ensures Run(s, es + fs) == Run(Next(s, es[0]), es[1..] + fs)
  {
    assert es + fs == [es[0]] + (es[1..] + fs);
    RunCons(s, es[0], es[1..] + fs);
  }

  lemma {:induction false} RunSplit(s: Sys, es: seq<Event>, fs: seq<Event>)
    ensures Run(s, es + fs) == Run(Run(s, es), fs)
    decreases |es|
  {
    if es == [] {
      assert es + fs == fs;
    } else {
      RunSplit(Next(s, es[0]), es[1..], fs);
      SplitStep(s, es, fs);
    }
  }

  // ---------- what a run may be required to respect ----------

  /** Every event of the run keeps the rule in the state it happens in. */
  predicate Respects(s: Sys, es: seq<Event>, rule: (Sys, Event) -> bool)
    decreases |es|
  {
    es == [] || (rule(s, es[0]) && Respects(Next(s, es[0]), es[1..], rule))
  }

  /** A run that keeps a rule keeps every rule that follows from it. */
  lemma {:induction false} RespectsLess(s: Sys, es: seq<Event>, r: (Sys, Event) -> bool, q: (Sys, Event) -> bool)
    requires Respects(s, es, r) && forall u, e :: r(u, e) ==> q(u, e)
    ensures Respects(s, es, q)
    decreases |es|
  {
    if es != [] { RespectsLess(Next(s, es[0]), es[1..], r, q); }
  }

  /** A callback that has found its row unpaid and has not yet claimed or spoiled it. */
  predicate PreClaim(p: Proc) {
    p.CbFound? || p.CbInTime? || p.CbRecorded? || p.CbWrongPin? || p.CbReady? || p.CbRouted?
  }

  /** A process that holds the claim on a payment row. */
  predicate Ticket(p: Proc) {
    p.CbClaimed? || p.WaitAsked? || p.WaitTokened? || p.WaitPolling? || p.WaitDropped? || p.Paying? || p.HubPaying?
  }

  /** A process that holds a claim and has not started to pay or decided not to. */
  predicate MayPay(p: Proc) {
    p.CbClaimed? || p.WaitAsked? || p.WaitTokened? || p.WaitPolling?
  }

  /** Callbacks on one k1 do not overlap: none is under way on the row when the next one finds it. */
  predicate NoOverlap(s: Sys, e: Event) {
    e.Present? && FindK1(s.db.payments, e.k1).Some? ==>
      forall i | 0 <= i < |s.procs| && PreClaim(s.procs[i]) :: s.procs[i].pid != FindK1(s.db.payments, e.k1).value
  }

  /** A tap stores its counter in a card only when no larger one has been accepted for the card. */
  predicate AcceptedForward(s: Sys, e: Event) {
    && e.Move? && e.i < |s.procs| && s.procs[e.i].TapBinding? && s.procs[e.i].card < |s.db.cards|
    ==> forall j | 0 <= j < |s.taps| && s.taps[j].card == s.procs[e.i].card :: s.taps[j].counter <= s.procs[e.i].counter
  }

  /** A tap stores its counter in a card only when that does not put the card's counter back. */
  predicate CountersForward(s: Sys, e: Event) {
    && e.Move? && e.i < |s.procs| && s.procs[e.i].TapBinding? && s.procs[e.i].card < |s.db.cards|
    ==> s.db.cards[s.procs[e.i].card].counter <= s.procs[e.i].counter
  }

  /** A tap binds a live card to a UID only when no other live card has it. */
  predicate UidFree(s: Sys, e: Event) {
    && e.Move? && e.i < |s.procs| && s.procs[e.i].TapBinding? && s.procs[e.i].card < |s.db.cards|
    ==> s.db.cards[s.procs[e.i].card].wiped
        || forall k | 0 <= k < |s.db.cards| && k != s.procs[e.i].card :: !Live(s.db.cards[k], s.procs[e.i].uid)
  }

  /** A tap finds the card it binds still blank and the UID still without a card: count, list and bind as one step. */
  predicate CleanBind(s: Sys, e: Event) {
    && e.Move? && e.i < |s.procs| && s.procs[e.i].TapBinding? && s.procs[e.i].card < |s.db.cards|
    ==> IsBlank(s.db.cards[s.procs[e.i].card]) && LiveIds(s.db.cards, s.procs[e.i].uid) == {}
  }

  /** The node's FAILED and SETTLED are final. */
  predicate FinalStates(s: Sys, e: Event) {
    e.Move? && e.i < |s.procs| ==>
      && (s.procs[e.i].Paying? && s.procs[e.i].last == Failed ==> e.x.status == Failed)
      && (s.procs[e.i].Watching? && s.procs[e.i].seen == Settled ==> e.x.state == Settled)
  }

  /** The node names every status it reports. */
  predicate NamedStatus(s: Sys, e: Event) {
    e.Move? && e.i < |s.procs| && s.procs[e.i].Paying? ==> e.x.status != Blank
  }

  /** A new approval token is not blank and has not been drawn before. */
  predicate FreshToken(s: Sys, e: Event) {
    e.Move? && e.i < |s.procs| && s.procs[e.i].WaitAsked? ==>
      && e.x.text != ""
      && forall j | 0 <= j < |s.log| && s.log[j].TokenMade? :: s.log[j].token != e.x.text
  }
}
