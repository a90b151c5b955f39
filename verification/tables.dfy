/**
 The cards, card_payments and card_receipts tables and the SQL statements that read and write them.
 A table is a sequence of rows and a row's id is its position: rows are inserted and updated, never deleted.
 Times are microseconds. Every statement takes the value of NOW() it ran with, and nothing orders those values.
 */
module Tables {
  import opened Sums

  const SECOND := 1_000_000
  const DAY := 86_400 * SECOND

  datatype Status = Blank | InFlight | Succeeded | Failed | OtherStatus

  datatype InvoiceState = Unset | Open | Accepted | Settled | Canceled

  datatype Keys = Keys(k0: string, k2: string, k3: string, k4: string)

  datatype Card = Card(
    name: string, uid: string, counter: nat, keys: Keys, timeoutSec: int,
    lnurlw: bool, lnurlp: bool, email: bool, wiped: bool,
    txLimitSats: int, dayLimitSats: int, allowNegative: bool,
    pinEnabled: bool, pin: string, pinLimitSats: int)

  /** `amount`, `payTime` and `answerTime` are nullable columns; `paid` is paid_flag = 'Y'. */
  datatype Payment = Payment(
    cardId: nat, k1: string, requestTime: int, amount: Option<int>,
    paid: bool, payTime: Option<int>, status: Status, statusTime: int,
    answer: string, answerTime: Option<int>, token: string)

  datatype Receipt = Receipt(cardId: nat, hash: string, msats: int, state: InvoiceState, stateTime: int)

  datatype Db = Db(cards: seq<Card>, payments: seq<Payment>, receipts: seq<Receipt>)

  const EMPTY_DB := Db([], [], [])

  // ---------- the totals ----------

  /** The amount a row contributes to SUM(amount_msats), where NULL contributes nothing. */
  function Msats(p: Payment): int {
    if p.amount.Some? then p.amount.value else 0
  }

  /** The rows of the daily total: claimed, with a payment_time later than `since`. */
  function DayWeight(card: nat, since: int): (nat, Payment) -> int {
    (k: nat, p: Payment) =>
      if p.cardId == card && p.paid && p.payTime.Some? && p.payTime.value > since then Msats(p) else 0
  }

  function DayMsats(db: Db, card: nat, now: int): int {
    Sum(db.payments, DayWeight(card, now - DAY))
  }

  predicate Counts(p: Payment, card: nat) {
    && p.cardId == card && p.status != Failed
    && p.amount.Some? && p.amount.value != 0
    && (p.paid || p.status != Blank)
  }

  function DebitWeight(card: nat): (nat, Payment) -> int {
    (k: nat, p: Payment) => if Counts(p, card) then -Msats(p) else 0
  }

  function CreditWeight(card: nat): (nat, Receipt) -> int {
    (k: nat, r: Receipt) => if r.cardId == card && r.state == Settled then r.msats else 0
  }

  /** Settled receipts less counted payments, row by row. */
  function Balance(db: Db, card: nat): int {
    Sum(db.payments, DebitWeight(card)) + Sum(db.receipts, CreditWeight(card))
  }

  /** One row of the UNION that card_total_sats_sql sums. */
  datatype Tx = Tx(cardId: nat, txId: nat, isPayment: bool, msats: int, time: int)

  ghost function PaymentTxs(rows: seq<Payment>, card: nat): set<Tx> {
    set k: nat | k < |rows| && Counts(rows[k], card) :: PaymentTx(rows, k, card)
  }

  ghost function ReceiptTxs(rows: seq<Receipt>, card: nat): set<Tx> {
    set k: nat | k < |rows| && rows[k].cardId == card && rows[k].state == Settled ::
      Tx(card, k, false, rows[k].msats, rows[k].stateTime)
  }

  ghost function SetSum(s: set<Tx>): int {
    if s == {} then 0 else var t :| t in s; t.msats + SetSum(s - {t})
  }

  /** What card_total_sats_sql adds up: a UNION, which drops rows equal in every column. */
  ghost function UnionMsats(db: Db, card: nat): int {
    SetSum(PaymentTxs(db.payments, card) + ReceiptTxs(db.receipts, card))
  }

  lemma {:induction false} SetSumRemove(s: set<Tx>, t: Tx)
    requires t in s
    ensures SetSum(s) == t.msats + SetSum(s - {t})
    decreases |s|
  {
    var u :| u in s && SetSum(s) == u.msats + SetSum(s - {u});
    if u != t {
      SetSumRemove(s - {u}, t);
      SetSumRemove(s - {t}, u);
      assert s - {u} - {t} == s - {t} - {u};
    }
  }

  lemma SetSumInsert(s: set<Tx>, t: Tx)
    requires t !in s
    ensures SetSum(s + {t}) == SetSum(s) + t.msats
  {
    SetSumRemove(s + {t}, t);
    assert s + {t} - {t} == s;
  }

  function PaymentTx(rows: seq<Payment>, k: nat, card: nat): Tx
    requires k < |rows|
  {
    Tx(card, k, true, -Msats(rows[k]), rows[k].statusTime)
  }

  lemma PaymentTxsLast(rows: seq<Payment>, n: nat, card: nat)
    requires |rows| == n + 1
    ensures PaymentTxs(rows, card) ==
            PaymentTxs(rows[..n], card) + (if Counts(rows[n], card) then {PaymentTx(rows, n, card)} else {})
    ensures PaymentTx(rows, n, card) !in PaymentTxs(rows[..n], card)
  {
    forall t | t in PaymentTxs(rows, card)
      ensures t in PaymentTxs(rows[..n], card) + (if Counts(rows[n], card) then {PaymentTx(rows, n, card)} else {})
    {
      if t.txId < n { assert rows[..n][t.txId] == rows[t.txId]; }
    }
  }

  lemma {:induction false} PaymentTxsSum(rows: seq<Payment>, card: nat, base: set<Tx>)
    requires forall t | t in base :: !t.isPayment
    ensures SetSum(PaymentTxs(rows, card) + base) == Sum(rows, DebitWeight(card)) + SetSum(base)
  {
    if |rows| == 0 {
      assert PaymentTxs(rows, card) + base == base;
    } else {
      var n := |rows| - 1;
      var before := PaymentTxs(rows[..n], card);
      PaymentTxsSum(rows[..n], card, base);
      PaymentTxsLast(rows, n, card);
      if Counts(rows[n], card) {
        var t := PaymentTx(rows, n, card);
        assert PaymentTxs(rows, card) + base == before + base + {t};
        SetSumInsert(before + base, t);
      } else {
        assert PaymentTxs(rows, card) == before;
      }
    }
  }

  lemma {:induction false} ReceiptTxsSum(rows: seq<Receipt>, card: nat)
    ensures SetSum(ReceiptTxs(rows, card)) == Sum(rows, CreditWeight(card))
  {
    if |rows| > 0 {
      var n := |rows| - 1;
      ReceiptTxsSum(rows[..n], card);
      var t := Tx(card, n, false, rows[n].msats, rows[n].stateTime);
      if rows[n].cardId == card && rows[n].state == Settled {
        assert ReceiptTxs(rows, card) == ReceiptTxs(rows[..n], card) + {t};
        SetSumInsert(ReceiptTxs(rows[..n], card), t);
      } else {
        assert ReceiptTxs(rows, card) == ReceiptTxs(rows[..n], card);
      }
    }
  }

  /** The UNION loses no row, because its kind and id tell every row apart. */
  lemma UnionKeepsEveryRow(db: Db, card: nat)
    ensures UnionMsats(db, card) == Balance(db, card)
  {
    PaymentTxsSum(db.payments, card, ReceiptTxs(db.receipts, card));
    ReceiptTxsSum(db.receipts, card);
  }

  // ---------- payments ----------

  datatype Verdict =
    | Granted
    | NoSuchPayment
    | AlreadyMade
    | OverTxLimit
    | OverDayLimit
    | NotEnoughBalance

  /** The decision of Authorize_payment on the rows its transaction has locked. */
  function Judge(db: Db, pid: nat, sats: int, checked: bool, now: int): Verdict {
    if !(pid < |db.payments| && db.payments[pid].cardId < |db.cards|) then NoSuchPayment else
    var p := db.payments[pid];
    var c := db.cards[p.cardId];
    if p.paid then AlreadyMade
    else if sats > c.txLimitSats then OverTxLimit
    else if checked && TruncDiv(DayMsats(db, p.cardId, now), 1000) + sats > c.dayLimitSats then OverDayLimit
    else if checked && !c.allowNegative && TruncDiv(Balance(db, p.cardId), 1000) - sats < 0 then NotEnoughBalance
    else Granted
  }

  function Authorize(db: Db, pid: nat, sats: int, checked: bool, now: int): (r: (Db, Verdict)) {
    var v := Judge(db, pid, sats, checked, now);
    if v.Granted? then
      (db.(payments := db.payments[pid := db.payments[pid].(paid := true, payTime := Some(now))]), v)
    else
      (db, v)
  }

  function FailPayment(db: Db, pid: nat, now: int): (r: (Db, bool)) {
    if pid < |db.payments| && !db.payments[pid].paid then
      (db.(payments := db.payments[pid := db.payments[pid].(
                       paid := true, amount := None, status := Failed, statusTime := now)]), true)
    else
      (db, false)
  }

  function ReleasePayment(db: Db, pid: nat, now: int): (r: (Db, bool)) {
    if pid < |db.payments| && db.payments[pid].status == Blank then
      (db.(payments := db.payments[pid := db.payments[pid].(
                       amount := None, token := "", status := Failed, statusTime := now)]), true)
    else
      (db, false)
  }

  function SetPaymentStatus(db: Db, pid: nat, status: Status, now: int): (r: (Db, bool)) {
    if pid < |db.payments| then
      (db.(payments := db.payments[pid := db.payments[pid].(status := status, statusTime := now)]), true)
    else
      (db, false)
  }

  /** There is no condition on paid_flag here; amount_msats has CHECK (amount_msats > 0). */
  function RecordInvoice(db: Db, pid: nat, msats: int): (r: (Db, bool)) {
    if pid < |db.payments| && msats > 0 then
      (db.(payments := db.payments[pid := db.payments[pid].(amount := Some(msats))]), true)
    else
      (db, false)
  }

  function FindK1(rows: seq<Payment>, k1: string): (r: Option<nat>)
    ensures r.Some? ==> r.value < |rows| && rows[r.value].k1 == k1
    ensures r.None? ==> forall k | 0 <= k < |rows| :: rows[k].k1 != k1
  {
    if |rows| == 0 then None
    else if rows[|rows| - 1].k1 == k1 then Some(|rows| - 1)
    else FindK1(rows[..|rows| - 1], k1)
  }

  /** card_id references cards and lnurlw_k1 is UNIQUE, so either can refuse the row. */
  function InsertPayment(db: Db, card: nat, k1: string, now: int): (r: (Db, bool)) {
    if card < |db.cards| && FindK1(db.payments, k1).None? then
      (db.(payments := db.payments + [Payment(card, k1, now, None, false, None, Blank, now, "N", None, "")]), true)
    else
      (db, false)
  }

  predicate RequestTimedOut(db: Db, pid: nat, now: int)
    requires pid < |db.payments| && db.payments[pid].cardId < |db.cards|
  {
    var p := db.payments[pid];
    now > p.requestTime + db.cards[p.cardId].timeoutSec * SECOND
  }

  // ---------- approval ----------

  function SetAnswer(db: Db, pid: nat, answer: string, now: int): (r: (Db, bool)) {
    if pid < |db.payments| then
      (db.(payments := db.payments[pid := db.payments[pid].(answer := answer, answerTime := Some(now))]), true)
    else
      (db, false)
  }

  function SetToken(db: Db, pid: nat, token: string): (r: (Db, bool)) {
    if pid < |db.payments| then
      (db.(payments := db.payments[pid := db.payments[pid].(token := token)]), true)
    else
      (db, false)
  }

  predicate Awaits(p: Payment, token: string) {
    p.token == token && p.paid && p.status == Blank
  }

  function Answered(p: Payment, token: string, answer: string, now: int): Payment {
    if Awaits(p, token) then p.(answer := answer, answerTime := Some(now), token := "") else p
  }

  function AwaitingRows(rows: seq<Payment>, token: string): set<nat> {
    set k: nat | k < |rows| && Awaits(rows[k], token)
  }

  /** Every matching row is updated; success is reported when exactly one was. */
  function AnswerByToken(db: Db, token: string, answer: string, now: int): (r: (Db, bool)) {
    if token == "" then (db, false) else
    (db.(payments := seq(|db.payments|, k requires 0 <= k < |db.payments| =>
                       Answered(db.payments[k], token, answer, now))),
     |AwaitingRows(db.payments, token)| == 1)
  }

  /** Get_payment_approval: None until an answer has been recorded. */
  function ReadAnswer(p: Payment): Option<bool> {
    if p.answerTime.None? then None else Some(p.answer == "Y")
  }

  // ---------- receipts ----------

  function FindHash(rows: seq<Receipt>, hash: string): (r: Option<nat>)
    ensures r.Some? ==> r.value < |rows| && rows[r.value].hash == hash
    ensures r.None? ==> forall k | 0 <= k < |rows| :: rows[k].hash != hash
  {
    if |rows| == 0 then None
    else if rows[|rows| - 1].hash == hash then Some(|rows| - 1)
    else FindHash(rows[..|rows| - 1], hash)
  }

  /** card_id references cards and r_hash_hex is UNIQUE, so either can refuse the row. */
  function InsertReceipt(db: Db, card: nat, hash: string, msats: int, now: int): (r: (Db, bool)) {
    if card < |db.cards| && FindHash(db.receipts, hash).None? && msats > 0 then
      (db.(receipts := db.receipts + [Receipt(card, hash, msats, Unset, now)]), true)
    else
      (db, false)
  }

  function SetReceiptState(db: Db, rid: nat, state: InvoiceState, now: int): (r: (Db, bool)) {
    if rid < |db.receipts| then
      (db.(receipts := db.receipts[rid := db.receipts[rid].(state := state, stateTime := now)]), true)
    else
      (db, false)
  }

  /** The receipt is found by its hash. */
  function SetStateByHash(db: Db, hash: string, state: InvoiceState, now: int): (r: (Db, bool)) {
    var rid := FindHash(db.receipts, hash);
    if rid.Some? then SetReceiptState(db, rid.value, state, now) else (db, false)
  }

  // ---------- cards ----------

  predicate IsBlank(c: Card) {
    c.uid == "" && c.counter == 0 && !c.wiped
  }

  predicate Live(c: Card, uid: string) {
    c.uid == uid && !c.wiped
  }

  function LiveIds(cards: seq<Card>, uid: string): set<nat> {
    set k: nat | k < |cards| && Live(cards[k], uid)
  }

  /** The unwiped cards of a name. */
  function NamedIds(cards: seq<Card>, name: string): set<nat> {
    set k: nat | k < |cards| && cards[k].name == name && !cards[k].wiped
  }

  function UpdateUidCounter(db: Db, card: nat, uid: string, counter: nat): (r: (Db, bool)) {
    if card < |db.cards| then
      (db.(cards := db.cards[card := db.cards[card].(uid := uid, counter := counter)]), true)
    else
      (db, false)
  }

  function CheckCounter(db: Db, card: nat, counter: nat): (r: (Db, bool)) {
    if card < |db.cards| && db.cards[card].counter < counter then
      (db.(cards := db.cards[card := db.cards[card].(counter := counter)]), true)
    else
      (db, false)
  }

  function Wiped(c: Card): Card {
    c.(lnurlw := false, lnurlp := false, email := false, wiped := true)
  }

  function WipeName(db: Db, name: string): Db {
    db.(cards := seq(|db.cards|, k requires 0 <= k < |db.cards| =>
                   if db.cards[k].name == name then Wiped(db.cards[k]) else db.cards[k]))
  }

  /** The last card of a name, the one whose keys Wipe_card returns. */
  function LastOf(cards: seq<Card>, name: string): (r: Option<nat>)
    ensures r.Some? ==> r.value < |cards| && cards[r.value].name == name
    ensures r.Some? ==> forall k | r.value < k < |cards| :: cards[k].name != name
    ensures r.None? ==> forall k | 0 <= k < |cards| :: cards[k].name != name
  {
    if |cards| == 0 then None
    else if cards[|cards| - 1].name == name then Some(|cards| - 1)
    else LastOf(cards[..|cards| - 1], name)
  }

  datatype NewCard = NewCard(
    name: string, keys: Keys, lnurlw: bool, txLimitSats: int, dayLimitSats: int,
    allowNegative: bool, pinEnabled: bool, pin: string, pinLimitSats: int)

  function FreshCard(n: NewCard): Card {
    Card(n.name, "", 0, n.keys, 60, n.lnurlw, false, false, false,
         n.txLimitSats, n.dayLimitSats, n.allowNegative, n.pinEnabled, n.pin, n.pinLimitSats)
  }

  function AddCard(db: Db, n: NewCard): Db {
    db.(cards := db.cards + [FreshCard(n)])
  }

  /** The three forms of the card update: the PIN columns untouched, without the number, or all of them. */
  datatype PinChange =
    | KeepPin
    | KeepPinNumber(enable: bool, limitSats: int)
    | SetPin(enable: bool, number: string, limitSats: int)

  function Changed(c: Card, lnurlw: bool, txLimit: int, dayLimit: int, pin: PinChange): Card {
    var d := c.(lnurlw := lnurlw, txLimitSats := txLimit, dayLimitSats := dayLimit);
    match pin
    case KeepPin => d
    case KeepPinNumber(enable, limit) => d.(pinEnabled := enable, pinLimitSats := limit)
    case SetPin(enable, number, limit) => d.(pinEnabled := enable, pin := number, pinLimitSats := limit)
  }

  /** Every unwiped card of the name is changed, whatever count of them is reported afterwards. */
  function ChangeCard(db: Db, name: string, lnurlw: bool, txLimit: int, dayLimit: int, pin: PinChange): Db {
    db.(cards := seq(|db.cards|, k requires 0 <= k < |db.cards| =>
                   if db.cards[k].name == name && !db.cards[k].wiped
                   then Changed(db.cards[k], lnurlw, txLimit, dayLimit, pin)
                   else db.cards[k]))
  }
}
