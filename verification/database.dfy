/**
 The functions of db/db.go as methods that update the tables in place. Each is proved against the function of Tables
 that the protocol's steps use, so what is proved of those holds of these.
 */
module Databases {
  import opened Sums
  import opened Tables

  /** The CMAC check of a candidate: its key may not be usable at all. */
  datatype Check = Valid | Invalid | Broken

  datatype WipeInfo = WipeInfo(id: nat, uid: string, keys: Keys)

  /** The PIN columns after a card update. */
  predicate PinAs(change: PinChange, c: Card, d: Card) {
    && (change.KeepPin? ==> d.pinEnabled == c.pinEnabled && d.pin == c.pin && d.pinLimitSats == c.pinLimitSats)
    && (change.KeepPinNumber? ==>
          d.pinEnabled == change.enable && d.pin == c.pin && d.pinLimitSats == change.limitSats)
    && (change.SetPin? ==>
          d.pinEnabled == change.enable && d.pin == change.number && d.pinLimitSats == change.limitSats)
  }

  /** The columns a card update does not touch. */
  predicate SameButLimits(c: Card, d: Card) {
    && d.name == c.name && d.uid == c.uid && d.counter == c.counter && d.keys == c.keys
    && d.timeoutSec == c.timeoutSec && d.lnurlp == c.lnurlp && d.email == c.email && d.wiped == c.wiped
    && d.allowNegative == c.allowNegative
  }

  class Database {
    var cards: seq<Card>
    var payments: seq<Payment>
    var receipts: seq<Receipt>

    function State(): Db
      reads this
    {
      Db(cards, payments, receipts)
    }

    constructor ()
      ensures State() == EMPTY_DB
    {
      cards, payments, receipts := [], [], [];
    }

    // ---------- totals ----------

    /** SUM(amount_msats) over the claimed rows of the last day. */
    method DayTotal(card: nat, now: int) returns (msats: int)
      ensures msats == DayMsats(State(), card, now)
    {
      msats := 0;
      var i := 0;
      while i < |payments|
        invariant 0 <= i <= |payments|
        invariant msats == Sum(payments[..i], DayWeight(card, now - DAY))
      {
        var p := payments[i];
        assert payments[..i + 1] == payments[..i] + [p];
        SumAppend(payments[..i], p, DayWeight(card, now - DAY));
        if p.cardId == card && p.paid && p.payTime.Some? && p.payTime.value > now - DAY {
          msats := msats + Msats(p);
        }
        i := i + 1;
      }
      assert payments[..i] == payments;
    }

    /** card_total_sats_sql: the UNION's sum, in whole satoshis. */
    method CardTotalSats(card: nat) returns (sats: int)
      ensures sats == TruncDiv(UnionMsats(State(), card), 1000) == TruncDiv(Balance(State(), card), 1000)
    {
      var msats := 0;
      var i := 0;
      while i < |payments|
        invariant 0 <= i <= |payments|
        invariant msats == Sum(payments[..i], DebitWeight(card))
      {
        assert payments[..i + 1] == payments[..i] + [payments[i]];
        SumAppend(payments[..i], payments[i], DebitWeight(card));
        if Counts(payments[i], card) {
          msats := msats - Msats(payments[i]);
        }
        i := i + 1;
      }
      assert payments[..i] == payments;
      i := 0;
      while i < |receipts|
        invariant 0 <= i <= |receipts|
        invariant msats == Sum(payments, DebitWeight(card)) + Sum(receipts[..i], CreditWeight(card))
      {
        assert receipts[..i + 1] == receipts[..i] + [receipts[i]];
        SumAppend(receipts[..i], receipts[i], CreditWeight(card));
        if receipts[i].cardId == card && receipts[i].state == Settled {
          msats := msats + receipts[i].msats;
        }
        i := i + 1;
      }
      assert receipts[..i] == receipts;
      UnionKeepsEveryRow(State(), card);
      sats := TruncDiv(msats, 1000);
    }

    // ---------- payments ----------

    method AuthorizePayment(pid: nat, sats: int, checked: bool, now: int) returns (verdict: Verdict)
      modifies this`payments
      ensures (State(), verdict) == Authorize(old(State()), pid, sats, checked, now)
      ensures verdict.Granted? <==>
                && pid < |old(payments)| && old(payments)[pid].cardId < |cards| && !old(payments)[pid].paid
                && var card := old(payments)[pid].cardId;
                   && sats <= cards[card].txLimitSats
                   && (checked ==>
                         && TruncDiv(old(DayMsats(State(), card, now)), 1000) + sats <= cards[card].dayLimitSats
                         && (cards[card].allowNegative || TruncDiv(old(Balance(State(), card)), 1000) >= sats))
      ensures payments == if verdict.Granted?
                          then old(payments)[pid := old(payments)[pid].(paid := true, payTime := Some(now))]
                          else old(payments)
    {
      if pid >= |payments| || payments[pid].cardId >= |cards| {
        return NoSuchPayment;
      }
      var card := payments[pid].cardId;
      if payments[pid].paid {
        return AlreadyMade;
      }
      if sats > cards[card].txLimitSats {
        return OverTxLimit;
      }
      if checked {
        var day := DayTotal(card, now);
        if TruncDiv(day, 1000) + sats > cards[card].dayLimitSats {
          return OverDayLimit;
        }
        if !cards[card].allowNegative {
          var total := CardTotalSats(card);
          if total - sats < 0 {
            return NotEnoughBalance;
          }
        }
      }
      payments := payments[pid := payments[pid].(paid := true, payTime := Some(now))];
      verdict := Granted;
    }

    method Fail(pid: nat, now: int) returns (ok: bool)
      modifies this`payments
      ensures (State(), ok) == FailPayment(old(State()), pid, now)
      ensures ok <==> pid < |old(payments)| && !old(payments)[pid].paid
      ensures ok ==> payments[pid] == old(payments)[pid].(
                       paid := true, amount := None, status := Failed, statusTime := now)
    {
      ok := pid < |payments| && !payments[pid].paid;
      if ok {
        payments := payments[pid := payments[pid].(
            paid := true, amount := None, status := Failed, statusTime := now)];
      }
    }

    method Release(pid: nat, now: int) returns (ok: bool)
      modifies this`payments
      ensures (State(), ok) == ReleasePayment(old(State()), pid, now)
      ensures ok <==> pid < |old(payments)| && old(payments)[pid].status == Blank
      ensures ok ==> payments[pid] == old(payments)[pid].(
                       amount := None, token := "", status := Failed, statusTime := now)
    {
      ok := pid < |payments| && payments[pid].status == Blank;
      if ok {
        payments := payments[pid := payments[pid].(
            amount := None, token := "", status := Failed, statusTime := now)];
      }
    }

    method UpdateStatus(pid: nat, status: Status, now: int) returns (ok: bool)
      modifies this`payments
      ensures (State(), ok) == SetPaymentStatus(old(State()), pid, status, now)
    {
      ok := pid < |payments|;
      if ok {
        payments := payments[pid := payments[pid].(status := status, statusTime := now)];
      }
    }

    method UpdateInvoice(pid: nat, msats: int) returns (ok: bool)
      modifies this`payments
      ensures (State(), ok) == RecordInvoice(old(State()), pid, msats)
    {
      ok := pid < |payments| && msats > 0;
      if ok {
        payments := payments[pid := payments[pid].(amount := Some(msats))];
      }
    }

    method Insert(card: nat, k1: string, now: int) returns (ok: bool)
      modifies this`payments
      ensures (State(), ok) == InsertPayment(old(State()), card, k1, now)
      ensures ok <==> card < |cards| && forall k | 0 <= k < |old(payments)| :: old(payments)[k].k1 != k1
      ensures ok ==>
                && |payments| == |old(payments)| + 1 && payments[..|old(payments)|] == old(payments)
                && var p := payments[|old(payments)|];
                   && p.cardId == card && p.k1 == k1 && p.requestTime == now && p.amount.None? && p.payTime.None?
                   && !p.paid && p.status == Blank && p.answer == "N" && p.answerTime.None? && p.token == ""
    {
      ok := card < |cards| && FindK1(payments, k1).None?;
      if ok {
        payments := payments + [Payment(card, k1, now, None, false, None, Blank, now, "N", None, "")];
      }
    }

    method RecordAnswer(pid: nat, answer: string, now: int) returns (ok: bool)
      modifies this`payments
      ensures (State(), ok) == SetAnswer(old(State()), pid, answer, now)
      ensures ok ==> payments[pid].answer == answer && payments[pid].answerTime == Some(now)
    {
      ok := pid < |payments|;
      if ok {
        payments := payments[pid := payments[pid].(answer := answer, answerTime := Some(now))];
      }
    }

    /** The token is drawn by the caller; an update that finds no row gives none out. */
    method CreateToken(pid: nat, drawn: string) returns (token: Option<string>)
      modifies this`payments
      ensures State() == SetToken(old(State()), pid, drawn).0
      ensures token == if pid < |old(payments)| then Some(drawn) else None
      ensures token.Some? ==> payments == old(payments)[pid := old(payments)[pid].(token := drawn)]
    {
      if pid >= |payments| {
        return None;
      }
      payments := payments[pid := payments[pid].(token := drawn)];
      token := Some(drawn);
    }

    /** Every row holding the token and still waiting is updated; the answer counts when exactly one was. */
    method ApproveByToken(token: string, answer: string, now: int) returns (ok: bool)
      modifies this`payments
      ensures (State(), ok) == AnswerByToken(old(State()), token, answer, now)
      ensures ok <==>
                && token != ""
                && |set k: nat | k < |old(payments)| && old(payments)[k].token == token && old(payments)[k].paid
                                 && old(payments)[k].status == Blank| == 1
      ensures |payments| == |old(payments)|
      ensures forall k | 0 <= k < |payments| ::
                var p := old(payments)[k];
                payments[k] == if token != "" && p.token == token && p.paid && p.status == Blank
                               then p.(answer := answer, answerTime := Some(now), token := "") else p
    {
      if token == "" {
        return false;
      }
      var count, i := 0, 0;
      while i < |payments|
        invariant 0 <= i <= |payments| == |old(payments)|
        invariant forall k | 0 <= k < i :: payments[k] == Answered(old(payments)[k], token, answer, now)
        invariant forall k | i <= k < |payments| :: payments[k] == old(payments)[k]
        invariant count == |AwaitingRows(old(payments)[..i], token)|
      {
        AwaitingOneMore(old(payments), i, token);
        if Awaits(payments[i], token) {
          payments := payments[i := payments[i].(answer := answer, answerTime := Some(now), token := "")];
          count := count + 1;
        }
        i := i + 1;
      }
      assert old(payments)[..i] == old(payments);
      assert State() == AnswerByToken(old(State()), token, answer, now).0;
      ok := count == 1;
      assert AwaitingRows(old(payments), token)
          == set k: nat | k < |old(payments)| && old(payments)[k].token == token && old(payments)[k].paid
                          && old(payments)[k].status == Blank;
    }

    // ---------- receipts ----------

    method AddReceipt(card: nat, hash: string, msats: int, now: int) returns (ok: bool)
      modifies this`receipts
      ensures (State(), ok) == InsertReceipt(old(State()), card, hash, msats, now)
      ensures ok <==>
                card < |cards| && msats > 0 && forall k | 0 <= k < |old(receipts)| :: old(receipts)[k].hash != hash
      ensures ok ==>
                && |receipts| == |old(receipts)| + 1 && receipts[..|old(receipts)|] == old(receipts)
                && var r := receipts[|old(receipts)|];
                   r.cardId == card && r.hash == hash && r.msats == msats && r.state == Unset
    {
      ok := card < |cards| && FindHash(receipts, hash).None? && msats > 0;
      if ok {
        receipts := receipts + [Receipt(card, hash, msats, Unset, now)];
      }
    }

    method UpdateReceiptState(hash: string, state: InvoiceState, now: int) returns (ok: bool)
      modifies this`receipts
      ensures (State(), ok) == SetStateByHash(old(State()), hash, state, now)
    {
      var rid := FindHash(receipts, hash);
      ok := rid.Some?;
      if ok {
        receipts := receipts[rid.value := receipts[rid.value].(state := state, stateTime := now)];
      }
    }

    // ---------- taps ----------

    /** Get_cards_blank_uid: the candidates for binding, in no promised order. */
    method BlankCards() returns (ids: seq<nat>)
      ensures forall k: nat ::
                k in ids <==> k < |cards| && cards[k].uid == "" && cards[k].counter == 0 && !cards[k].wiped
    {
      ids := [];
      var i := 0;
      while i < |cards|
        invariant 0 <= i <= |cards|
        invariant forall k: nat :: k in ids <==> k < i && IsBlank(cards[k])
      {
        if IsBlank(cards[i]) {
          ids := ids + [i];
        }
        i := i + 1;
      }
    }

    method StoreUidCounter(card: nat, uid: string, counter: nat) returns (ok: bool)
      modifies this`cards
      ensures (State(), ok) == UpdateUidCounter(old(State()), card, uid, counter)
      ensures ok ==> cards == old(cards)[card := old(cards)[card].(uid := uid, counter := counter)]
    {
      ok := card < |cards|;
      if ok {
        cards := cards[card := cards[card].(uid := uid, counter := counter)];
      }
    }

    method CheckAndUpdateCounter(card: nat, counter: nat) returns (ok: bool)
      modifies this`cards
      ensures (State(), ok) == CheckCounter(old(State()), card, counter)
      ensures ok <==> card < |cards| && old(cards)[card].counter < counter
      ensures cards == if ok then old(cards)[card := old(cards)[card].(counter := counter)] else old(cards)
    {
      ok := card < |cards| && cards[card].counter < counter;
      if ok {
        cards := cards[card := cards[card].(counter := counter)];
      }
    }

    /**
     setup_card_record: binds the first candidate whose CMAC matches. A candidate with an unusable key ends the
     search; a tap that matches no candidate changes nothing.
     */
    method SetupCardRecord(uid: string, counter: nat, check: Card -> Check) returns (bound: Option<nat>)
      modifies this`cards
      ensures bound.Some? ==>
                && bound.value < |old(cards)| && IsBlank(old(cards)[bound.value])
                && check(old(cards)[bound.value]) == Valid
                && State() == UpdateUidCounter(old(State()), bound.value, uid, counter).0
                && cards[bound.value].uid == uid && cards[bound.value].counter == counter
      ensures bound.None? ==> cards == old(cards)
      ensures bound.None? ==>
                || (forall k | 0 <= k < |cards| && IsBlank(cards[k]) :: check(cards[k]) == Invalid)
                || (exists k | 0 <= k < |cards| && IsBlank(cards[k]) :: check(cards[k]) == Broken)
    {
      var ids := BlankCards();
      assert forall j | 0 <= j < |ids| :: ids[j] in ids;
      var i := 0;
      while i < |ids|
        invariant 0 <= i <= |ids| && cards == old(cards) && forall j | 0 <= j < |ids| :: ids[j] < |cards|
        invariant forall j | 0 <= j < i :: check(cards[ids[j]]) == Invalid
      {
        var id := ids[i];
        assert id in ids;
        var result := check(cards[id]);
        if result == Broken {
          return None;
        }
        if result == Valid {
          var stored := StoreUidCounter(id, uid, counter);
          return Some(id);
        }
        i := i + 1;
      }
      forall k | 0 <= k < |cards| && IsBlank(cards[k]) ensures check(cards[k]) == Invalid {
        assert k in ids;
      }
      bound := None;
    }

    // ---------- cards ----------

    method WipeNamed(name: string)
      modifies this`cards
      ensures State() == WipeName(old(State()), name)
      ensures |cards| == |old(cards)|
      ensures forall k | 0 <= k < |cards| ::
                cards[k] == if old(cards)[k].name != name then old(cards)[k]
                            else old(cards)[k].(lnurlw := false, lnurlp := false, email := false, wiped := true)
    {
      var i := 0;
      while i < |cards|
        invariant 0 <= i <= |cards| == |old(cards)|
        invariant forall k | 0 <= k < i ::
                    cards[k] == if old(cards)[k].name == name then Wiped(old(cards)[k]) else old(cards)[k]
        invariant forall k | i <= k < |cards| :: cards[k] == old(cards)[k]
      {
        if cards[i].name == name {
          cards := cards[i := Wiped(cards[i])];
        }
        i := i + 1;
      }
      assert cards == WipeName(old(State()), name).cards;
    }

    /** Any card of the name is wiped before the new one is added. */
    method InsertCard(details: NewCard)
      modifies this`cards
      ensures State() == AddCard(WipeName(old(State()), details.name), details)
      ensures |cards| == |old(cards)| + 1
      ensures var c := cards[|old(cards)|];
              && c.name == details.name && c.keys == details.keys && c.lnurlw == details.lnurlw && !c.wiped
              && c.uid == "" && c.counter == 0 && c.timeoutSec == 60
              && c.txLimitSats == details.txLimitSats && c.dayLimitSats == details.dayLimitSats
              && c.allowNegative == details.allowNegative
              && c.pinEnabled == details.pinEnabled && c.pin == details.pin && c.pinLimitSats == details.pinLimitSats
    {
      WipeNamed(details.name);
      cards := cards + [FreshCard(details)];
    }

    /** Id, UID and keys of the last card of the name, if there is one, after wiping every card of the name. */
    method WipeCard(name: string) returns (info: Option<WipeInfo>)
      modifies this`cards
      ensures State() == WipeName(old(State()), name)
      ensures LastOf(old(cards), name).None? <==> info.None?
      ensures info.Some? ==>
                && info.value.id == LastOf(old(cards), name).value
                && info.value.uid == old(cards)[info.value.id].uid && info.value.keys == old(cards)[info.value.id].keys
    {
      WipeNamed(name);
      SameLast(old(cards), cards, name);
      info := None;
      var i := |cards|;
      while i > 0
        invariant 0 <= i <= |cards|
        invariant info == None && forall k | i <= k < |cards| :: cards[k].name != name
      {
        i := i - 1;
        if cards[i].name == name {
          info := Some(WipeInfo(i, cards[i].uid, cards[i].keys));
          break;
        }
      }
    }

    /** Every unwiped card of the name is changed; it is an error for that to be other than one card. */
    method UpdateCard(name: string, lnurlw: bool, txLimit: int, dayLimit: int, pin: PinChange) returns (ok: bool)
      modifies this`cards
      ensures State() == ChangeCard(old(State()), name, lnurlw, txLimit, dayLimit, pin)
      ensures ok <==> |set k: nat | k < |old(cards)| && old(cards)[k].name == name && !old(cards)[k].wiped| == 1
      ensures |cards| == |old(cards)|
      ensures forall k | 0 <= k < |cards| && (old(cards)[k].name != name || old(cards)[k].wiped) ::
                cards[k] == old(cards)[k]
      ensures forall k | 0 <= k < |cards| && old(cards)[k].name == name && !old(cards)[k].wiped ::
                && cards[k].lnurlw == lnurlw && cards[k].txLimitSats == txLimit && cards[k].dayLimitSats == dayLimit
                && PinAs(pin, old(cards)[k], cards[k]) && SameButLimits(old(cards)[k], cards[k])
    {
      var count, i := 0, 0;
      while i < |cards|
        invariant 0 <= i <= |cards| == |old(cards)|
        invariant forall k | 0 <= k < i ::
                    cards[k] == if old(cards)[k].name == name && !old(cards)[k].wiped
                                then Changed(old(cards)[k], lnurlw, txLimit, dayLimit, pin) else old(cards)[k]
        invariant forall k | i <= k < |cards| :: cards[k] == old(cards)[k]
        invariant count == |NamedIds(old(cards)[..i], name)|
      {
        NamedOneMore(old(cards), i, name);
        if cards[i].name == name && !cards[i].wiped {
          cards := cards[i := Changed(cards[i], lnurlw, txLimit, dayLimit, pin)];
          count := count + 1;
        }
        i := i + 1;
      }
      assert old(cards)[..i] == old(cards);
      assert NamedIds(old(cards), name)
          == set k: nat | k < |old(cards)| && old(cards)[k].name == name && !old(cards)[k].wiped;
      assert cards == ChangeCard(old(State()), name, lnurlw, txLimit, dayLimit, pin).cards;
      ok := count == 1;
    }
  }

  lemma AwaitingOneMore(rows: seq<Payment>, i: nat, token: string)
    requires i < |rows|
    ensures |AwaitingRows(rows[..i + 1], token)|
            == |AwaitingRows(rows[..i], token)| + if Awaits(rows[i], token) then 1 else 0
  {
    var a, b := AwaitingRows(rows[..i], token), AwaitingRows(rows[..i + 1], token);
    assert forall k: nat | k < i :: rows[..i][k] == rows[..i + 1][k];
    assert b == if Awaits(rows[i], token) then a + {i} else a;
  }

  lemma NamedOneMore(cards: seq<Card>, i: nat, name: string)
    requires i < |cards|
    ensures |NamedIds(cards[..i + 1], name)|
            == |NamedIds(cards[..i], name)| + if cards[i].name == name && !cards[i].wiped then 1 else 0
  {
    var a, b := NamedIds(cards[..i], name), NamedIds(cards[..i + 1], name);
    assert forall k: nat | k < i :: cards[..i][k] == cards[..i + 1][k];
    assert b == if cards[i].name == name && !cards[i].wiped then a + {i} else a;
  }

  lemma SameLast(cs: seq<Card>, ds: seq<Card>, name: string)
    requires |cs| == |ds| && forall k | 0 <= k < |cs| :: ds[k].name == cs[k].name
    ensures LastOf(ds, name) == LastOf(cs, name)
  {
    var r, q := LastOf(cs, name), LastOf(ds, name);
    if r.Some? {
      assert ds[r.value].name == name;
    }
  }
}
