/** What a callback does, told by the columns it finds and the call it is made with. */
module CallRules {
  import opened Sums
  import opened Tables
  import opened Callbacks
  import opened Limits

  /** The row can still be called back: unspent, of a card, in time, with an invoice for something. */
  predicate Open(db: Db, c: Call, pid: nat)
    requires pid < |db.payments|
  {
    var row := db.payments[pid];
    && !row.paid && row.cardId < |db.cards|
    && c.checkedAt <= row.requestTime + db.cards[row.cardId].timeoutSec * 1_000_000
    && c.invoice.Some? && c.invoice.value > 0
  }

  /** The card asks for a PIN at this amount, and the one given is not it. */
  predicate Forged(card: Card, c: Call)
    requires c.invoice.Some?
  {
    card.pinEnabled && c.invoice.value >= 1000 * card.pinLimitSats && c.pin != card.pin
  }

  predicate WithinLimits(db: Db, c: Call, card: nat)
    requires c.invoice.Some? && card < |db.cards|
  {
    var msats, limits := c.invoice.value, db.cards[card];
    && msats <= 1000 * limits.txLimitSats + 999
    && (c.hub
        || (&& TruncDiv(DayMsats(db, card, c.claimedAt), 1000) + TruncDiv(msats, 1000) <= limits.dayLimitSats
            && (limits.allowNegative || TruncDiv(Balance(db, card), 1000) >= TruncDiv(msats, 1000))))
  }

  lemma UsableIff(db: Db, c: Call, pid: nat)
    requires FindK1(db.payments, c.k1) == Some(pid)
    ensures Usable(db, c) == if Open(db, c, pid) then Some(pid) else None
  {
  }

  /** An unspent row weighs nothing, whatever it records. */
  lemma InvoiceWeighsNothing(db: Db, pid: nat, msats: int, card: nat, now: int)
    requires pid < |db.payments| && !db.payments[pid].paid && db.payments[pid].status == Blank
    ensures DayMsats(Invoiced(db, pid, msats), card, now) == DayMsats(db, card, now)
    ensures Balance(Invoiced(db, pid, msats), card) == Balance(db, card)
  {
    var q := db.payments[pid].(amount := Some(msats));
    SumUpdate(db.payments, pid, q, DayWeight(card, now - DAY));
    SumUpdate(db.payments, pid, q, DebitWeight(card));
  }

  lemma GrantedInvoice(db: Db, c: Call, pid: nat)
    requires pid < |db.payments| && Open(db, c, pid) && db.payments[pid].status == Blank
    ensures var msats := c.invoice.value;
            Judge(Invoiced(db, pid, msats), pid, TruncDiv(msats, 1000), !c.hub, c.claimedAt).Granted?
            <==> WithinLimits(db, c, db.payments[pid].cardId)
  {
    var card, msats := db.payments[pid].cardId, c.invoice.value;
    GrantedIff(Invoiced(db, pid, msats), pid, msats, !c.hub, c.claimedAt);
    InvoiceWeighsNothing(db, pid, msats, card, c.claimedAt);
  }

  /**
   A callback starts a payment if and only if its row can be called back, no PIN is forged, the payee is allowed, and
   the invoice is within the limits; then the row is claimed for the invoice, and the payment goes to the hub, to the
   card holder or to the node as the settings say.
   */
  lemma AcceptedIff(db: Db, c: Call, pid: nat)
    requires FindK1(db.payments, c.k1) == Some(pid) && (!db.payments[pid].paid ==> db.payments[pid].status == Blank)
    ensures var (t, reply) := Outcome(db, c);
            var row := db.payments[pid];
            && (!reply.Refused? <==>
                  && Open(db, c, pid) && !Forged(db.cards[row.cardId], c) && c.allowed
                  && WithinLimits(db, c, row.cardId))
            && (!reply.Refused? ==>
                  && t == SetRow(db, pid, row.(amount := c.invoice, paid := true, payTime := Some(c.claimedAt)))
                  && reply == (if c.hub then PayByHub(pid) else if c.asks then AskFirst(pid) else PayByNode(pid)))
  {
    UsableIff(db, c, pid);
    if Open(db, c, pid) {
      SatsWithin(c.invoice.value, db.cards[db.payments[pid].cardId].pinLimitSats);
      GrantedInvoice(db, c, pid);
    }
  }

  /** A refused callback spends the row if and only if a PIN is forged; otherwise it leaves at most its invoice. */
  lemma SpoiledIff(db: Db, c: Call, pid: nat)
    requires FindK1(db.payments, c.k1) == Some(pid) && Outcome(db, c).1.Refused?
    ensures var t, row := Outcome(db, c).0, db.payments[pid];
            t == if !Open(db, c, pid) then db
                 else if Forged(db.cards[row.cardId], c)
                 then SetRow(db, pid, row.(paid := true, amount := None, status := Failed, statusTime := c.claimedAt))
                 else SetRow(db, pid, row.(amount := c.invoice))
  {
    UsableIff(db, c, pid);
    if Open(db, c, pid) { SatsWithin(c.invoice.value, db.cards[db.payments[pid].cardId].pinLimitSats); }
  }

  /** Without a row for its k1 a callback does nothing. */
  lemma UnknownK1(db: Db, c: Call)
    requires forall k | 0 <= k < |db.payments| :: db.payments[k].k1 != c.k1
    ensures Outcome(db, c) == (db, Refused)
  {
  }
}
