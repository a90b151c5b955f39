/**
 What a payment was let through by, on the columns of the card: every claim is within the card's transaction limit on
 both payment paths and was made with the right PIN where one is asked for, and what is within every limit is claimed.
 */
module Limits {
  import opened Sums
  import opened Tables
  import opened System
  import opened Spent
  import opened Hands
  import opened Amounts

  // ---------- the three limits ----------

  /** Whole satoshis within a limit, in millisatoshis. */
  lemma SatsWithin(msats: int, limit: int)
    requires msats > 0
    ensures TruncDiv(msats, 1000) <= limit <==> msats <= 1000 * limit + 999
    ensures TruncDiv(msats, 1000) >= limit <==> msats >= 1000 * limit
  {
    SatsBracketMsats(msats);
  }

  /** Exactly what is within the limits is granted; without the checks of the day and the balance one limit is left. */
  lemma GrantedIff(db: Db, pid: nat, msats: int, checked: bool, now: int)
    requires msats > 0
    ensures Authorize(db, pid, TruncDiv(msats, 1000), checked, now).1.Granted? <==>
              && pid < |db.payments| && db.payments[pid].cardId < |db.cards| && !db.payments[pid].paid
              && var card := db.payments[pid].cardId;
                 && msats <= 1000 * db.cards[card].txLimitSats + 999
                 && (checked ==>
                       && TruncDiv(DayMsats(db, card, now), 1000) + TruncDiv(msats, 1000) <= db.cards[card].dayLimitSats
                       && (db.cards[card].allowNegative
                           || TruncDiv(Balance(db, card), 1000) >= TruncDiv(msats, 1000)))
  {
    if pid < |db.payments| && db.payments[pid].cardId < |db.cards| {
      SatsWithin(msats, db.cards[db.payments[pid].cardId].txLimitSats);
    }
  }

  /** The claim of a routed callback, on the rows it finds: the row becomes paid exactly within the limits. */
  lemma ClaimedIff(s: Sys, e: Event)
    requires RowsOk(s) && HandsOk(s) && e.Move? && e.i < |s.procs| && s.procs[e.i].CbRouted?
    ensures var p, t := s.procs[e.i], Next(s, e);
            && |s.log| <= |t.log| && p.pid < |s.db.payments| && p.pid < |t.db.payments|
            && var row, card := s.db.payments[p.pid], s.db.payments[p.pid].cardId;
               (!row.paid && t.db.payments[p.pid].paid) <==>
                 && card < |s.db.cards| && !row.paid && p.msats <= 1000 * s.db.cards[card].txLimitSats + 999
                 && (p.hub
                     || (&& TruncDiv(DayMsats(s.db, card, e.x.now), 1000) + TruncDiv(p.msats, 1000)
                            <= s.db.cards[card].dayLimitSats
                         && (s.db.cards[card].allowNegative
                             || TruncDiv(Balance(s.db, card), 1000) >= TruncDiv(p.msats, 1000))))
  {
    var p := s.procs[e.i];
    assert HandOk(s.db, p);
    GrantedIff(s.db, p.pid, p.msats, !p.hub, e.x.now);
    NextLog(s, e);
    if IsClaim(s, e) { ClaimWrites(s, e); } else { RefusedWrites(s, e); }
  }

  lemma RefusedWrites(s: Sys, e: Event)
    requires e.Move? && e.i < |s.procs| && s.procs[e.i].CbRouted? && !IsClaim(s, e)
    requires |s.notes| == |s.db.payments|
    ensures Next(s, e).db == s.db
  {
  }

  /** What a new claim logs are the columns of the card of its row, and it is within the transaction limit. */
  lemma NewClaimWithinTx(s: Sys, e: Event, t: Sys)
    requires HandsOk(s) && t == Next(s, e) && |t.log| > |s.log| && t.log[|s.log|].Claimed?
    ensures var c := t.log[|s.log|];
            && c.pid < |s.db.payments| && c.card == s.db.payments[c.pid].cardId && c.card < |s.db.cards|
            && c.txLimit == s.db.cards[c.card].txLimitSats && c.dayLimit == s.db.cards[c.card].dayLimitSats
            && 0 < c.msats <= 1000 * s.db.cards[c.card].txLimitSats + 999
    ensures e.Move? && e.i < |s.procs| && s.procs[e.i].CbRouted?
            && t.log[|s.log|].pin == s.procs[e.i].pin && t.log[|s.log|].msats == s.procs[e.i].msats
  {
    NextLog(s, e);
    ClaimWrites(s, e);
    assert HandOk(s.db, s.procs[e.i]);
    GrantedIff(s.db, s.procs[e.i].pid, s.procs[e.i].msats, !s.procs[e.i].hub, e.x.now);
  }

  // ---------- the PIN ----------

  /** The PIN given was the card's, if the amount called for one. */
  predicate Right(pin: PinCheck, msats: int) {
    pin.enabled && msats >= 1000 * pin.limitSats ==> pin.given == pin.number
  }

  /** The PIN check on the card's columns: a wrong PIN is refused where one is asked for, and nothing else is. */
  lemma PinVerdict(s: Sys, i: nat, x: Input)
    requires HandsOk(s) && i < |s.procs| && s.procs[i].CbRecorded?
    requires s.db.payments[s.procs[i].pid].cardId < |s.db.cards|
    ensures var p, t := s.procs[i], Step(s, i, x);
            var c := s.db.cards[s.db.payments[p.pid].cardId];
            && t.db == s.db && |t.procs| == |s.procs|
            && if c.pinEnabled && p.msats >= 1000 * c.pinLimitSats && x.text != c.pin
               then t.procs[i] == CbWrongPin(p.pid) && t.log == s.log + [PinRefused(p.pid)]
               else t.procs[i] == CbReady(p.pid, p.msats, PinCheck(x.text, c.pinEnabled, c.pin, c.pinLimitSats))
                    && t.log == s.log
  {
    var p := s.procs[i];
    assert HandOk(s.db, p);
    SatsWithin(p.msats, s.db.cards[s.db.payments[p.pid].cardId].pinLimitSats);
  }

  predicate ProcPassed(p: Proc) {
    p.CbReady? || p.CbRouted? ==> Right(p.pin, p.msats)
  }

  /** Every claim is within the limit it read, and was made with the right PIN; so is every one to come. */
  predicate ClaimOk(e: Entry) {
    e.Claimed? ==> e.msats <= 1000 * e.txLimit + 999 && Right(e.pin, e.msats)
  }

  predicate PassedOk(s: Sys) {
    && (forall i | 0 <= i < |s.procs| :: ProcPassed(s.procs[i]))
    && (forall j | 0 <= j < |s.log| :: ClaimOk(s.log[j]))
  }

  lemma CallbackPassed(s: Sys, i: nat, x: Input)
    requires HandsOk(s) && i < |s.procs| && PreClaim(s.procs[i]) && ProcPassed(s.procs[i])
    ensures ProcPassed(Step(s, i, x).procs[i])
  {
    assert HandOk(s.db, s.procs[i]);
    if s.procs[i].CbRecorded? && s.db.payments[s.procs[i].pid].cardId < |s.db.cards| { PinVerdict(s, i, x); }
  }

  lemma OtherPassed(s: Sys, i: nat, x: Input)
    requires i < |s.procs| && !PreClaim(s.procs[i])
    ensures i < |Step(s, i, x).procs|
    ensures !Step(s, i, x).procs[i].CbReady? && !Step(s, i, x).procs[i].CbRouted?
  {
  }

  lemma RequestPassed(s: Sys, e: Event)
    requires !e.Move?
    ensures var t := Next(s, e);
            forall j | 0 <= j < |t.procs| && (t.procs[j].CbReady? || t.procs[j].CbRouted?) ::
              j < |s.procs| && t.procs[j] == s.procs[j]
  {
  }

  lemma NextProcs(s: Sys, e: Event)
    requires HandsOk(s) && PassedOk(s)
    ensures forall i | 0 <= i < |Next(s, e).procs| :: ProcPassed(Next(s, e).procs[i])
  {
    var t := Next(s, e);
    if !e.Move? {
      RequestPassed(s, e);
    } else if e.i < |s.procs| {
      StepMoved(s, e.i, e.x);
      if PreClaim(s.procs[e.i]) { CallbackPassed(s, e.i, e.x); } else { OtherPassed(s, e.i, e.x); }
    }
  }

  lemma NewClaimOk(s: Sys, e: Event, t: Sys)
    requires HandsOk(s) && PassedOk(s) && t == Next(s, e) && |t.log| > |s.log|
    ensures ClaimOk(t.log[|s.log|])
  {
    if t.log[|s.log|].Claimed? {
      NewClaimWithinTx(s, e, t);
      assert ProcPassed(s.procs[e.i]);
    }
  }

  lemma PassedAfter(s: Sys, t: Sys)
    requires PassedOk(s) && OneEntry(s, t) && forall i | 0 <= i < |t.procs| :: ProcPassed(t.procs[i])
    requires |t.log| > |s.log| ==> ClaimOk(t.log[|s.log|])
    ensures PassedOk(t)
  {
    forall j: nat | j < |t.log| ensures ClaimOk(t.log[j]) {
      assert j < |s.log| ==> t.log[j] == s.log[j];
    }
  }

  lemma NextPassed(s: Sys, e: Event)
    requires HandsOk(s) && PassedOk(s)
    ensures PassedOk(Next(s, e))
  {
    var t := Next(s, e);
    NextProcs(s, e);
    NextLog(s, e);
    if |t.log| > |s.log| { NewClaimOk(s, e, t); }
    PassedAfter(s, t);
  }

  predicate LimitsOk(s: Sys) {
    KnownOk(s) && PassedOk(s)
  }

  lemma {:induction false} RunPassed(s: Sys, es: seq<Event>)
    requires LimitsOk(s)
    ensures LimitsOk(Run(s, es))
    decreases |es|
  {
    if es != [] {
      NextKnown(s, es[0]);
      NextPassed(s, es[0]);
      RunPassed(Next(s, es[0]), es[1..]);
    }
  }

  lemma StartLimits()
    ensures LimitsOk(INIT)
  {
    StartKnown();
  }

  lemma ReachedLimits(es: seq<Event>, s: Sys)
    requires s == Run(INIT, es)
    ensures LimitsOk(s)
  {
    StartLimits();
    RunPassed(INIT, es);
  }

  /** Under every interleaving and on both payment paths, a claim is within the transaction limit its card had. */
  lemma EveryClaimWithinTx(es: seq<Event>, s: Sys, j: nat)
    requires s == Run(INIT, es) && j < |s.log| && s.log[j].Claimed?
    ensures s.log[j].msats <= 1000 * s.log[j].txLimit + 999
  {
    ReachedLimits(es, s);
    assert ClaimOk(s.log[j]);
  }

  /** Under every interleaving, a claim whose amount called for a PIN was made with the card's PIN. */
  lemma EveryClaimHadItsPin(es: seq<Event>, s: Sys, j: nat)
    requires s == Run(INIT, es) && j < |s.log| && s.log[j].Claimed?
    requires s.log[j].pin.enabled && s.log[j].msats >= 1000 * s.log[j].pin.limitSats
    ensures s.log[j].pin.given == s.log[j].pin.number
  {
    ReachedLimits(es, s);
    assert ClaimOk(s.log[j]);
  }
}
