/** The sliding day limit: what any 24 hours of claims can add up to. */
module DayLimits {
  import opened Sums
  import opened Tables
  import opened System
  import opened Spent
  import opened Amounts

  /** Rows of the card claimed by log entry `upTo` or an earlier one, with a payment time later than `since`. */
  function UpToWeight(notes: seq<Note>, card: nat, since: int, upTo: nat): (nat, Payment) -> int {
    (k: nat, p: Payment) =>
      if && k < |notes| && notes[k].claim.Some? && notes[k].claim.value <= upTo
         && p.cardId == card && p.payTime.Some? && p.payTime.value > since
      then Msats(p) else 0
  }

  function UpTo(s: Sys, card: nat, since: int, upTo: nat): int {
    Sum(s.db.payments, UpToWeight(s.notes, card, since, upTo))
  }

  /** A checked claim and everything committed before it within its day are inside the limit it read. */
  predicate ClaimWithin(s: Sys, j: nat)
    requires j < |s.log|
  {
    var e := s.log[j];
    e.Claimed? && e.checked ==> UpTo(s, e.card, e.at - DAY, j) <= 1000 * e.dayLimit + 1998
  }

  predicate ClaimsWithin(s: Sys, card: nat) {
    forall j | 0 <= j < |s.log| && s.log[j].Claimed? && s.log[j].card == card :: ClaimWithin(s, j)
  }

  predicate DayOk(s: Sys, card: nat) {
    Once(s) && Positive(s.db) && ClaimsWithin(s, card)
  }

  /** Claimed rows only ever lose their amount, and rows claimed later are not counted. */
  lemma UpToShrinks(s: Sys, e: Event, card: nat, since: int, j: nat)
    requires RowsOk(s) && Positive(s.db) && SoundOn(s, e, card) && j < |s.log|
    ensures UpTo(Next(s, e), card, since, j) <= UpTo(s, card, since, j)
  {
    NextRows(s, e, card);
    RowsShrink(s, Next(s, e), card, since, j);
  }

  lemma RowsShrink(s: Sys, t: Sys, card: nat, since: int, j: nat)
    requires RowsOk(s) && RowsChange(s, t, card) && j < |s.log|
    ensures UpTo(t, card, since, j) <= UpTo(s, card, since, j)
  {
    var n, w, v := |s.db.payments|, UpToWeight(s.notes, card, since, j), UpToWeight(t.notes, card, since, j);
    forall k: nat | k < n ensures v(k, t.db.payments[..n][k]) <= w(k, s.db.payments[k]) {
      assert RowOk(s, k) && RowChange(s, t, card, k) && t.db.payments[..n][k] == t.db.payments[k];
    }
    SumLe(t.db.payments[..n], v, s.db.payments, w);
    if |t.db.payments| == n {
      assert t.db.payments[..n] == t.db.payments;
    } else {
      assert t.db.payments == t.db.payments[..n] + [t.db.payments[n]];
      SumAppend(t.db.payments[..n], t.db.payments[n], v);
    }
  }

  /** How one step may change the rows and their history. */
  predicate RowChange(s: Sys, t: Sys, card: nat, k: nat)
    requires |s.notes| == |s.db.payments| <= |t.notes| == |t.db.payments| && k < |s.notes|
  {
    var p, q := s.db.payments[k], t.db.payments[k];
    && q.cardId == p.cardId
    && (s.notes[k].claim.Some? ==>
          && t.notes[k].claim == s.notes[k].claim && q.payTime == p.payTime
          && (p.cardId == card ==> 0 <= Msats(q) <= Msats(p)))
    && (s.notes[k].claim.None? && t.notes[k].claim.Some? ==> t.notes[k].claim.value >= |s.log|)
  }

  predicate RowsChange(s: Sys, t: Sys, card: nat) {
    && |s.notes| == |s.db.payments| <= |t.notes| == |t.db.payments| <= |s.notes| + 1
    && (forall k | 0 <= k < |s.notes| :: RowChange(s, t, card, k))
    && (forall k | |s.notes| <= k < |t.notes| :: t.notes[k].claim.None?)
  }

  predicate NotesChange(s: Sys, t: Sys) {
    && |s.db.payments| == |s.notes| <= |t.notes| == |t.db.payments| <= |s.notes| + 1
    && (forall k | 0 <= k < |s.notes| ::
          && t.db.payments[k].cardId == s.db.payments[k].cardId
          && (s.db.payments[k].paid ==>
                t.notes[k] == s.notes[k] && t.db.payments[k].payTime == s.db.payments[k].payTime)
          && (t.notes[k].claim == s.notes[k].claim || t.notes[k].claim == Some(|s.log|)))
    && (forall k | |s.notes| <= k < |t.notes| :: t.notes[k].claim.None?)
  }

  lemma TapNotes(s: Sys, i: nat, x: Input)
    requires RowsOk(s) && i < |s.procs|
    ensures NotesChange(s, StepTap(s, i, x))
  {
  }

  lemma ClaimNotes(s: Sys, i: nat, x: Input)
    requires RowsOk(s) && i < |s.procs| && s.procs[i].CbRouted?
    ensures NotesChange(s, StepCallback(s, i, x))
  {
  }

  lemma CallbackNotes(s: Sys, i: nat, x: Input)
    requires RowsOk(s) && i < |s.procs| && !s.procs[i].CbRouted?
    ensures NotesChange(s, StepCallback(s, i, x))
  {
  }

  lemma WaitNotes(s: Sys, i: nat, x: Input)
    requires RowsOk(s) && i < |s.procs|
    ensures NotesChange(s, StepWait(s, i, x))
  {
  }

  lemma NodeNotes(s: Sys, i: nat, x: Input)
    requires RowsOk(s) && i < |s.procs|
    ensures NotesChange(s, StepNode(s, i, x))
  {
  }

  lemma StepNotes(s: Sys, i: nat, x: Input)
    requires RowsOk(s) && i < |s.procs|
    ensures NotesChange(s, Step(s, i, x))
  {
    TapNotes(s, i, x);
    if s.procs[i].CbRouted? { ClaimNotes(s, i, x); } else { CallbackNotes(s, i, x); }
    WaitNotes(s, i, x);
    NodeNotes(s, i, x);
  }

  lemma RequestNotes(s: Sys, e: Event)
    requires RowsOk(s) && !e.Move?
    ensures NotesChange(s, Next(s, e))
  {
  }

  lemma NextNotes(s: Sys, e: Event)
    requires RowsOk(s)
    ensures NotesChange(s, Next(s, e))
  {
    if !e.Move? { RequestNotes(s, e); } else if e.i < |s.procs| { StepNotes(s, e.i, e.x); }
  }

  lemma KeptRows(s: Sys, t: Sys, card: nat)
    requires RowsOk(s) && Positive(t.db) && NotesChange(s, t) && KeptOn(s, t, card)
    ensures RowsChange(s, t, card)
  {
    forall k | 0 <= k < |s.notes| ensures RowChange(s, t, card, k) { assert RowOk(s, k); }
  }

  lemma NextRows(s: Sys, e: Event, card: nat)
    requires RowsOk(s) && Positive(s.db) && SoundOn(s, e, card)
    ensures RowsChange(s, Next(s, e), card)
  {
    NextNotes(s, e);
    NextPositive(s, e);
    KeptIffSound(s, e, card);
    KeptRows(s, Next(s, e), card);
  }

  lemma NewClaimSum(s: Sys, rows: seq<Payment>, notes: seq<Note>, pid: nat, now: int, upTo: nat)
    requires RowsOk(s) && pid < |s.db.payments| && !s.db.payments[pid].paid && upTo == |s.log|
    requires rows == s.db.payments[pid := s.db.payments[pid].(paid := true, payTime := Some(now))]
    requires notes == s.notes[pid := s.notes[pid].(claim := Some(upTo))]
    ensures var card := s.db.payments[pid].cardId;
            Sum(rows, UpToWeight(notes, card, now - DAY, upTo))
            <= Sum(s.db.payments, DayWeight(card, now - DAY)) + Msats(s.db.payments[pid])
  {
    var card := s.db.payments[pid].cardId;
    var w, v := DayWeight(card, now - DAY), UpToWeight(notes, card, now - DAY, upTo);
    var base := rows[pid := rows[pid].(amount := None)];
    forall k: nat | k < |base| ensures v(k, base[k]) <= w(k, s.db.payments[k]) {
      assert RowOk(s, k);
      if k != pid { assert base[k] == s.db.payments[k] && notes[k] == s.notes[k]; }
    }
    SumLe(base, v, s.db.payments, w);
    SumUpdate(base, pid, rows[pid], v);
    assert base[pid := rows[pid]] == rows;
  }

  /** What a checked claim is measured against is what was committed before it in its own day. */
  lemma NewClaimWithin(s: Sys, e: Event)
    requires RowsOk(s) && IsClaim(s, e) && SoundOn(s, e, s.db.payments[s.procs[e.i].pid].cardId)
    requires !s.procs[e.i].hub
    ensures |Next(s, e).log| == |s.log| + 1 && ClaimWithin(Next(s, e), |s.log|)
  {
    var p, t := s.procs[e.i], Next(s, e);
    ClaimWrites(s, e);
    NewClaimSum(s, t.db.payments, t.notes, p.pid, e.x.now, |s.log|);
    GrantedWithin(s.db, p.pid, p.msats, e.x.now);
  }

  /** The arithmetic of the day check: truncation lets at most 999 msat through on each side. */
  lemma GrantedWithin(db: Db, pid: nat, msats: int, now: int)
    requires Judge(db, pid, TruncDiv(msats, 1000), true, now).Granted?
    ensures DayMsats(db, db.payments[pid].cardId, now) + msats
            <= 1000 * db.cards[db.payments[pid].cardId].dayLimitSats + 1998
  {
    SatsBracketMsats(DayMsats(db, db.payments[pid].cardId, now));
    SatsBracketMsats(msats);
  }

  lemma OldClaimWithin(s: Sys, e: Event, card: nat, j: nat)
    requires RowsOk(s) && Positive(s.db) && SoundOn(s, e, card)
    requires j < |s.log| && s.log[j].Claimed? && s.log[j].card == card && ClaimWithin(s, j)
    ensures j < |Next(s, e).log| && ClaimWithin(Next(s, e), j)
  {
    NextLog(s, e);
    UpToShrinks(s, e, card, s.log[j].at - DAY, j);
  }

  lemma NextClaim(s: Sys, e: Event, card: nat, j: nat)
    requires RowsOk(s) && SoundOn(s, e, card) && |s.log| <= j < |Next(s, e).log|
    requires Next(s, e).log[j].Claimed? && Next(s, e).log[j].card == card
    ensures ClaimWithin(Next(s, e), j)
  {
    NextLog(s, e);
    assert j == |s.log|;
    if Next(s, e).log[j].checked { NewClaimWithin(s, e); }
  }

  lemma OldClaims(s: Sys, e: Event, card: nat, t: Sys)
    requires RowsOk(s) && Positive(s.db) && SoundOn(s, e, card) && ClaimsWithin(s, card) && t == Next(s, e)
    ensures forall j: nat | j < |s.log| && s.log[j].Claimed? && s.log[j].card == card ::
              j < |t.log| && ClaimWithin(t, j)
  {
    forall j: nat | j < |s.log| && s.log[j].Claimed? && s.log[j].card == card
      ensures j < |t.log| && ClaimWithin(t, j)
    {
      OldClaimWithin(s, e, card, j);
    }
  }

  lemma NewClaims(s: Sys, e: Event, card: nat, t: Sys)
    requires RowsOk(s) && SoundOn(s, e, card) && t == Next(s, e)
    ensures s.log <= t.log
    ensures forall j: nat | |s.log| <= j < |t.log| && t.log[j].Claimed? && t.log[j].card == card :: ClaimWithin(t, j)
  {
    NextLog(s, e);
    forall j: nat | |s.log| <= j < |t.log| && t.log[j].Claimed? && t.log[j].card == card ensures ClaimWithin(t, j) {
      NextClaim(s, e, card, j);
    }
  }

  lemma NextClaims(s: Sys, e: Event, card: nat, t: Sys)
    requires RowsOk(s) && Positive(s.db) && SoundOn(s, e, card) && ClaimsWithin(s, card) && t == Next(s, e)
    ensures ClaimsWithin(t, card)
  {
    OldClaims(s, e, card, t);
    NewClaims(s, e, card, t);
  }

  lemma NextDay(s: Sys, e: Event, card: nat)
    requires DayOk(s, card) && SoundOn(s, e, card)
    ensures DayOk(Next(s, e), card)
  {
    NextKeeps(s, e);
    NextPositive(s, e);
    NextClaims(s, e, card, Next(s, e));
  }

  lemma {:induction false} RunDay(s: Sys, es: seq<Event>, card: nat)
    requires DayOk(s, card) && Respects(s, es, SoundFor(card))
    ensures DayOk(Run(s, es), card)
    decreases |es|
  {
    if es != [] {
      NextDay(s, es[0], card);
      RunDay(Next(s, es[0]), es[1..], card);
    }
  }

  /** The rows of a card with a payment time in (t - 1 day, t]. */
  function WindowWeight(card: nat, t: int): (nat, Payment) -> int {
    (k: nat, p: Payment) =>
      if p.cardId == card && p.paid && p.payTime.Some? && t - 86_400_000_000 < p.payTime.value <= t then Msats(p) else 0
  }

  predicate InWindow(e: Entry, card: nat, t: int) {
    e.Claimed? && e.card == card && t - 86_400_000_000 < e.at <= t
  }

  lemma RowInside(s: Sys, card: nat, t: int, last: nat, k: nat)
    requires RowsOk(s) && Positive(s.db) && k < |s.db.payments|
    requires last < |s.log| && InWindow(s.log[last], card, t)
    requires forall j | last < j < |s.log| :: !InWindow(s.log[j], card, t)
    ensures WindowWeight(card, t)(k, s.db.payments[k])
            <= UpToWeight(s.notes, card, s.log[last].at - DAY, last)(k, s.db.payments[k])
  {
    assert RowOk(s, k);
    var p, c := s.db.payments[k], s.notes[k].claim;
    if p.cardId == card && p.payTime.Some? && t - DAY < p.payTime.value <= t {
      assert InWindow(s.log[c.value], card, t);
      assert c.value <= last;
    }
  }

  lemma WindowInside(s: Sys, card: nat, t: int, last: nat)
    requires DayOk(s, card)
    requires last < |s.log| && InWindow(s.log[last], card, t) && s.log[last].checked
    requires forall j | last < j < |s.log| :: !InWindow(s.log[j], card, t)
    ensures Sum(s.db.payments, WindowWeight(card, t)) <= 1000 * s.log[last].dayLimit + 1998
  {
    var w, v := WindowWeight(card, t), UpToWeight(s.notes, card, s.log[last].at - DAY, last);
    forall k: nat | k < |s.db.payments| ensures w(k, s.db.payments[k]) <= v(k, s.db.payments[k]) {
      RowInside(s, card, t, last, k);
    }
    SumLe(s.db.payments, w, s.db.payments, v);
    assert ClaimWithin(s, last);
  }

  lemma StartDay(card: nat)
    ensures DayOk(INIT, card)
  {
  }

  /**
   For every instant t: when the last claim of the window, in commit order, was measured against a day limit D, the
   window holds at most 1000 D + 1998 msat. Claim times need not be in commit order, the limit may have changed on
   the way, and earlier claims may have been made on either path.
   */
  lemma DayLimit(es: seq<Event>, s: Sys, card: nat, t: int, last: nat)
    requires Respects(INIT, es, SoundFor(card)) && s == Run(INIT, es)
    requires last < |s.log| && InWindow(s.log[last], card, t) && s.log[last].checked
    requires forall j | last < j < |s.log| :: !InWindow(s.log[j], card, t)
    ensures Sum(s.db.payments, WindowWeight(card, t)) <= 1000 * s.log[last].dayLimit + 1998
  {
    StartDay(card);
    RunDay(INIT, es, card);
    WindowInside(s, card, t, last);
  }

  /** A window without a claim is empty. */
  lemma EmptyWindow(es: seq<Event>, s: Sys, card: nat, t: int)
    requires s == Run(INIT, es)
    requires forall j | 0 <= j < |s.log| :: !InWindow(s.log[j], card, t)
    ensures Sum(s.db.payments, WindowWeight(card, t)) == 0
  {
    Reached(es, s);
    NoClaimNoWeight(s, card, t);
  }

  lemma NoClaimNoWeight(s: Sys, card: nat, t: int)
    requires RowsOk(s) && forall j | 0 <= j < |s.log| :: !InWindow(s.log[j], card, t)
    ensures Sum(s.db.payments, WindowWeight(card, t)) == 0
  {
    forall k: nat | k < |s.db.payments| ensures WindowWeight(card, t)(k, s.db.payments[k]) == 0 {
      assert RowOk(s, k);
      if s.notes[k].claim.Some? { assert !InWindow(s.log[s.notes[k].claim.value], card, t); }
    }
    SumZero(s.db.payments, WindowWeight(card, t));
  }

  /** In any run, an event raises what a row records exactly when it is a callback recording a larger invoice on it. */
  lemma OnlyInvoicesRaise(s: Sys, e: Event, k: nat)
    requires Positive(s.db) && k < |s.db.payments|
    ensures k < |Next(s, e).db.payments|
    ensures Msats(Next(s, e).db.payments[k]) > Msats(s.db.payments[k])
            <==> Invoices(s, e, k) && e.x.msats > Msats(s.db.payments[k])
  {
    NextAmounts(s, e);
  }
}
