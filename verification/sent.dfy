/** What is handed to be paid is what was claimed, so the day limit holds of the money that is really sent. */
module Sent {
  import opened Sums
  import opened Tables
  import opened System
  import opened Spent
  import opened Amounts
  import opened Agree
  import opened DayLimits

  lemma StartedIsRecorded(s: Sys, card: nat, j: nat)
    requires AgreeOk(s, card) && j < |s.log| && s.log[j].PayStarted? && OnCard(s.db, s.log[j].pid, card)
    ensures s.log[j].pid < |s.db.payments| && s.db.payments[s.log[j].pid].paid
    ensures exists c: nat ::
              && c < j && s.log[c].Claimed? && s.log[c].pid == s.log[j].pid
              && s.db.payments[s.log[j].pid].amount == Some(s.log[c].msats)
  {
    assert StartedRow(s, s.log[j].pid);
    assert RowOk(s, s.log[j].pid);
    var c := s.notes[s.log[j].pid].claim.value;
    assert c < j && s.log[c].Claimed?;
  }

  /** A payment that was started stays on the books with the amount that was measured against the limits. */
  lemma SentIsOnTheBooks(es: seq<Event>, s: Sys, card: nat, j: nat)
    requires Respects(INIT, es, ExactFor(card)) && s == Run(INIT, es)
    requires j < |s.log| && s.log[j].PayStarted? && OnCard(s.db, s.log[j].pid, card)
    ensures s.log[j].pid < |s.db.payments| && s.db.payments[s.log[j].pid].paid
    ensures exists c: nat ::
              && c < j && s.log[c].Claimed? && s.log[c].pid == s.log[j].pid
              && s.db.payments[s.log[j].pid].amount == Some(s.log[c].msats)
  {
    ReachedAgree(es, s, card);
    StartedIsRecorded(s, card, j);
  }

  predicate WasSent(log: seq<Entry>, pid: nat) {
    exists j :: 0 <= j < |log| && log[j] == PayStarted(pid)
  }

  /** The amount claimed, for the card's rows claimed in (t - 1 day, t] whose payment has been started. */
  function SentWeight(s: Sys, card: nat, t: int): (nat, Payment) -> int {
    (k: nat, p: Payment) =>
      if && k < |s.notes| && s.notes[k].claim.Some? && s.notes[k].claim.value < |s.log|
         && InWindow(s.log[s.notes[k].claim.value], card, t) && WasSent(s.log, k)
      then s.log[s.notes[k].claim.value].msats else 0
  }

  lemma SentRow(s: Sys, card: nat, t: int, k: nat)
    requires AgreeOk(s, card) && k < |s.db.payments|
    ensures SentWeight(s, card, t)(k, s.db.payments[k]) <= WindowWeight(card, t)(k, s.db.payments[k])
  {
    assert RowOk(s, k);
    if SentWeight(s, card, t)(k, s.db.payments[k]) != 0 {
      var j :| 0 <= j < |s.log| && s.log[j] == PayStarted(k);
      assert StartedRow(s, k);
    }
  }

  lemma SentInside(s: Sys, card: nat, t: int)
    requires AgreeOk(s, card)
    ensures Sum(s.db.payments, SentWeight(s, card, t)) <= Sum(s.db.payments, WindowWeight(card, t))
  {
    var w, v := SentWeight(s, card, t), WindowWeight(card, t);
    forall k: nat | k < |s.db.payments| ensures w(k, s.db.payments[k]) <= v(k, s.db.payments[k]) {
      SentRow(s, card, t, k);
    }
    SumLe(s.db.payments, w, s.db.payments, v);
  }

  /**
   The day limit of what is really sent: the claims of any 24 hours that went on to be paid add up to at most
   1000 D + 1998 msat, by the amounts they were claimed for.
   */
  lemma SentWithinTheDay(es: seq<Event>, s: Sys, card: nat, t: int, last: nat)
    requires Respects(INIT, es, ExactFor(card)) && s == Run(INIT, es)
    requires last < |s.log| && InWindow(s.log[last], card, t) && s.log[last].checked
    requires forall j | last < j < |s.log| :: !InWindow(s.log[j], card, t)
    ensures Sum(s.db.payments, SentWeight(s, card, t)) <= 1000 * s.log[last].dayLimit + 1998
  {
    ReachedAgree(es, s, card);
    SentInside(s, card, t);
    ExactRunIsSound(INIT, es, card);
    DayLimit(es, s, card, t, last);
  }
}
