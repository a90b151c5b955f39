/** The tap that binds a card is not accepted for it: when that holds, and what follows from binding a blank card. */
module BindTaps {
  import opened Sums
  import opened Tables
  import opened System
  import opened OneTap

  /** A card bound by a tap under way holds at least the tap's counter. */
  predicate Stored(cards: seq<Card>, p: Proc) {
    (p.TapBound? || p.TapFound?) && p.bound.Some? ==>
      p.bound.value < |cards| && p.counter <= cards[p.bound.value].counter
  }

  /** No accepted tap has bound the card it was accepted for, and none under way is about to. */
  predicate BoundOk(s: Sys) {
    && (forall j | 0 <= j < |s.taps| :: s.taps[j].bound != Some(s.taps[j].card))
    && (forall i | 0 <= i < |s.procs| :: Stored(s.db.cards, s.procs[i]))
  }

  /** A tap stores its counter in a card only when no tap under way has bound the card with a larger one. */
  predicate BoundForward(s: Sys, e: Event) {
    && e.Move? && e.i < |s.procs| && s.procs[e.i].TapBinding? && s.procs[e.i].card < |s.db.cards|
    ==> forall k | 0 <= k < |s.procs| && (s.procs[k].TapBound? || s.procs[k].TapFound?)
                   && s.procs[k].bound == Some(s.procs[e.i].card) :: s.procs[k].counter <= s.procs[e.i].counter
  }

  predicate CountersGrow(cs: seq<Card>, ds: seq<Card>) {
    |cs| <= |ds| && forall c | 0 <= c < |cs| :: cs[c].counter <= ds[c].counter
  }

  /** Cards only grow, and whoever moves has bound nothing, or has it stored. */
  lemma ProcsStored(s: Sys, t: Sys, i: int)
    requires BoundOk(s) && CountersGrow(s.db.cards, t.db.cards) && |s.procs| <= |t.procs|
    requires forall j | 0 <= j < |s.procs| && j != i :: t.procs[j] == s.procs[j]
    requires forall j | 0 <= j < |t.procs| && (j == i || j >= |s.procs|) :: Stored(t.db.cards, t.procs[j])
    ensures forall j | 0 <= j < |t.procs| :: Stored(t.db.cards, t.procs[j])
  {
    forall j | 0 <= j < |t.procs| ensures Stored(t.db.cards, t.procs[j]) {
      if j < |s.procs| && j != i { assert Stored(s.db.cards, s.procs[j]); }
    }
  }

  lemma LookBound(s: Sys, i: nat, x: Input)
    requires BoundOk(s) && i < |s.procs|
    requires s.procs[i].TapRead? || s.procs[i].TapListing? || s.procs[i].TapBound? || s.procs[i].TapAccepted?
    ensures BoundOk(StepTap(s, i, x))
  {
    assert Stored(s.db.cards, s.procs[i]);
    ProcsStored(s, StepTap(s, i, x), i);
  }

  /** A tap that bound the card finds its own counter there, or a larger one, and is refused. */
  lemma AcceptBound(s: Sys, i: nat, x: Input)
    requires BoundOk(s) && i < |s.procs| && s.procs[i].TapFound?
    ensures BoundOk(StepTap(s, i, x))
  {
    assert Stored(s.db.cards, s.procs[i]);
    ProcsStored(s, StepTap(s, i, x), i);
  }

  lemma BindBound(s: Sys, i: nat, x: Input)
    requires BoundOk(s) && i < |s.procs| && s.procs[i].TapBinding?
    ensures BoundOk(StepTap(s, i, x)) <==> BoundForward(s, Move(i, x))
  {
    var t, c := StepTap(s, i, x), s.procs[i].card;
    assert forall k | 0 <= k < |s.procs| && k != i :: t.procs[k] == s.procs[k];
    if BoundForward(s, Move(i, x)) {
      forall k | 0 <= k < |t.procs| ensures Stored(t.db.cards, t.procs[k]) {
        assert Stored(s.db.cards, s.procs[k]);
      }
    } else {
      var k :| 0 <= k < |s.procs| && (s.procs[k].TapBound? || s.procs[k].TapFound?)
               && s.procs[k].bound == Some(c) && s.procs[k].counter > s.procs[i].counter;
      assert !Stored(t.db.cards, t.procs[k]);
    }
  }

  lemma OtherBound(s: Sys, i: nat, x: Input)
    requires BoundOk(s) && i < |s.procs| && !IsTap(s.procs[i])
    ensures BoundOk(Step(s, i, x))
  {
    NotATap(s, i, x);
    ProcsStored(s, Step(s, i, x), i);
  }

  lemma RequestBound(s: Sys, e: Event)
    requires BoundOk(s) && !e.Move?
    ensures BoundOk(Next(s, e))
  {
    RequestTapQuiet(s, e);
    RequestProcs(s, e);
    ProcsStored(s, Next(s, e), if e.Stop? then e.i else -1);
  }

  lemma RequestProcs(s: Sys, e: Event)
    requires !e.Move?
    ensures var t := Next(s, e);
            && |s.procs| <= |t.procs|
            && (forall j | 0 <= j < |s.procs| && !(e.Stop? && e.i == j) :: t.procs[j] == s.procs[j])
            && (e.Stop? && e.i < |s.procs| ==> t.procs[e.i].Done?)
            && (forall j | |s.procs| <= j < |t.procs| :: !t.procs[j].TapBound? && !t.procs[j].TapFound?)
  {
  }

  /** An event keeps binding taps from being accepted if and only if no binding stores a counter behind another's. */
  lemma BoundKeptIff(s: Sys, e: Event)
    requires BoundOk(s)
    ensures BoundOk(Next(s, e)) <==> BoundForward(s, e)
  {
    if !e.Move? {
      RequestBound(s, e);
    } else if e.i < |s.procs| {
      var p := s.procs[e.i];
      if !IsTap(p) { OtherBound(s, e.i, e.x); }
      else if p.TapBinding? { BindBound(s, e.i, e.x); }
      else if p.TapFound? { AcceptBound(s, e.i, e.x); }
      else { LookBound(s, e.i, e.x); }
    }
  }

  lemma {:induction false} RunBound(s: Sys, es: seq<Event>)
    requires BoundOk(s) && Respects(s, es, BoundForward)
    ensures BoundOk(Run(s, es))
    decreases |es|
  {
    if es != [] {
      BoundKeptIff(s, es[0]);
      RunBound(Next(s, es[0]), es[1..]);
    }
  }

  /** The tap that binds a card is never accepted for it. */
  lemma BindingTapIsNeverAccepted(es: seq<Event>, s: Sys, i: nat)
    requires Respects(INIT, es, BoundForward) && s == Run(INIT, es) && i < |s.taps|
    ensures s.taps[i].bound != Some(s.taps[i].card)
  {
    RunBound(INIT, es);
  }

  // ---------- no counter is put back ----------

  lemma ForwardIsBoth(s: Sys, e: Event)
    requires CountersOk(s) && BoundOk(s) && CountersForward(s, e)
    ensures AcceptedForward(s, e) && BoundForward(s, e)
  {
    if e.Move? && e.i < |s.procs| && s.procs[e.i].TapBinding? {
      forall k | 0 <= k < |s.procs| ensures Stored(s.db.cards, s.procs[k]) {}
    }
  }

  lemma {:induction false} RunForwardIsBoth(s: Sys, es: seq<Event>)
    requires TapsOk(s) && BoundOk(s) && Respects(s, es, CountersForward)
    ensures Respects(s, es, AcceptedForward) && Respects(s, es, BoundForward)
    decreases |es|
  {
    if es != [] {
      ForwardIsBoth(s, es[0]);
      CountersKeptIff(s, es[0]);
      NextMints(s, es[0]);
      BoundKeptIff(s, es[0]);
      RunForwardIsBoth(Next(s, es[0]), es[1..]);
    }
  }

  lemma CleanIsForward(es: seq<Event>)
    requires Respects(INIT, es, CleanBind)
    ensures Respects(INIT, es, CountersForward)
  {
    RespectsLess(INIT, es, CleanBind, CountersForward);
  }

  lemma StartBound()
    ensures TapsOk(INIT) && BoundOk(INIT)
  {
  }

  /** Both rules follow when no binding puts its card's counter back, and so when each finds its card still blank. */
  lemma NothingPutBack(es: seq<Event>)
    requires Respects(INIT, es, CountersForward) || Respects(INIT, es, CleanBind)
    ensures Respects(INIT, es, AcceptedForward) && Respects(INIT, es, BoundForward)
  {
    if Respects(INIT, es, CleanBind) { CleanIsForward(es); }
    StartBound();
    RunForwardIsBoth(INIT, es);
  }
}
