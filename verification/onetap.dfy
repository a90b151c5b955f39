/** One tap, at most one payment: every payment started is paid for by an accepted (card, counter) of its own. */
module OneTap {
  import opened Sums
  import opened Tables
  import opened System
  import opened Spent

  /** Accepted counters stay behind the card's counter, and grow. */
  predicate CountersOk(s: Sys) {
    && (forall j | 0 <= j < |s.taps| ::
          s.taps[j].card < |s.db.cards| && s.taps[j].counter <= s.db.cards[s.taps[j].card].counter)
    && (forall i, j | 0 <= i < j < |s.taps| && s.taps[i].card == s.taps[j].card ::
          s.taps[i].counter < s.taps[j].counter)
  }

  /** Each accepted tap mints at most one row, and the row is for the tap's card. */
  predicate MintsOk(s: Sys) {
    && |s.notes| == |s.db.payments|
    && (forall k | 0 <= k < |s.notes| ::
          s.notes[k].tap < |s.taps| && s.taps[s.notes[k].tap].card == s.db.payments[k].cardId)
    && (forall j, k | 0 <= j < k < |s.notes| :: s.notes[j].tap != s.notes[k].tap)
    && (forall i | 0 <= i < |s.procs| && s.procs[i].TapAccepted? ::
          s.procs[i].tap < |s.taps| && s.taps[s.procs[i].tap].card == s.procs[i].card)
    && (forall i, k | 0 <= i < |s.procs| && s.procs[i].TapAccepted? && 0 <= k < |s.notes| ::
          s.procs[i].tap != s.notes[k].tap)
    && (forall i, j | 0 <= i < j < |s.procs| && s.procs[i].TapAccepted? && s.procs[j].TapAccepted? ::
          s.procs[i].tap != s.procs[j].tap)
  }

  predicate TapsOk(s: Sys) {
    CountersOk(s) && MintsOk(s)
  }

  /** Cards keep their counters. */
  predicate CountersStay(cs: seq<Card>, ds: seq<Card>) {
    |cs| <= |ds| && forall c | 0 <= c < |cs| :: ds[c].counter == cs[c].counter
  }

  /** Nothing is accepted and nothing minted. */
  predicate TapQuiet(s: Sys, t: Sys) {
    && t.taps == s.taps
    && |t.notes| == |s.notes| && (forall k | 0 <= k < |s.notes| :: t.notes[k].tap == s.notes[k].tap)
    && |t.db.payments| == |s.db.payments|
    && (forall k | 0 <= k < |s.db.payments| :: t.db.payments[k].cardId == s.db.payments[k].cardId)
    && |s.procs| <= |t.procs|
    && (forall i | 0 <= i < |s.procs| && t.procs[i].TapAccepted? :: t.procs[i] == s.procs[i])
    && (forall i | |s.procs| <= i < |t.procs| :: !t.procs[i].TapAccepted?)
  }

  lemma QuietKeepsMints(s: Sys, t: Sys)
    requires MintsOk(s) && TapQuiet(s, t)
    ensures MintsOk(t)
  {
  }

  // ---------- steps of a tap ----------

  lemma AcceptCounters(s: Sys, i: nat, x: Input)
    requires CountersOk(s) && i < |s.procs| && s.procs[i].TapFound?
    ensures CountersOk(StepTap(s, i, x))
  {
  }

  lemma AcceptMints(s: Sys, i: nat, x: Input)
    requires MintsOk(s) && i < |s.procs| && s.procs[i].TapFound?
    requires CheckCounter(s.db, s.procs[i].card, s.procs[i].counter).1
    ensures MintsOk(StepTap(s, i, x))
  {
  }

  lemma MintCounters(s: Sys, i: nat, x: Input)
    requires i < |s.procs| && s.procs[i].TapAccepted?
    ensures var t := StepTap(s, i, x); t.db.cards == s.db.cards && t.taps == s.taps
  {
  }

  lemma MintRow(s: Sys, i: nat, x: Input)
    requires MintsOk(s) && i < |s.procs| && s.procs[i].TapAccepted?
    requires InsertPayment(s.db, s.procs[i].card, x.text, x.now).1
    ensures MintsOk(StepTap(s, i, x))
  {
  }

  lemma RefusedQuiet(s: Sys, i: nat, x: Input)
    requires i < |s.procs|
    requires || (s.procs[i].TapAccepted? && !InsertPayment(s.db, s.procs[i].card, x.text, x.now).1)
             || (s.procs[i].TapFound? && !CheckCounter(s.db, s.procs[i].card, s.procs[i].counter).1)
    ensures TapQuiet(s, StepTap(s, i, x))
  {
  }

  lemma BindMints(s: Sys, i: nat, x: Input)
    requires i < |s.procs| && s.procs[i].TapBinding?
    ensures TapQuiet(s, StepTap(s, i, x))
  {
  }

  /** The update that binds a card keeps accepted counters behind exactly when it stores none of the smaller ones. */
  lemma BindCounters(s: Sys, i: nat, x: Input)
    requires CountersOk(s) && i < |s.procs| && s.procs[i].TapBinding?
    ensures CountersOk(StepTap(s, i, x)) <==> AcceptedForward(s, Move(i, x))
  {
    var t, c := StepTap(s, i, x), s.procs[i].card;
    assert t.taps == s.taps && (c < |s.db.cards| ==> t.db.cards[c].counter == s.procs[i].counter);
  }

  lemma LookQuiet(s: Sys, i: nat, x: Input)
    requires i < |s.procs| && (s.procs[i].TapRead? || s.procs[i].TapListing? || s.procs[i].TapBound?)
    ensures TapQuiet(s, StepTap(s, i, x)) && StepTap(s, i, x).db == s.db
  {
  }

  lemma TapMints(s: Sys, i: nat, x: Input)
    requires TapsOk(s) && i < |s.procs| && IsTap(s.procs[i])
    ensures MintsOk(StepTap(s, i, x))
  {
    var p := s.procs[i];
    if p.TapFound? && CheckCounter(s.db, p.card, p.counter).1 {
      AcceptMints(s, i, x);
    } else if p.TapAccepted? && InsertPayment(s.db, p.card, x.text, x.now).1 {
      MintRow(s, i, x);
    } else {
      if p.TapFound? || p.TapAccepted? { RefusedQuiet(s, i, x); }
      else if p.TapBinding? { BindMints(s, i, x); }
      else { LookQuiet(s, i, x); }
      QuietKeepsMints(s, StepTap(s, i, x));
    }
  }

  lemma TapCounters(s: Sys, i: nat, x: Input)
    requires TapsOk(s) && i < |s.procs| && IsTap(s.procs[i])
    ensures CountersOk(StepTap(s, i, x)) <==> AcceptedForward(s, Move(i, x))
  {
    var p := s.procs[i];
    if p.TapFound? { AcceptCounters(s, i, x); }
    else if p.TapAccepted? { MintCounters(s, i, x); }
    else if p.TapBinding? { BindCounters(s, i, x); }
    else { LookQuiet(s, i, x); }
  }

  // ---------- steps of anything else ----------

  lemma ClaimTapQuiet(s: Sys, i: nat, x: Input)
    requires i < |s.procs| && s.procs[i].CbRouted?
    ensures TapQuiet(s, StepCallback(s, i, x)) && !IsTap(StepCallback(s, i, x).procs[i])
    ensures StepCallback(s, i, x).procs == s.procs[i := StepCallback(s, i, x).procs[i]]
  {
  }

  lemma SpoilTapQuiet(s: Sys, i: nat, x: Input)
    requires i < |s.procs| && (s.procs[i].CbInTime? || s.procs[i].CbWrongPin?)
    ensures TapQuiet(s, StepCallback(s, i, x)) && !IsTap(StepCallback(s, i, x).procs[i])
    ensures StepCallback(s, i, x).procs == s.procs[i := StepCallback(s, i, x).procs[i]]
  {
  }

  lemma CallbackTapQuiet(s: Sys, i: nat, x: Input)
    requires i < |s.procs| && !IsTap(s.procs[i])
    requires !s.procs[i].CbRouted? && !s.procs[i].CbInTime? && !s.procs[i].CbWrongPin?
    ensures TapQuiet(s, StepCallback(s, i, x)) && !IsTap(StepCallback(s, i, x).procs[i])
    ensures StepCallback(s, i, x).procs == s.procs[i := StepCallback(s, i, x).procs[i]]
  {
  }

  lemma DropTapQuiet(s: Sys, i: nat, x: Input)
    requires i < |s.procs| && s.procs[i].WaitDropped?
    ensures TapQuiet(s, StepWait(s, i, x)) && !IsTap(StepWait(s, i, x).procs[i])
    ensures StepWait(s, i, x).procs == s.procs[i := StepWait(s, i, x).procs[i]]
  {
  }

  lemma WaitTapQuiet(s: Sys, i: nat, x: Input)
    requires i < |s.procs| && !IsTap(s.procs[i]) && !s.procs[i].WaitDropped?
    ensures TapQuiet(s, StepWait(s, i, x)) && !IsTap(StepWait(s, i, x).procs[i])
    ensures StepWait(s, i, x).procs == s.procs[i := StepWait(s, i, x).procs[i]]
  {
  }

  lemma NodeTapQuiet(s: Sys, i: nat, x: Input)
    requires i < |s.procs| && !IsTap(s.procs[i])
    ensures TapQuiet(s, StepNode(s, i, x)) && !IsTap(StepNode(s, i, x).procs[i])
    ensures StepNode(s, i, x).procs == s.procs[i := StepNode(s, i, x).procs[i]]
  {
  }

  lemma StepCards(s: Sys, i: nat, x: Input)
    requires i < |s.procs|
    ensures StepCallback(s, i, x).db.cards == s.db.cards
    ensures StepWait(s, i, x).db.cards == s.db.cards && StepNode(s, i, x).db.cards == s.db.cards
  {
  }

  /** What is no tap accepts nothing, mints nothing, touches no card, and does not become a tap. */
  lemma NotATap(s: Sys, i: nat, x: Input)
    requires i < |s.procs| && !IsTap(s.procs[i])
    ensures var t := Step(s, i, x);
            && TapQuiet(s, t) && t.db.cards == s.db.cards
            && |t.procs| == |s.procs| && t.procs == s.procs[i := t.procs[i]] && !IsTap(t.procs[i])
  {
    var p := s.procs[i];
    StepCards(s, i, x);
    if p.CbRouted? {
      ClaimTapQuiet(s, i, x);
    } else if p.CbInTime? || p.CbWrongPin? {
      SpoilTapQuiet(s, i, x);
    } else if p.WaitDropped? {
      DropTapQuiet(s, i, x);
    } else {
      CallbackTapQuiet(s, i, x);
      WaitTapQuiet(s, i, x);
      NodeTapQuiet(s, i, x);
    }
  }

  // ---------- requests ----------

  lemma RequestCards(s: Sys, e: Event)
    requires !e.Move?
    ensures CountersStay(s.db.cards, Next(s, e).db.cards) && Next(s, e).taps == s.taps && Next(s, e).notes == s.notes
  {
  }

  lemma RequestRows(s: Sys, e: Event)
    requires !e.Move?
    ensures var t := Next(s, e);
            && |t.db.payments| == |s.db.payments|
            && (forall k | 0 <= k < |s.db.payments| ::
                  t.db.payments[k].cardId == s.db.payments[k].cardId && t.db.payments[k].k1 == s.db.payments[k].k1)
  {
  }

  lemma RequestTaps(s: Sys, e: Event)
    requires !e.Move?
    ensures var t := Next(s, e);
            && |s.procs| <= |t.procs|
            && (forall i | 0 <= i < |s.procs| && t.procs[i].TapAccepted? :: t.procs[i] == s.procs[i])
            && (forall i | |s.procs| <= i < |t.procs| :: !t.procs[i].TapAccepted?)
  {
  }

  lemma RequestTapQuiet(s: Sys, e: Event)
    requires !e.Move?
    ensures TapQuiet(s, Next(s, e)) && CountersStay(s.db.cards, Next(s, e).db.cards)
  {
    RequestCards(s, e);
    RequestRows(s, e);
    RequestTaps(s, e);
  }

  // ---------- every event ----------

  /** Accepted counters stay behind their cards' and grow if and only if no binding stores a smaller one. */
  lemma CountersKeptIff(s: Sys, e: Event)
    requires TapsOk(s)
    ensures CountersOk(Next(s, e)) <==> AcceptedForward(s, e)
  {
    if !e.Move? {
      RequestTapQuiet(s, e);
    } else if e.i < |s.procs| {
      if IsTap(s.procs[e.i]) { TapCounters(s, e.i, e.x); } else { NotATap(s, e.i, e.x); }
    }
  }

  lemma NextMints(s: Sys, e: Event)
    requires TapsOk(s)
    ensures MintsOk(Next(s, e))
  {
    if !e.Move? {
      RequestTapQuiet(s, e);
      QuietKeepsMints(s, Next(s, e));
    } else if e.i < |s.procs| {
      if IsTap(s.procs[e.i]) {
        TapMints(s, e.i, e.x);
      } else {
        NotATap(s, e.i, e.x);
        QuietKeepsMints(s, Next(s, e));
      }
    }
  }

  lemma {:induction false} RunKeepsTaps(s: Sys, es: seq<Event>)
    requires TapsOk(s) && Respects(s, es, AcceptedForward)
    ensures TapsOk(Run(s, es))
    decreases |es|
  {
    if es != [] {
      CountersKeptIff(s, es[0]);
      NextMints(s, es[0]);
      RunKeepsTaps(Next(s, es[0]), es[1..]);
    }
  }

  lemma ReachedTaps(es: seq<Event>, s: Sys)
    requires Respects(INIT, es, AcceptedForward) && s == Run(INIT, es)
    ensures TapsOk(s)
  {
    RunKeepsTaps(INIT, es);
  }

  /** The accepted tap behind a payment row. */
  function TapOf(s: Sys, pid: nat): Tap
    requires TapsOk(s) && pid < |s.notes|
  {
    s.taps[s.notes[pid].tap]
  }

  lemma TapsApart(s: Sys, a: nat, b: nat)
    requires TapsOk(s) && a < b < |s.notes|
    ensures (TapOf(s, a).card, TapOf(s, a).counter) != (TapOf(s, b).card, TapOf(s, b).counter)
  {
    var p, q := s.notes[a].tap, s.notes[b].tap;
    assert p != q;
    if p < q {
      assert s.taps[p].card == s.taps[q].card ==> s.taps[p].counter < s.taps[q].counter;
    } else {
      assert s.taps[q].card == s.taps[p].card ==> s.taps[q].counter < s.taps[p].counter;
    }
  }

  lemma StartsApart(s: Sys, i: nat, j: nat)
    requires TapsOk(s) && StartsOk(s)
    requires i < j < |s.log| && s.log[i].PayStarted? && s.log[j].PayStarted?
    ensures var a, b := s.log[i].pid, s.log[j].pid;
            && a < |s.notes| && b < |s.notes|
            && TapOf(s, a).card == s.db.payments[a].cardId
            && (TapOf(s, a).card, TapOf(s, a).counter) != (TapOf(s, b).card, TapOf(s, b).counter)
  {
    var a, b := s.log[i].pid, s.log[j].pid;
    assert a != b;
    if a < b { TapsApart(s, a, b); } else { TapsApart(s, b, a); }
  }

  /** When no binding stores a counter behind an accepted one, payments started are for different accepted taps. */
  lemma OneTapOnePayment(es: seq<Event>, s: Sys, i: nat, j: nat)
    requires Respects(INIT, es, AcceptedForward) && s == Run(INIT, es)
    requires i < j < |s.log| && s.log[i].PayStarted? && s.log[j].PayStarted?
    ensures var a, b := s.log[i].pid, s.log[j].pid;
            && TapsOk(s) && a < |s.notes| && b < |s.notes|
            && TapOf(s, a).card == s.db.payments[a].cardId
            && (TapOf(s, a).card, TapOf(s, a).counter) != (TapOf(s, b).card, TapOf(s, b).counter)
  {
    ReachedTaps(es, s);
    Reached(es, s);
    StartsApart(s, i, j);
  }

  /** A card's accepted counters strictly increase. */
  lemma CountersIncrease(es: seq<Event>, s: Sys, i: nat, j: nat)
    requires Respects(INIT, es, AcceptedForward) && s == Run(INIT, es)
    requires i < j < |s.taps| && s.taps[i].card == s.taps[j].card
    ensures s.taps[i].counter < s.taps[j].counter
  {
    ReachedTaps(es, s);
  }

  // ---------- k1 ----------

  predicate K1sOk(s: Sys) {
    forall j, k | 0 <= j < k < |s.db.payments| :: s.db.payments[j].k1 != s.db.payments[k].k1
  }

  /** The rows keep their k1, and at most one with a k1 of its own is added. */
  predicate K1sKept(rows: seq<Payment>, rows': seq<Payment>) {
    && |rows| <= |rows'| <= |rows| + 1 && (forall k | 0 <= k < |rows| :: rows'[k].k1 == rows[k].k1)
    && (|rows'| > |rows| ==> forall k | 0 <= k < |rows| :: rows[k].k1 != rows'[|rows|].k1)
  }

  lemma CallbackK1s(s: Sys, i: nat, x: Input)
    requires i < |s.procs|
    ensures K1sKept(s.db.payments, StepCallback(s, i, x).db.payments)
  {
  }

  lemma TapK1s(s: Sys, i: nat, x: Input)
    requires i < |s.procs|
    ensures K1sKept(s.db.payments, StepTap(s, i, x).db.payments)
  {
  }

  lemma OtherK1s(s: Sys, i: nat, x: Input)
    requires i < |s.procs|
    ensures K1sKept(s.db.payments, StepWait(s, i, x).db.payments)
    ensures K1sKept(s.db.payments, StepNode(s, i, x).db.payments)
  {
  }

  lemma KeptK1s(rows: seq<Payment>, rows': seq<Payment>)
    requires K1sKept(rows, rows') && forall j, k | 0 <= j < k < |rows| :: rows[j].k1 != rows[k].k1
    ensures forall j, k | 0 <= j < k < |rows'| :: rows'[j].k1 != rows'[k].k1
  {
  }

  lemma StepK1s(s: Sys, i: nat, x: Input)
    requires K1sOk(s) && i < |s.procs|
    ensures K1sOk(Step(s, i, x))
  {
    CallbackK1s(s, i, x);
    TapK1s(s, i, x);
    OtherK1s(s, i, x);
    KeptK1s(s.db.payments, Step(s, i, x).db.payments);
  }

  lemma NextK1s(s: Sys, e: Event)
    requires K1sOk(s)
    ensures K1sOk(Next(s, e))
  {
    if !e.Move? { RequestRows(s, e); } else if e.i < |s.procs| { StepK1s(s, e.i, e.x); }
  }

  lemma {:induction false} RunK1s(s: Sys, es: seq<Event>)
    requires K1sOk(s)
    ensures K1sOk(Run(s, es))
    decreases |es|
  {
    if es != [] {
      NextK1s(s, es[0]);
      RunK1s(Next(s, es[0]), es[1..]);
    }
  }

  lemma FindsItself(rows: seq<Payment>, pid: nat)
    requires forall j, k | 0 <= j < k < |rows| :: rows[j].k1 != rows[k].k1
    requires pid < |rows|
    ensures FindK1(rows, rows[pid].k1) == Some(pid)
  {
    assert FindK1(rows, rows[pid].k1).Some?;
  }

  /** k1 names its row, under every interleaving: presenting it finds that row and no other. */
  lemma K1NamesItsRow(es: seq<Event>, s: Sys, pid: nat)
    requires s == Run(INIT, es) && pid < |s.db.payments|
    ensures FindK1(s.db.payments, s.db.payments[pid].k1) == Some(pid)
  {
    RunK1s(INIT, es);
    FindsItself(s.db.payments, pid);
  }
}
