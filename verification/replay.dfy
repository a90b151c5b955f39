/**
 Concrete runs against two promises of one attempt only: a PIN tried twice on one tap by overlapping callbacks, and a
 tap accepted and paid twice because a binding stalled between its list and its update.
 */
module Replays {
  import opened Sums
  import opened Tables
  import opened System
  import opened OneTap
  import opened Pins
  import opened Witnesses

  // ---------- one PIN refused, the next accepted ----------

  /** A card that asks for its PIN at every payment. */
  const LOCKED := NewCard("card", Keys("", "", "", ""), true, 0, 0, false, true, PIN, 0)

  const WRONG := "0000"

  /** The first callback has its PIN refused. */
  function FirstRefused(s: Sys): Sys
    requires |s.db.payments| == 2
  {
    var t := Put(Invoiced(Overlapped(s), 0, 999), |s.procs|, CbRecorded(0, 999));
    Put(Log(t, PinRefused(0)), |s.procs|, CbWrongPin(0))
  }

  /** Its second attempt is claimed and paid. */
  function SecondPaid(s: Sys): Sys
    requires |s.db.payments| == |s.notes| == 2
  {
    var t := ClaimedRow(Invoiced(FirstRefused(s), 0, 999), LOCKED, 0, 999);
    Put(Log(t, PayStarted(0)), |s.procs| + 1, Paying(0, 999, Blank))
  }

  function RefusedStart(i: nat): seq<Event> {
    [Move(i, In(999, PIN, None))] + ([Move(i, In(999, WRONG, None))] + [])
  }

  /** The other callback goes from its invoice to the node, and only then does the first fail the payment. */
  function PinEvents(i: nat): seq<Event> {
    var b := Move(i + 1, In(999, PIN, None));
    ([b] + ([b] + ([b] + ([b] + ([Move(i + 1, Silent())] + []))))) + ([Move(i, Silent())] + [])
  }

  lemma RefuseStep(s: Sys, i: nat)
    requires Callable(s, LOCKED, 0) && i < |s.procs| && s.procs[i] == CbRecorded(0, 999)
    ensures var e := Move(i, In(999, WRONG, None));
            Next(s, e) == Put(Log(s, PinRefused(0)), i, CbWrongPin(0)) && Overlapping(s, e)
  {
  }

  lemma RefuseRun(s: Sys)
    requires Fresh(s, LOCKED)
    ensures Run(Overlapped(s), RefusedStart(|s.procs|)) == FirstRefused(s)
    ensures Respects(Overlapped(s), RefusedStart(|s.procs|), Overlapping)
  {
    var i, o := |s.procs|, Overlapped(s);
    var a, b := Move(i, In(999, PIN, None)), Move(i, In(999, WRONG, None));
    var t := Put(Invoiced(o, 0, 999), i, CbRecorded(0, 999));
    RecordStep(o, LOCKED, i, 0, 999);
    RefuseStep(t, i);
    OneMore(t, b, [], Overlapping);
    OneMore(o, a, [b] + [], Overlapping);
  }

  /** Fail_payment finds the row paid and leaves it. */
  lemma LateFail(s: Sys, i: nat)
    requires i < |s.procs| && s.procs[i] == CbWrongPin(0) && |s.db.payments| == 2 && s.db.payments[0].paid
    ensures Next(s, Move(i, Silent())) == Put(s, i, Done) && Overlapping(s, Move(i, Silent()))
  {
  }

  lemma SecondPays(s: Sys)
    requires Fresh(s, LOCKED)
    ensures var i, b := |s.procs|, Move(|s.procs| + 1, In(999, PIN, None));
            var es := [b] + ([b] + ([b] + ([b] + ([Move(i + 1, Silent())] + []))));
            Run(FirstRefused(s), es) == SecondPaid(s) && Respects(FirstRefused(s), es, Overlapping)
  {
    var i, r := |s.procs|, FirstRefused(s);
    var b := Move(i + 1, In(999, PIN, None));
    PennilessGrants(Invoiced(r, 0, 999).db, LOCKED, 0, 999);
    var s1, s2, s3, t := ClaimMoves(r, LOCKED, i + 1, 0, 999);
    PayStep(t, i + 1, 0, 999);
    assert r.procs[i + 1 := CbClaimed(0, 999, false)][i + 1 := Paying(0, 999, Blank)]
        == r.procs[i + 1 := Paying(0, 999, Blank)];
    RunFive(r, b, s1, b, s2, b, s3, b, t, Move(i + 1, Silent()), SecondPaid(s), Overlapping);
  }

  lemma PinRun(s: Sys)
    requires Fresh(s, LOCKED)
    ensures Run(FirstRefused(s), PinEvents(|s.procs|)) == Put(SecondPaid(s), |s.procs|, Done)
    ensures Respects(FirstRefused(s), PinEvents(|s.procs|), Overlapping)
  {
    var i, b, p := |s.procs|, Move(|s.procs| + 1, In(999, PIN, None)), SecondPaid(s);
    SecondPays(s);
    LateFail(p, i);
    OneMore(p, Move(i, Silent()), [], Overlapping);
    Chain(FirstRefused(s), [b] + ([b] + ([b] + ([b] + ([Move(i + 1, Silent())] + [])))), p,
          [Move(i, Silent())] + [], Put(p, i, Done), Overlapping);
  }

  /** One tap, a refused PIN, and a payment. */
  predicate TriedTwice(log: seq<Entry>) {
    |log| == 3 && log[0] == PinRefused(0) && log[1].Claimed? && log[1].pid == 0 && log[2] == PayStarted(0)
  }

  lemma {:induction false} NobodyStops(s: Sys, es: seq<Event>)
    requires Respects(s, es, NoOverlap) && Respects(s, es, Overlapping)
    ensures Respects(s, es, SpendsRefused)
    decreases |es|
  {
    if es != [] { NobodyStops(Next(s, es[0]), es[1..]); }
  }

  lemma TriedTwiceOverlaps(es: seq<Event>)
    requires Respects(INIT, es, Overlapping) && TriedTwice(Run(INIT, es).log)
    ensures !Respects(INIT, es, TriesOnce) && !Respects(INIT, es, NoOverlap)
  {
    if Respects(INIT, es, NoOverlap) {
      NobodyStops(INIT, es);
      NoOverlapTriesOnce(es);
    }
    if Respects(INIT, es, TriesOnce) { OneRefusalEndsTheTap(es, Run(INIT, es), 0, 2); }
  }

  lemma SecondTry(s: Sys) returns (es: seq<Event>)
    requires Fresh(s, LOCKED)
    ensures Respects(Overlapped(s), es, Overlapping) && TriedTwice(Run(Overlapped(s), es).log)
  {
    RefuseRun(s);
    PinRun(s);
    es := RefusedStart(|s.procs|) + PinEvents(|s.procs|);
    Chain(Overlapped(s), RefusedStart(|s.procs|), FirstRefused(s), PinEvents(|s.procs|),
          Put(SecondPaid(s), |s.procs|, Done), Overlapping);
  }

  /**
   A PIN can be tried more than once per tap: of two overlapping callbacks of one k1 the first comes with a wrong PIN
   and the second with the right one, and the second is authorised and paid before the first fails the payment. The
   invoices are the same, so the exact rule is kept and the amounts are safe.
   */
  lemma PinTriedTwice() returns (es: seq<Event>)
    ensures Respects(INIT, es, Overlapping) && !Respects(INIT, es, TriesOnce) && !Respects(INIT, es, NoOverlap)
    ensures TriedTwice(Run(INIT, es).log)
  {
    var fs, s := ReachOverlap(LOCKED);
    var gs := SecondTry(s);
    es := fs + gs;
    Chain(INIT, fs, Overlapped(s), gs, Run(Overlapped(s), gs), Overlapping);
    TriedTwiceOverlaps(es);
  }

  // ---------- a tap accepted twice ----------

  /** Process 0 has listed the blank card and not yet bound it; process 1 is another tap of the card. */
  function Stalled(p: Proc, counter: nat, uid: string): Sys {
    INIT.(db := EMPTY_DB.(cards := [FreshCard(PENNILESS).(uid := uid, counter := counter)]),
          procs := [TapBinding(UID, 1, 0), p])
  }

  function StallEvents(): seq<Event> {
    [ApiAdd(PENNILESS)] + ([TapCard(UID, 1)] + ([Move(0, In(0, "", None))] + ([Move(0, In(0, "", Some(0)))]
    + ([TapCard(UID, 2)] + []))))
  }

  function BindOther(): seq<Event> {
    [Move(1, In(0, "", None))] + ([Move(1, In(0, "", Some(0)))] + ([Move(1, In(0, "", None))] + []))
  }

  lemma Stall()
    ensures Run(INIT, StallEvents()) == Stalled(TapRead(UID, 2), 0, "") && Respects(INIT, StallEvents(), Steady)
  {
    var e, f, n := Move(0, In(0, "", None)), Move(0, In(0, "", Some(0))), PENNILESS;
    var s := Next(INIT, ApiAdd(n));
    assert s.db.cards == [FreshCard(n)];
    BindSteps(n, 1);
    RunFive(INIT, ApiAdd(n), s, TapCard(UID, 1), Added(n, TapRead(UID, 1)), e, Added(n, TapListing(UID, 1)), f,
            Added(n, TapBinding(UID, 1, 0)), TapCard(UID, 2), Stalled(TapRead(UID, 2), 0, ""), Steady);
  }

  lemma OtherCounts()
    ensures var e, f := Move(1, In(0, "", None)), Move(1, In(0, "", Some(0)));
            && Next(Stalled(TapRead(UID, 2), 0, ""), e) == Stalled(TapListing(UID, 2), 0, "")
            && Steady(Stalled(TapRead(UID, 2), 0, ""), e)
            && Next(Stalled(TapListing(UID, 2), 0, ""), f) == Stalled(TapBinding(UID, 2, 0), 0, "")
            && Steady(Stalled(TapListing(UID, 2), 0, ""), f)
  {
    assert LiveIds([FreshCard(PENNILESS)], UID) == {};
  }

  lemma OtherBinds()
    ensures var e := Move(1, In(0, "", None));
            && Next(Stalled(TapBinding(UID, 2, 0), 0, ""), e) == Stalled(TapBound(UID, 2, Some(0)), 2, UID)
            && Steady(Stalled(TapBinding(UID, 2, 0), 0, ""), e)
  {
  }

  /** The other tap has bound the card. */
  function OtherBound(): Sys {
    Stalled(TapBound(UID, 2, Some(0)), 2, UID)
  }

  lemma BindOtherRun()
    ensures Run(Stalled(TapRead(UID, 2), 0, ""), BindOther()) == OtherBound()
    ensures Respects(Stalled(TapRead(UID, 2), 0, ""), BindOther(), Steady)
  {
    var e, f := Move(1, In(0, "", None)), Move(1, In(0, "", Some(0)));
    OtherCounts();
    OtherBinds();
    OneMore(Stalled(TapBinding(UID, 2, 0), 0, ""), e, [], Steady);
    OneMore(Stalled(TapListing(UID, 2), 0, ""), f, [e] + [], Steady);
    OneMore(Stalled(TapRead(UID, 2), 0, ""), e, [f] + ([e] + []), Steady);
  }

  /** A third tap is accepted and mints a row; then the stalled binding comes and puts the counter back. */
  function PutBack(): Sys {
    var s := Minting(OtherBound(), 3, K1A);
    s.(db := s.db.(cards := [FreshCard(PENNILESS).(uid := UID, counter := 1)]),
       procs := s.procs[0 := TapBound(UID, 1, Some(0))])
  }

  lemma PutBackStep()
    ensures var s, e := Minting(OtherBound(), 3, K1A), Move(0, In(0, "", None));
            Next(s, e) == PutBack() && Steady(s, e)
  {
  }

  function ReplayEvents(): seq<Event> {
    MintEvents(2, 3, K1A) + ([Move(0, In(0, "", None))] + [])
  }

  lemma SteadyRun(s: Sys, es: seq<Event>)
    requires Respects(s, es, Strict)
    ensures Respects(s, es, Steady)
  {
    RespectsLess(s, es, Strict, Steady);
  }

  lemma PutBackRun()
    ensures Run(OtherBound(), ReplayEvents()) == PutBack() && Respects(OtherBound(), ReplayEvents(), Steady)
  {
    var s, e := OtherBound(), Move(0, In(0, "", None));
    Mint(s, PENNILESS, 3, K1A);
    SteadyRun(s, MintEvents(2, 3, K1A));
    PutBackStep();
    OneMore(Minting(s, 3, K1A), e, [], Steady);
    Chain(s, MintEvents(2, 3, K1A), Minting(s, 3, K1A), [e] + [], PutBack(), Steady);
  }

  /** The same tap once more: the same UID and the same counter. */
  lemma TapAgain()
    ensures Run(PutBack(), MintEvents(3, 3, K1B)) == Minting(PutBack(), 3, K1B)
    ensures Respects(PutBack(), MintEvents(3, 3, K1B), Steady)
  {
    assert PutBack().db.payments == [Row(K1A, false, 0)];
    Mint(PutBack(), PENNILESS, 3, K1B);
    SteadyRun(PutBack(), MintEvents(3, 3, K1B));
  }

  lemma MintedAgain()
    ensures var t := Minting(PutBack(), 3, K1B);
            && Fresh(t, PENNILESS) && t.taps == [Tap(0, 3, None), Tap(0, 3, None)]
            && t.notes[0].tap == 0 && t.notes[1].tap == 1
  {
  }

  /** Both rows are paid. */
  lemma PayBoth(s: Sys) returns (es: seq<Event>, t: Sys)
    requires Fresh(s, PENNILESS)
    ensures Run(s, es) == t && Respects(s, es, Strict)
    ensures t.taps == s.taps && |t.notes| == 2
            && t.notes[0].tap == s.notes[0].tap && t.notes[1].tap == s.notes[1].tap
    ensures |t.log| == 4 && t.log[2] == PayStarted(0) && t.log[3] == PayStarted(1)
  {
    var fs := ClaimBoth(s);
    var b := BothClaimed(s);
    BothClaimedRows(s);
    var i := |s.procs|;
    PayStep(b, i, 0, 999);
    var c := Put(Log(b, PayStarted(0)), i, Paying(0, 999, Blank));
    PayStep(c, i + 1, 1, 999);
    t := Put(Log(c, PayStarted(1)), i + 1, Paying(1, 999, Blank));
    OneMore(c, Move(i + 1, Silent()), [], Strict);
    OneMore(b, Move(i, Silent()), [Move(i + 1, Silent())] + [], Strict);
    es := fs + ([Move(i, Silent())] + ([Move(i + 1, Silent())] + []));
    Chain(s, fs, b, [Move(i, Silent())] + ([Move(i + 1, Silent())] + []), t, Strict);
  }

  /** Two payments started for two acceptances of one card and counter. */
  predicate PaidTwice(t: Sys) {
    && |t.log| == 4 && t.log[2] == PayStarted(0) && t.log[3] == PayStarted(1)
    && t.taps == [Tap(0, 3, None), Tap(0, 3, None)]
    && |t.notes| == 2 && t.notes[0].tap == 0 && t.notes[1].tap == 1
  }

  lemma PaidTwiceGoesBack(es: seq<Event>)
    requires PaidTwice(Run(INIT, es))
    ensures !Respects(INIT, es, AcceptedForward)
  {
    if Respects(INIT, es, AcceptedForward) { OneTapOnePayment(es, Run(INIT, es), 2, 3); }
  }

  lemma ReachPutBack() returns (es: seq<Event>)
    ensures Run(INIT, es) == PutBack() && Respects(INIT, es, Steady)
  {
    Stall();
    BindOtherRun();
    PutBackRun();
    var s := Stalled(TapRead(UID, 2), 0, "");
    Chain(INIT, StallEvents(), s, BindOther(), OtherBound(), Steady);
    es := (StallEvents() + BindOther()) + ReplayEvents();
    Chain(INIT, StallEvents() + BindOther(), OtherBound(), ReplayEvents(), PutBack(), Steady);
  }

  /**
   The update that binds a card asks nothing of the card, so a tap that stalls between its list and its update puts
   the counter back: the tap accepted in between is accepted again, and both its requests are paid. The other rules
   are kept.
   */
  lemma StalledBindingReplaysATap() returns (es: seq<Event>)
    ensures Respects(INIT, es, Steady) && !Respects(INIT, es, AcceptedForward)
    ensures PaidTwice(Run(INIT, es))
  {
    var fs := ReachPutBack();
    var s := Minting(PutBack(), 3, K1B);
    TapAgain();
    MintedAgain();
    Chain(INIT, fs, PutBack(), MintEvents(3, 3, K1B), s, Steady);
    var gs, t := PayBoth(s);
    SteadyRun(s, gs);
    es := (fs + MintEvents(3, 3, K1B)) + gs;
    Chain(INIT, fs + MintEvents(3, 3, K1B), s, gs, t, Steady);
    PaidTwiceGoesBack(es);
  }
}
