/**
 Concrete runs: the bounds are reached; an invoice that comes late breaks the day limit, in either order, and lets more
 be sent than the limit says; and a token can be answered after its payment has been sent.
 */
module Witnesses {
  import opened Sums
  import opened Tables
  import opened System
  import opened Amounts
  import opened Serial
  import opened Floors
  import opened DayLimits
  import opened Sent

  /** What the results on payments ask of a run, but for the rule on binding; and nobody stops. */
  predicate Steady(s: Sys, e: Event) {
    && NoOverlap(s, e) && !e.Stop? && Exact(s, e) && FinalStates(s, e) && LndOnly(s, e, 0)
    && FreshToken(s, e)
  }

  predicate Strict(s: Sys, e: Event) {
    Steady(s, e) && CleanBind(s, e)
  }

  /** What the floor asks of a run but its rule on amounts. */
  predicate Loose(s: Sys, e: Event) {
    FinalStates(s, e) && LndOnly(s, e, 0)
  }

  lemma StrictIsSound(s: Sys, es: seq<Event>)
    requires Respects(s, es, Strict)
    ensures Respects(s, es, FloorRule(0, false))
  {
    forall u, e ensures Strict(u, e) ==> FloorRule(0, false)(u, e) { RulesFollow(u, e, 0); }
    RespectsLess(s, es, Strict, FloorRule(0, false));
  }

  function In(msats: int, text: string, pick: Option<nat>): Input {
    Input(0, msats, text, pick, true, false, false, Blank, Unset)
  }

  lemma OneMore(s: Sys, e: Event, es: seq<Event>, rule: (Sys, Event) -> bool)
    ensures Run(s, [e] + es) == Run(Next(s, e), es)
    ensures Respects(s, [e] + es, rule) <==> rule(s, e) && Respects(Next(s, e), es, rule)
  {
    assert ([e] + es)[1..] == es;
  }

  lemma {:induction false} RespectsSplit(s: Sys, es: seq<Event>, fs: seq<Event>, rule: (Sys, Event) -> bool)
    ensures Respects(s, es + fs, rule) <==> Respects(s, es, rule) && Respects(Run(s, es), fs, rule)
    decreases |es|
  {
    if es == [] {
      assert es + fs == fs;
    } else {
      RespectsSplit(Next(s, es[0]), es[1..], fs, rule);
      assert (es + fs)[1..] == es[1..] + fs;
    }
  }

  /** Two runs that follow each other are a run. */
  lemma Chain(s: Sys, es: seq<Event>, t: Sys, fs: seq<Event>, u: Sys, rule: (Sys, Event) -> bool)
    requires t == Run(s, es) && u == Run(t, fs) && Respects(s, es, rule) && Respects(t, fs, rule)
    ensures Run(s, es + fs) == u && Respects(s, es + fs, rule)
  {
    RunSplit(s, es, fs);
    RespectsSplit(s, es, fs, rule);
  }

  /** A chain of steps as a run. */
  lemma RunFive(s0: Sys, e0: Event, s1: Sys, e1: Event, s2: Sys, e2: Event, s3: Sys, e3: Event, s4: Sys, e4: Event,
                s5: Sys, rule: (Sys, Event) -> bool)
    requires Next(s0, e0) == s1 && Next(s1, e1) == s2 && Next(s2, e2) == s3 && Next(s3, e3) == s4 && Next(s4, e4) == s5
    requires rule(s0, e0) && rule(s1, e1) && rule(s2, e2) && rule(s3, e3) && rule(s4, e4)
    ensures Run(s0, [e0] + ([e1] + ([e2] + ([e3] + ([e4] + []))))) == s5
    ensures Respects(s0, [e0] + ([e1] + ([e2] + ([e3] + ([e4] + [])))), rule)
  {
    OneMore(s4, e4, [], rule);
    OneMore(s3, e3, [e4] + [], rule);
    OneMore(s2, e2, [e3] + ([e4] + []), rule);
    OneMore(s1, e1, [e2] + ([e3] + ([e4] + [])), rule);
    OneMore(s0, e0, [e1] + ([e2] + ([e3] + ([e4] + []))), rule);
  }

  // ---------- a bound card with two unpaid withdraw requests ----------

  /** A card with no allowance at all: zero limits and no negative balance. */
  const PENNILESS := NewCard("card", Keys("", "", "", ""), true, 0, 0, false, false, "", 0)

  predicate Penniless(n: NewCard) {
    n.txLimitSats == 0 && n.dayLimitSats == 0 && !n.allowNegative
  }

  /** A card for 1000 sats a day, whatever its balance. */
  const TRUSTED := NewCard("card", Keys("", "", "", ""), true, 5000, 1000, true, false, "", 0)

  const UID := "04"
  const PIN := "1234"

  /** The card is enabled, and its PIN, if it asks for one, is the one these callbacks give. */
  predicate Plain(n: NewCard) {
    n.lnurlw && (n.pinEnabled ==> n.pin == PIN)
  }

  function Passed(n: NewCard): PinCheck {
    PinCheck(PIN, n.pinEnabled, n.pin, n.pinLimitSats)
  }

  function ClaimOf(n: NewCard, pid: nat, m: int): Entry {
    Claimed(pid, 0, m, 0, true, n.dayLimitSats, n.txLimitSats, Passed(n))
  }

  function MintEvents(i: nat, counter: nat, k1: string): seq<Event> {
    [TapCard(UID, counter)] + ([Move(i, In(0, "", None))] + ([Move(i, In(0, "", Some(0)))]
    + ([Move(i, In(0, "", None))] + ([Move(i, In(0, k1, None))] + []))))
  }

  function Row(k1: string, claimed: bool, msats: int): Payment {
    var p := Payment(0, k1, 0, None, false, None, Blank, 0, "N", None, "");
    if claimed then p.(amount := Some(msats), paid := true, payTime := Some(0)) else p
  }

  predicate Ready(s: Sys, n: NewCard) {
    && |s.db.cards| == 1 && s.db.cards[0] == FreshCard(n).(uid := UID, counter := s.db.cards[0].counter)
    && Plain(n) && |s.notes| == |s.db.payments|
    && forall i | 0 <= i < |s.procs| :: !PreClaim(s.procs[i]) && !s.procs[i].Paying? && !s.procs[i].Watching?
  }

  lemma ReadStep(s: Sys, counter: nat)
    ensures Next(s, TapCard(UID, counter)) == Spawn(s, TapRead(UID, counter))
    ensures Strict(s, TapCard(UID, counter))
  {
  }

  lemma CountStep(s: Sys, n: NewCard, counter: nat)
    requires Ready(s, n)
    ensures var e := Move(|s.procs|, In(0, "", None));
            && Next(Spawn(s, TapRead(UID, counter)), e) == Spawn(s, TapBound(UID, counter, None))
            && Strict(Spawn(s, TapRead(UID, counter)), e)
  {
    assert LiveIds(s.db.cards, UID) == {0};
  }

  lemma FindStep(s: Sys, n: NewCard, counter: nat)
    requires Ready(s, n)
    ensures var e := Move(|s.procs|, In(0, "", Some(0)));
            && Next(Spawn(s, TapBound(UID, counter, None)), e) == Spawn(s, TapFound(0, counter, None))
            && Strict(Spawn(s, TapBound(UID, counter, None)), e)
  {
  }

  function AcceptedCounter(s: Sys, counter: nat): Sys
    requires |s.db.cards| == 1
  {
    s.(db := s.db.(cards := [s.db.cards[0].(counter := counter)]), taps := s.taps + [Tap(0, counter, None)])
  }

  lemma AcceptStep(s: Sys, n: NewCard, counter: nat)
    requires Ready(s, n) && s.db.cards[0].counter < counter
    ensures var e := Move(|s.procs|, In(0, "", None));
            && Next(Spawn(s, TapFound(0, counter, None)), e)
               == Spawn(AcceptedCounter(s, counter), TapAccepted(0, |s.taps|))
            && Strict(Spawn(s, TapFound(0, counter, None)), e)
  {
  }

  function MintedRow(s: Sys, tap: nat, k1: string): Sys {
    s.(db := s.db.(payments := s.db.payments + [Row(k1, false, 0)]), notes := s.notes + [Note(tap, None)])
  }

  lemma MintStep(s: Sys, n: NewCard, tap: nat, k1: string)
    requires Ready(s, n) && FindK1(s.db.payments, k1).None?
    ensures var e := Move(|s.procs|, In(0, k1, None));
            && Next(Spawn(s, TapAccepted(0, tap)), e) == Spawn(MintedRow(s, tap, k1), Done)
            && Strict(Spawn(s, TapAccepted(0, tap)), e)
  {
  }

  lemma Mint(s: Sys, n: NewCard, counter: nat, k1: string)
    requires Ready(s, n) && s.db.cards[0].counter < counter && FindK1(s.db.payments, k1).None?
    ensures Run(s, MintEvents(|s.procs|, counter, k1)) == Minting(s, counter, k1)
    ensures Respects(s, MintEvents(|s.procs|, counter, k1), Strict)
  {
    var i, a := |s.procs|, AcceptedCounter(s, counter);
    ReadStep(s, counter);
    CountStep(s, n, counter);
    FindStep(s, n, counter);
    AcceptStep(s, n, counter);
    MintStep(a, n, |s.taps|, k1);
    RunFive(s, TapCard(UID, counter),
            Spawn(s, TapRead(UID, counter)), Move(i, In(0, "", None)),
            Spawn(s, TapBound(UID, counter, None)), Move(i, In(0, "", Some(0))),
            Spawn(s, TapFound(0, counter, None)), Move(i, In(0, "", None)),
            Spawn(a, TapAccepted(0, |s.taps|)), Move(i, In(0, k1, None)),
            Spawn(MintedRow(a, |s.taps|, k1), Done), Strict);
  }

  function BindEvents(n: NewCard): seq<Event> {
    [ApiAdd(n)] + ([TapCard(UID, 1)] + ([Move(0, In(0, "", None))] + ([Move(0, In(0, "", Some(0)))]
    + ([Move(0, In(0, "", None))] + []))))
  }

  /** The card as it is added, and process 0 on its way to binding it. */
  function Added(n: NewCard, p: Proc): Sys {
    INIT.(db := EMPTY_DB.(cards := [FreshCard(n)]), procs := [p])
  }

  lemma BindSteps(n: NewCard, counter: nat)
    ensures var e, f := Move(0, In(0, "", None)), Move(0, In(0, "", Some(0)));
            && Next(Added(n, TapRead(UID, counter)), e) == Added(n, TapListing(UID, counter))
            && Strict(Added(n, TapRead(UID, counter)), e)
            && Next(Added(n, TapListing(UID, counter)), f) == Added(n, TapBinding(UID, counter, 0))
            && Strict(Added(n, TapListing(UID, counter)), f)
  {
    assert LiveIds([FreshCard(n)], UID) == {};
  }

  lemma BindLast(n: NewCard)
    requires Plain(n)
    ensures var s, e := Added(n, TapBinding(UID, 1, 0)), Move(0, In(0, "", None));
            && Strict(s, e)
            && Next(s, e) == Added(n, TapBound(UID, 1, Some(0))).(
                             db := EMPTY_DB.(cards := [FreshCard(n).(uid := UID, counter := 1)]))
  {
    assert LiveIds([FreshCard(n)], UID) == {};
  }

  lemma Bind(n: NewCard)
    requires Plain(n)
    ensures var t := Run(INIT, BindEvents(n));
            && Ready(t, n) && t.db.cards[0].counter == 1
            && t.db.payments == [] && t.db.receipts == [] && t.log == [] && |t.procs| == 1 && t.taps == []
    ensures Respects(INIT, BindEvents(n), Strict)
  {
    var e, f, s := Move(0, In(0, "", None)), Move(0, In(0, "", Some(0))), Next(INIT, ApiAdd(n));
    assert s.db.cards == [FreshCard(n)];
    BindSteps(n, 1);
    BindLast(n);
    RunFive(INIT, ApiAdd(n), s, TapCard(UID, 1), Added(n, TapRead(UID, 1)), e, Added(n, TapListing(UID, 1)), f,
            Added(n, TapBinding(UID, 1, 0)), e, Next(Added(n, TapBinding(UID, 1, 0)), e), Strict);
  }

  const K1A := "a"
  const K1B := "bb"

  function MintBoth(i: nat, a: nat, k: string, b: nat, l: string): seq<Event> {
    MintEvents(i, a, k) + MintEvents(i + 1, b, l)
  }

  function MintedEvents(n: NewCard): seq<Event> {
    BindEvents(n) + MintBoth(1, 2, K1A, 3, K1B)
  }

  function Minting(s: Sys, counter: nat, k1: string): Sys
    requires |s.db.cards| == 1
  {
    Spawn(MintedRow(AcceptedCounter(s, counter), |s.taps|, k1), Done)
  }

  lemma MintingKeeps(s: Sys, n: NewCard, counter: nat, k1: string)
    requires Ready(s, n)
    ensures var t := Minting(s, counter, k1);
            && Ready(t, n) && t.db.cards[0].counter == counter && |t.procs| == |s.procs| + 1
            && t.db.payments == s.db.payments + [Row(k1, false, 0)]
            && t.db.receipts == s.db.receipts && t.log == s.log
  {
  }

  lemma MintSecond(s: Sys, n: NewCard, a: nat, k: string, b: nat, l: string)
    requires Ready(s, n) && s.db.payments == [] && a < b && k != l
    ensures var t := Minting(s, a, k);
            && Run(t, MintEvents(|s.procs| + 1, b, l)) == Minting(t, b, l)
            && Respects(t, MintEvents(|s.procs| + 1, b, l), Strict)
  {
    var t := Minting(s, a, k);
    MintingKeeps(s, n, a, k);
    assert t.db.payments == [Row(k, false, 0)];
    Mint(t, n, b, l);
  }

  lemma MintTwo(s: Sys, n: NewCard, i: nat, a: nat, k: string, b: nat, l: string)
    requires Ready(s, n) && s.db.payments == [] && s.db.cards[0].counter < a < b && |s.procs| == i && k != l
    ensures Run(s, MintBoth(i, a, k, b, l)) == Minting(Minting(s, a, k), b, l)
    ensures Respects(s, MintBoth(i, a, k, b, l), Strict)
  {
    Mint(s, n, a, k);
    MintSecond(s, n, a, k, b, l);
    Chain(s, MintEvents(i, a, k), Minting(s, a, k), MintEvents(i + 1, b, l), Minting(Minting(s, a, k), b, l), Strict);
  }

  /** The card is bound and both requests are minted; nothing has been claimed. */
  predicate Fresh(s: Sys, n: NewCard) {
    && Ready(s, n) && s.db.payments == [Row(K1A, false, 0), Row(K1B, false, 0)]
    && s.db.receipts == [] && s.log == []
  }

  lemma Minted(n: NewCard)
    requires Plain(n)
    ensures Fresh(Run(INIT, MintedEvents(n)), n)
    ensures Respects(INIT, MintedEvents(n), Strict)
  {
    Bind(n);
    var s := Run(INIT, BindEvents(n));
    var fs, t := MintBoth(1, 2, K1A, 3, K1B), Minting(s, 2, K1A);
    MintTwo(s, n, 1, 2, K1A, 3, K1B);
    MintingKeeps(s, n, 2, K1A);
    MintingKeeps(t, n, 3, K1B);
    Chain(INIT, BindEvents(n), s, fs, Minting(t, 3, K1B), Strict);
  }

  lemma FreshFinds(s: Sys, n: NewCard)
    requires Fresh(s, n)
    ensures FindK1(s.db.payments, K1A) == Some(0) && FindK1(s.db.payments, K1B) == Some(1)
  {
    assert s.db.payments[..1] == [s.db.payments[0]];
  }

  // ---------- the steps of a callback ----------

  function ClaimEvents(i: nat, k1: string, m: int): seq<Event> {
    var e := Move(i, In(m, PIN, None));
    [Present(k1)] + ([e] + ([e] + ([e] + ([e] + ([e] + [])))))
  }

  /** The row a callback of these runs works on. */
  predicate Callable(s: Sys, n: NewCard, pid: nat) {
    && |s.db.cards| == 1 && |s.notes| == |s.db.payments| && Plain(n)
    && s.db.cards[0] == FreshCard(n).(uid := UID, counter := s.db.cards[0].counter)
    && pid < |s.db.payments| && s.db.payments[pid].cardId == 0 && s.db.payments[pid].requestTime == 0
  }

  function SetRow(s: Sys, pid: nat, p: Payment): Sys
    requires pid < |s.db.payments|
  {
    s.(db := s.db.(payments := s.db.payments[pid := p]))
  }

  function Invoiced(s: Sys, pid: nat, m: int): Sys
    requires pid < |s.db.payments|
  {
    SetRow(s, pid, s.db.payments[pid].(amount := Some(m)))
  }

  function ClaimedRow(s: Sys, n: NewCard, pid: nat, m: int): Sys
    requires pid < |s.db.payments| == |s.notes|
  {
    SetRow(s, pid, s.db.payments[pid].(paid := true, payTime := Some(0))).(
      notes := s.notes[pid := s.notes[pid].(claim := Some(|s.log|))],
      log := s.log + [ClaimOf(n, pid, m)])
  }

  /** The step of the process at position i, under every rule. */
  predicate Goes(s: Sys, i: nat, m: int, t: Sys) {
    var e := Move(i, In(m, PIN, None));
    Next(s, e) == t && Strict(s, e)
  }

  lemma FoundStep(s: Sys, k1: string, pid: nat)
    requires FindK1(s.db.payments, k1) == Some(pid) && !s.db.payments[pid].paid
    ensures Next(s, Present(k1)) == Spawn(s, CbFound(pid)) && Loose(s, Present(k1)) && Exact(s, Present(k1))
    ensures (forall i | 0 <= i < |s.procs| :: !PreClaim(s.procs[i])) ==> Strict(s, Present(k1))
  {
  }

  lemma InTimeStep(s: Sys, n: NewCard, i: nat, pid: nat, m: int)
    requires Callable(s, n, pid) && i < |s.procs| && s.procs[i] == CbFound(pid)
    ensures Goes(s, i, m, Put(s, i, CbInTime(pid)))
  {
  }

  lemma RecordStep(s: Sys, n: NewCard, i: nat, pid: nat, m: int)
    requires Callable(s, n, pid) && i < |s.procs| && s.procs[i] == CbInTime(pid) && m > 0
    ensures var e := Move(i, In(m, PIN, None));
            && Next(s, e) == Put(Invoiced(s, pid, m), i, CbRecorded(pid, m)) && Loose(s, e)
            && (s.db.payments[pid].payTime.None? ==> Strict(s, e))
            && (Msats(s.db.payments[pid]) >= m ==> SoundOn(s, e, 0))
  {
  }

  lemma ReadyStep(s: Sys, n: NewCard, i: nat, pid: nat, m: int)
    requires Callable(s, n, pid) && i < |s.procs| && s.procs[i] == CbRecorded(pid, m)
    ensures Goes(s, i, m, Put(s, i, CbReady(pid, m, Passed(n))))
  {
  }

  lemma RouteStep(s: Sys, n: NewCard, i: nat, pid: nat, m: int)
    requires Callable(s, n, pid) && i < |s.procs| && s.procs[i] == CbReady(pid, m, Passed(n))
    ensures Goes(s, i, m, Put(s, i, CbRouted(pid, m, false, Passed(n))))
  {
  }

  predicate Grants(db: Db, pid: nat, m: int) {
    Judge(db, pid, TruncDiv(m, 1000), true, 0).Granted?
  }

  lemma ClaimStep(s: Sys, n: NewCard, i: nat, pid: nat, m: int)
    requires Callable(s, n, pid) && i < |s.procs| && s.procs[i] == CbRouted(pid, m, false, Passed(n))
    requires Grants(s.db, pid, m)
    ensures var e := Move(i, In(m, PIN, None));
            && Next(s, e) == Put(ClaimedRow(s, n, pid, m), i, CbClaimed(pid, m, false)) && Loose(s, e)
            && (s.db.payments[pid].amount == Some(m) ==> Strict(s, e))
  {
  }

  /** A callback that has found its row in time goes on to claim it, with nobody in between. */
  lemma ClaimMoves(s: Sys, n: NewCard, i: nat, pid: nat, m: int) returns (s1: Sys, s2: Sys, s3: Sys, t: Sys)
    requires Callable(s, n, pid) && i < |s.procs| && s.procs[i] == CbInTime(pid) && m > 0
    requires !s.db.payments[pid].paid && s.db.payments[pid].payTime.None? && Grants(Invoiced(s, pid, m).db, pid, m)
    ensures Goes(s, i, m, s1) && Goes(s1, i, m, s2) && Goes(s2, i, m, s3) && Goes(s3, i, m, t)
    ensures t == Put(ClaimedRow(Invoiced(s, pid, m), n, pid, m), i, CbClaimed(pid, m, false))
  {
    var a := Invoiced(s, pid, m);
    s1 := Put(a, i, CbRecorded(pid, m));
    RecordStep(s, n, i, pid, m);
    s2 := Put(s1, i, CbReady(pid, m, Passed(n)));
    ReadyStep(s1, n, i, pid, m);
    s3 := Put(s2, i, CbRouted(pid, m, false, Passed(n)));
    RouteStep(s2, n, i, pid, m);
    ClaimStep(s3, n, i, pid, m);
    t := Put(ClaimedRow(s3, n, pid, m), i, CbClaimed(pid, m, false));
    assert s.procs[i := CbRecorded(pid, m)][i := CbReady(pid, m, Passed(n))][i := CbRouted(pid, m, false, Passed(n))]
           [i := CbClaimed(pid, m, false)] == s.procs[i := CbClaimed(pid, m, false)];
  }

  /** The callback's steps once it has found its row. */
  lemma FoundRun(s: Sys, n: NewCard, pid: nat, m: int)
    requires Callable(s, n, pid) && !s.db.payments[pid].paid && s.db.payments[pid].payTime.None?
    requires m > 0 && Grants(Invoiced(s, pid, m).db, pid, m)
    ensures var e := Move(|s.procs|, In(m, PIN, None));
            var es := [e] + ([e] + ([e] + ([e] + ([e] + []))));
            && Run(Spawn(s, CbFound(pid)), es)
               == Spawn(ClaimedRow(Invoiced(s, pid, m), n, pid, m), CbClaimed(pid, m, false))
            && Respects(Spawn(s, CbFound(pid)), es, Strict)
  {
    var i := |s.procs|;
    var b, e := Spawn(s, CbFound(pid)), Move(i, In(m, PIN, None));
    InTimeStep(b, n, i, pid, m);
    var c := Put(b, i, CbInTime(pid));
    assert c.procs == s.procs + [CbInTime(pid)];
    var s1, s2, s3, t := ClaimMoves(c, n, i, pid, m);
    assert t.procs == s.procs + [CbClaimed(pid, m, false)];
    RunFive(b, e, c, e, s1, e, s2, e, s3, e, t, Strict);
  }

  lemma ClaimRun(s: Sys, n: NewCard, k1: string, pid: nat, m: int)
    requires Ready(s, n) && FindK1(s.db.payments, k1) == Some(pid) && s.db.payments[pid] == Row(k1, false, 0)
    requires m > 0 && Grants(Invoiced(s, pid, m).db, pid, m)
    ensures Run(s, ClaimEvents(|s.procs|, k1, m))
            == Spawn(ClaimedRow(Invoiced(s, pid, m), n, pid, m), CbClaimed(pid, m, false))
    ensures Respects(s, ClaimEvents(|s.procs|, k1, m), Strict)
  {
    var e := Move(|s.procs|, In(m, PIN, None));
    FoundStep(s, k1, pid);
    FoundRun(s, n, pid, m);
    OneMore(s, Present(k1), [e] + ([e] + ([e] + ([e] + ([e] + [])))), Strict);
  }

  lemma TwoRows(rows: seq<Payment>, w: (nat, Payment) -> int)
    requires |rows| == 2
    ensures Sum(rows, w) == w(0, rows[0]) + w(1, rows[1])
  {
    SumAppend([], rows[0], w);
    SumAppend([rows[0]], rows[1], w);
    assert [] + [rows[0]] == [rows[0]] && rows == [rows[0]] + [rows[1]];
  }

  /** Less than a satoshi is granted to a penniless card that owes less than a satoshi. */
  lemma PennilessGrants(db: Db, n: NewCard, pid: nat, m: int)
    requires |db.cards| == 1 && |db.payments| == 2 && db.receipts == [] && pid < 2 && 0 < m < 1000
    requires Penniless(n) && db.cards[0] == FreshCard(n).(uid := UID, counter := db.cards[0].counter)
    requires db.payments[pid].cardId == 0 && !db.payments[pid].paid && db.payments[pid].status == Blank
    requires var q := db.payments[1 - pid];
             q.status == Blank && (q.paid ==> q.payTime == Some(0) && 0 <= Msats(q) < 1000)
    ensures Grants(db, pid, m)
  {
    TwoRows(db.payments, DayWeight(0, -DAY));
    TwoRows(db.payments, DebitWeight(0));
    assert Balance(db, 0) == Sum(db.payments, DebitWeight(0));
  }

  // ---------- the bounds are reached ----------

  function BothClaimed(s: Sys): Sys
    requires |s.db.payments| == |s.notes| == 2
  {
    var t := Spawn(ClaimedRow(Invoiced(s, 0, 999), PENNILESS, 0, 999), CbClaimed(0, 999, false));
    Spawn(ClaimedRow(Invoiced(t, 1, 999), PENNILESS, 1, 999), CbClaimed(1, 999, false))
  }

  /** Both requests claimed one after the other. */
  lemma ClaimBoth(s: Sys) returns (es: seq<Event>)
    requires Fresh(s, PENNILESS)
    ensures Respects(s, es, Strict) && Run(s, es) == BothClaimed(s)
  {
    FreshFinds(s, PENNILESS);
    PennilessGrants(Invoiced(s, 0, 999).db, PENNILESS, 0, 999);
    ClaimRun(s, PENNILESS, K1A, 0, 999);
    var fs := ClaimEvents(|s.procs|, K1A, 999);
    var t := Spawn(ClaimedRow(Invoiced(s, 0, 999), PENNILESS, 0, 999), CbClaimed(0, 999, false));
    PennilessGrants(Invoiced(t, 1, 999).db, PENNILESS, 1, 999);
    ClaimRun(t, PENNILESS, K1B, 1, 999);
    var gs := ClaimEvents(|t.procs|, K1B, 999);
    es := fs + gs;
    Chain(s, fs, t, gs, BothClaimed(s), Strict);
  }

  lemma BothClaimedRows(s: Sys)
    requires Fresh(s, PENNILESS)
    ensures var t := BothClaimed(s);
            && t.db == s.db.(payments := [Row(K1A, true, 999), Row(K1B, true, 999)])
            && t.log == [ClaimOf(PENNILESS, 0, 999)] + [ClaimOf(PENNILESS, 1, 999)]
            && t.procs == s.procs + [CbClaimed(0, 999, false)] + [CbClaimed(1, 999, false)]
            && t.taps == s.taps && |t.notes| == 2
            && t.notes[0].tap == s.notes[0].tap && t.notes[1].tap == s.notes[1].tap
  {
  }

  /** Two payments of 999 msat from a card with no money and no allowance: both bounds hold with equality. */
  lemma BoundsAreReached() returns (es: seq<Event>)
    ensures Respects(INIT, es, Strict) && Respects(INIT, es, FloorRule(0, false))
    ensures var s := Run(INIT, es);
            && |s.db.cards| == 1 && !s.db.cards[0].allowNegative && Balance(s.db, 0) == -1998
            && |s.log| == 2 && InWindow(s.log[1], 0, 0) && s.log[1].checked
            && Sum(s.db.payments, WindowWeight(0, 0)) == 1000 * s.log[1].dayLimit + 1998
  {
    Minted(PENNILESS);
    var s := Run(INIT, MintedEvents(PENNILESS));
    var fs := ClaimBoth(s);
    BothClaimedRows(s);
    es := MintedEvents(PENNILESS) + fs;
    var t := Run(s, fs);
    Chain(INIT, MintedEvents(PENNILESS), s, fs, t, Strict);
    StrictIsSound(INIT, es);
    TwoRows(t.db.payments, WindowWeight(0, 0));
    TwoRows(t.db.payments, DebitWeight(0));
  }

  // ---------- two callbacks on one request ----------

  /** s with two more processes at the same point. */
  function Twice(s: Sys, p: Proc): Sys {
    s.(procs := s.procs + [p] + [p])
  }

  /** Both callbacks find the row unpaid and in time. */
  function Overlapped(s: Sys): Sys {
    Twice(s, CbInTime(0))
  }

  /** The rule of these runs: exact so far, loose in that the callbacks overlap, and nobody stops. */
  predicate Overlapping(s: Sys, e: Event) {
    Loose(s, e) && Exact(s, e) && !e.Stop?
  }

  function InTimeBoth(i: nat): seq<Event> {
    [Move(i, In(999, PIN, None))] + ([Move(i + 1, In(999, PIN, None))] + [])
  }

  function OverlapStart(i: nat): seq<Event> {
    ([Present(K1A)] + ([Present(K1A)] + [])) + InTimeBoth(i)
  }

  lemma BothFound(s: Sys, n: NewCard)
    requires Fresh(s, n)
    ensures var es := [Present(K1A)] + ([Present(K1A)] + []);
            Run(s, es) == Twice(s, CbFound(0)) && Respects(s, es, Overlapping)
  {
    FreshFinds(s, n);
    FoundStep(s, K1A, 0);
    var t := Spawn(s, CbFound(0));
    FoundStep(t, K1A, 0);
    OneMore(t, Present(K1A), [], Overlapping);
    OneMore(s, Present(K1A), [Present(K1A)] + [], Overlapping);
  }

  lemma BothInTime(s: Sys, n: NewCard)
    requires Callable(s, n, 0)
    ensures Run(Twice(s, CbFound(0)), InTimeBoth(|s.procs|)) == Overlapped(s)
    ensures Respects(Twice(s, CbFound(0)), InTimeBoth(|s.procs|), Overlapping)
  {
    var i, t := |s.procs|, Twice(s, CbFound(0));
    var a, b := Move(i, In(999, PIN, None)), Move(i + 1, In(999, PIN, None));
    InTimeStep(t, n, i, 0, 999);
    var u := Put(t, i, CbInTime(0));
    InTimeStep(u, n, i + 1, 0, 999);
    OneMore(u, b, [], Overlapping);
    OneMore(t, a, [b] + [], Overlapping);
    assert Put(u, i + 1, CbInTime(0)).procs == Overlapped(s).procs;
  }

  lemma StartOverlap(s: Sys, n: NewCard)
    requires Fresh(s, n)
    ensures Run(s, OverlapStart(|s.procs|)) == Overlapped(s)
    ensures Respects(s, OverlapStart(|s.procs|), Overlapping)
  {
    BothFound(s, n);
    BothInTime(s, n);
    Chain(s, [Present(K1A)] + ([Present(K1A)] + []), Twice(s, CbFound(0)), InTimeBoth(|s.procs|), Overlapped(s),
          Overlapping);
  }

  /** From the first event on: the card is bound, both requests are minted, and two callbacks are on the first. */
  lemma ReachOverlap(n: NewCard) returns (es: seq<Event>, s: Sys)
    requires Plain(n)
    ensures Fresh(s, n) && Run(INIT, es) == Overlapped(s) && Respects(INIT, es, Overlapping)
  {
    Minted(n);
    s := Run(INIT, MintedEvents(n));
    StartOverlap(s, n);
    RespectsLess(INIT, MintedEvents(n), Strict, Overlapping);
    es := MintedEvents(n) + OverlapStart(|s.procs|);
    Chain(INIT, MintedEvents(n), s, OverlapStart(|s.procs|), Overlapped(s), Overlapping);
  }

  /** The window records 5000 sats for a card with a day limit of zero. */
  predicate BrokenWindow(t: Sys) {
    && |t.log| == 1 && InWindow(t.log[0], 0, 0) && t.log[0].checked && t.log[0].dayLimit == 0
    && Sum(t.db.payments, WindowWeight(0, 0)) == 5_000_000
  }

  lemma BrokenRows(t: Sys)
    requires t.db.payments == [Row(K1A, true, 5_000_000), Row(K1B, false, 0)]
    requires t.log == [ClaimOf(PENNILESS, 0, 999)]
    ensures BrokenWindow(t)
  {
    TwoRows(t.db.payments, WindowWeight(0, 0));
  }

  lemma BrokenIsUnsound(es: seq<Event>)
    requires BrokenWindow(Run(INIT, es))
    ensures !Respects(INIT, es, SoundFor(0)) && !Respects(INIT, es, NoOverlap)
  {
    var t := Run(INIT, es);
    if Respects(INIT, es, NoOverlap) {
      NoOverlapRules(es, 0);
    }
    if Respects(INIT, es, SoundFor(0)) { DayLimit(es, t, 0, 0, 0); }
  }

  function LateInvoice(i: nat): seq<Event> {
    var a, b := Move(i, In(999, PIN, None)), Move(i + 1, In(5_000_000, PIN, None));
    [a] + ([a] + ([a] + ([a] + ([b] + []))))
  }

  function LateEnd(s: Sys): Sys
    requires |s.db.payments| == |s.notes| == 2
  {
    var t := Put(ClaimedRow(Invoiced(Overlapped(s), 0, 999), PENNILESS, 0, 999), |s.procs|, CbClaimed(0, 999, false));
    Put(Invoiced(t, 0, 5_000_000), |s.procs| + 1, CbRecorded(0, 5_000_000))
  }

  lemma LateInvoiceRun(s: Sys)
    requires Fresh(s, PENNILESS)
    ensures Run(Overlapped(s), LateInvoice(|s.procs|)) == LateEnd(s)
    ensures Respects(Overlapped(s), LateInvoice(|s.procs|), Loose)
  {
    var i, o := |s.procs|, Overlapped(s);
    var a, b := Move(i, In(999, PIN, None)), Move(i + 1, In(5_000_000, PIN, None));
    PennilessGrants(Invoiced(o, 0, 999).db, PENNILESS, 0, 999);
    var s1, s2, s3, t := ClaimMoves(o, PENNILESS, i, 0, 999);
    RecordStep(t, PENNILESS, i + 1, 0, 5_000_000);
    RunFive(o, a, s1, a, s2, a, s3, a, t, b, LateEnd(s), Loose);
  }

  /**
   Two callbacks on one k1 that overlap: the second writes its invoice over the row the first has claimed, so the
   window records 5000 sats for a card with a day limit of zero. Everything else is as the day limit asks.
   */
  lemma OverlapBreaksTheDayLimit() returns (es: seq<Event>)
    ensures Respects(INIT, es, Loose) && !Respects(INIT, es, SoundFor(0)) && !Respects(INIT, es, NoOverlap)
    ensures BrokenWindow(Run(INIT, es))
  {
    var fs, s := ReachOverlap(PENNILESS);
    RespectsLess(INIT, fs, Overlapping, Loose);
    LateInvoiceRun(s);
    var gs := LateInvoice(|s.procs|);
    es := fs + gs;
    Chain(INIT, fs, Overlapped(s), gs, LateEnd(s), Loose);
    BrokenRows(LateEnd(s));
    BrokenIsUnsound(es);
  }

  function StaleClaim(i: nat): seq<Event> {
    var a, b := Move(i, In(999, PIN, None)), Move(i + 1, In(5_000_000, PIN, None));
    [a] + ([b] + ([a] + ([a] + ([a] + []))))
  }

  /** The first callback's invoice is recorded, then the second's. */
  function StaleFirst(s: Sys): Sys
    requires |s.db.payments| == 2
  {
    Put(Invoiced(Overlapped(s), 0, 999), |s.procs|, CbRecorded(0, 999))
  }

  function StaleBoth(s: Sys): Sys
    requires |s.db.payments| == 2
  {
    Put(Invoiced(StaleFirst(s), 0, 5_000_000), |s.procs| + 1, CbRecorded(0, 5_000_000))
  }

  function StaleReady(s: Sys): Sys
    requires |s.db.payments| == 2
  {
    Put(StaleBoth(s), |s.procs|, CbReady(0, 999, Passed(PENNILESS)))
  }

  /** The first callback has been routed. */
  function StaleRouted(s: Sys): Sys
    requires |s.db.payments| == 2
  {
    Put(StaleReady(s), |s.procs|, CbRouted(0, 999, false, Passed(PENNILESS)))
  }

  function StaleEnd(s: Sys): Sys
    requires |s.db.payments| == |s.notes| == 2
  {
    Put(ClaimedRow(StaleRouted(s), PENNILESS, 0, 999), |s.procs|, CbClaimed(0, 999, false))
  }

  predicate LooseStep(s: Sys, i: nat, m: int, t: Sys) {
    Next(s, Move(i, In(m, PIN, None))) == t && Loose(s, Move(i, In(m, PIN, None)))
  }

  lemma StaleRecords(s: Sys)
    requires Fresh(s, PENNILESS)
    ensures LooseStep(Overlapped(s), |s.procs|, 999, StaleFirst(s))
    ensures LooseStep(StaleFirst(s), |s.procs| + 1, 5_000_000, StaleBoth(s))
  {
    RecordStep(Overlapped(s), PENNILESS, |s.procs|, 0, 999);
    RecordStep(StaleFirst(s), PENNILESS, |s.procs| + 1, 0, 5_000_000);
  }

  lemma StaleRoutes(s: Sys)
    requires Fresh(s, PENNILESS)
    ensures LooseStep(StaleBoth(s), |s.procs|, 999, StaleReady(s))
    ensures LooseStep(StaleReady(s), |s.procs|, 999, StaleRouted(s))
  {
    ReadyStep(StaleBoth(s), PENNILESS, |s.procs|, 0, 999);
    RouteStep(StaleReady(s), PENNILESS, |s.procs|, 0, 999);
  }

  lemma StaleClaims(s: Sys)
    requires Fresh(s, PENNILESS)
    ensures LooseStep(StaleRouted(s), |s.procs|, 999, StaleEnd(s))
  {
    PennilessGrants(StaleRouted(s).db, PENNILESS, 0, 999);
    ClaimStep(StaleRouted(s), PENNILESS, |s.procs|, 0, 999);
  }

  lemma StaleClaimRun(s: Sys)
    requires Fresh(s, PENNILESS)
    ensures Run(Overlapped(s), StaleClaim(|s.procs|)) == StaleEnd(s)
    ensures Respects(Overlapped(s), StaleClaim(|s.procs|), Loose)
  {
    var i := |s.procs|;
    var a, b := Move(i, In(999, PIN, None)), Move(i + 1, In(5_000_000, PIN, None));
    StaleRecords(s);
    StaleRoutes(s);
    StaleClaims(s);
    RunFive(Overlapped(s), a, StaleFirst(s), b, StaleBoth(s), a, StaleReady(s), a,
            StaleRouted(s), a, StaleEnd(s), Loose);
  }

  /**
   The other order: the second callback writes its invoice while the row is still unpaid, and the first then claims the
   row with the amount it was measured with before. No claimed row is ever raised, and the window is broken all the
   same.
   */
  lemma StaleClaimBreaksTheDayLimit() returns (es: seq<Event>)
    ensures Respects(INIT, es, Loose) && !Respects(INIT, es, SoundFor(0)) && !Respects(INIT, es, NoOverlap)
    ensures BrokenWindow(Run(INIT, es))
  {
    var fs, s := ReachOverlap(PENNILESS);
    RespectsLess(INIT, fs, Overlapping, Loose);
    StaleClaimRun(s);
    var gs := StaleClaim(|s.procs|);
    es := fs + gs;
    Chain(INIT, fs, Overlapped(s), gs, StaleEnd(s), Loose);
    BrokenRows(StaleEnd(s));
    BrokenIsUnsound(es);
  }

  // ---------- more sent than the limit says ----------

  /** The rule of this run: no claimed row rises, no claim finds more than it was measured with. */
  predicate Level(s: Sys, e: Event) {
    SoundOn(s, e, 0) && Loose(s, e)
  }

  function Silent(): Input {
    In(0, "", None).(ok := false)
  }

  /** The claim goes straight to the node. */
  lemma PayStep(s: Sys, i: nat, pid: nat, m: int)
    requires i < |s.procs| && s.procs[i] == CbClaimed(pid, m, false)
    ensures Next(s, Move(i, Silent())) == Put(Log(s, PayStarted(pid)), i, Paying(pid, m, Blank))
    ensures Level(s, Move(i, Silent())) && Strict(s, Move(i, Silent()))
  {
  }

  lemma TrustedGrants(db: Db, pid: nat, m: int)
    requires |db.cards| == 1 && |db.payments| == 2 && pid < 2 && 0 < m
    requires db.cards[0] == FreshCard(TRUSTED).(uid := UID, counter := db.cards[0].counter)
    requires db.payments[pid].cardId == 0 && !db.payments[pid].paid
    requires var q := db.payments[1 - pid]; 0 <= Msats(q) && (q.paid ==> Msats(q) < 1000) && m <= 1_000_000
    ensures Grants(db, pid, m)
  {
    TwoRows(db.payments, DayWeight(0, -DAY));
  }

  /** The first callback claims 1000 sats and pays them; the second then records 1 msat on the row. */
  function Undercut(i: nat): seq<Event> {
    var a, b := Move(i, In(1_000_000, PIN, None)), Move(i + 1, In(1, PIN, None));
    ([a] + ([a] + ([a] + ([a] + ([Move(i, Silent())] + []))))) + ([b] + [])
  }

  function PaidFirst(s: Sys): Sys
    requires |s.db.payments| == |s.notes| == 2
  {
    var i := |s.procs|;
    Put(Log(ClaimedRow(Invoiced(Overlapped(s), 0, 1_000_000), TRUSTED, 0, 1_000_000), PayStarted(0)),
        i, Paying(0, 1_000_000, Blank))
  }

  function Undercutted(s: Sys): Sys
    requires |s.db.payments| == |s.notes| == 2
  {
    Put(Invoiced(PaidFirst(s), 0, 1), |s.procs| + 1, CbRecorded(0, 1))
  }

  lemma PaidFirstRun(s: Sys)
    requires Fresh(s, TRUSTED)
    ensures var a, i := Move(|s.procs|, In(1_000_000, PIN, None)), |s.procs|;
            var es := [a] + ([a] + ([a] + ([a] + ([Move(i, Silent())] + []))));
            Run(Overlapped(s), es) == PaidFirst(s) && Respects(Overlapped(s), es, Level)
  {
    var i, o, m := |s.procs|, Overlapped(s), 1_000_000;
    var a := Move(i, In(m, PIN, None));
    TrustedGrants(Invoiced(o, 0, m).db, 0, m);
    var s1, s2, s3, t := ClaimMoves(o, TRUSTED, i, 0, m);
    PayStep(t, i, 0, m);
    StrictStep(o, a);
    StrictStep(s1, a);
    StrictStep(s2, a);
    StrictStep(s3, a);
    assert o.procs[i := CbClaimed(0, m, false)][i := Paying(0, m, Blank)] == o.procs[i := Paying(0, m, Blank)];
    RunFive(o, a, s1, a, s2, a, s3, a, t, Move(i, Silent()), PaidFirst(s), Level);
  }

  lemma StrictStep(s: Sys, e: Event)
    requires Strict(s, e)
    ensures Level(s, e)
  {
    RulesFollow(s, e, 0);
  }

  lemma StrictIsLevel(s: Sys, es: seq<Event>)
    requires Respects(s, es, Strict)
    ensures Respects(s, es, Level)
  {
    forall u, e ensures Strict(u, e) ==> Level(u, e) { RulesFollow(u, e, 0); }
    RespectsLess(s, es, Strict, Level);
  }

  lemma UndercutRun(s: Sys)
    requires Fresh(s, TRUSTED)
    ensures Run(Overlapped(s), Undercut(|s.procs|)) == Undercutted(s)
    ensures Respects(Overlapped(s), Undercut(|s.procs|), Level)
  {
    var i, p := |s.procs|, PaidFirst(s);
    var a, b := Move(i, In(1_000_000, PIN, None)), Move(i + 1, In(1, PIN, None));
    PaidFirstRun(s);
    RecordStep(p, TRUSTED, i + 1, 0, 1);
    OneMore(p, b, [], Level);
    Chain(Overlapped(s), [a] + ([a] + ([a] + ([a] + ([Move(i, Silent())] + [])))), p, [b] + [], Undercutted(s),
          Level);
  }

  /** 999 sats more are claimed on the second request, and paid. */
  function SecondEvents(j: nat): seq<Event> {
    ClaimEvents(j, K1B, 999_000) + ([Move(j, Silent())] + [])
  }

  function PaidSecond(u: Sys): Sys
    requires |u.db.payments| == |u.notes| == 2
  {
    Spawn(Log(ClaimedRow(Invoiced(u, 1, 999_000), TRUSTED, 1, 999_000), PayStarted(1)), Paying(1, 999_000, Blank))
  }

  lemma SecondClaim(u: Sys)
    requires Callable(u, TRUSTED, 1) && |u.db.payments| == 2 && FindK1(u.db.payments, K1B) == Some(1)
    requires u.db.payments[1] == Row(K1B, false, 0) && u.db.payments[0] == Row(K1A, true, 1)
    ensures var t := Spawn(ClaimedRow(Invoiced(u, 1, 999_000), TRUSTED, 1, 999_000), CbClaimed(1, 999_000, false));
            && Run(u, ClaimEvents(|u.procs|, K1B, 999_000)) == t
            && Respects(u, ClaimEvents(|u.procs|, K1B, 999_000), Level)
  {
    var j, b := |u.procs|, Spawn(u, CbFound(1));
    var e := Move(j, In(999_000, PIN, None));
    var es := [e] + ([e] + ([e] + ([e] + ([e] + []))));
    TrustedGrants(Invoiced(u, 1, 999_000).db, 1, 999_000);
    FoundStep(u, K1B, 1);
    RulesFollow(u, Present(K1B), 0);
    FoundRun(u, TRUSTED, 1, 999_000);
    StrictIsLevel(b, es);
    OneMore(u, Present(K1B), es, Level);
  }

  lemma SecondRun(u: Sys)
    requires Callable(u, TRUSTED, 1) && |u.db.payments| == 2 && FindK1(u.db.payments, K1B) == Some(1)
    requires u.db.payments[1] == Row(K1B, false, 0) && u.db.payments[0] == Row(K1A, true, 1)
    ensures Run(u, SecondEvents(|u.procs|)) == PaidSecond(u)
    ensures Respects(u, SecondEvents(|u.procs|), Level)
  {
    var j := |u.procs|;
    var t := Spawn(ClaimedRow(Invoiced(u, 1, 999_000), TRUSTED, 1, 999_000), CbClaimed(1, 999_000, false));
    SecondClaim(u);
    PayStep(t, j, 1, 999_000);
    OneMore(t, Move(j, Silent()), [], Level);
    Chain(u, ClaimEvents(j, K1B, 999_000), t, [Move(j, Silent())] + [], PaidSecond(u), Level);
  }

  /** What the run leaves behind. */
  predicate Oversent(t: Sys) {
    && |t.log| == 4 && t.log[0] == ClaimOf(TRUSTED, 0, 1_000_000) && t.log[1] == PayStarted(0)
    && t.log[2] == ClaimOf(TRUSTED, 1, 999_000) && t.log[3] == PayStarted(1)
    && Sum(t.db.payments, SentWeight(t, 0, 0)) == 1_999_000 > 1000 * t.log[2].dayLimit + 1998
  }

  lemma OversentRows(t: Sys)
    requires |t.db.payments| == |t.notes| == 2 && t.notes[0].claim == Some(0) && t.notes[1].claim == Some(2)
    requires t.log == [ClaimOf(TRUSTED, 0, 1_000_000), PayStarted(0),
                       ClaimOf(TRUSTED, 1, 999_000), PayStarted(1)]
    ensures Oversent(t)
  {
    assert t.log[1] == PayStarted(0) && t.log[3] == PayStarted(1);
    assert WasSent(t.log, 0) && WasSent(t.log, 1);
    TwoRows(t.db.payments, SentWeight(t, 0, 0));
  }

  lemma OversentIsInexact(es: seq<Event>)
    requires Oversent(Run(INIT, es))
    ensures !Respects(INIT, es, ExactFor(0)) && !Respects(INIT, es, NoOverlap)
  {
    var t := Run(INIT, es);
    if Respects(INIT, es, NoOverlap) { NoOverlapRules(es, 0); }
    if Respects(INIT, es, ExactFor(0)) { SentWithinTheDay(es, t, 0, 0, 2); }
  }

  lemma OversendRun(s: Sys) returns (es: seq<Event>)
    requires Fresh(s, TRUSTED)
    ensures Respects(Overlapped(s), es, Level) && Oversent(Run(Overlapped(s), es))
  {
    var u := Undercutted(s);
    UndercutRun(s);
    UndercutRows(s);
    SecondRun(u);
    var fs, gs := Undercut(|s.procs|), SecondEvents(|u.procs|);
    es := fs + gs;
    Chain(Overlapped(s), fs, u, gs, PaidSecond(u), Level);
    OversentRows(PaidSecond(u));
  }

  lemma UndercutRows(s: Sys)
    requires Fresh(s, TRUSTED)
    ensures var u := Undercutted(s);
            && Callable(u, TRUSTED, 1) && u.db.payments == [Row(K1A, true, 1), Row(K1B, false, 0)]
            && FindK1(u.db.payments, K1B) == Some(1)
            && u.log == [ClaimOf(TRUSTED, 0, 1_000_000), PayStarted(0)]
            && u.notes[0].claim == Some(0)
  {
  }

  lemma LevelRules(es: seq<Event>)
    requires Respects(INIT, es, Level)
    ensures Respects(INIT, es, FloorRule(0, false)) && Respects(INIT, es, SoundFor(0))
  {
    forall u, e ensures Level(u, e) ==> FloorRule(0, false)(u, e) { RulesFollow(u, e, 0); }
    RespectsLess(INIT, es, Level, FloorRule(0, false));
    RespectsLess(INIT, es, Level, SoundFor(0));
  }

  /**
   A card for 1000 sats a day sends 1999: the second of two overlapping callbacks records 1 msat over the 1000 sats the
   first has claimed and paid, and the next claim is measured against that. The run is sound, so the recorded window is
   inside its limit; what is really sent is not.
   */
  lemma UndercutBreaksWhatIsSent() returns (es: seq<Event>)
    ensures Respects(INIT, es, FloorRule(0, false)) && Respects(INIT, es, SoundFor(0))
    ensures !Respects(INIT, es, ExactFor(0)) && !Respects(INIT, es, NoOverlap)
    ensures Oversent(Run(INIT, es))
  {
    var fs, s := ReachOverlap(TRUSTED);
    forall u, e ensures Overlapping(u, e) ==> Level(u, e) { RulesFollow(u, e, 0); }
    RespectsLess(INIT, fs, Overlapping, Level);
    var gs := OversendRun(s);
    es := fs + gs;
    Chain(INIT, fs, Overlapped(s), gs, Run(Overlapped(s), gs), Level);
    LevelRules(es);
    OversentIsInexact(es);
  }

  // ---------- a token that outlives the start of its payment ----------

  const TOKEN := "t"

  function Asking(): Input {
    In(0, TOKEN, None)
  }

  /** A token is drawn, the internal API approves, the payment is started: the token is still on the row. */
  function ApproveEvents(i: nat): seq<Event> {
    var m := Move(i, Asking());
    [m] + ([m] + ([m] + ([ApiAnswer(0, "Y", 0)] + ([m] + []))))
  }

  function ApprovedRow(): Payment {
    Row(K1A, true, 999).(token := TOKEN, answer := "Y", answerTime := Some(0))
  }

  /** The first row, claimed by process i, goes on to be approved; the other holds no token. */
  predicate Askable(s: Sys, i: nat) {
    && i < |s.procs| && s.procs[i] == CbClaimed(0, 999, false)
    && s.db.payments == [Row(K1A, true, 999), Row(K1B, false, 0)]
    && forall j | 0 <= j < |s.log| :: !s.log[j].TokenMade?
  }

  function Approved(s: Sys, i: nat): Sys
    requires Askable(s, i)
  {
    Put(SetRow(s, 0, ApprovedRow()), i, Paying(0, 999, Blank)).(
    log := s.log + [WaitStarted(0)] + [TokenMade(0, TOKEN)] + [PayStarted(0)])
  }

  lemma AskSteps(s: Sys, i: nat) returns (s1: Sys, s2: Sys, s3: Sys)
    requires Askable(s, i)
    ensures var m := Move(i, Asking());
            && Next(s, m) == s1 && Strict(s, m) && Next(s1, m) == s2 && Strict(s1, m)
            && Next(s2, m) == s3 && Strict(s2, m)
    ensures s3 == Put(SetRow(s, 0, Row(K1A, true, 999).(token := TOKEN)), i, WaitPolling(0, 999)).(
                  log := s.log + [WaitStarted(0)] + [TokenMade(0, TOKEN)])
  {
    s1 := Put(Log(s, WaitStarted(0)), i, WaitAsked(0, 999));
    s2 := Put(Log(SetRow(s1, 0, Row(K1A, true, 999).(token := TOKEN)), TokenMade(0, TOKEN)), i, WaitTokened(0, 999));
    s3 := Put(s2, i, WaitPolling(0, 999));
    assert s.procs[i := WaitAsked(0, 999)][i := WaitTokened(0, 999)][i := WaitPolling(0, 999)]
        == s.procs[i := WaitPolling(0, 999)];
  }

  lemma PollSteps(s: Sys, i: nat, s3: Sys) returns (s4: Sys)
    requires Askable(s, i)
    requires s3 == Put(SetRow(s, 0, Row(K1A, true, 999).(token := TOKEN)), i, WaitPolling(0, 999)).(
                   log := s.log + [WaitStarted(0)] + [TokenMade(0, TOKEN)])
    ensures Next(s3, ApiAnswer(0, "Y", 0)) == s4 && Strict(s3, ApiAnswer(0, "Y", 0))
    ensures Next(s4, Move(i, Asking())) == Approved(s, i) && Strict(s4, Move(i, Asking()))
  {
    s4 := SetRow(s3, 0, ApprovedRow());
    assert s.db.payments[0 := Row(K1A, true, 999).(token := TOKEN)][0 := ApprovedRow()]
        == s.db.payments[0 := ApprovedRow()];
    assert s.procs[i := WaitPolling(0, 999)][i := Paying(0, 999, Blank)] == s.procs[i := Paying(0, 999, Blank)];
  }

  lemma ApproveRun(s: Sys, i: nat)
    requires Askable(s, i)
    ensures Run(s, ApproveEvents(i)) == Approved(s, i) && Respects(s, ApproveEvents(i), Strict)
  {
    var m := Move(i, Asking());
    var s1, s2, s3 := AskSteps(s, i);
    var s4 := PollSteps(s, i, s3);
    RunFive(s, m, s1, m, s2, m, s3, ApiAnswer(0, "Y", 0), s4, m, Approved(s, i), Strict);
  }

  lemma LateAnswer(s: Sys, i: nat)
    requires Askable(s, i)
    ensures Next(Approved(s, i), Answer(TOKEN, "N", 0)).log == Approved(s, i).log + [AnswerTaken(0, TOKEN)]
  {
    var rows := Approved(s, i).db.payments;
    assert Awaits(rows[0], TOKEN) && !Awaits(rows[1], TOKEN);
    assert AwaitingRows(rows, TOKEN) == {0};
    assert FindAwaiting(rows, TOKEN) == Some(0);
  }

  lemma ClaimFirst(s: Sys) returns (es: seq<Event>, t: Sys)
    requires Fresh(s, PENNILESS)
    ensures Run(s, es) == t && Respects(s, es, Strict)
    ensures Askable(t, |s.procs|) && |t.log| == 1
  {
    FreshFinds(s, PENNILESS);
    PennilessGrants(Invoiced(s, 0, 999).db, PENNILESS, 0, 999);
    ClaimRun(s, PENNILESS, K1A, 0, 999);
    es := ClaimEvents(|s.procs|, K1A, 999);
    t := Spawn(ClaimedRow(Invoiced(s, 0, 999), PENNILESS, 0, 999), CbClaimed(0, 999, false));
  }

  lemma AnswerLate(s: Sys, i: nat) returns (es: seq<Event>, t: Sys)
    requires Askable(s, i)
    ensures Run(s, es) == t && Respects(s, es, Strict)
    ensures t.log == s.log + [WaitStarted(0)] + [TokenMade(0, TOKEN)] + [PayStarted(0)] + [AnswerTaken(0, TOKEN)]
  {
    ApproveRun(s, i);
    LateAnswer(s, i);
    var u, e := Approved(s, i), Answer(TOKEN, "N", 0);
    t := Next(u, e);
    OneMore(u, e, [], Strict);
    es := ApproveEvents(i) + ([e] + []);
    Chain(s, ApproveEvents(i), u, [e] + [], t, Strict);
  }

  predicate AnsweredLate(log: seq<Entry>) {
    |log| == 5 && log[2] == TokenMade(0, TOKEN) && log[3] == PayStarted(0) && log[4] == AnswerTaken(0, TOKEN)
  }

  lemma ClaimThenAnswer(s: Sys) returns (es: seq<Event>)
    requires Fresh(s, PENNILESS)
    ensures Respects(s, es, Strict) && AnsweredLate(Run(s, es).log)
  {
    var fs, t := ClaimFirst(s);
    var gs, u := AnswerLate(t, |s.procs|);
    Chain(s, fs, t, gs, u, Strict);
    es := fs + gs;
  }

  /** A lawful run in which a payment is sent and its token is answered afterwards. */
  lemma TokenAnsweredAfterTheStart() returns (es: seq<Event>)
    ensures Respects(INIT, es, Strict) && AnsweredLate(Run(INIT, es).log)
  {
    Minted(PENNILESS);
    var s := Run(INIT, MintedEvents(PENNILESS));
    var fs := ClaimThenAnswer(s);
    es := MintedEvents(PENNILESS) + fs;
    Chain(INIT, MintedEvents(PENNILESS), s, fs, Run(s, fs), Strict);
  }
}
