/** A tap read by parse_request is, when nothing comes in between, a run of the tap process's steps. */
module TapRuns {
  import opened Sums
  import opened Tables
  import opened Databases
  import opened TapRequest
  import opened System

  /** `pick` is the card a step settles on, `ok` the CMAC check. */
  function Pick(card: Option<nat>, ok: bool): Input {
    Input(0, 0, "", card, ok, false, false, Blank, Unset)
  }

  function TapEvents(i: nat, dec: seq<byte>, card: nat): seq<Event>
    requires |dec| == 16
  {
    [TapCard(Uid(dec), Ctr(dec))] + ([Move(i, Pick(None, true))] + ([Move(i, Pick(Some(card), true))]
    + ([Move(i, Pick(None, true))] + [])))
  }

  lemma FindSteps(s: Sys, uid: string, ctr: nat, card: nat)
    requires LiveIds(s.db.cards, uid) == {card} && s.db.cards[card].lnurlw
    ensures var i := |s.procs|;
            && Next(Spawn(s, TapRead(uid, ctr)), Move(i, Pick(None, true))) == Spawn(s, TapBound(uid, ctr, None))
            && Next(Spawn(s, TapBound(uid, ctr, None)), Move(i, Pick(Some(card), true)))
               == Spawn(s, TapFound(card, ctr, None))
  {
    assert card in LiveIds(s.db.cards, uid);
  }

  lemma CountStep(s: Sys, ctr: nat, card: nat)
    requires card < |s.db.cards| && s.db.cards[card].counter < ctr
    ensures Next(Spawn(s, TapFound(card, ctr, None)), Move(|s.procs|, Pick(None, true)))
            == Spawn(s, TapAccepted(card, |s.taps|)).(
               db := CheckCounter(s.db, card, ctr).0, taps := s.taps + [Tap(card, ctr, None)])
  {
  }

  /** An accepted tap: the run leaves the database the method leaves, and goes on to mint a row for that card. */
  lemma AcceptedTapIsARun(s: Sys, dec: seq<byte>, cmac: (Card, seq<byte>) -> Check, card: nat)
    requires |dec| == 16 && Accepts(s.db.cards, dec, cmac, card)
    ensures Run(s, TapEvents(|s.procs|, dec, card))
            == Spawn(s, TapAccepted(card, |s.taps|)).(
               db := CheckCounter(s.db, card, Ctr(dec)).0, taps := s.taps + [Tap(card, Ctr(dec), None)])
  {
    var i, uid, ctr := |s.procs|, Uid(dec), Ctr(dec);
    assert card in LiveIds(s.db.cards, uid) && dec[1..8] != [];
    var a, b := Move(i, Pick(None, true)), Move(i, Pick(Some(card), true));
    FindSteps(s, uid, ctr, card);
    CountStep(s, ctr, card);
    RunCons(Spawn(s, TapFound(card, ctr, None)), a, []);
    RunCons(Spawn(s, TapBound(uid, ctr, None)), b, [a] + []);
    RunCons(Spawn(s, TapRead(uid, ctr)), a, [b] + ([a] + []));
    RunCons(s, TapCard(uid, ctr), [a] + ([b] + ([a] + [])));
  }

  // ---------- nothing else is accepted ----------

  /** The count, the card looked up with its CMAC check, and the counter check, whatever the lookup finds. */
  function LookEvents(i: nat, dec: seq<byte>, x: Input): seq<Event>
    requires |dec| == 16
  {
    [TapCard(Uid(dec), Ctr(dec))] + ([Move(i, Pick(None, true))] + ([Move(i, x)] + ([Move(i, Pick(None, true))] + [])))
  }

  /** The check of the CMAC is made under the key of the card looked up. */
  predicate Honest(cards: seq<Card>, dec: seq<byte>, cmac: (Card, seq<byte>) -> Check, x: Input)
    requires |dec| == 16
  {
    x.pick.Some? && x.pick.value < |cards| ==>
      (x.ok <==> cmac(cards[x.pick.value], Sv2(dec[1..8], dec[8..11])) == Valid)
  }

  /** After the count, the process is looking the card up only if the UID has one live card. */
  lemma CountedStep(s: Sys, uid: string, ctr: nat)
    ensures var i, t := |s.procs|, Next(Spawn(s, TapRead(uid, ctr)), Move(|s.procs|, Pick(None, true)));
            && t == Spawn(s, t.procs[i])
            && (t.procs[i].TapBound? ==> |LiveIds(s.db.cards, uid)| == 1 && t.procs[i] == TapBound(uid, ctr, None))
            && !t.procs[i].TapFound? && !t.procs[i].TapAccepted?
  {
  }

  lemma LookStep(s: Sys, p: Proc, x: Input)
    requires p.TapBound? || p.TapListing? || p.Done?
    ensures var i, t := |s.procs|, Next(Spawn(s, p), Move(|s.procs|, x));
            && t == Spawn(s, t.procs[i]) && !t.procs[i].TapAccepted?
            && (t.procs[i].TapFound? ==>
                  && p.TapBound? && x.ok && t.procs[i].counter == p.counter && x.pick == Some(t.procs[i].card)
                  && t.procs[i].card in LiveIds(s.db.cards, p.uid) && s.db.cards[t.procs[i].card].lnurlw)
  {
  }

  lemma CheckStep(s: Sys, p: Proc)
    requires !p.TapAccepted?
    ensures var i, t := |s.procs|, Next(Spawn(s, p), Move(|s.procs|, Pick(None, true)));
            i < |t.procs| && (t.procs[i].TapAccepted? ==>
              && p.TapFound? && t.procs[i].card == p.card && p.card < |s.db.cards|
              && s.db.cards[p.card].counter < p.counter)
  {
  }

  /** A run of the tap process ends in acceptance only if the card accepts the tap, as the method has it. */
  lemma AcceptedRunIsATap(s: Sys, dec: seq<byte>, cmac: (Card, seq<byte>) -> Check, x: Input)
    requires |dec| == 16 && dec[0] == 0xC7 && Honest(s.db.cards, dec, cmac, x)
    ensures var i, t := |s.procs|, Run(s, LookEvents(|s.procs|, dec, x));
            i < |t.procs| && (t.procs[i].TapAccepted? ==> Accepts(s.db.cards, dec, cmac, t.procs[i].card))
  {
    var i, uid, ctr, a := |s.procs|, Uid(dec), Ctr(dec), Move(|s.procs|, Pick(None, true));
    assert dec[1..8] != [];
    var t1 := Next(Spawn(s, TapRead(uid, ctr)), a);
    CountedStep(s, uid, ctr);
    var t2 := Next(t1, Move(i, x));
    LookStep(s, t1.procs[i], x);
    CheckStep(s, t2.procs[i]);
    RunCons(t2, a, []);
    RunCons(t1, Move(i, x), [a] + []);
    RunCons(Spawn(s, TapRead(uid, ctr)), a, [Move(i, x)] + ([a] + []));
    RunCons(s, TapCard(uid, ctr), [a] + ([Move(i, x)] + ([a] + [])));
    if t2.procs[i].TapFound? { OnlyOne(LiveIds(s.db.cards, uid), t2.procs[i].card); }
  }

  // ---------- taps that bind ----------

  /** A tap lists blank cards only when no unwiped card has its UID, and goes on to bind none but a blank one. */
  lemma ListedIsBlank(s: Sys, i: nat, x: Input, uid: string, ctr: nat)
    requires i < |s.procs|
    ensures s.procs[i] == TapRead(uid, ctr) ==>
              (Step(s, i, x).procs[i].TapListing? <==>
                forall k | 0 <= k < |s.db.cards| :: s.db.cards[k].uid != uid || s.db.cards[k].wiped)
    ensures s.procs[i] == TapListing(uid, ctr) ==>
              var p := Step(s, i, x).procs[i];
              if && x.pick.Some? && x.pick.value < |s.db.cards| && s.db.cards[x.pick.value].uid == ""
                 && s.db.cards[x.pick.value].counter == 0 && !s.db.cards[x.pick.value].wiped
              then p == TapBinding(uid, ctr, x.pick.value) else p == TapBound(uid, ctr, None)
  {
    var ids := LiveIds(s.db.cards, uid);
    assert forall k: nat :: k in ids <==> k < |s.db.cards| && s.db.cards[k].uid == uid && !s.db.cards[k].wiped;
    assert |ids| == 0 <==> ids == {};
  }

  /** The tap has bound a blank card to its UID and counter. */
  function AfterBind(s: Sys, uid: string, ctr: nat, card: nat): Sys {
    Spawn(s, TapBound(uid, ctr, Some(card))).(db := UpdateUidCounter(s.db, card, uid, ctr).0)
  }

  /** The count finds no card of the UID, the list offers the blank card, and the card is bound. */
  function BindEvents(i: nat, dec: seq<byte>, card: nat): seq<Event>
    requires |dec| == 16
  {
    [TapCard(Uid(dec), Ctr(dec))] + ([Move(i, Pick(None, true))] + ([Move(i, Pick(Some(card), true))]
    + ([Move(i, Pick(None, true))] + [])))
  }

  /** A tap that binds a blank card: the run leaves the database the method leaves. */
  lemma BindingTapIsARun(s: Sys, dec: seq<byte>, card: nat)
    requires |dec| == 16 && card < |s.db.cards| && IsBlank(s.db.cards[card]) && LiveIds(s.db.cards, Uid(dec)) == {}
    ensures Run(s, BindEvents(|s.procs|, dec, card)) == AfterBind(s, Uid(dec), Ctr(dec), card)
  {
    var i, uid, ctr := |s.procs|, Uid(dec), Ctr(dec);
    assert dec[1..8] != [];
    var a, b := Move(i, Pick(None, true)), Move(i, Pick(Some(card), true));
    ListSteps(s, uid, ctr, card);
    BindStep(s, uid, ctr, card);
    RunCons(Spawn(s, TapBinding(uid, ctr, card)), a, []);
    RunCons(Spawn(s, TapListing(uid, ctr)), b, [a] + []);
    RunCons(Spawn(s, TapRead(uid, ctr)), a, [b] + ([a] + []));
    RunCons(s, TapCard(uid, ctr), [a] + ([b] + ([a] + [])));
  }

  lemma ListSteps(s: Sys, uid: string, ctr: nat, card: nat)
    requires card < |s.db.cards| && IsBlank(s.db.cards[card]) && LiveIds(s.db.cards, uid) == {}
    ensures var i := |s.procs|;
            && Next(Spawn(s, TapRead(uid, ctr)), Move(i, Pick(None, true))) == Spawn(s, TapListing(uid, ctr))
            && Next(Spawn(s, TapListing(uid, ctr)), Move(i, Pick(Some(card), true)))
               == Spawn(s, TapBinding(uid, ctr, card))
  {
  }

  lemma BindStep(s: Sys, uid: string, ctr: nat, card: nat)
    requires card < |s.db.cards|
    ensures Next(Spawn(s, TapBinding(uid, ctr, card)), Move(|s.procs|, Pick(None, true)))
            == AfterBind(s, uid, ctr, card)
  {
  }

  /** No way for that tap to go on ends in its being accepted: the card holds the tap's own counter already. */
  lemma BindingTapIsRefused(s: Sys, uid: string, ctr: nat, card: nat, x: Input, y: Input)
    requires card < |s.db.cards| && LiveIds(s.db.cards, uid) == {}
    ensures var i := |s.procs|;
            Next(Next(AfterBind(s, uid, ctr, card), Move(i, x)), Move(i, y)).procs[i].Done?
  {
    var t := AfterBind(s, uid, ctr, card);
    forall k | 0 <= k < |t.db.cards| && Live(t.db.cards[k], uid) ensures t.db.cards[k].counter == ctr {
      assert k !in LiveIds(s.db.cards, uid);
    }
    BoundTapEnds(t, |s.procs|, uid, ctr, card, x, y);
  }

  lemma BoundTapEnds(t: Sys, i: nat, uid: string, ctr: nat, card: nat, x: Input, y: Input)
    requires i < |t.procs| && t.procs[i] == TapBound(uid, ctr, Some(card)) && card < |t.db.cards|
    requires forall k | 0 <= k < |t.db.cards| && Live(t.db.cards[k], uid) :: t.db.cards[k].counter == ctr
    ensures Next(Next(t, Move(i, x)), Move(i, y)).procs[i].Done?
  {
  }
}
