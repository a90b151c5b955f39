/** The card registry: which cards are live under a name or a UID. */
module Registry {
  import opened Sums
  import opened Tables
  import opened Databases
  import opened System
  import OneTap

  /** Insert_card wipes the name first: a card is added only when no live card has its name. */
  predicate AddAfterWipe(s: Sys, e: Event) {
    e.ApiAdd? ==> forall k | 0 <= k < |s.db.cards| && s.db.cards[k].name == e.details.name :: s.db.cards[k].wiped
  }

  /** Of the cards of one name only the last can be live. */
  predicate NamesOk(cards: seq<Card>) {
    forall i, j | 0 <= i < j < |cards| && cards[i].name == cards[j].name :: cards[i].wiped
  }

  predicate UidsOk(cards: seq<Card>) {
    forall i, j | 0 <= i < j < |cards| && !cards[i].wiped && !cards[j].wiped && cards[i].uid != "" ::
      cards[i].uid != cards[j].uid
  }

  predicate WipedOk(cards: seq<Card>) {
    forall i | 0 <= i < |cards| && cards[i].wiped :: !cards[i].lnurlw && !cards[i].lnurlp && !cards[i].email
  }

  // ---------- names ----------

  /** Names as they were, wiped cards stay so, and a wiped card is disabled. */
  predicate NamesKept(cs: seq<Card>, ds: seq<Card>) {
    && |cs| == |ds|
    && (forall k | 0 <= k < |cs| ::
          && ds[k].name == cs[k].name && (cs[k].wiped ==> ds[k].wiped)
          && (cs[k].wiped ==> !ds[k].lnurlw || cs[k].lnurlw)
          && ds[k].lnurlp == (cs[k].lnurlp && !ds[k].wiped) && ds[k].email == (cs[k].email && !ds[k].wiped)
          && (ds[k].wiped && !cs[k].wiped ==> !ds[k].lnurlw))
  }

  predicate RegistryOk(s: Sys) {
    NamesOk(s.db.cards) && WipedOk(s.db.cards)
  }

  lemma WriterNames(s: Sys, i: nat, x: Input)
    requires WipedOk(s.db.cards) && i < |s.procs| && (s.procs[i].TapBinding? || s.procs[i].TapFound?)
    ensures NamesKept(s.db.cards, StepTap(s, i, x).db.cards)
  {
  }

  lemma LookNames(s: Sys, i: nat, x: Input)
    requires i < |s.procs| && !s.procs[i].TapBinding? && !s.procs[i].TapFound?
    ensures StepTap(s, i, x).db.cards == s.db.cards
  {
  }

  lemma TapNames(s: Sys, i: nat, x: Input)
    requires WipedOk(s.db.cards) && i < |s.procs|
    ensures NamesKept(s.db.cards, StepTap(s, i, x).db.cards)
  {
    if s.procs[i].TapBinding? || s.procs[i].TapFound? { WriterNames(s, i, x); } else { LookNames(s, i, x); }
  }

  lemma WipeNames(db: Db, name: string)
    requires WipedOk(db.cards)
    ensures NamesKept(db.cards, WipeName(db, name).cards)
  {
  }

  lemma ChangeNames(db: Db, name: string, lnurlw: bool, tx: int, day: int, pin: PinChange)
    requires WipedOk(db.cards)
    ensures NamesKept(db.cards, ChangeCard(db, name, lnurlw, tx, day, pin).cards)
  {
  }

  lemma SameCards(s: Sys, e: Event)
    requires !e.Move? && !e.ApiAdd? && !e.ApiWipe? && !e.ApiChange?
    ensures Next(s, e).db.cards == s.db.cards
  {
  }

  lemma RequestNames(s: Sys, e: Event)
    requires RegistryOk(s) && !e.Move? && !e.ApiAdd?
    ensures NamesKept(s.db.cards, Next(s, e).db.cards)
  {
    match e
    case ApiWipe(name) => WipeNames(s.db, name);
    case ApiChange(name, lnurlw, tx, day, pin) => ChangeNames(s.db, name, lnurlw, tx, day, pin);
    case _ => SameCards(s, e);
  }

  lemma AddKeeps(s: Sys, n: NewCard)
    requires RegistryOk(s) && AddAfterWipe(s, ApiAdd(n))
    ensures RegistryOk(Write(s, AddCard(s.db, n)))
  {
  }

  lemma NextRegistry(s: Sys, e: Event)
    requires RegistryOk(s) && AddAfterWipe(s, e)
    ensures RegistryOk(Next(s, e))
  {
    if e.Move? {
      if e.i < |s.procs| {
        TapNames(s, e.i, e.x);
        OneTap.StepCards(s, e.i, e.x);
      }
    } else if e.ApiAdd? {
      AddKeeps(s, e.details);
    } else {
      RequestNames(s, e);
    }
  }

  lemma {:induction false} RunRegistry(s: Sys, es: seq<Event>)
    requires RegistryOk(s) && Respects(s, es, AddAfterWipe)
    ensures RegistryOk(Run(s, es))
    decreases |es|
  {
    if es != [] {
      NextRegistry(s, es[0]);
      RunRegistry(Next(s, es[0]), es[1..]);
    }
  }

  /** In every state reached by serial card requests: one live card at most per name, and wiped means disabled. */
  lemma OneLiveCard(es: seq<Event>, s: Sys, i: nat, j: nat)
    requires Respects(INIT, es, AddAfterWipe) && s == Run(INIT, es)
    requires i < j < |s.db.cards| && !s.db.cards[i].wiped && !s.db.cards[j].wiped
    ensures s.db.cards[i].name != s.db.cards[j].name
    ensures forall c | c in s.db.cards && c.wiped :: !c.lnurlw && !c.lnurlp && !c.email
  {
    RunRegistry(INIT, es);
  }

  // ---------- UIDs ----------

  lemma BindUids(s: Sys, i: nat, x: Input)
    requires UidsOk(s.db.cards) && i < |s.procs| && s.procs[i].TapBinding? && s.procs[i].uid != ""
    ensures UidsOk(StepTap(s, i, x).db.cards) <==> UidFree(s, Move(i, x))
  {
    var c, cards := s.procs[i].card, StepTap(s, i, x).db.cards;
    if c < |s.db.cards| && UidsOk(cards) {
      forall k | 0 <= k < |s.db.cards| && k != c && !s.db.cards[c].wiped ensures !Live(s.db.cards[k], s.procs[i].uid) {
        assert cards[k] == s.db.cards[k] && cards[c].uid == s.procs[i].uid;
        if k < c { assert cards[k].wiped || cards[k].uid != cards[c].uid; }
      }
    }
  }

  lemma LookUids(s: Sys, i: nat, x: Input)
    requires UidsOk(s.db.cards) && i < |s.procs| && !s.procs[i].TapBinding?
    ensures UidsOk(StepTap(s, i, x).db.cards)
  {
  }

  lemma WipeUids(db: Db, name: string)
    requires UidsOk(db.cards)
    ensures UidsOk(WipeName(db, name).cards)
  {
    var cards := WipeName(db, name).cards;
    assert forall k | 0 <= k < |cards| :: cards[k].uid == db.cards[k].uid && (db.cards[k].wiped ==> cards[k].wiped);
  }

  lemma ChangeUids(db: Db, name: string, lnurlw: bool, tx: int, day: int, pin: PinChange)
    requires UidsOk(db.cards)
    ensures UidsOk(ChangeCard(db, name, lnurlw, tx, day, pin).cards)
  {
    var cards := ChangeCard(db, name, lnurlw, tx, day, pin).cards;
    assert forall k | 0 <= k < |cards| :: cards[k].uid == db.cards[k].uid && cards[k].wiped == db.cards[k].wiped;
  }

  lemma AddUids(db: Db, n: NewCard)
    requires UidsOk(db.cards)
    ensures UidsOk(AddCard(db, n).cards)
  {
    var cards := AddCard(db, n).cards;
    assert cards[..|db.cards|] == db.cards && cards[|db.cards|].uid == "";
    assert forall k | 0 <= k < |db.cards| :: cards[k] == db.cards[k];
  }

  lemma RequestUids(s: Sys, e: Event)
    requires UidsOk(s.db.cards) && !e.Move?
    ensures UidsOk(Next(s, e).db.cards)
  {
    match e
    case ApiAdd(n) => AddUids(s.db, n);
    case ApiWipe(name) => WipeUids(s.db, name);
    case ApiChange(name, lnurlw, tx, day, pin) => ChangeUids(s.db, name, lnurlw, tx, day, pin);
    case _ => SameCards(s, e);
  }

  /** The taps under way are for real UIDs. */
  predicate TapsNamed(s: Sys) {
    forall i | 0 <= i < |s.procs| && (s.procs[i].TapRead? || s.procs[i].TapListing? || s.procs[i].TapBinding?) ::
      s.procs[i].uid != ""
  }

  lemma StepNamed(s: Sys, i: nat, x: Input)
    requires TapsNamed(s) && i < |s.procs|
    ensures TapsNamed(StepTap(s, i, x))
    ensures IsTap(s.procs[i]) || TapsNamed(Step(s, i, x))
  {
    if !IsTap(s.procs[i]) { OneTap.NotATap(s, i, x); }
  }

  lemma RequestNamed(s: Sys, e: Event)
    requires TapsNamed(s) && !e.Move?
    ensures TapsNamed(Next(s, e))
  {
  }

  /** An event keeps one live card per UID if and only if it binds no second one. */
  lemma UidsKeptIff(s: Sys, e: Event)
    requires UidsOk(s.db.cards) && TapsNamed(s)
    ensures UidsOk(Next(s, e).db.cards) <==> UidFree(s, e)
  {
    if !e.Move? {
      RequestUids(s, e);
    } else if e.i < |s.procs| {
      OneTap.StepCards(s, e.i, e.x);
      if s.procs[e.i].TapBinding? { BindUids(s, e.i, e.x); } else { LookUids(s, e.i, e.x); }
    }
  }

  predicate UidRegistry(s: Sys) {
    UidsOk(s.db.cards) && TapsNamed(s)
  }

  lemma NextUids(s: Sys, e: Event)
    requires UidRegistry(s) && UidFree(s, e)
    ensures UidRegistry(Next(s, e))
  {
    UidsKeptIff(s, e);
    if !e.Move? { RequestNamed(s, e); } else if e.i < |s.procs| { StepNamed(s, e.i, e.x); }
  }

  lemma {:induction false} RunUids(s: Sys, es: seq<Event>)
    requires UidRegistry(s) && Respects(s, es, UidFree)
    ensures UidRegistry(Run(s, es))
    decreases |es|
  {
    if es != [] {
      NextUids(s, es[0]);
      RunUids(Next(s, es[0]), es[1..]);
    }
  }

  /** When no binding finds another live card under its UID, there is one live card at most per UID. */
  lemma OneLiveUid(es: seq<Event>, s: Sys, i: nat, j: nat)
    requires Respects(INIT, es, UidFree) && s == Run(INIT, es)
    requires i < j < |s.db.cards| && !s.db.cards[i].wiped && !s.db.cards[j].wiped && s.db.cards[i].uid != ""
    ensures s.db.cards[i].uid != s.db.cards[j].uid
  {
    RunUids(INIT, es);
  }

  lemma CleanBindIsFree(s: Sys, e: Event)
    ensures CleanBind(s, e) ==> UidFree(s, e)
  {
    if CleanBind(s, e) && e.Move? && e.i < |s.procs| && s.procs[e.i].TapBinding? {
      forall k | 0 <= k < |s.db.cards| && s.procs[e.i].card < |s.db.cards|
        ensures !Live(s.db.cards[k], s.procs[e.i].uid)
      {
        assert k !in LiveIds(s.db.cards, s.procs[e.i].uid);
      }
    }
  }

  /** When each binding finds the card still blank and the UID still without a card, no second card gets a UID. */
  lemma CleanBindKeepsUids(es: seq<Event>)
    requires Respects(INIT, es, CleanBind)
    ensures Respects(INIT, es, UidFree)
  {
    forall s, e ensures CleanBind(s, e) ==> UidFree(s, e) { CleanBindIsFree(s, e); }
    RespectsLess(INIT, es, CleanBind, UidFree);
  }

  // ---------- what the requests set ----------

  /** A card update sets the columns it names to the values given, on the unwiped cards of the name and no others. */
  lemma ChangeSets(s: Sys, name: string, lnurlw: bool, tx: int, day: int, pin: PinChange, k: nat)
    requires k < |s.db.cards|
    ensures var t := Next(s, ApiChange(name, lnurlw, tx, day, pin));
            && |t.db.cards| == |s.db.cards| && t == s.(db := s.db.(cards := t.db.cards))
            && var c, d := s.db.cards[k], t.db.cards[k];
               if c.name == name && !c.wiped
               then && d.lnurlw == lnurlw && d.txLimitSats == tx && d.dayLimitSats == day
                    && PinAs(pin, c, d) && SameButLimits(c, d)
               else d == c
  {
  }

  /** A new card has the values it was added with, and is blank and unwiped. */
  lemma AddSets(s: Sys, n: NewCard)
    ensures var t := Next(s, ApiAdd(n));
            && t == s.(db := s.db.(cards := t.db.cards)) && |t.db.cards| == |s.db.cards| + 1
            && t.db.cards[..|s.db.cards|] == s.db.cards
            && var c := t.db.cards[|s.db.cards|];
               && c.name == n.name && c.keys == n.keys && c.uid == "" && c.counter == 0
               && c.timeoutSec == 60 && !c.wiped
               && c.lnurlw == n.lnurlw && c.txLimitSats == n.txLimitSats && c.dayLimitSats == n.dayLimitSats
               && c.allowNegative == n.allowNegative
               && c.pinEnabled == n.pinEnabled && c.pin == n.pin && c.pinLimitSats == n.pinLimitSats
  {
  }

  // ---------- wiped cards ----------

  lemma WipedTap(s: Sys, i: nat, x: Input, k: nat)
    requires i < |s.procs| && k < |s.db.cards| && s.db.cards[k].wiped
    ensures k < |StepTap(s, i, x).db.cards| && StepTap(s, i, x).db.cards[k].wiped
  {
  }

  lemma WipedRequest(s: Sys, e: Event, k: nat)
    requires !e.Move? && k < |s.db.cards| && s.db.cards[k].wiped
    ensures k < |Next(s, e).db.cards| && Next(s, e).db.cards[k].wiped
  {
  }

  lemma WipedStep(s: Sys, e: Event, k: nat)
    requires k < |s.db.cards| && s.db.cards[k].wiped
    ensures k < |Next(s, e).db.cards| && Next(s, e).db.cards[k].wiped
  {
    if !e.Move? {
      WipedRequest(s, e, k);
    } else if e.i < |s.procs| {
      OneTap.StepCards(s, e.i, e.x);
      WipedTap(s, e.i, e.x, k);
    }
  }

  /** A wiped card stays wiped, whatever the requests and however they interleave. */
  lemma {:induction false} WipedIsForever(s: Sys, es: seq<Event>, k: nat)
    requires k < |s.db.cards| && s.db.cards[k].wiped
    ensures k < |Run(s, es).db.cards| && Run(s, es).db.cards[k].wiped
    decreases |es|
  {
    if es != [] {
      WipedStep(s, es[0], k);
      WipedIsForever(Next(s, es[0]), es[1..], k);
    }
  }

  /** The keys and UID returned for a wiped name are those of the card that was live, if one was. */
  lemma WipeReturnsTheLiveCard(es: seq<Event>, s: Sys, name: string, k: nat)
    requires Respects(INIT, es, AddAfterWipe) && s == Run(INIT, es)
    requires k < |s.db.cards| && s.db.cards[k].name == name && !s.db.cards[k].wiped
    ensures LastOf(WipeName(s.db, name).cards, name) == Some(k)
    ensures WipeName(s.db, name).cards[k].keys == s.db.cards[k].keys
    ensures WipeName(s.db, name).cards[k].uid == s.db.cards[k].uid
    ensures forall j | 0 <= j < |s.db.cards| && j != k :: !Live(s.db.cards[j], s.db.cards[j].uid)
                                                           || s.db.cards[j].name != name
  {
    RunRegistry(INIT, es);
    var cards := WipeName(s.db, name).cards;
    var r := LastOf(cards, name);
    assert cards[k].name == name;
    assert r.Some? && cards[r.value].name == s.db.cards[r.value].name;
  }

  /** A card update changes the one live card of the name and no other. */
  lemma UpdateTouchesTheLiveCard(es: seq<Event>, s: Sys, name: string, lnurlw: bool, tx: int, day: int,
                                 pin: PinChange, j: nat)
    requires Respects(INIT, es, AddAfterWipe) && s == Run(INIT, es) && j < |s.db.cards|
    requires ChangeCard(s.db, name, lnurlw, tx, day, pin).cards[j] != s.db.cards[j]
    ensures LastOf(s.db.cards, name) == Some(j) && !s.db.cards[j].wiped
  {
    RunRegistry(INIT, es);
    var r := LastOf(s.db.cards, name);
    assert r.Some?;
  }

  /** The rule is exact: adding a card keeps one live card per name if and only if no live card has its name. */
  lemma AddKeepsNamesIff(db: Db, n: NewCard)
    requires NamesOk(db.cards)
    ensures NamesOk(AddCard(db, n).cards)
            <==> forall k | 0 <= k < |db.cards| && db.cards[k].name == n.name :: db.cards[k].wiped
  {
    var cards := AddCard(db, n).cards;
    assert cards[|db.cards|].name == n.name;
    if NamesOk(cards) {
      forall k | 0 <= k < |db.cards| && db.cards[k].name == n.name ensures db.cards[k].wiped {
        assert cards[k].name == cards[|db.cards|].name && cards[k] == db.cards[k];
      }
    }
  }

  /** Insert_card as one request keeps the rule: its own wipe comes just before its insert. */
  lemma InsertKeepsTheRule(s: Sys, n: NewCard)
    ensures Respects(s, [ApiWipe(n.name), ApiAdd(n)], AddAfterWipe)
  {
    var es := [ApiWipe(n.name), ApiAdd(n)];
    assert es[1..] == [ApiAdd(n)] && es[1..][1..] == [];
    assert Respects(Next(s, es[0]), es[1..], AddAfterWipe);
  }

  /** Two overlapping inserts of one name, each wiping before either adds, leave two live cards of the name. */
  lemma OverlappingInserts(n: NewCard)
    ensures var w, a := ApiWipe(n.name), ApiAdd(n);
            var cards := Next(Next(Next(Next(INIT, w), w), a), a).db.cards;
            |cards| == 2 && cards[0].name == cards[1].name && !cards[0].wiped && !cards[1].wiped
  {
  }
}
