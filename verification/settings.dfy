/**
 The settings cache (db/settings.go): the cache as an object, and gets, clears, changes of the period and writes to
 the settings table interleaved step by step. Times are in any unit, a period of zero or less turns holding off.
 */
module Settings {
  datatype Held = Held(value: string, fetchedAt: int)

  /** A read of the settings table; a setting with no row is a settled answer. */
  datatype Fetch = Row(value: string) | NoRow | Unreachable

  function Value(f: Fetch): string {
    if f.Row? then f.value else ""
  }

  predicate Fresh(h: Held, ttl: int, now: int) {
    now - h.fetchedAt < ttl
  }

  class Cache {
    var entries: map<string, Held>
    var ttl: int

    constructor (ttl: int)
      ensures entries == map[] && this.ttl == ttl
    {
      entries := map[];
      this.ttl := ttl;
    }

    /** `fetch` is what the database would answer, `now` and `later` the clock before and after asking it. */
    method Get(name: string, fetch: string -> Fetch, now: int, later: int) returns (value: string)
      modifies this`entries
      ensures ttl > 0 && name in old(entries) && now - old(entries)[name].fetchedAt < ttl ==>
                value == old(entries)[name].value && entries == old(entries)
      ensures !(ttl > 0 && name in old(entries) && now - old(entries)[name].fetchedAt < ttl) ==>
                && value == (if fetch(name).Row? then fetch(name).value else "")
                && entries == if fetch(name).Unreachable? || ttl <= 0 then old(entries)
                              else old(entries)[name := Held(value, later)]
    {
      if ttl > 0 {
        if name in entries && now - entries[name].fetchedAt < ttl {
          return entries[name].value;
        }
      }
      var read := fetch(name);
      if read.Unreachable? {
        return "";
      }
      value := Value(read);
      if ttl > 0 {
        entries := entries[name := Held(value, later)];
      }
    }

    method Clear()
      modifies this`entries
      ensures entries == map[]
    {
      entries := map[];
    }

    /** Get_setting_now: clears everything held and reads the database, holding nothing. */
    method GetNow(name: string, fetch: string -> Fetch) returns (value: string)
      modifies this`entries
      ensures entries == map[] && value == if fetch(name).Row? then fetch(name).value else ""
    {
      Clear();
      var read := fetch(name);
      if read.Unreachable? {
        return "";
      }
      value := Value(read);
    }

    method SetSeconds(seconds: int)
      modifies this
      ensures ttl == (if seconds < 0 then 0 else seconds) && entries == map[]
    {
      var s := if seconds < 0 then 0 else seconds;
      ttl := s;
      entries := map[];
    }
  }

  // ---------- interleavings ----------

  /** A write to the settings table. The version a read sees is the number of writes before it. */
  datatype Write = Write(at: int, name: string, value: string)

  function Current(writes: seq<Write>, name: string): string {
    if writes == [] then ""
    else if writes[|writes| - 1].name == name then writes[|writes| - 1].value
    else Current(writes[..|writes| - 1], name)
  }

  /** The table holds what was written last, and nothing before the first write. */
  lemma {:induction false} LastWriteStands(writes: seq<Write>, name: string, k: nat)
    requires k < |writes| && writes[k].name == name && forall j | k < j < |writes| :: writes[j].name != name
    ensures Current(writes, name) == writes[k].value
    decreases |writes|
  {
    if k < |writes| - 1 { LastWriteStands(writes[..|writes| - 1], name, k); }
  }

  lemma {:induction false} NeverWritten(writes: seq<Write>, name: string)
    requires forall j | 0 <= j < |writes| :: writes[j].name != name
    ensures Current(writes, name) == ""
    decreases |writes|
  {
    if writes != [] { NeverWritten(writes[..|writes| - 1], name); }
  }

  /** When a value was read, and the version it was read from. */
  datatype Mark = Mark(version: nat, readAt: int)

  /** A get between two of its steps. */
  datatype Reader =
    | Asked(name: string)
    | Looking(name: string)
    | Looked(name: string, held: Held, mark: Mark)
    | Missed(name: string)
    | Fetched(name: string, value: string, mark: Mark)
    | Storing(name: string, value: string, mark: Mark)
    | Over

  /** A value given out: at what time, from a held entry or not, under which period, and with how many writes made. */
  datatype Answer = Answer(name: string, value: string, mark: Mark, at: int, held: bool, ttl: int, writes: nat)

  /** `failed` holds the settings asked for when the database could not answer; "" was given out for each. */
  datatype World = World(
    now: int, writes: seq<Write>, ttl: int, entries: map<string, Held>, marks: map<string, Mark>,
    readers: seq<Reader>, answers: seq<Answer>, failed: seq<string>)

  datatype Event =
    | Tick(to: int)
    | Change(name: string, value: string)
    | Ask(name: string)
    | Step(i: nat, reachable: bool)
    | ClearAll
    | SetPeriod(seconds: int)

  const START := World(0, [], 10, map[], map[], [], [], [])

  function Put(w: World, i: nat, r: Reader): World
    requires i < |w.readers|
  {
    w.(readers := w.readers[i := r])
  }

  function Give(w: World, i: nat, name: string, value: string, mark: Mark, held: bool): World
    requires i < |w.readers|
  {
    Put(w, i, Over).(answers := w.answers + [Answer(name, value, mark, w.now, held, w.ttl, |w.writes|)])
  }

  function StepReader(w: World, i: nat, reachable: bool): World
    requires i < |w.readers|
  {
    match w.readers[i]
    case Asked(name) => Put(w, i, if w.ttl > 0 then Looking(name) else Missed(name))
    case Looking(name) =>
      Put(w, i, if name in w.entries && name in w.marks then Looked(name, w.entries[name], w.marks[name])
                else Missed(name))
    case Looked(name, held, mark) =>
      if Fresh(held, w.ttl, w.now) then Give(w, i, name, held.value, mark, true) else Put(w, i, Missed(name))
    case Missed(name) =>
      if reachable then Put(w, i, Fetched(name, Current(w.writes, name), Mark(|w.writes|, w.now)))
      else Put(w, i, Over).(failed := w.failed + [name])
    case Fetched(name, value, mark) =>
      if w.ttl > 0 then Put(w, i, Storing(name, value, mark)) else Give(w, i, name, value, mark, false)
    case Storing(name, value, mark) =>
      Give(w, i, name, value, mark, false).(
      entries := w.entries[name := Held(value, w.now)], marks := w.marks[name := mark])
    case Over => w
  }

  function Next(w: World, e: Event): World {
    match e
    case Tick(to) => if to >= w.now then w.(now := to) else w
    case Change(name, value) => w.(writes := w.writes + [Write(w.now, name, value)])
    case Ask(name) => w.(readers := w.readers + [Asked(name)])
    case Step(i, reachable) => if i < |w.readers| then StepReader(w, i, reachable) else w
    case ClearAll => w.(entries := map[], marks := map[])
    case SetPeriod(seconds) => w.(ttl := if seconds < 0 then 0 else seconds, entries := map[], marks := map[])
  }

  function Run(w: World, es: seq<Event>): World
    decreases |es|
  {
    if es == [] then w else Run(Next(w, es[0]), es[1..])
  }

  /** A fetched value is stored within d of being read. */
  predicate StoredWithin(w: World, e: Event, d: int) {
    e.Step? && e.i < |w.readers| && w.readers[e.i].Storing? ==> w.now - w.readers[e.i].mark.readAt <= d
  }

  predicate Prompt(w: World, es: seq<Event>, d: int)
    decreases |es|
  {
    es == [] || (StoredWithin(w, es[0], d) && Prompt(Next(w, es[0]), es[1..], d))
  }

  // ---------- staleness ----------

  /** The mark names the version the table had at the instant readAt, and the value is that version's. */
  predicate Read(w: World, name: string, value: string, mark: Mark) {
    && mark.version <= |w.writes| && mark.readAt <= w.now
    && value == Current(w.writes[..mark.version], name)
    && (forall k | 0 <= k < mark.version :: w.writes[k].at <= mark.readAt)
    && (forall k | mark.version <= k < |w.writes| :: w.writes[k].at >= mark.readAt)
  }

  predicate EntryOk(w: World, name: string, h: Held, mark: Mark, d: int) {
    Read(w, name, h.value, mark) && h.fetchedAt - mark.readAt <= d
  }

  predicate ReaderOk(w: World, r: Reader, d: int) {
    match r
    case Looked(name, held, mark) => EntryOk(w, name, held, mark, d)
    case Fetched(name, value, mark) => Read(w, name, value, mark)
    case Storing(name, value, mark) => Read(w, name, value, mark)
    case _ => true
  }

  predicate AnswerOk(w: World, a: Answer, d: int) {
    && Read(w, a.name, a.value, a.mark)
    && a.mark.version <= a.writes <= |w.writes|
    && a.mark.readAt <= a.at && (a.held ==> a.at - a.mark.readAt < a.ttl + d)
  }

  predicate CacheOk(w: World, d: int) {
    && (forall k | 0 <= k < |w.writes| :: w.writes[k].at <= w.now)
    && w.entries.Keys == w.marks.Keys
    && (forall name | name in w.entries :: EntryOk(w, name, w.entries[name], w.marks[name], d))
    && (forall i | 0 <= i < |w.readers| :: ReaderOk(w, w.readers[i], d))
    && (forall j | 0 <= j < |w.answers| :: AnswerOk(w, w.answers[j], d))
  }

  /** Time goes on and writes are added at the time it is. */
  predicate Later(w: World, v: World) {
    && w.now <= v.now && w.writes <= v.writes
    && forall k | |w.writes| <= k < |v.writes| :: v.writes[k].at >= w.now
  }

  lemma ReadLater(w: World, v: World, name: string, value: string, mark: Mark)
    requires Read(w, name, value, mark) && Later(w, v)
    ensures Read(v, name, value, mark)
  {
    assert v.writes[..mark.version] == w.writes[..mark.version];
  }

  lemma ReaderLater(w: World, v: World, r: Reader, d: int)
    requires ReaderOk(w, r, d) && Later(w, v)
    ensures ReaderOk(v, r, d)
  {
    match r
    case Looked(name, held, mark) => ReadLater(w, v, name, held.value, mark);
    case Fetched(name, value, mark) => ReadLater(w, v, name, value, mark);
    case Storing(name, value, mark) => ReadLater(w, v, name, value, mark);
    case _ =>
  }

  /** What was held, under way or answered stays right as time goes on. */
  lemma KeepsOk(w: World, v: World, d: int)
    requires CacheOk(w, d) && Later(w, v)
    requires v.entries == w.entries && v.marks == w.marks && v.readers == w.readers && v.answers == w.answers
    requires forall k | 0 <= k < |v.writes| :: v.writes[k].at <= v.now
    ensures CacheOk(v, d)
  {
    forall name | name in v.entries ensures EntryOk(v, name, v.entries[name], v.marks[name], d) {
      ReadLater(w, v, name, w.entries[name].value, w.marks[name]);
    }
    forall i | 0 <= i < |v.readers| ensures ReaderOk(v, v.readers[i], d) { ReaderLater(w, v, w.readers[i], d); }
    forall j | 0 <= j < |v.answers| ensures AnswerOk(v, v.answers[j], d) {
      assert AnswerOk(w, w.answers[j], d);
      ReadLater(w, v, w.answers[j].name, w.answers[j].value, w.answers[j].mark);
    }
  }

  /** A step of reader i alone: what the others hold is untouched, and there is at most one new answer. */
  lemma ReaderMovesOk(w: World, v: World, i: nat, d: int)
    requires CacheOk(w, d) && i < |w.readers| && v.now == w.now && v.writes == w.writes
    requires |v.readers| == |w.readers| && v.readers == w.readers[i := v.readers[i]] && ReaderOk(w, v.readers[i], d)
    requires v.entries.Keys == v.marks.Keys
    requires forall name | name in v.entries :: EntryOk(w, name, v.entries[name], v.marks[name], d)
    requires w.answers <= v.answers
    requires forall j | |w.answers| <= j < |v.answers| :: AnswerOk(w, v.answers[j], d)
    ensures CacheOk(v, d)
  {
    forall j | 0 <= j < |v.readers| ensures ReaderOk(v, v.readers[j], d) { ReaderLater(w, v, v.readers[j], d); }
    forall j | 0 <= j < |v.answers| ensures AnswerOk(v, v.answers[j], d) { assert AnswerOk(w, v.answers[j], d); }
    forall name | name in v.entries ensures EntryOk(v, name, v.entries[name], v.marks[name], d) {
      assert EntryOk(w, name, v.entries[name], v.marks[name], d);
    }
  }

  lemma StoreOk(w: World, i: nat, name: string, value: string, mark: Mark, d: int)
    requires CacheOk(w, d) && i < |w.readers| && w.readers[i] == Storing(name, value, mark)
    requires w.now - mark.readAt <= d
    ensures CacheOk(StepReader(w, i, true), d)
  {
    var v := StepReader(w, i, true);
    assert ReaderOk(w, w.readers[i], d);
    forall n | n in v.entries ensures EntryOk(w, n, v.entries[n], v.marks[n], d) {
      assert n != name ==> EntryOk(w, n, w.entries[n], w.marks[n], d);
    }
    ReaderMovesOk(w, v, i, d);
  }

  lemma GiveOk(w: World, i: nat, name: string, value: string, mark: Mark, held: bool, d: int)
    requires CacheOk(w, d) && i < |w.readers| && Read(w, name, value, mark)
    requires held ==> w.now - mark.readAt < w.ttl + d
    ensures CacheOk(Give(w, i, name, value, mark, held), d)
  {
    ReaderMovesOk(w, Give(w, i, name, value, mark, held), i, d);
  }

  lemma StepReaderOk(w: World, i: nat, reachable: bool, d: int)
    requires CacheOk(w, d) && i < |w.readers| && StoredWithin(w, Step(i, reachable), d)
    ensures CacheOk(StepReader(w, i, reachable), d)
  {
    var v, r := StepReader(w, i, reachable), w.readers[i];
    assert ReaderOk(w, r, d);
    if r.Storing? {
      StoreOk(w, i, r.name, r.value, r.mark, d);
    } else if r.Looked? && v.readers[i].Over? {
      GiveOk(w, i, r.name, r.held.value, r.mark, true, d);
    } else if r.Fetched? && v.readers[i].Over? {
      GiveOk(w, i, r.name, r.value, r.mark, false, d);
    } else {
      assert w.writes[..|w.writes|] == w.writes;
      assert r.Over? ==> w.readers[i := r] == w.readers;
      ReaderMovesOk(w, v, i, d);
    }
  }

  lemma NextOk(w: World, e: Event, d: int)
    requires CacheOk(w, d) && StoredWithin(w, e, d)
    ensures CacheOk(Next(w, e), d)
  {
    match e
    case Step(i, reachable) => if i < |w.readers| { StepReaderOk(w, i, reachable, d); }
    case Tick(_) => KeepsOk(w, Next(w, e), d);
    case Change(_, _) => KeepsOk(w, Next(w, e), d);
    case _ => ResetOk(w, Next(w, e), d);
  }

  /** A new get, or the entries and the period reset. */
  lemma ResetOk(w: World, v: World, d: int)
    requires CacheOk(w, d) && v.now == w.now && v.writes == w.writes && v.answers == w.answers
    requires v.readers == w.readers || (exists name :: v.readers == w.readers + [Asked(name)])
    requires (v.entries == map[] && v.marks == map[]) || (v.entries == w.entries && v.marks == w.marks)
    ensures CacheOk(v, d)
  {
    forall j | 0 <= j < |v.readers| ensures ReaderOk(v, v.readers[j], d) {
      if j < |w.readers| { assert ReaderOk(w, w.readers[j], d); }
    }
    forall j | 0 <= j < |v.answers| ensures AnswerOk(v, v.answers[j], d) { assert AnswerOk(w, w.answers[j], d); }
    forall name | name in v.entries ensures EntryOk(v, name, v.entries[name], v.marks[name], d) {
      assert EntryOk(w, name, w.entries[name], w.marks[name], d);
    }
  }

  lemma {:induction false} RunOk(w: World, es: seq<Event>, d: int)
    requires CacheOk(w, d) && Prompt(w, es, d)
    ensures CacheOk(Run(w, es), d)
    decreases |es|
  {
    if es != [] {
      NextOk(w, es[0], d);
      RunOk(Next(w, es[0]), es[1..], d);
    }
  }

  /**
   Under every interleaving, a value served from a held entry was the database's value at an instant less than
   ttl + d earlier, where d bounds the time from reading a value to holding it.
   */
  lemma Staleness(es: seq<Event>, w: World, d: int, j: nat)
    requires Prompt(START, es, d) && w == Run(START, es) && j < |w.answers| && w.answers[j].held
    ensures var a := w.answers[j];
            && a.at - (a.ttl + d) < a.mark.readAt <= a.at
            && Read(w, a.name, a.value, a.mark)
  {
    RunOk(START, es, d);
    assert AnswerOk(w, w.answers[j], d);
  }

  lemma {:induction false} UnchangedCurrent(writes: seq<Write>, name: string, m: nat, n: nat)
    requires m <= n <= |writes| && forall k | m <= k < n :: writes[k].name != name
    ensures Current(writes[..m], name) == Current(writes[..n], name)
    decreases n
  {
    if m < n {
      UnchangedCurrent(writes, name, m, n - 1);
      assert writes[..n][..n - 1] == writes[..n - 1];
    }
  }

  /** If the setting was not written within that span, the value served is what the database had at the time. */
  lemma UnchangedAgrees(es: seq<Event>, w: World, d: int, j: nat)
    requires Prompt(START, es, d) && w == Run(START, es) && j < |w.answers| && w.answers[j].held
    requires var a := w.answers[j];
             forall k | 0 <= k < a.writes && k < |w.writes| && w.writes[k].name == a.name ::
               w.writes[k].at <= a.at - (a.ttl + d)
    ensures w.answers[j].writes <= |w.writes|
    ensures w.answers[j].value == Current(w.writes[..w.answers[j].writes], w.answers[j].name)
  {
    RunOk(START, es, d);
    var a := w.answers[j];
    assert AnswerOk(w, a, d);
    UnchangedCurrent(w.writes, a.name, a.mark.version, a.writes);
  }

  /** A read the database could not answer gives out the empty string and changes nothing that is held. */
  lemma FailureHoldsNothing(w: World, i: nat)
    requires i < |w.readers| && w.readers[i].Missed?
    ensures var v := StepReader(w, i, false);
            && v.entries == w.entries && v.marks == w.marks && v.answers == w.answers
            && v.failed == w.failed + [w.readers[i].name]
  {
  }

  /** In every run, whatever reads failed on the way, what is held is a value the database had when it was read. */
  lemma HeldWasRead(es: seq<Event>, w: World, d: int, name: string)
    requires Prompt(START, es, d) && w == Run(START, es) && name in w.entries
    ensures name in w.marks && Read(w, name, w.entries[name].value, w.marks[name])
  {
    RunOk(START, es, d);
    assert EntryOk(w, name, w.entries[name], w.marks[name], d);
  }

  // ---------- reads never go backwards ----------

  predicate UnderWay(r: Reader, name: string) {
    !r.Over? && r.name == name
  }

  /** Gets of one setting do not overlap; gets of others, clears, changes of the period and writes go on meanwhile. */
  predicate OneAtATime(w: World, e: Event) {
    e.Ask? ==> forall i | 0 <= i < |w.readers| :: !UnderWay(w.readers[i], e.name)
  }

  predicate SerialRun(w: World, es: seq<Event>)
    decreases |es|
  {
    es == [] || (OneAtATime(w, es[0]) && SerialRun(Next(w, es[0]), es[1..]))
  }

  /** Not older than any answer given for the setting. */
  predicate NotBehind(w: World, name: string, mark: Mark) {
    forall j | 0 <= j < |w.answers| && w.answers[j].name == name :: w.answers[j].mark.version <= mark.version
  }

  predicate HeldAhead(w: World, name: string) {
    name in w.marks ==> NotBehind(w, name, w.marks[name]) && w.marks[name].version <= |w.writes|
  }

  predicate ReaderAhead(w: World, r: Reader) {
    match r
    case Looking(name) => HeldAhead(w, name)
    case Looked(name, _, mark) =>
      NotBehind(w, name, mark) && mark.version <= |w.writes| && (name in w.marks ==> w.marks[name] == mark)
    case Fetched(name, _, mark) => NotBehind(w, name, mark) && mark.version <= |w.writes|
    case Storing(name, _, mark) => NotBehind(w, name, mark) && mark.version <= |w.writes|
    case _ => true
  }

  predicate AnswersForward(w: World) {
    && (forall j | 0 <= j < |w.answers| :: w.answers[j].mark.version <= |w.writes|)
    && (forall j, k | 0 <= j < k < |w.answers| && w.answers[j].name == w.answers[k].name ::
          w.answers[j].mark.version <= w.answers[k].mark.version)
  }

  /** While holding is off, what is held is not looked at, and turning it on clears it. */
  predicate HeldForward(w: World) {
    w.ttl > 0 ==> forall name | name in w.marks :: HeldAhead(w, name)
  }

  predicate ReadersForward(w: World) {
    && (forall i | 0 <= i < |w.readers| :: ReaderAhead(w, w.readers[i]))
    && (forall i, j | 0 <= i < j < |w.readers| && !w.readers[i].Over? :: !UnderWay(w.readers[j], w.readers[i].name))
  }

  predicate Forward(w: World) {
    AnswersForward(w) && HeldForward(w) && ReadersForward(w)
  }

  /** A step of reader i, after which it is under way for the same setting or over. */
  predicate ReaderSteps(w: World, v: World, i: nat)
    requires i < |w.readers|
  {
    && |v.readers| == |w.readers| && v.readers == w.readers[i := v.readers[i]] && !w.readers[i].Over?
    && (v.readers[i].Over? || v.readers[i].name == w.readers[i].name)
    && v.writes == w.writes && v.ttl == w.ttl
  }

  /** What the readers of other settings have seen stays ahead: nothing was answered or held for them. */
  lemma OthersAhead(w: World, v: World, i: nat, j: nat)
    requires ReadersForward(w) && i < |w.readers| && j < |w.readers| && j != i && ReaderSteps(w, v, i)
    requires w.answers <= v.answers
    requires forall k | |w.answers| <= k < |v.answers| :: v.answers[k].name == w.readers[i].name
    requires forall n | n in v.marks && n != w.readers[i].name :: n in w.marks && v.marks[n] == w.marks[n]
    ensures ReaderAhead(v, w.readers[j])
  {
    assert ReaderAhead(w, w.readers[j]);
    assert w.readers[j].Over? || w.readers[j].name != w.readers[i].name;
  }

  /** The readers after a step of reader i, when its own new state is ahead. */
  lemma ReadersStep(w: World, v: World, i: nat)
    requires ReadersForward(w) && i < |w.readers| && ReaderSteps(w, v, i) && ReaderAhead(v, v.readers[i])
    requires w.answers <= v.answers
    requires forall k | |w.answers| <= k < |v.answers| :: v.answers[k].name == w.readers[i].name
    requires forall n | n in v.marks && n != w.readers[i].name :: n in w.marks && v.marks[n] == w.marks[n]
    ensures ReadersForward(v)
  {
    forall j | 0 <= j < |v.readers| ensures ReaderAhead(v, v.readers[j]) {
      if j != i { OthersAhead(w, v, i, j); }
    }
  }

  /** An answer given from a mark that is not behind. */
  predicate Gives(w: World, v: World, name: string, mark: Mark) {
    && NotBehind(w, name, mark) && mark.version <= |w.writes| && v.writes == w.writes
    && |v.answers| == |w.answers| + 1 && v.answers[..|w.answers|] == w.answers
    && v.answers[|w.answers|].name == name && v.answers[|w.answers|].mark == mark
  }

  lemma GivesForward(w: World, v: World, name: string, mark: Mark)
    requires AnswersForward(w) && Gives(w, v, name, mark)
    ensures AnswersForward(v) && NotBehind(v, name, mark)
    ensures forall n, m | n != name && NotBehind(w, n, m) :: NotBehind(v, n, m)
  {
    forall j | 0 <= j < |w.answers| ensures v.answers[j] == w.answers[j] {
      assert v.answers[..|w.answers|][j] == w.answers[j];
    }
  }

  /** The held entry of the setting is the mark, or there is none; those of the others are as they were. */
  lemma HeldAfterGiving(w: World, v: World, name: string, mark: Mark)
    requires AnswersForward(w) && HeldForward(w) && Gives(w, v, name, mark) && v.ttl == w.ttl
    requires name in v.marks ==> v.marks[name] == mark
    requires forall n | n in v.marks && n != name :: n in w.marks && v.marks[n] == w.marks[n]
    ensures HeldForward(v)
  {
    GivesForward(w, v, name, mark);
    if v.ttl > 0 {
      forall n | n in v.marks ensures HeldAhead(v, n) { assert n != name ==> HeldAhead(w, n); }
    }
  }

  lemma HeldStep(w: World, i: nat)
    requires Forward(w) && i < |w.readers| && w.readers[i].Looked?
    ensures Forward(StepReader(w, i, true))
  {
    var v, r := StepReader(w, i, true), w.readers[i];
    assert ReaderAhead(w, r);
    if v.readers[i].Over? {
      assert v.answers[..|w.answers|] == w.answers;
      GivesForward(w, v, r.name, r.mark);
      HeldAfterGiving(w, v, r.name, r.mark);
    }
    ReadersStep(w, v, i);
  }

  lemma FetchedStep(w: World, i: nat)
    requires Forward(w) && i < |w.readers| && w.readers[i].Fetched?
    ensures Forward(StepReader(w, i, true))
  {
    var v, r := StepReader(w, i, true), w.readers[i];
    assert ReaderAhead(w, r);
    if v.readers[i].Over? {
      assert v.answers[..|w.answers|] == w.answers;
      GivesForward(w, v, r.name, r.mark);
    }
    ReadersStep(w, v, i);
  }

  lemma StoringStep(w: World, i: nat)
    requires Forward(w) && i < |w.readers| && w.readers[i].Storing?
    ensures Forward(StepReader(w, i, true))
  {
    var v, r := StepReader(w, i, true), w.readers[i];
    assert ReaderAhead(w, r);
    assert v.answers[..|w.answers|] == w.answers;
    GivesForward(w, v, r.name, r.mark);
    HeldAfterGiving(w, v, r.name, r.mark);
    ReadersStep(w, v, i);
  }

  /** Looking at the entries, or asking the database, which has every version there is. */
  lemma AskingStep(w: World, i: nat, reachable: bool)
    requires Forward(w) && i < |w.readers|
    requires w.readers[i].Asked? || w.readers[i].Looking? || w.readers[i].Missed?
    ensures Forward(StepReader(w, i, reachable))
  {
    var v, r := StepReader(w, i, reachable), w.readers[i];
    assert ReaderAhead(w, r);
    if r.Asked? && w.ttl > 0 { assert HeldAhead(w, r.name); }
    ReadersStep(w, v, i);
  }

  lemma StepForward(w: World, i: nat, reachable: bool)
    requires Forward(w) && i < |w.readers|
    ensures Forward(StepReader(w, i, reachable))
  {
    match w.readers[i]
    case Looked(_, _, _) => HeldStep(w, i);
    case Fetched(_, _, _) => FetchedStep(w, i);
    case Storing(_, _, _) => StoringStep(w, i);
    case Over =>
    case _ => AskingStep(w, i, reachable);
  }

  lemma OtherForward(w: World, e: Event)
    requires Forward(w) && OneAtATime(w, e) && !e.Step?
    ensures Forward(Next(w, e))
  {
    var v := Next(w, e);
    forall j | 0 <= j < |v.readers| ensures ReaderAhead(v, v.readers[j]) {
      if j < |w.readers| { assert ReaderAhead(w, w.readers[j]); }
    }
    if v.ttl > 0 {
      forall name | name in v.marks ensures HeldAhead(v, name) { assert HeldAhead(w, name); }
    }
  }

  lemma NextForward(w: World, e: Event)
    requires Forward(w) && OneAtATime(w, e)
    ensures Forward(Next(w, e))
  {
    if !e.Step? { OtherForward(w, e); } else if e.i < |w.readers| { StepForward(w, e.i, e.reachable); }
  }

  lemma {:induction false} RunForward(w: World, es: seq<Event>)
    requires Forward(w) && SerialRun(w, es)
    ensures Forward(Run(w, es))
    decreases |es|
  {
    if es != [] {
      NextForward(w, es[0]);
      RunForward(Next(w, es[0]), es[1..]);
    }
  }

  /**
   When the gets of one setting come one after the other, successive answers for it come from database versions that
   never decrease, whatever gets of other settings, clears and changes of the period overlap them.
   */
  lemma NeverBackwards(es: seq<Event>, w: World, j: nat, k: nat)
    requires SerialRun(START, es) && w == Run(START, es)
    requires j < k < |w.answers| && w.answers[j].name == w.answers[k].name
    ensures w.answers[j].mark.version <= w.answers[k].mark.version
  {
    RunForward(START, es);
  }

  /** n steps of one reader, with nobody in between. */
  function Steps(w: World, i: nat, n: nat): World
    decreases n
  {
    if n == 0 then w else Steps(Next(w, Step(i, true)), i, n - 1)
  }

  lemma {:induction false} OverStays(w: World, i: nat, n: nat)
    requires i < |w.readers| && w.readers[i].Over?
    ensures Steps(w, i, n) == w
    decreases n
  {
    if n > 0 {
      assert Next(w, Step(i, true)) == w;
      OverStays(w, i, n - 1);
    }
  }

  /** A fresh entry is looked at and given out. */
  lemma HeldGet(w: World, i: nat, name: string)
    requires w.entries.Keys == w.marks.Keys && i < |w.readers| && w.readers[i] == Asked(name)
    requires w.ttl > 0 && name in w.entries && Fresh(w.entries[name], w.ttl, w.now)
    ensures var u := Steps(w, i, 3);
            && u.answers
               == w.answers + [Answer(name, w.entries[name].value, w.marks[name], w.now, true, w.ttl, |w.writes|)]
            && u.entries == w.entries && |u.readers| == |w.readers| && u.readers[i].Over?
  {
    var s, v := Step(i, true), Put(w, i, Looking(name));
    var h := Put(v, i, Looked(name, w.entries[name], w.marks[name]));
    assert Next(w, s) == v && Next(v, s) == h;
    assert Steps(w, i, 3) == Steps(v, i, 2) == Steps(h, i, 1) == Steps(Next(h, s), i, 0);
  }

  /** A look at the entries that finds nothing fresh, in k steps. */
  lemma MissedLook(w: World, i: nat, name: string) returns (k: nat)
    requires w.entries.Keys == w.marks.Keys && i < |w.readers| && w.readers[i] == Asked(name)
    requires !(w.ttl > 0 && name in w.entries && Fresh(w.entries[name], w.ttl, w.now))
    ensures 1 <= k <= 3 && Steps(w, i, k) == Put(w, i, Missed(name))
  {
    var s, v, m := Step(i, true), Put(w, i, Looking(name)), Put(w, i, Missed(name));
    if w.ttl <= 0 {
      assert Steps(w, i, 1) == Steps(m, i, 0);
      k := 1;
    } else if name !in w.entries {
      assert Next(w, s) == v && Put(v, i, Missed(name)) == m;
      assert Steps(w, i, 2) == Steps(v, i, 1) == Steps(m, i, 0);
      k := 2;
    } else {
      var h := Put(v, i, Looked(name, w.entries[name], w.marks[name]));
      assert Next(w, s) == v && Next(v, s) == h && Put(h, i, Missed(name)) == m;
      assert Steps(w, i, 3) == Steps(v, i, 2) == Steps(h, i, 1) == Steps(m, i, 0);
      k := 3;
    }
  }

  /** A value is held from the time it is stored, not from the time it was read. */
  lemma HeldFromStoring(w: World, i: nat, name: string, value: string, mark: Mark, later: int)
    requires i < |w.readers| && w.readers[i] == Storing(name, value, mark) && later >= w.now
    ensures var u := Next(Next(w, Tick(later)), Step(i, true));
            && u.entries == w.entries[name := Held(value, later)] && u.marks == w.marks[name := mark]
            && u.answers == w.answers + [Answer(name, value, mark, later, false, w.ttl, |w.writes|)]
            && u.readers == w.readers[i := Over]
  {
  }

  /** What a get that reads the database leaves behind. */
  predicate ReadFrom(m: World, u: World, name: string) {
    && |u.answers| == |m.answers| + 1 && u.answers[|m.answers|].name == name
    && u.answers[|m.answers|].value == Current(m.writes, name)
    && u.entries == if m.ttl <= 0 then m.entries else m.entries[name := Held(Current(m.writes, name), m.now)]
  }

  lemma DatabaseGet(m: World, i: nat, name: string)
    requires i < |m.readers| && m.readers[i] == Missed(name)
    ensures var u := Steps(m, i, 3); ReadFrom(m, u, name) && i < |u.readers| && u.readers[i].Over?
  {
    var s := Step(i, true);
    var a := Next(m, s);
    var b := Next(a, s);
    assert a == Put(m, i, Fetched(name, Current(m.writes, name), Mark(|m.writes|, m.now)));
    assert Steps(m, i, 3) == Steps(a, i, 2) == Steps(b, i, 1) == Steps(Next(b, s), i, 0);
  }

  lemma OneStep(w: World, i: nat, n: nat)
    requires n > 0
    ensures Steps(w, i, n) == Steps(Next(w, Step(i, true)), i, n - 1)
  {
  }

  lemma {:induction false} StepsAdd(w: World, i: nat, m: nat, n: nat)
    ensures Steps(w, i, m + n) == Steps(Steps(w, i, m), i, n)
    decreases m
  {
    if m > 0 {
      var v := Next(w, Step(i, true));
      StepsAdd(v, i, m - 1, n);
      OneStep(w, i, m);
      OneStep(w, i, m + n);
    }
  }

  /** Steps past the end of a get are none. */
  lemma StepsPast(w: World, i: nat, k: nat, n: nat)
    requires k <= n && i < |Steps(w, i, k).readers| && Steps(w, i, k).readers[i].Over?
    ensures Steps(w, i, n) == Steps(w, i, k)
  {
    StepsAdd(w, i, k, n - k);
    OverStays(Steps(w, i, k), i, n - k);
  }

  lemma MissedGet(w: World, i: nat, name: string)
    requires w.entries.Keys == w.marks.Keys && i < |w.readers| && w.readers[i] == Asked(name)
    requires !(w.ttl > 0 && name in w.entries && Fresh(w.entries[name], w.ttl, w.now))
    ensures ReadFrom(w, Steps(w, i, 6), name)
  {
    var k := MissedLook(w, i, name);
    var m := Put(w, i, Missed(name));
    DatabaseGet(m, i, name);
    StepsAdd(w, i, k, 3);
    StepsPast(w, i, k + 3, 6);
  }

  /** A get that nothing interrupts, six steps at most, is the method above, asking the database as it stands. */
  lemma UninterruptedGet(w: World, i: nat, name: string)
    requires w.entries.Keys == w.marks.Keys && i < |w.readers| && w.readers[i] == Asked(name)
    ensures var u := Steps(w, i, 6);
            if w.ttl > 0 && name in w.entries && w.now - w.entries[name].fetchedAt < w.ttl
            then |u.answers| == |w.answers| + 1 && u.answers[|w.answers|].name == name
                 && u.answers[|w.answers|].value == w.entries[name].value && u.entries == w.entries
            else ReadFrom(w, u, name)
  {
    if w.ttl > 0 && name in w.entries && Fresh(w.entries[name], w.ttl, w.now) {
      HeldGet(w, i, name);
      StepsPast(w, i, 3, 6);
    } else {
      MissedGet(w, i, name);
    }
  }
}
