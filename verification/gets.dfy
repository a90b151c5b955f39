/**
 Overlapping gets of one setting: answers never go backwards exactly when its gets come one after the other, and a
 concrete run in which they go backwards.
 */
module Gets {
  import opened Settings

  lemma RunCons(w: World, e: Event, es: seq<Event>)
    ensures Run(w, [e] + es) == Run(Next(w, e), es)
  {
    assert ([e] + es)[1..] == es;
  }

  lemma {:induction false} RunSplit(w: World, es: seq<Event>, fs: seq<Event>)
    ensures Run(w, es + fs) == Run(Run(w, es), fs)
    decreases |es|
  {
    if es == [] {
      assert es + fs == fs;
    } else {
      RunSplit(Next(w, es[0]), es[1..], fs);
      assert (es + fs)[1..] == es[1..] + fs;
    }
  }

  // ---------- overlapping gets can always go backwards ----------

  function StepEvents(i: nat, n: nat): seq<Event>
    decreases n
  {
    if n == 0 then [] else [Step(i, true)] + StepEvents(i, n - 1)
  }

  lemma {:induction false} RunSteps(w: World, i: nat, n: nat)
    ensures Run(w, StepEvents(i, n)) == Steps(w, i, n)
    ensures forall e | e in StepEvents(i, n) :: !e.Ask?
    decreases n
  {
    if n > 0 {
      RunSteps(Next(w, Step(i, true)), i, n - 1);
      RunCons(w, Step(i, true), StepEvents(i, n - 1));
      OneStep(w, i, n);
    }
  }

  lemma {:induction false} NoAsks(w: World, es: seq<Event>)
    requires forall e | e in es :: !e.Ask?
    ensures SerialRun(w, es)
    decreases |es|
  {
    if es != [] {
      assert !es[0].Ask?;
      NoAsks(Next(w, es[0]), es[1..]);
    }
  }

  /** The get has its value and will give it out, holding being off. */
  predicate HasRead(r: Reader, name: string, version: nat) {
    (r.Fetched? || r.Storing?) && r.name == name && r.mark.version <= version
  }

  /** Holding is off, nothing is held, and reader i has no entry that would still be fresh. */
  predicate Bare(w: World, i: nat) {
    && w.ttl == 0 && w.entries == map[] && i < |w.readers|
    && (w.readers[i].Looked? ==> !Fresh(w.readers[i].held, 0, w.now))
  }

  lemma MissedReads(w: World, i: nat, name: string)
    requires i < |w.readers|
    ensures var v := Put(w, i, Missed(name));
            var u := Steps(v, i, 1);
            u == Put(w, i, u.readers[i]) && HasRead(u.readers[i], name, |w.writes|)
  {
    var v := Put(w, i, Missed(name));
    assert Steps(v, i, 1) == Steps(Next(v, Step(i, true)), i, 0);
  }

  /** Wherever a get under way is, at most two of its own steps take it to a value it has read. */
  lemma BringToRead(w: World, i: nat, name: string) returns (k: nat)
    requires Bare(w, i) && UnderWay(w.readers[i], name) && ReaderAhead(w, w.readers[i])
    ensures var u := Steps(w, i, k);
            |u.readers| == |w.readers| && u == Put(w, i, u.readers[i]) && HasRead(u.readers[i], name, |w.writes|)
  {
    var r, m := w.readers[i], Put(w, i, Missed(name));
    if r.Fetched? || r.Storing? {
      assert w.readers[i := r] == w.readers;
      k := 0;
    } else {
      MissedReads(w, i, name);
      if r.Missed? {
        assert m == w;
        k := 1;
      } else {
        assert Next(w, Step(i, true)) == m;
        OneStep(w, i, 2);
        k := 2;
      }
    }
  }

  /** One more answer, for the setting and from this version or an older one; holding stays off. */
  predicate Answers(w: World, u: World, name: string, version: nat) {
    && |u.answers| == |w.answers| + 1 && u.answers[..|w.answers|] == w.answers
    && u.answers[|w.answers|].name == name && u.answers[|w.answers|].mark.version <= version
  }

  lemma OldAnswers(w: World, i: nat, name: string, version: nat)
    requires w.ttl == 0 && i < |w.readers| && HasRead(w.readers[i], name, version)
    ensures Answers(w, Steps(w, i, 1), name, version)
  {
    assert Steps(w, i, 1) == Steps(Next(w, Step(i, true)), i, 0);
  }

  /** The new get reads the table as it stands and answers in three steps; the others stay where they are. */
  lemma NewAnswers(w: World, j: nat, name: string)
    requires w.ttl == 0 && j < |w.readers| && w.readers[j] == Asked(name)
    ensures var u := Steps(w, j, 3);
            && Answers(w, u, name, |w.writes|) && u.answers[|w.answers|].mark.version == |w.writes|
            && u.readers == w.readers[j := Over] && u.ttl == 0 && u.writes == w.writes
  {
    var s, m := Step(j, true), Put(w, j, Missed(name));
    var f := Put(w, j, Fetched(name, Current(w.writes, name), Mark(|w.writes|, w.now)));
    assert w.readers[j := Missed(name)][j := f.readers[j]] == f.readers;
    assert Next(w, s) == m && Next(m, s) == f;
    assert w.readers[j := f.readers[j]][j := Over] == w.readers[j := Over];
    assert Steps(w, j, 3) == Steps(m, j, 2) == Steps(f, j, 1) == Steps(Next(f, s), j, 0);
  }

  lemma LastTwoBackwards(w: World, u: World, v: World, name: string)
    requires Answers(w, u, name, |w.writes|) && u.answers[|w.answers|].mark.version == |w.writes| && |w.writes| > 0
    requires Answers(u, v, name, |w.writes| - 1)
    ensures !AnswersForward(v)
  {
    var n := |w.answers|;
    assert v.answers[..n + 1][n] == u.answers[n];
    assert v.answers[n].mark.version > v.answers[n + 1].mark.version;
  }

  /** The setting changes, the new get answers, and then the old one. */
  function Overtake(i: nat, j: nat, name: string): seq<Event> {
    [Change(name, "")] + (StepEvents(j, 3) + StepEvents(i, 1))
  }

  lemma OvertakeRun(w: World, i: nat, j: nat, name: string)
    requires w.ttl == 0 && i < |w.readers| && j < |w.readers| && i != j
    requires HasRead(w.readers[i], name, |w.writes|) && w.readers[j] == Asked(name)
    ensures !AnswersForward(Run(w, Overtake(i, j, name)))
    ensures forall e | e in Overtake(i, j, name) :: !e.Ask?
  {
    var c := Next(w, Change(name, ""));
    var u := Steps(c, j, 3);
    NewAnswers(c, j, name);
    OldAnswers(u, i, name, |w.writes|);
    LastTwoBackwards(c, u, Steps(u, i, 1), name);
    RunSteps(c, j, 3);
    RunSteps(u, i, 1);
    RunSplit(c, StepEvents(j, 3), StepEvents(i, 1));
    RunCons(w, Change(name, ""), StepEvents(j, 3) + StepEvents(i, 1));
  }

  /** Holding is turned off, and time goes on until no entry the get has looked at is fresh. */
  function Baring(w: World, i: nat): seq<Event>
    requires i < |w.readers|
  {
    var r := w.readers[i];
    [SetPeriod(0)] + ([Tick(if r.Looked? && r.held.fetchedAt > w.now then r.held.fetchedAt else w.now)] + [])
  }

  lemma BaringRun(w: World, i: nat)
    requires i < |w.readers| && ReaderAhead(w, w.readers[i])
    ensures var u := Run(w, Baring(w, i));
            && Bare(u, i) && u.readers == w.readers && u.writes == w.writes && ReaderAhead(u, u.readers[i])
  {
    var r, v := w.readers[i], Next(w, SetPeriod(0));
    var t := Tick(if r.Looked? && r.held.fetchedAt > w.now then r.held.fetchedAt else w.now);
    RunCons(v, t, []);
    RunCons(w, SetPeriod(0), [t] + []);
  }

  lemma Goes(w: World, es: seq<Event>, fs: seq<Event>)
    requires (forall e | e in es :: !e.Ask?) && (forall e | e in fs :: !e.Ask?)
    requires !AnswersForward(Run(Run(w, es), fs))
    ensures !AnswersForward(Run(w, es + fs)) && forall e | e in es + fs :: !e.Ask?
  {
    RunSplit(w, es, fs);
  }

  /** Two gets of one setting under way, the second just asked for: some run from there goes backwards. */
  lemma TwoGetsGoBack(w: World, i: nat, j: nat, name: string) returns (es: seq<Event>)
    requires i < |w.readers| && j < |w.readers| && i != j && w.readers[j] == Asked(name)
    requires UnderWay(w.readers[i], name) && ReaderAhead(w, w.readers[i])
    ensures SerialRun(w, es) && !AnswersForward(Run(w, es))
  {
    var u := Run(w, Baring(w, i));
    BaringRun(w, i);
    var k := BringToRead(u, i, name);
    var v := Steps(u, i, k);
    OvertakeRun(v, i, j, name);
    RunSteps(u, i, k);
    Goes(u, StepEvents(i, k), Overtake(i, j, name));
    es := Baring(w, i) + (StepEvents(i, k) + Overtake(i, j, name));
    Goes(w, Baring(w, i), StepEvents(i, k) + Overtake(i, j, name));
    NoAsks(w, es);
  }

  /**
   The rule is exact: a get may be asked for without any later answer going backwards if and only if no other get of
   the setting is under way.
   */
  lemma NeverBackwardsIff(w: World, name: string)
    requires Forward(w)
    ensures var v := Next(w, Ask(name));
            OneAtATime(w, Ask(name)) <==> forall es | SerialRun(v, es) :: AnswersForward(Run(v, es))
  {
    var v := Next(w, Ask(name));
    if OneAtATime(w, Ask(name)) {
      NextForward(w, Ask(name));
      forall es | SerialRun(v, es) ensures AnswersForward(Run(v, es)) { RunForward(v, es); }
    } else {
      var i :| 0 <= i < |w.readers| && UnderWay(w.readers[i], name);
      assert ReaderAhead(w, w.readers[i]);
      var es := TwoGetsGoBack(v, i, |w.readers|, name);
    }
  }

  // ---------- one such run ----------

  /** One get has read the setting before it changes, another is asked after. */
  const BEHIND := World(0, [Write(0, "N", "new")], 10, map[], map[], [Fetched("N", "", Mark(0, 0)), Asked("N")], [], [])

  lemma SlowGet() returns (es: seq<Event>)
    ensures Run(START, es) == BEHIND
  {
    var c, w1 := Change("N", "new"), Next(START, Ask("N"));
    var w4 := Steps(w1, 0, 3);
    assert Steps(w1, 0, 3) == Steps(Next(w1, Step(0, true)), 0, 2);
    assert w4.readers == [Fetched("N", "", Mark(0, 0))] && w4 == w1.(readers := w4.readers);
    var w5 := Next(w4, c);
    es := [Ask("N")] + (StepEvents(0, 3) + ([c] + ([Ask("N")] + [])));
    RunCons(w5, Ask("N"), []);
    RunCons(w4, c, [Ask("N")] + []);
    RunSteps(w1, 0, 3);
    RunSplit(w1, StepEvents(0, 3), [c] + ([Ask("N")] + []));
    RunCons(START, Ask("N"), StepEvents(0, 3) + ([c] + ([Ask("N")] + [])));
  }

  lemma FastGetFirst() returns (es: seq<Event>)
    ensures var w := Run(BEHIND, es);
            && |w.answers| == 2 && w.answers[0].name == w.answers[1].name
            && w.answers[0].mark == Mark(1, 0) && w.answers[1].mark == Mark(0, 0)
            && w.marks == map["N" := w.answers[1].mark]
  {
    var b, a := Step(1, true), Step(0, true);
    var w1 := Next(BEHIND, b);
    var w2 := Next(w1, b);
    var w3 := Next(w2, b);
    assert w3.readers[1] == Fetched("N", "new", Mark(1, 0));
    var w4 := Next(w3, b);
    var w5 := Next(w4, b);
    assert w5.readers[0] == Fetched("N", "", Mark(0, 0));
    var w6 := Next(w5, a);
    es := [b] + ([b] + ([b] + ([b] + ([b] + ([a] + ([a] + []))))));
    RunCons(w6, a, []);
    RunCons(w5, a, [a] + []);
    RunCons(w4, b, [a] + ([a] + []));
    RunCons(w3, b, [b] + ([a] + ([a] + [])));
    RunCons(w2, b, [b] + ([b] + ([a] + ([a] + []))));
    RunCons(w1, b, [b] + ([b] + ([b] + ([a] + ([a] + [])))));
    RunCons(BEHIND, b, [b] + ([b] + ([b] + ([b] + ([a] + ([a] + []))))));
  }

  /** Overlapping gets can go backwards: a slow one gives out, and holds, the value of before the change. */
  lemma OverlappingGetsGoBack() returns (es: seq<Event>)
    ensures var w := Run(START, es);
            && |w.answers| == 2 && w.answers[0].name == w.answers[1].name
            && w.answers[1].mark.version < w.answers[0].mark.version
            && w.marks == map["N" := w.answers[1].mark]
  {
    var slow := SlowGet();
    var fast := FastGetFirst();
    RunSplit(START, slow, fast);
    es := slow + fast;
  }
}
