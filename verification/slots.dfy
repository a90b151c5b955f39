/**
 The cap on requests handled at once (ratelimit/concurrency.go), wrapped around the rate limiter as the external
 API wraps it.
 */
module Slots {
  import opened Limiters

  class ConcurrencyLimiter {
    const cap: nat
    var taken: nat

    constructor (maxInFlight: int)
      ensures taken == 0 && cap == Cap(maxInFlight)
      ensures cap == if maxInFlight < 1 then 1 else maxInFlight
    {
      cap := if maxInFlight < 1 then 1 else maxInFlight;
      taken := 0;
    }

    method TakeSlot() returns (ok: bool)
      requires taken <= cap
      modifies this`taken
      ensures taken <= cap && ok == (old(taken) < cap) && (taken, ok) == Take(old(taken), cap)
    {
      ok := taken < cap;
      if ok { taken := taken + 1; }
    }

    method GiveSlot()
      requires 0 < taken <= cap
      modifies this`taken
      ensures taken == old(taken) - 1 == GiveBack(old(taken))
    {
      taken := taken - 1;
    }
  }

  /** The send to the channel that does not block: the slots taken afterwards, and whether one was had. */
  function Take(taken: nat, cap: nat): (nat, bool) {
    if taken < cap then (taken + 1, true) else (taken, false)
  }

  /** The deferred receive. */
  function GiveBack(taken: nat): nat {
    if taken > 0 then taken - 1 else 0
  }

  function Cap(maxInFlight: int): nat {
    if maxInFlight < 1 then 1 else maxInFlight
  }

  /** A request holding a slot: before the rate limiter, in its handler, or refused by the rate limiter. */
  datatype Stage = Entered(key: string) | Handling | Refused

  /** `passed` are the requests that reached the rate limiter, `busy` counts the answers of 503. */
  datatype World = World(taken: nat, requests: map<nat, Stage>, table: Table, passed: seq<Request>, busy: nat)

  datatype Event =
    | Arrive(id: nat, key: string)
    | Limit(id: nat, at: real)
    | Leave(id: nat)

  function Next(w: World, e: Event, cap: nat, p: Params): World {
    match e
    case Arrive(id, key) =>
      if id in w.requests then w else
      var (taken, ok) := Take(w.taken, cap);
      if ok then w.(taken := taken, requests := w.requests[id := Entered(key)]) else w.(busy := w.busy + 1)
    case Limit(id, at) =>
      if id !in w.requests || !w.requests[id].Entered? then w else
      var key := w.requests[id].key;
      var (table, ok) := Admit(p, w.table, key, at);
      w.(table := table, passed := w.passed + [Request(key, at)],
         requests := w.requests[id := if ok then Handling else Refused])
    case Leave(id) =>
      // on return and on panic alike
      if id in w.requests then w.(taken := GiveBack(w.taken), requests := w.requests - {id}) else w
  }

  function Run(w: World, es: seq<Event>, cap: nat, p: Params): World
    decreases |es|
  {
    if es == [] then w else Run(Next(w, es[0], cap, p), es[1..], cap, p)
  }

  const IDLE := World(0, map[], map[], [], 0)

  predicate SlotsOk(w: World, cap: nat, p: Params) {
    w.taken == |w.requests| <= cap && w.table == After(p, map[], w.passed)
  }

  lemma {:induction false} AfterOneMore(p: Params, m: Table, trace: seq<Request>, r: Request)
    ensures After(p, m, trace + [r]) == Admit(p, After(p, m, trace), r.key, r.at).0
    decreases |trace|
  {
    if trace == [] {
      assert trace + [r] == [r];
    } else {
      AfterOneMore(p, Admit(p, m, trace[0].key, trace[0].at).0, trace[1..], r);
      assert (trace + [r])[1..] == trace[1..] + [r];
    }
  }

  lemma ArriveSlots(w: World, id: nat, key: string, cap: nat, p: Params)
    requires SlotsOk(w, cap, p)
    ensures SlotsOk(Next(w, Arrive(id, key), cap, p), cap, p)
  {
    var v := Next(w, Arrive(id, key), cap, p);
    if v.taken > w.taken { OneMoreKey(w.requests, id, Entered(key)); }
  }

  lemma OneMoreKey(m: map<nat, Stage>, id: nat, x: Stage)
    requires id !in m
    ensures |m[id := x]| == |m| + 1
  {
    assert m[id := x].Keys == m.Keys + {id};
  }

  lemma LimitSlots(w: World, id: nat, at: real, cap: nat, p: Params)
    requires SlotsOk(w, cap, p)
    ensures SlotsOk(Next(w, Limit(id, at), cap, p), cap, p)
  {
    if id in w.requests && w.requests[id].Entered? {
      AfterOneMore(p, map[], w.passed, Request(w.requests[id].key, at));
      assert Next(w, Limit(id, at), cap, p).requests.Keys == w.requests.Keys;
    }
  }

  lemma LeaveSlots(w: World, id: nat, cap: nat, p: Params)
    requires SlotsOk(w, cap, p)
    ensures SlotsOk(Next(w, Leave(id), cap, p), cap, p)
    ensures id in w.requests ==> w.taken > 0
  {
    if id in w.requests {
      assert w.requests.Keys != {};
      assert Next(w, Leave(id), cap, p).requests.Keys == w.requests.Keys - {id};
    }
  }

  lemma NextSlots(w: World, e: Event, cap: nat, p: Params)
    requires SlotsOk(w, cap, p)
    ensures SlotsOk(Next(w, e, cap, p), cap, p)
  {
    match e
    case Arrive(id, key) => ArriveSlots(w, id, key, cap, p);
    case Limit(id, at) => LimitSlots(w, id, at, cap, p);
    case Leave(id) => LeaveSlots(w, id, cap, p);
  }

  /** Slots taken are requests inside, within the cap, and the rate table is that of the requests let through. */
  lemma {:induction false} SlotsAreConserved(w: World, es: seq<Event>, cap: nat, p: Params)
    requires SlotsOk(w, cap, p)
    ensures SlotsOk(Run(w, es, cap, p), cap, p)
    decreases |es|
  {
    if es != [] {
      NextSlots(w, es[0], cap, p);
      SlotsAreConserved(Next(w, es[0], cap, p), es[1..], cap, p);
    }
  }

  /** From the start, under any arrivals, returns and panics. */
  lemma SlotConservation(es: seq<Event>, maxInFlight: int, p: Params)
    ensures var w := Run(IDLE, es, Cap(maxInFlight), p);
            && w.taken == |w.requests| <= Cap(maxInFlight)
            && w.table == After(p, map[], w.passed)
  {
    SlotsAreConserved(IDLE, es, Cap(maxInFlight), p);
  }

  /** A request is answered 503 exactly when the slots are full, and then it takes no slot and no rate token. */
  lemma BusyTakesNothing(w: World, id: nat, key: string, cap: nat, p: Params)
    requires SlotsOk(w, cap, p) && id !in w.requests
    ensures var v := Next(w, Arrive(id, key), cap, p);
            && (v.busy > w.busy <==> |w.requests| == cap)
            && (v.busy > w.busy ==> v.table == w.table && v.passed == w.passed && v.requests == w.requests)
  {
  }

  /** A request inside goes on to its handler if and only if the rate limiter's answer to it, in their order, is yes. */
  lemma HandledIff(w: World, id: nat, at: real, cap: nat, p: Params)
    requires SlotsOk(w, cap, p) && id in w.requests && w.requests[id].Entered?
    ensures var r, v := Request(w.requests[id].key, at), Next(w, Limit(id, at), cap, p);
            && v.passed == w.passed + [r] && id in v.requests && v.requests[id] in {Handling, Refused}
            && Answers(p, map[], v.passed, r.key)
               == Answers(p, map[], w.passed, r.key) + [v.requests[id] == Handling]
  {
    var r, m := Request(w.requests[id].key, at), After(p, map[], w.passed);
    SplitAnswers(p, map[], w.passed, [r], r.key);
    AnswersCons(p, m, r, [], r.key);
    assert [r] + [] == [r];
  }

  // ---------- requests turned away ----------

  /** The events of a run without the arrivals that it turns away. */
  function Served(w: World, es: seq<Event>, cap: nat, p: Params): seq<Event>
    decreases |es|
  {
    if es == [] then [] else
    var v := Next(w, es[0], cap, p);
    (if v.busy > w.busy then [] else [es[0]]) + Served(v, es[1..], cap, p)
  }

  lemma BusyOnlyCounts(w: World, e: Event, cap: nat, p: Params, busy: nat)
    ensures var v := Next(w, e, cap, p);
            && v.busy >= w.busy && (v.busy > w.busy ==> v == w.(busy := v.busy))
            && Next(w.(busy := busy), e, cap, p).(busy := 0) == v.(busy := 0)
            && (v.busy == w.busy ==> Next(w.(busy := busy), e, cap, p) == v.(busy := busy))
  {
  }

  /** In every run, the requests turned away leave no trace: without them the run ends in the same state. */
  lemma {:induction false} BusyLeavesNoTrace(w: World, es: seq<Event>, cap: nat, p: Params, busy: nat)
    ensures Run(w.(busy := busy), Served(w, es, cap, p), cap, p).(busy := 0) == Run(w, es, cap, p).(busy := 0)
    decreases |es|
  {
    if es != [] {
      var v := Next(w, es[0], cap, p);
      BusyOnlyCounts(w, es[0], cap, p, busy);
      BusyLeavesNoTrace(v, es[1..], cap, p, busy);
      if v.busy == w.busy {
        assert Served(w, es, cap, p)[0] == es[0] && Served(w, es, cap, p)[1..] == Served(v, es[1..], cap, p);
      } else {
        assert Served(w, es, cap, p) == Served(v, es[1..], cap, p);
        assert v.(busy := busy) == w.(busy := busy);
      }
    }
  }

  /** After every request inside has left, all slots are free again. */
  lemma {:induction false} AllLeave(w: World, ids: seq<nat>, cap: nat, p: Params)
    requires SlotsOk(w, cap, p) && (forall id | id in w.requests :: id in ids)
    ensures Run(w, seq(|ids|, i requires 0 <= i < |ids| => Leave(ids[i])), cap, p).taken == 0
    decreases |ids|
  {
    var es := seq(|ids|, i requires 0 <= i < |ids| => Leave(ids[i]));
    if ids == [] {
      assert w.requests.Keys == {};
    } else {
      var v := Next(w, es[0], cap, p);
      NextSlots(w, es[0], cap, p);
      if ids[0] in w.requests { assert |w.requests.Keys| > 0; }
      forall id | id in v.requests ensures id in ids[1..] {
        assert id in ids && id != ids[0];
      }
      AllLeave(v, ids[1..], cap, p);
      assert es[1..] == seq(|ids| - 1, i requires 0 <= i < |ids| - 1 => Leave(ids[1..][i]));
    }
  }
}
