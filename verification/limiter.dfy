/** The token bucket limiter (ratelimit/ratelimit.go), with reals in place of float64. Times are in seconds. */
module Limiters {
  import opened Sums

  datatype Bucket = Bucket(tokens: real, lastSeen: real)

  /** The tokens added in a span of seconds, and the most a bucket holds. */
  datatype Params = Params(gain: real -> real, burst: real)

  function AtRate(rate: real): real -> real {
    (elapsed: real) => elapsed * rate
  }

  const BUCKET_EXPIRY := 600.0

  type Table = map<string, Bucket>

  /** The bucket of a request: a new one is full, a held one is refilled for the time that has passed. */
  function Seen(p: Params, b: Option<Bucket>, now: real): Bucket {
    if b.None? then Bucket(p.burst, now) else
    var elapsed := now - b.value.lastSeen;
    var tokens := if elapsed > 0.0 then b.value.tokens + p.gain(elapsed) else b.value.tokens;
    Bucket(if elapsed > 0.0 && tokens > p.burst then p.burst else tokens, now)
  }

  function Get(m: Table, key: string): Option<Bucket> {
    if key in m then Some(m[key]) else None
  }

  function Pruned(m: Table, now: real): Table {
    map k | k in m && !(now - m[k].lastSeen > BUCKET_EXPIRY) :: m[k]
  }

  function Spend(b: Bucket): (Bucket, bool) {
    if b.tokens < 1.0 then (b, false) else (b.(tokens := b.tokens - 1.0), true)
  }

  /** One request: refill, prune, spend. */
  function Admit(p: Params, m: Table, key: string, now: real): (Table, bool) {
    var b := Seen(p, Get(m, key), now);
    var (c, ok) := Spend(b);
    (Pruned(m[key := b], now)[key := c], ok)
  }

  /** The limiter with its buckets updated in place. */
  class Limiter {
    var buckets: Table
    const refillRate: real
    const burst: real

    constructor (requestsPerMinute: int, burst: int)
      ensures buckets == map[]
      ensures Params(AtRate(refillRate), this.burst) == Configured(requestsPerMinute, burst)
      ensures refillRate == (if requestsPerMinute < 1 then 1.0 else requestsPerMinute as real) / 60.0
      ensures this.burst == if burst < 1 then 1.0 else burst as real
    {
      var rpm := if requestsPerMinute < 1 then 1 else requestsPerMinute;
      var size := if burst < 1 then 1 else burst;
      buckets := map[];
      refillRate := rpm as real / 60.0;
      this.burst := size as real;
    }

    method Allow(key: string, now: real) returns (ok: bool)
      modifies this`buckets
      ensures (buckets, ok) == Admit(Params(AtRate(refillRate), burst), old(buckets), key, now)
    {
      var b: Bucket;
      if key !in buckets {
        b := Bucket(burst, now);
      } else {
        b := buckets[key];
        var elapsed := now - b.lastSeen;
        if elapsed > 0.0 {
          b := b.(tokens := b.tokens + elapsed * refillRate);
          if b.tokens > burst {
            b := b.(tokens := burst);
          }
        }
        b := b.(lastSeen := now);
      }
      assert b == Seen(Params(AtRate(refillRate), burst), Get(old(buckets), key), now);
      buckets := buckets[key := b];
      Prune(now);
      assert buckets[key := b] == buckets;
      if b.tokens < 1.0 {
        ok := false;
      } else {
        buckets := buckets[key := b.(tokens := b.tokens - 1.0)];
        ok := true;
      }
    }

    /** Visits the buckets in any order, deleting as it goes. */
    method Prune(now: real)
      modifies this`buckets
      ensures buckets == Pruned(old(buckets), now)
      ensures forall k :: k in buckets <==> k in old(buckets) && now - old(buckets)[k].lastSeen <= 600.0
      ensures forall k | k in buckets :: buckets[k] == old(buckets)[k]
    {
      var keys := buckets.Keys;
      while keys != {}
        invariant keys <= buckets.Keys <= old(buckets).Keys
        invariant forall k | k in buckets :: buckets[k] == old(buckets)[k]
        invariant forall k | k in old(buckets) && k !in keys ::
                    k in buckets <==> !(now - old(buckets)[k].lastSeen > BUCKET_EXPIRY)
        decreases keys
      {
        var key :| key in keys;
        if now - buckets[key].lastSeen > BUCKET_EXPIRY {
          buckets := buckets - {key};
        }
        keys := keys - {key};
      }
    }
  }

  function Configured(requestsPerMinute: int, burst: int): Params {
    Params(AtRate((if requestsPerMinute < 1 then 1 else requestsPerMinute) as real / 60.0),
           (if burst < 1 then 1 else burst) as real)
  }

  // ---------- traces ----------

  datatype Request = Request(key: string, at: real)

  /** A monotone clock: requests come in time order, from `since` on. */
  predicate InOrder(trace: seq<Request>, since: real) {
    && (forall i | 0 <= i < |trace| :: trace[i].at >= since)
    && (forall i, j | 0 <= i < j < |trace| :: trace[i].at <= trace[j].at)
  }

  /** The times of one client's requests. */
  function Own(trace: seq<Request>, key: string): seq<real> {
    if trace == [] then []
    else (if trace[0].key == key then [trace[0].at] else []) + Own(trace[1..], key)
  }

  /** What the limiter answers one client, over a trace of requests from everyone. */
  function Answers(p: Params, m: Table, trace: seq<Request>, key: string): seq<bool>
    decreases |trace|
  {
    if trace == [] then [] else
    var (m', ok) := Admit(p, m, trace[0].key, trace[0].at);
    (if trace[0].key == key then [ok] else []) + Answers(p, m', trace[1..], key)
  }

  /** What one bucket that is never pruned answers a client with these request times. */
  function Simple(p: Params, b: Option<Bucket>, times: seq<real>): seq<bool>
    decreases |times|
  {
    if times == [] then [] else
    var (c, ok) := Spend(Seen(p, b, times[0]));
    [ok] + Simple(p, Some(c), times[1..])
  }

  predicate Adds(p: Params, x: real, y: real) {
    p.gain(x + y) == p.gain(x) + p.gain(y)
  }

  predicate Grows(p: Params, x: real, y: real) {
    x <= y ==> p.gain(x) <= p.gain(y)
  }

  /** A steady, growing gain and room for a token. */
  ghost predicate Sane(p: Params) {
    && p.burst >= 1.0 && p.gain(0.0) == 0.0
    && (forall x, y :: Adds(p, x, y)) && (forall x, y :: Grows(p, x, y))
  }

  /** A bucket that is idle until it expires has refilled by then. */
  predicate RefillsBeforeExpiry(p: Params) {
    p.burst <= p.gain(BUCKET_EXPIRY)
  }

  /** The held bucket is the client's own, or it was pruned and would have been full again. */
  predicate Agrees(p: Params, m: Table, key: string, b: Option<Bucket>, now: real) {
    && (b.Some? ==> b.value.tokens >= 0.0 && b.value.lastSeen <= now)
    && (key in m ==> b == Some(m[key]))
    && (key !in m && b.Some? ==> now - b.value.lastSeen > BUCKET_EXPIRY)
  }

  lemma ExpiredIsFull(p: Params, b: Bucket, now: real)
    requires Sane(p) && RefillsBeforeExpiry(p) && b.tokens >= 0.0 && now - b.lastSeen > BUCKET_EXPIRY
    ensures Seen(p, Some(b), now) == Bucket(p.burst, now)
  {
    assert Grows(p, BUCKET_EXPIRY, now - b.lastSeen);
  }

  lemma SeenIsPositive(p: Params, b: Option<Bucket>, now: real)
    requires Sane(p) && (b.Some? ==> b.value.tokens >= 0.0)
    ensures Seen(p, b, now).tokens >= 0.0
  {
    if b.Some? { assert Grows(p, 0.0, now - b.value.lastSeen); }
  }

  lemma OwnStep(p: Params, m: Table, key: string, b: Option<Bucket>, since: real, now: real)
    requires Sane(p) && RefillsBeforeExpiry(p) && Agrees(p, m, key, b, since) && since <= now
    ensures var (c, ok) := Spend(Seen(p, b, now));
            var (m', ok') := Admit(p, m, key, now);
            ok == ok' && Agrees(p, m', key, Some(c), now)
  {
    if key !in m && b.Some? { ExpiredIsFull(p, b.value, now); }
    SeenIsPositive(p, b, now);
  }

  lemma OtherStep(p: Params, m: Table, key: string, b: Option<Bucket>, since: real, other: string, now: real)
    requires Agrees(p, m, key, b, since) && since <= now && other != key
    ensures Agrees(p, Admit(p, m, other, now).0, key, b, now)
  {
  }

  lemma {:induction false} TraceRefines(p: Params, m: Table, trace: seq<Request>, key: string, b: Option<Bucket>,
                                        since: real)
    requires Sane(p) && RefillsBeforeExpiry(p) && InOrder(trace, since) && Agrees(p, m, key, b, since)
    ensures Answers(p, m, trace, key) == Simple(p, b, Own(trace, key))
    decreases |trace|
  {
    if trace != [] {
      var r := trace[0];
      var m' := Admit(p, m, r.key, r.at).0;
      if r.key == key {
        OwnStep(p, m, key, b, since, r.at);
        TraceRefines(p, m', trace[1..], key, Some(Spend(Seen(p, b, r.at)).0), r.at);
        assert Own(trace, key)[1..] == Own(trace[1..], key);
      } else {
        OtherStep(p, m, key, b, since, r.key, r.at);
        TraceRefines(p, m', trace[1..], key, b, r.at);
        assert Own(trace, key) == [] + Own(trace[1..], key) == Own(trace[1..], key);
        assert Answers(p, m, trace, key) == [] + Answers(p, m', trace[1..], key);
      }
    }
  }

  /** With a burst a bucket refills before it expires, pruning and the other clients cannot be observed. */
  lemma PruningIsUnobservable(p: Params, trace: seq<Request>, key: string, since: real)
    requires Sane(p) && RefillsBeforeExpiry(p) && InOrder(trace, since)
    ensures Answers(p, map[], trace, key) == Simple(p, None, Own(trace, key))
  {
    TraceRefines(p, map[], trace, key, None, since);
  }

  lemma SteadyRate(rate: real, burst: real)
    requires rate > 0.0 && burst >= 1.0
    ensures Sane(Params(AtRate(rate), burst))
  {
    var p := Params(AtRate(rate), burst);
    forall x, y ensures Adds(p, x, y) { assert (x + y) * rate == x * rate + y * rate; }
    forall x, y ensures Grows(p, x, y) {
      if x <= y { assert (y - x) * rate >= 0.0; }
    }
  }

  /** The condition in the settings' terms; the configured defaults meet it. */
  lemma ConfiguredRefills(requestsPerMinute: int, burst: int)
    ensures Sane(Configured(requestsPerMinute, burst))
    ensures requestsPerMinute >= 1 && burst >= 1 ==>
              (RefillsBeforeExpiry(Configured(requestsPerMinute, burst)) <==> burst <= 10 * requestsPerMinute)
    ensures RefillsBeforeExpiry(Configured(120, 40)) && RefillsBeforeExpiry(Configured(60, 20))
  {
    var rpm := (if requestsPerMinute < 1 then 1 else requestsPerMinute) as real;
    SteadyRate(rpm / 60.0, (if burst < 1 then 1 else burst) as real);
    assert BUCKET_EXPIRY * (rpm / 60.0) == 10.0 * rpm;
    assert burst <= 10 * requestsPerMinute <==> burst as real <= 10.0 * requestsPerMinute as real;
  }

  // ---------- how much a window admits ----------

  function Admitted(answers: seq<bool>): nat {
    if answers == [] then 0 else (if answers[0] then 1 else 0) + Admitted(answers[1..])
  }

  predicate Increasing(ts: seq<real>) {
    forall i, j | 0 <= i < j < |ts| :: ts[i] <= ts[j]
  }

  lemma SeenAtMost(p: Params, b: Bucket, now: real)
    requires Sane(p) && b.lastSeen <= now
    ensures Seen(p, Some(b), now).tokens <= b.tokens + p.gain(now - b.lastSeen)
    ensures b.tokens <= p.burst ==> Seen(p, Some(b), now).tokens <= p.burst
  {
    assert Grows(p, 0.0, now - b.lastSeen);
  }

  lemma {:induction false} SimpleLength(p: Params, b: Option<Bucket>, ts: seq<real>)
    ensures |Simple(p, b, ts)| == |ts|
    decreases |ts|
  {
    if ts != [] { SimpleLength(p, Some(Spend(Seen(p, b, ts[0])).0), ts[1..]); }
  }

  /** The tokens a bucket holds and those it will have been given by the instant u. */
  function Credit(p: Params, b: Bucket, u: real): real {
    b.tokens + p.gain(u - b.lastSeen)
  }

  lemma CreditIsPositive(p: Params, b: Bucket, u: real)
    requires Sane(p) && b.tokens >= 0.0 && b.lastSeen <= u
    ensures Credit(p, b, u) >= 0.0
  {
    assert Grows(p, 0.0, u - b.lastSeen);
  }

  lemma SeenKeepsCredit(p: Params, b: Bucket, t: real, u: real)
    requires Sane(p) && b.lastSeen <= t
    ensures Credit(p, Seen(p, Some(b), t), u) <= Credit(p, b, u)
  {
    SeenAtMost(p, b, t);
    assert Adds(p, t - b.lastSeen, u - t);
    assert (t - b.lastSeen) + (u - t) == u - b.lastSeen;
  }

  lemma CreditIsLinear(p: Params, x: real, y: real, t: real, u: real)
    ensures Credit(p, Bucket(x, t), u) - Credit(p, Bucket(y, t), u) == x - y
  {
  }

  /** Admitting a request takes one token of credit, and nothing else adds any. */
  lemma CreditStep(p: Params, b: Bucket, t: real, u: real)
    requires Sane(p) && b.tokens >= 0.0 && b.lastSeen <= t
    ensures var (c, ok) := Spend(Seen(p, Some(b), t));
            && c.tokens >= 0.0 && c.lastSeen == t
            && Credit(p, c, u) + (if ok then 1.0 else 0.0) <= Credit(p, b, u)
  {
    SeenKeepsCredit(p, b, t, u);
    SeenIsPositive(p, Some(b), t);
    var seen := Seen(p, Some(b), t);
    assert seen == Bucket(seen.tokens, t);
    CreditIsLinear(p, seen.tokens, seen.tokens - 1.0, t, u);
  }

  lemma SimpleCons(p: Params, b: Option<Bucket>, ts: seq<real>)
    requires ts != []
    ensures var (c, ok) := Spend(Seen(p, b, ts[0]));
            && Simple(p, b, ts) == [ok] + Simple(p, Some(c), ts[1..])
            && Simple(p, b, ts)[1..] == Simple(p, Some(c), ts[1..])
            && Admitted(Simple(p, b, ts)) == (if ok then 1 else 0) + Admitted(Simple(p, Some(c), ts[1..]))
  {
  }

  /** Each request admitted is paid for by a token the bucket held or was given since. */
  lemma {:induction false} TokensPay(p: Params, b: Bucket, ts: seq<real>, u: real)
    requires Sane(p) && b.tokens >= 0.0 && b.lastSeen <= u
    requires Increasing(ts) && (ts != [] ==> b.lastSeen <= ts[0] && ts[|ts| - 1] <= u)
    ensures Admitted(Simple(p, Some(b), ts)) as real <= Credit(p, b, u)
    decreases |ts|
  {
    if ts == [] {
      CreditIsPositive(p, b, u);
    } else {
      CreditStep(p, b, ts[0], u);
      SimpleCons(p, Some(b), ts);
      TokensPay(p, Spend(Seen(p, Some(b), ts[0])).0, ts[1..], u);
    }
  }

  lemma {:induction false} SimplePrefix(p: Params, b: Option<Bucket>, ts: seq<real>, n: nat)
    requires n <= |ts|
    ensures |Simple(p, b, ts)| == |ts| && Simple(p, b, ts)[..n] == Simple(p, b, ts[..n])
    decreases |ts|
  {
    SimpleLength(p, b, ts);
    if n > 0 {
      var (c, ok) := Spend(Seen(p, b, ts[0]));
      SimplePrefix(p, Some(c), ts[1..], n - 1);
      assert ts[..n][1..] == ts[1..][..n - 1];
      assert Simple(p, b, ts)[..n] == [ok] + Simple(p, Some(c), ts[1..])[..n - 1];
    }
  }

  predicate Fits(p: Params, b: Option<Bucket>, ts: seq<real>) {
    b.Some? ==> 0.0 <= b.value.tokens <= p.burst && (ts != [] ==> b.value.lastSeen <= ts[0])
  }

  /** What the window starting at the first request, at the latest u, may admit. */
  lemma FirstWindow(p: Params, b: Option<Bucket>, ts: seq<real>, u: real)
    requires Sane(p) && Increasing(ts) && ts != [] && Fits(p, b, ts) && ts[|ts| - 1] <= u
    ensures Admitted(Simple(p, b, ts)) as real <= Credit(p, Bucket(p.burst, ts[0]), u)
  {
    var seen := Seen(p, b, ts[0]);
    SeenIsPositive(p, b, ts[0]);
    if b.Some? { SeenAtMost(p, b.value, ts[0]); }
    assert Seen(p, Some(seen), ts[0]) == seen;
    SimpleCons(p, b, ts);
    SimpleCons(p, Some(seen), ts);
    TokensPay(p, seen, ts, u);
    assert seen == Bucket(seen.tokens, ts[0]);
    CreditIsLinear(p, p.burst, seen.tokens, ts[0], u);
  }

  /** Requests i to j - 1 of a client: at most the burst, and what refills between the first and the last of them. */
  lemma {:induction false} SimpleWindow(p: Params, b: Option<Bucket>, ts: seq<real>, i: nat, j: nat)
    requires Sane(p) && Increasing(ts) && i < j <= |ts| && Fits(p, b, ts)
    ensures |Simple(p, b, ts)| == |ts|
    ensures Admitted(Simple(p, b, ts)[i..j]) as real <= Credit(p, Bucket(p.burst, ts[i]), ts[j - 1])
    decreases i
  {
    SimpleLength(p, b, ts);
    if i > 0 {
      var c := Spend(Seen(p, b, ts[0])).0;
      SimpleCons(p, b, ts);
      SeenFits(p, b, ts);
      SimpleWindow(p, Some(c), ts[1..], i - 1, j - 1);
      assert Simple(p, b, ts)[i..j] == Simple(p, Some(c), ts[1..])[i - 1..j - 1];
    } else {
      SimplePrefix(p, b, ts, j);
      FirstWindow(p, b, ts[..j], ts[j - 1]);
      assert Simple(p, b, ts)[i..j] == Simple(p, b, ts)[..j];
    }
  }

  lemma SeenFits(p: Params, b: Option<Bucket>, ts: seq<real>)
    requires Sane(p) && Increasing(ts) && ts != [] && Fits(p, b, ts)
    ensures Fits(p, Some(Spend(Seen(p, b, ts[0])).0), ts[1..])
  {
    SeenIsPositive(p, b, ts[0]);
    if b.Some? { SeenAtMost(p, b.value, ts[0]); }
  }

  lemma {:induction false} OwnIncreasing(trace: seq<Request>, key: string, since: real)
    requires InOrder(trace, since)
    ensures Increasing(Own(trace, key)) && forall i | 0 <= i < |Own(trace, key)| :: Own(trace, key)[i] >= since
    decreases |trace|
  {
    if trace != [] { OwnIncreasing(trace[1..], key, trace[0].at); }
  }

  /** Of the requests from one instant to another, at most the burst and the gain are admitted. */
  predicate Within(p: Params, answers: seq<bool>, own: seq<real>) {
    && |answers| == |own|
    && forall i, j | 0 <= i < j <= |own| :: Admitted(answers[i..j]) as real <= p.burst + p.gain(own[j - 1] - own[i])
  }

  predicate Windowed(p: Params, trace: seq<Request>, key: string) {
    Within(p, Answers(p, map[], trace, key), Own(trace, key))
  }

  lemma SimpleWindows(p: Params, own: seq<real>)
    requires Sane(p) && Increasing(own)
    ensures Within(p, Simple(p, None, own), own)
  {
    var answers := Simple(p, None, own);
    SimpleLength(p, None, own);
    forall i, j | 0 <= i < j <= |own|
      ensures Admitted(answers[i..j]) as real <= p.burst + p.gain(own[j - 1] - own[i])
    {
      SimpleWindow(p, None, own, i, j);
    }
  }

  /** The rate limit, for a burst that refills before a bucket expires. */
  lemma RateWindow(p: Params, trace: seq<Request>, key: string)
    requires Sane(p) && RefillsBeforeExpiry(p) && InOrder(trace, 0.0)
    ensures Windowed(p, trace, key)
  {
    PruningIsUnobservable(p, trace, key, 0.0);
    OwnIncreasing(trace, key, 0.0);
    SimpleWindows(p, Own(trace, key));
  }

  /** The gain in the settings' terms. */
  lemma ConfiguredGain(rpm: int, burst: int, span: real)
    requires rpm >= 1 && burst >= 1
    ensures var p := Configured(rpm, burst); p.burst == burst as real && p.gain(span) == rpm as real * span / 60.0
  {
    var n := rpm as real;
    assert span * (n / 60.0) == n * span / 60.0;
  }

  // ---------- who is never refused ----------

  /** Requests no closer together than the time one token takes to refill. */
  predicate SpacedFrom(p: Params, last: Option<real>, ts: seq<real>)
    decreases |ts|
  {
    ts == [] || ((last.Some? ==> p.gain(ts[0] - last.value) >= 1.0) && SpacedFrom(p, Some(ts[0]), ts[1..]))
  }

  lemma OneTokenTakesTime(p: Params, elapsed: real)
    requires Sane(p) && p.gain(elapsed) >= 1.0
    ensures elapsed > 0.0
  {
    assert Grows(p, elapsed, 0.0);
  }

  lemma {:induction false} SpacedIsAdmitted(p: Params, m: Table, trace: seq<Request>, key: string, last: Option<real>)
    requires Sane(p) && SpacedFrom(p, last, Own(trace, key))
    requires key in m ==> m[key].tokens >= 0.0 && last == Some(m[key].lastSeen)
    ensures forall ok | ok in Answers(p, m, trace, key) :: ok
    decreases |trace|
  {
    if trace != [] {
      var r := trace[0];
      var (m', ok) := Admit(p, m, r.key, r.at);
      if r.key == key {
        assert Own(trace, key)[0] == r.at && Own(trace, key)[1..] == Own(trace[1..], key);
        if key in m { OneTokenTakesTime(p, r.at - m[key].lastSeen); }
        SpacedIsAdmitted(p, m', trace[1..], key, Some(r.at));
      } else {
        assert Own(trace, key) == Own(trace[1..], key);
        SpacedIsAdmitted(p, m', trace[1..], key, last);
      }
    }
  }

  predicate Gaps(ts: seq<real>, gap: real) {
    forall i | 0 < i < |ts| :: ts[i] - ts[i - 1] >= gap
  }

  lemma GapRefillsOne(n: real, elapsed: real)
    requires n > 0.0 && elapsed >= 60.0 / n
    ensures elapsed * (n / 60.0) >= 1.0
  {
    var r := n / 60.0;
    assert r > 0.0 && (60.0 / n) * r == 1.0;
    assert (elapsed - 60.0 / n) * r >= 0.0;
  }

  lemma {:induction false} GapIsSpaced(rpm: int, burst: int, last: Option<real>, ts: seq<real>)
    requires rpm >= 1 && Gaps(ts, 60.0 / rpm as real)
    requires last.Some? && ts != [] ==> ts[0] - last.value >= 60.0 / rpm as real
    ensures SpacedFrom(Configured(rpm, burst), last, ts)
    decreases |ts|
  {
    if ts != [] {
      if last.Some? { GapRefillsOne(rpm as real, ts[0] - last.value); }
      GapIsSpaced(rpm, burst, Some(ts[0]), ts[1..]);
    }
  }

  /** A client whose requests are 60 / rpm seconds apart is never refused, whatever the burst and the pruning. */
  lemma SlowClientIsNeverRefused(rpm: int, burst: int, trace: seq<Request>, key: string)
    requires rpm >= 1 && Gaps(Own(trace, key), 60.0 / rpm as real)
    ensures forall ok | ok in Answers(Configured(rpm, burst), map[], trace, key) :: ok
  {
    ConfiguredRefills(rpm, burst);
    GapIsSpaced(rpm, burst, None, Own(trace, key));
    SpacedIsAdmitted(Configured(rpm, burst), map[], trace, key, None);
  }

  // ---------- a burst too large to refill in time ----------

  function Repeat(key: string, at: real, n: nat): seq<Request> {
    seq(n, i => Request(key, at))
  }

  function Times(at: real, n: nat): seq<real> {
    seq(n, i => at)
  }

  /** The table after a trace, and the lone bucket after its requests. */
  function After(p: Params, m: Table, trace: seq<Request>): Table
    decreases |trace|
  {
    if trace == [] then m else After(p, Admit(p, m, trace[0].key, trace[0].at).0, trace[1..])
  }

  function SimpleAfter(p: Params, b: Option<Bucket>, ts: seq<real>): Option<Bucket>
    decreases |ts|
  {
    if ts == [] then b else SimpleAfter(p, Some(Spend(Seen(p, b, ts[0])).0), ts[1..])
  }

  lemma AnswersCons(p: Params, m: Table, r: Request, rest: seq<Request>, key: string)
    ensures var (m', ok) := Admit(p, m, r.key, r.at);
            && Answers(p, m, [r] + rest, key) == (if r.key == key then [ok] else []) + Answers(p, m', rest, key)
            && After(p, m, [r] + rest) == After(p, m', rest)
  {
    assert ([r] + rest)[1..] == rest;
  }

  lemma {:induction false} SplitAnswers(p: Params, m: Table, xs: seq<Request>, ys: seq<Request>, key: string)
    ensures Answers(p, m, xs + ys, key) == Answers(p, m, xs, key) + Answers(p, After(p, m, xs), ys, key)
    decreases |xs|
  {
    if xs == [] {
      assert xs + ys == ys;
    } else {
      var r, rest := xs[0], xs[1..];
      assert xs == [r] + rest && xs + ys == [r] + (rest + ys);
      AnswersCons(p, m, r, rest, key);
      AnswersCons(p, m, r, rest + ys, key);
      var (m', ok) := Admit(p, m, r.key, r.at);
      SplitAnswers(p, m', rest, ys, key);
      Regroup(if r.key == key then [ok] else [], Answers(p, m', rest, key), Answers(p, After(p, m', rest), ys, key));
    }
  }

  lemma Regroup<T>(a: seq<T>, b: seq<T>, c: seq<T>)
    ensures a + (b + c) == (a + b) + c
  {
  }

  lemma OwnCons(r: Request, rest: seq<Request>, key: string)
    ensures Own([r] + rest, key) == (if r.key == key then [r.at] else []) + Own(rest, key)
  {
    assert ([r] + rest)[1..] == rest;
  }

  lemma {:induction false} SplitOwn(xs: seq<Request>, ys: seq<Request>, key: string)
    ensures Own(xs + ys, key) == Own(xs, key) + Own(ys, key)
    decreases |xs|
  {
    if xs == [] {
      assert xs + ys == ys;
    } else {
      var r, rest := xs[0], xs[1..];
      assert xs == [r] + rest && xs + ys == [r] + (rest + ys);
      OwnCons(r, rest, key);
      OwnCons(r, rest + ys, key);
      SplitOwn(rest, ys, key);
      Regroup(if r.key == key then [r.at] else [], Own(rest, key), Own(ys, key));
    }
  }

  lemma {:induction false} SplitSimple(p: Params, b: Option<Bucket>, xs: seq<real>, ys: seq<real>)
    ensures Simple(p, b, xs + ys) == Simple(p, b, xs) + Simple(p, SimpleAfter(p, b, xs), ys)
    decreases |xs|
  {
    if xs == [] {
      assert xs + ys == ys;
    } else {
      var (c, ok) := Spend(Seen(p, b, xs[0]));
      SplitSimple(p, Some(c), xs[1..], ys);
      assert (xs + ys)[1..] == xs[1..] + ys;
      Regroup([ok], Simple(p, Some(c), xs[1..]), Simple(p, SimpleAfter(p, Some(c), xs[1..]), ys));
    }
  }

  /** One client's requests at one instant meet the client's own bucket, and so does whoever is alone. */
  lemma {:induction false} AloneIsSimple(p: Params, m: Table, key: string, at: real, n: nat)
    ensures Own(Repeat(key, at, n), key) == Times(at, n)
    ensures Answers(p, m, Repeat(key, at, n), key) == Simple(p, Get(m, key), Times(at, n))
    ensures n > 0 ==> key in After(p, m, Repeat(key, at, n)) && After(p, m, Repeat(key, at, n))[key].lastSeen == at
    ensures Get(After(p, m, Repeat(key, at, n)), key) == SimpleAfter(p, Get(m, key), Times(at, n))
    decreases n
  {
    if n > 0 {
      assert Repeat(key, at, n)[1..] == Repeat(key, at, n - 1) && Times(at, n)[1..] == Times(at, n - 1);
      AloneIsSimple(p, Admit(p, m, key, at).0, key, at, n - 1);
    }
  }

  /** n requests at one instant drain n tokens from a bucket that holds as many. */
  lemma {:induction false} Drain(p: Params, b: Option<Bucket>, at: real, n: nat)
    requires n > 0 && Seen(p, b, at).tokens >= n as real
    ensures Simple(p, b, Times(at, n)) == seq(n, i => true)
    ensures SimpleAfter(p, b, Times(at, n)) == Some(Bucket(Seen(p, b, at).tokens - n as real, at))
    decreases n
  {
    var c := Spend(Seen(p, b, at)).0;
    assert Times(at, n)[1..] == Times(at, n - 1);
    if n > 1 {
      Drain(p, Some(c), at, n - 1);
      assert Simple(p, b, Times(at, n)) == [true] + seq(n - 1, i => true);
    }
  }

  lemma {:induction false} AllAdmitted(n: nat)
    ensures Admitted(seq(n, i => true)) == n
  {
    if n > 0 {
      AllAdmitted(n - 1);
      assert seq(n, i => true)[1..] == seq(n - 1, i => true);
    }
  }

  lemma PositiveFactor(x: real, rate: real)
    requires rate > 0.0 && x * rate > 0.0
    ensures x > 0.0
  {
  }

  /** An instant after the expiry at which a drained bucket has not refilled yet. */
  lemma LateInstant(rate: real, burst: real) returns (at: real)
    requires rate > 0.0 && burst > BUCKET_EXPIRY * rate
    ensures at > BUCKET_EXPIRY && at * rate < burst
  {
    var full := burst / rate;
    assert full * rate == burst;
    PositiveFactor(full - BUCKET_EXPIRY, rate);
    at := (full + BUCKET_EXPIRY) / 2.0;
    assert (full - at) * rate > 0.0;
  }

  /** The burst, a request by someone else once the bucket has expired, and the burst again. */
  function Relapse(at: real, n: nat): seq<Request> {
    Repeat("a", 0.0, n) + ([Request("b", at)] + Repeat("a", at, n))
  }

  lemma RelapseInOrder(at: real, n: nat)
    requires at >= 0.0
    ensures InOrder(Relapse(at, n), 0.0)
  {
  }

  lemma OwnRelapse(p: Params, at: real, n: nat)
    requires Sane(p) && p.burst == n as real && at > BUCKET_EXPIRY && n > 0
    ensures Own(Relapse(at, n), "a") == Times(0.0, n) + Times(at, n)
    ensures Answers(p, map[], Relapse(at, n), "a")
            == Simple(p, None, Times(0.0, n)) + Simple(p, None, Times(at, n))
  {
    var xs, ys, zs := Repeat("a", 0.0, n), [Request("b", at)], Repeat("a", at, n);
    AloneIsSimple(p, map[], "a", 0.0, n);
    var m := After(p, map[], xs);
    var m' := Admit(p, m, "b", at).0;
    assert "a" !in m';
    AloneIsSimple(p, m', "a", at, n);
    SplitAnswers(p, map[], xs, ys + zs, "a");
    SplitOwn(xs, ys + zs, "a");
    OtherFirst(p, m, zs, at);
  }

  /** A request by another client answers nothing to this one. */
  lemma OtherFirst(p: Params, m: Table, zs: seq<Request>, at: real)
    ensures var ys := [Request("b", at)];
            && Own(ys + zs, "a") == Own(zs, "a")
            && Answers(p, m, ys + zs, "a") == Answers(p, Admit(p, m, "b", at).0, zs, "a")
  {
    AnswersCons(p, m, Request("b", at), zs, "a");
    OwnCons(Request("b", at), zs, "a");
  }

  lemma LargeBurstIsObservable(p: Params, at: real, n: nat)
    requires Sane(p) && p.burst == n as real && at > BUCKET_EXPIRY && p.gain(at) < p.burst
    ensures Answers(p, map[], Relapse(at, n), "a") != Simple(p, None, Own(Relapse(at, n), "a"))
  {
    OwnRelapse(p, at, n);
    Drain(p, None, 0.0, n);
    Drain(p, None, at, n);
    SplitSimple(p, None, Times(0.0, n), Times(at, n));
    var drained := Bucket(0.0, 0.0);
    TokensPay(p, drained, Times(at, n), at);
    AllAdmitted(n);
    var first, kept := Simple(p, None, Times(0.0, n)), Simple(p, Some(drained), Times(at, n));
    SameTail(first, seq(n, i => true), kept);
    assert Admitted(kept) < n;
  }

  lemma SameTail(a: seq<bool>, b: seq<bool>, c: seq<bool>)
    ensures a + b == a + c ==> b == c
  {
    if a + b == a + c { assert (a + b)[|a|..] == b && (a + c)[|a|..] == c; }
  }

  predicate Unobservable(p: Params, trace: seq<Request>, key: string) {
    Answers(p, map[], trace, key) == Simple(p, None, Own(trace, key))
  }

  /** Pruning changes no answer of any trace exactly when the burst is at most ten times the requests per minute. */
  lemma PruningUnobservableIff(rpm: int, burst: int)
    requires rpm >= 1 && burst >= 1
    ensures (forall trace, key | InOrder(trace, 0.0) :: Unobservable(Configured(rpm, burst), trace, key))
            <==> burst <= 10 * rpm
  {
    var p := Configured(rpm, burst);
    ConfiguredRefills(rpm, burst);
    if burst <= 10 * rpm {
      forall trace, key | InOrder(trace, 0.0) ensures Unobservable(p, trace, key) {
        PruningIsUnobservable(p, trace, key, 0.0);
      }
    } else {
      var at := LateInstant(rpm as real / 60.0, burst as real);
      LargeBurstIsObservable(p, at, burst);
      RelapseInOrder(at, burst);
      assert !Unobservable(p, Relapse(at, burst), "a");
    }
  }

  /** A pruned bucket gives the burst twice: more than the burst and the gain. */
  lemma LargeBurstBreaksTheWindow(p: Params, at: real, n: nat)
    requires Sane(p) && p.burst == n as real && at > BUCKET_EXPIRY && p.gain(at) < p.burst
    ensures !Windowed(p, Relapse(at, n), "a")
  {
    var answers, own := Answers(p, map[], Relapse(at, n), "a"), Own(Relapse(at, n), "a");
    OwnRelapse(p, at, n);
    Drain(p, None, 0.0, n);
    Drain(p, None, at, n);
    assert answers == seq(2 * n, i => true);
    AllAdmitted(2 * n);
    assert answers[0..2 * n] == answers;
    assert own[2 * n - 1] - own[0] == at;
  }

  /** The rate limit holds of every trace exactly when the burst is at most ten times the requests per minute. */
  lemma RateWindowIff(rpm: int, burst: int)
    requires rpm >= 1 && burst >= 1
    ensures (forall trace, key | InOrder(trace, 0.0) :: Windowed(Configured(rpm, burst), trace, key))
            <==> burst <= 10 * rpm
  {
    var p := Configured(rpm, burst);
    ConfiguredRefills(rpm, burst);
    if burst <= 10 * rpm {
      forall trace, key | InOrder(trace, 0.0) ensures Windowed(p, trace, key) { RateWindow(p, trace, key); }
    } else {
      var at := LateInstant(rpm as real / 60.0, burst as real);
      LargeBurstBreaksTheWindow(p, at, burst);
      RelapseInOrder(at, burst);
    }
  }
}
