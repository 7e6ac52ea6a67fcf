/** The login throttle: a bounded map of token buckets keyed by client, with a
    time-based sweep and a sampled eviction. Times are real seconds and tokens are
    real, so rounding is not modelled; one instant is used per call. */
module RateLimit {
  import opened Wrappers

  type Key = string

  // Fifteen minutes, in seconds.
  const STALE_AFTER := 900.0
  const MAX_BUCKETS := 10_000
  const EVICT_SAMPLE := 64

  datatype Params = Params(limit: real, burst: int)

  // One rate.Limiter. A limiter that never granted anything is full at any time.
  datatype TokenBucket = Untouched | Charged(tokens: real, last: real)

  datatype Bucket = Bucket(limiter: TokenBucket, lastSeen: Option<real>)

  datatype State = State(buckets: map<Key, Bucket>, lastSweep: Option<real>)

  // Turned away means a new key was denied because the map was full.
  datatype Verdict = Granted | Throttled | TurnedAway

  datatype Call = Call(key: Key, now: real, verdict: Verdict)

  // ---------- One bucket ----------

  function Refill(p: Params, from: real, to: real): real {
    p.limit * (to - from)
  }

  function Level(p: Params, b: TokenBucket, now: real): real {
    match b
    case Untouched => p.burst as real
    case Charged(tokens, last) =>
      var refilled := tokens + Refill(p, last, now);
      if refilled > p.burst as real then p.burst as real else refilled
  }

  function Take(p: Params, b: TokenBucket, now: real): (TokenBucket, bool) {
    if Level(p, b, now) >= 1.0 then (Charged(Level(p, b, now) - 1.0, now), true) else (b, false)
  }

  // ---------- The bounded map, one call at a time ----------

  // The zero time counts as stale: it lies centuries before any clock reading.
  predicate Stale(since: Option<real>, now: real) {
    since.None? || now - since.value >= STALE_AFTER
  }

  function Swept(s: State, now: real): State {
    if !Stale(s.lastSweep, now) then s else
      State(map k | k in s.buckets && !Stale(s.buckets[k].lastSeen, now) :: s.buckets[k], Some(now))
  }

  predicate Refilled(p: Params, b: Bucket, now: real) {
    Level(p, b.limiter, now) >= p.burst as real
  }

  function Opened(s: State, key: Key): State {
    s.(buckets := s.buckets[key := Bucket(Untouched, None)])
  }

  function Charge(p: Params, s: State, key: Key, now: real): (State, Verdict)
    requires key in s.buckets
  {
    var (limiter, ok) := Take(p, s.buckets[key].limiter, now);
    if ok then (s.(buckets := s.buckets[key := Bucket(limiter, Some(now))]), Granted) else (s, Throttled)
  }

  // A sample of busy buckets that one overflow insert may look at before giving up.
  ghost predicate BusySample(p: Params, s: State, sample: set<Key>, now: real) {
    && sample <= s.buckets.Keys
    && |sample| == (if |s.buckets| < EVICT_SAMPLE then |s.buckets| else EVICT_SAMPLE)
    && forall k :: k in sample ==> !Refilled(p, s.buckets[k], now)
  }

  ghost predicate Evicts(p: Params, s: State, victim: Key, now: real, s': State) {
    victim in s.buckets && Refilled(p, s.buckets[victim], now) && s' == s.(buckets := s.buckets - {victim})
  }

  ghost predicate Admits(p: Params, s: State, c: Call, s': State) {
    (s', c.verdict) == Charge(p, Opened(s, c.key), c.key, c.now)
  }

  /** What one call may do. Only the choice of sampled buckets is open. */
  ghost predicate Step(p: Params, s: State, c: Call, s': State) {
    var t := Swept(s, c.now);
    if c.key in t.buckets then (s', c.verdict) == Charge(p, t, c.key, c.now)
    else if |t.buckets| < MAX_BUCKETS then Admits(p, t, c, s')
    else
      || (exists victim, u :: Evicts(p, t, victim, c.now, u) && Admits(p, u, c, s'))
      || (c.verdict == TurnedAway && s' == t && exists sample :: BusySample(p, t, sample, c.now))
  }

  // ---------- Runs ----------

  const Empty := State(map[], None)

  ghost predicate NonDecreasing(calls: seq<Call>) {
    forall i, j :: 0 <= i <= j < |calls| ==> calls[i].now <= calls[j].now
  }

  ghost predicate IsRun(p: Params, calls: seq<Call>, states: seq<State>) {
    && |states| == |calls| + 1
    && states[0] == Empty
    && NonDecreasing(calls)
    && forall i {:trigger calls[i]} :: 0 <= i < |calls| ==> Step(p, states[i], calls[i], states[i + 1])
  }

  // ---------- The reference: one ordinary bucket per key, never dropped ----------

  function Reference(p: Params, calls: seq<Call>, key: Key): TokenBucket {
    if calls == [] then Untouched else
      var b := Reference(p, calls[..|calls| - 1], key);
      var c := calls[|calls| - 1];
      if c.key == key && c.verdict != TurnedAway then Take(p, b, c.now).0 else b
  }

  // The tokens the bounded map holds for a key; an absent key would start full.
  function Effective(p: Params, s: State, key: Key, t: real): real {
    if key in s.buckets then Level(p, s.buckets[key].limiter, t) else p.burst as real
  }

  ghost predicate AgreesFrom(p: Params, calls: seq<Call>, s: State, now: real) {
    forall k, t {:trigger Effective(p, s, k, t)} :: now <= t ==>
      Effective(p, s, k, t) == Level(p, Reference(p, calls, k), t)
  }

  ghost predicate VerdictAgrees(p: Params, before: seq<Call>, c: Call) {
    var expected := Level(p, Reference(p, before, c.key), c.now);
    if c.verdict == TurnedAway then expected == p.burst as real
    else c.verdict == Granted <==> expected >= 1.0
  }

  ghost predicate After(calls: seq<Call>, now: real) {
    forall i :: 0 <= i < |calls| ==> calls[i].now <= now
  }

  // The bounded map is indistinguishable from the reference buckets.
  ghost predicate Faithful(p: Params, calls: seq<Call>, states: seq<State>)
    requires |states| == |calls| + 1
  {
    && (forall i :: 0 <= i < |calls| ==> VerdictAgrees(p, calls[..i], calls[i]))
    && (forall now :: After(calls, now) ==> AgreesFrom(p, calls, states[|calls|], now))
  }

  // ---------- The invariant behind the simulation ----------

  ghost predicate Sane(p: Params, s: State, now: real) {
    forall k :: k in s.buckets ==>
      match s.buckets[k].limiter
      case Untouched => false
      case Charged(tokens, last) =>
        0.0 <= tokens <= p.burst as real && last <= now && s.buckets[k].lastSeen == Some(last)
  }

  ghost predicate Tuned(p: Params) {
    p.burst >= 1 && p.limit >= 0.0
  }

  lemma LevelBounds(p: Params, b: TokenBucket, s: real, t: real)
    requires p.limit >= 0.0 && s <= t
    ensures Level(p, b, s) <= Level(p, b, t) <= p.burst as real
    ensures Level(p, b, t) <= Level(p, b, s) + Refill(p, s, t)
  {
    if b.Charged? {
      assert p.limit * (t - b.last) == p.limit * (s - b.last) + p.limit * (t - s);
    }
    assert p.limit * (t - s) >= 0.0;
  }

  // Right after a call the level is what was stored; a grant costs exactly one token.
  lemma TakeSpends(p: Params, b: TokenBucket, now: real)
    ensures Level(p, Take(p, b, now).0, now) == Level(p, b, now) - if Take(p, b, now).1 then 1.0 else 0.0
  {
    var left := Level(p, b, now) - 1.0;
    assert Level(p, b, now) <= p.burst as real;
    LevelAtRest(p, left, now);
  }

  lemma LevelAtRest(p: Params, tokens: real, now: real)
    requires tokens <= p.burst as real
    ensures Level(p, Charged(tokens, now), now) == tokens
  {
    var elapsed := now - now;
    assert elapsed == 0.0;
    assert p.limit * elapsed == 0.0;
  }

  // A bucket idle for the whole stale window is full again, if refill is fast enough.
  lemma StaleIsFull(p: Params, tokens: real, last: real, now: real)
    requires 0.0 <= tokens && now - last >= STALE_AFTER
    requires p.limit >= 0.0 && p.limit * STALE_AFTER >= p.burst as real
    ensures Level(p, Charged(tokens, last), now) == p.burst as real
  {
    assert p.limit * (now - last) - p.limit * STALE_AFTER == p.limit * (now - last - STALE_AFTER);
    assert p.limit * (now - last - STALE_AFTER) >= 0.0;
  }

  // Dropping buckets that are full at `now` changes nothing a caller can observe.
  lemma DroppingFullIsInvisible(p: Params, calls: seq<Call>, s: State, s': State, now: real)
    requires p.limit >= 0.0 && AgreesFrom(p, calls, s, now) && s'.buckets.Keys <= s.buckets.Keys
    requires forall k :: k in s'.buckets ==> s'.buckets[k] == s.buckets[k]
    requires forall k :: k in s.buckets && k !in s'.buckets ==> Refilled(p, s.buckets[k], now)
    ensures AgreesFrom(p, calls, s', now)
  {
    forall k, t | now <= t ensures Effective(p, s', k, t) == Level(p, Reference(p, calls, k), t) {
      assert Effective(p, s, k, t) == Level(p, Reference(p, calls, k), t);
      if k in s.buckets && k !in s'.buckets {
        LevelBounds(p, s.buckets[k].limiter, now, t);
      }
    }
  }

  lemma SweepKeepsAgreement(p: Params, calls: seq<Call>, s: State, now: real)
    requires Tuned(p) && p.limit * STALE_AFTER >= p.burst as real
    requires Sane(p, s, now) && AgreesFrom(p, calls, s, now)
    ensures Sane(p, Swept(s, now), now) && AgreesFrom(p, calls, Swept(s, now), now)
  {
    var s' := Swept(s, now);
    forall k | k in s.buckets && k !in s'.buckets ensures Refilled(p, s.buckets[k], now) {
      StaleIsFull(p, s.buckets[k].limiter.tokens, s.buckets[k].limiter.last, now);
    }
    DroppingFullIsInvisible(p, calls, s, s', now);
  }

  // Levels that agree now keep agreeing, whether or not the call takes a token.
  lemma TakeKeepsAgreement(p: Params, b: TokenBucket, r: TokenBucket, now: real)
    requires forall t :: now <= t ==> Level(p, b, t) == Level(p, r, t)
    ensures Take(p, b, now).1 == Take(p, r, now).1
    ensures forall t :: now <= t ==> Level(p, Take(p, b, now).0, t) == Level(p, Take(p, r, now).0, t)
  {
    assert Level(p, b, now) == Level(p, r, now);
  }

  lemma ChargeKeepsAgreement(p: Params, calls: seq<Call>, s: State, c: Call, s': State)
    requires Tuned(p) && Sane(p, s.(buckets := s.buckets - {c.key}), c.now) && AgreesFrom(p, calls, s, c.now)
    requires c.key in s.buckets && (s.buckets[c.key].limiter.Untouched? || Sane(p, s, c.now))
    requires (s', c.verdict) == Charge(p, s, c.key, c.now)
    ensures Sane(p, s', c.now) && AgreesFrom(p, calls + [c], s', c.now) && VerdictAgrees(p, calls, c)
  {
    var b, r := s.buckets[c.key].limiter, Reference(p, calls, c.key);
    forall t | c.now <= t ensures Level(p, b, t) == Level(p, r, t) {
      assert Effective(p, s, c.key, t) == Level(p, r, t);
    }
    TakeKeepsAgreement(p, b, r, c.now);
    assert Level(p, b, c.now) == Level(p, r, c.now);
    LevelBounds(p, b, c.now, c.now);
    assert (calls + [c])[..|calls|] == calls;
    forall k, t | c.now <= t ensures Effective(p, s', k, t) == Level(p, Reference(p, calls + [c], k), t) {
      assert Effective(p, s, k, t) == Level(p, Reference(p, calls, k), t);
      if k == c.key {
        assert Level(p, Take(p, b, c.now).0, t) == Level(p, Take(p, r, c.now).0, t);
      }
    }
    forall k | k in s'.buckets ensures
        && s'.buckets[k].limiter.Charged? && 0.0 <= s'.buckets[k].limiter.tokens <= p.burst as real
        && s'.buckets[k].limiter.last <= c.now && s'.buckets[k].lastSeen == Some(s'.buckets[k].limiter.last)
    {
      if k != c.key { assert k in s.(buckets := s.buckets - {c.key}).buckets; }
    }
  }

  lemma AdmitKeepsAgreement(p: Params, calls: seq<Call>, s: State, c: Call, s': State)
    requires Tuned(p) && Sane(p, s, c.now) && AgreesFrom(p, calls, s, c.now)
    requires c.key !in s.buckets && Admits(p, s, c, s')
    ensures Sane(p, s', c.now) && AgreesFrom(p, calls + [c], s', c.now) && VerdictAgrees(p, calls, c)
  {
    var o := Opened(s, c.key);
    forall k, t | c.now <= t ensures Effective(p, o, k, t) == Level(p, Reference(p, calls, k), t) {
      assert Effective(p, s, k, t) == Level(p, Reference(p, calls, k), t);
    }
    ChargeKeepsAgreement(p, calls, o, c, s');
  }

  lemma StepKeepsAgreement(p: Params, calls: seq<Call>, s: State, c: Call, s': State)
    requires Tuned(p) && p.limit * STALE_AFTER >= p.burst as real
    requires Sane(p, s, c.now) && AgreesFrom(p, calls, s, c.now) && Step(p, s, c, s')
    ensures Sane(p, s', c.now) && AgreesFrom(p, calls + [c], s', c.now) && VerdictAgrees(p, calls, c)
  {
    SweepKeepsAgreement(p, calls, s, c.now);
    var t := Swept(s, c.now);
    if c.key in t.buckets {
      ChargeKeepsAgreement(p, calls, t, c, s');
    } else if |t.buckets| < MAX_BUCKETS {
      AdmitKeepsAgreement(p, calls, t, c, s');
    } else if victim, u :| Evicts(p, t, victim, c.now, u) && Admits(p, u, c, s') {
      DroppingFullIsInvisible(p, calls, t, u, c.now);
      AdmitKeepsAgreement(p, calls, u, c, s');
    } else {
      assert (calls + [c])[..|calls|] == calls;
      assert Effective(p, t, c.key, c.now) == Level(p, Reference(p, calls, c.key), c.now);
      forall k, x | c.now <= x ensures Effective(p, s', k, x) == Level(p, Reference(p, calls + [c], k), x) {
        assert Effective(p, t, k, x) == Level(p, Reference(p, calls, k), x);
      }
    }
  }

  lemma RunPrefix(p: Params, calls: seq<Call>, states: seq<State>)
    requires IsRun(p, calls, states) && calls != []
    ensures IsRun(p, calls[..|calls| - 1], states[..|calls|])
  {
  }

  lemma {:induction false} RunAgrees(p: Params, calls: seq<Call>, states: seq<State>, now: real)
    requires Tuned(p) && p.limit * STALE_AFTER >= p.burst as real
    requires IsRun(p, calls, states) && After(calls, now)
    ensures Sane(p, states[|calls|], now) && AgreesFrom(p, calls, states[|calls|], now)
    ensures forall i :: 0 <= i < |calls| ==> VerdictAgrees(p, calls[..i], calls[i])
  {
    if calls != [] {
      var n := |calls| - 1;
      var before := calls[..n];
      RunPrefix(p, calls, states);
      RunAgrees(p, before, states[..n + 1], calls[n].now);
      assert calls == before + [calls[n]];
      StepKeepsAgreement(p, before, states[n], calls[n], states[n + 1]);
      forall i | 0 <= i < |calls| ensures VerdictAgrees(p, calls[..i], calls[i]) {
        if i < n { assert before[..i] == calls[..i] && before[i] == calls[i]; }
      }
    }
  }

  /** Main result: after any run, sweeps and evictions included, every key has
      exactly the tokens of an ordinary bucket that was never dropped, and every
      verdict is the one that bucket gives; only a newcomer to a full map differs,
      and it would have had a full burst. */
  lemma BoundedMapRefinesBuckets(p: Params, calls: seq<Call>, states: seq<State>)
    requires Tuned(p) && p.limit * STALE_AFTER >= p.burst as real && IsRun(p, calls, states)
    ensures Faithful(p, calls, states)
  {
    if calls == [] {
      forall now ensures AgreesFrom(p, calls, states[0], now) {}
    } else {
      RunAgrees(p, calls, states, calls[|calls| - 1].now);
      forall now | After(calls, now) ensures AgreesFrom(p, calls, states[|calls|], now) {
        RunAgrees(p, calls, states, now);
      }
    }
  }

  // ---------- The tuning condition is exact ----------

  function BurstCalls(n: nat): seq<Call> {
    seq(n, i => Call("a", 0.0, Granted))
  }

  function AfterBurst(p: Params, i: nat): State {
    if i == 0 then Empty else
      State(map["a" := Bucket(Charged(p.burst as real - i as real, 0.0), Some(0.0))], Some(0.0))
  }

  lemma BurstStep(p: Params, i: nat)
    requires Tuned(p) && i < p.burst
    ensures Step(p, AfterBurst(p, i), Call("a", 0.0, Granted), AfterBurst(p, i + 1))
  {
    var s, s' := AfterBurst(p, i), AfterBurst(p, i + 1);
    var spent := Bucket(Charged(p.burst as real - (i + 1) as real, 0.0), Some(0.0));
    if i == 0 {
      assert Swept(s, 0.0) == State(map[], Some(0.0));
      assert s'.buckets == map["a" := Bucket(Untouched, None)]["a" := spent];
    } else {
      LevelAtRest(p, p.burst as real - i as real, 0.0);
      assert Swept(s, 0.0) == s;
      assert s'.buckets == s.buckets["a" := spent];
    }
  }

  lemma StrangerSweepsTheBurstAway(p: Params, s': State)
    requires Tuned(p)
    requires s' == State(map["b" := Bucket(Charged(p.burst as real - 1.0, STALE_AFTER), Some(STALE_AFTER))],
                         Some(STALE_AFTER))
    ensures Step(p, AfterBurst(p, p.burst), Call("b", STALE_AFTER, Granted), s')
  {
    assert Swept(AfterBurst(p, p.burst), STALE_AFTER) == State(map[], Some(STALE_AFTER));
    assert s'.buckets == map["b" := Bucket(Untouched, None)]["b" := s'.buckets["b"]];
  }

  // A client spends its whole burst at time 0; another client calls one stale window later.
  lemma SlowRefillRun(p: Params) returns (calls: seq<Call>, states: seq<State>)
    requires Tuned(p)
    ensures IsRun(p, calls, states)
    ensures |calls| == p.burst + 1 && calls[..p.burst] == BurstCalls(p.burst)
    ensures calls[p.burst] == Call("b", STALE_AFTER, Granted)
    ensures "a" !in states[|calls|].buckets
  {
    var n := p.burst;
    var last := State(map["b" := Bucket(Charged(n as real - 1.0, STALE_AFTER), Some(STALE_AFTER))], Some(STALE_AFTER));
    calls := BurstCalls(n) + [Call("b", STALE_AFTER, Granted)];
    states := seq(n + 1, i requires 0 <= i => AfterBurst(p, i)) + [last];
    forall i | 0 <= i < |calls| ensures Step(p, states[i], calls[i], states[i + 1]) {
      if i < n { BurstStep(p, i); } else { StrangerSweepsTheBurstAway(p, last); }
    }
  }

  lemma {:induction false} ReferenceAfterBurst(p: Params, n: nat)
    requires Tuned(p) && n <= p.burst
    ensures Reference(p, BurstCalls(n), "a") == if n == 0 then Untouched else Charged((p.burst - n) as real, 0.0)
  {
    if n > 0 {
      ReferenceAfterBurst(p, n - 1);
      assert BurstCalls(n)[..n - 1] == BurstCalls(n - 1);
      assert p.limit * (0.0 - 0.0) == 0.0;
    }
  }

  lemma SlowRefillIsUnfaithful(p: Params, calls: seq<Call>, states: seq<State>)
    requires Tuned(p) && p.limit * STALE_AFTER < p.burst as real
    requires IsRun(p, calls, states)
    requires |calls| == p.burst + 1 && calls[..p.burst] == BurstCalls(p.burst)
    requires calls[p.burst] == Call("b", STALE_AFTER, Granted)
    requires "a" !in states[|calls|].buckets
    ensures !Faithful(p, calls, states)
  {
    ReferenceAfterBurst(p, p.burst);
    assert calls[..|calls| - 1] == BurstCalls(p.burst);
    assert Reference(p, calls, "a") == Charged(0.0, 0.0);
    assert Effective(p, states[|calls|], "a", STALE_AFTER) != Level(p, Reference(p, calls, "a"), STALE_AFTER);
    forall i | 0 <= i < |calls| ensures calls[i].now <= STALE_AFTER {
      if i < p.burst { assert calls[i] == calls[..p.burst][i]; }
    }
    assert After(calls, STALE_AFTER);
  }

  /** The sweep is harmless on every run exactly when a stale window refills a whole burst. */
  lemma FaithfulIffStaleWindowRefillsBurst(p: Params)
    requires Tuned(p)
    ensures (forall calls, states | IsRun(p, calls, states) :: Faithful(p, calls, states))
       <==> p.limit * STALE_AFTER >= p.burst as real
  {
    if p.limit * STALE_AFTER >= p.burst as real {
      forall calls, states | IsRun(p, calls, states) ensures Faithful(p, calls, states) {
        BoundedMapRefinesBuckets(p, calls, states);
      }
    } else {
      var calls, states := SlowRefillRun(p);
      SlowRefillIsUnfaithful(p, calls, states);
    }
  }

  // Five attempts, then one every thirty seconds: the server's login limiter.
  const LOGIN := Params(1.0 / 30.0, 5)

  lemma LoginLimiterIsFaithful(calls: seq<Call>, states: seq<State>)
    requires IsRun(LOGIN, calls, states)
    ensures Faithful(LOGIN, calls, states)
  {
    BoundedMapRefinesBuckets(LOGIN, calls, states);
  }

  // ---------- Throughput ----------

  // Grants to `key` in the window that starts at `from`.
  function Grants(calls: seq<Call>, key: Key, from: real): nat {
    if calls == [] then 0 else
      var c := calls[|calls| - 1];
      Grants(calls[..|calls| - 1], key, from)
      + if c.key == key && c.verdict == Granted && from <= c.now then 1 else 0
  }

  // Every verdict agrees with the reference, last call first.
  ghost predicate Agreed(p: Params, calls: seq<Call>) {
    calls == [] || (Agreed(p, calls[..|calls| - 1]) && VerdictAgrees(p, calls[..|calls| - 1], calls[|calls| - 1]))
  }

  lemma {:induction false} FaithfulIsAgreed(p: Params, calls: seq<Call>)
    requires forall i :: 0 <= i < |calls| ==> VerdictAgrees(p, calls[..i], calls[i])
    ensures Agreed(p, calls)
  {
    if calls != [] {
      var before := calls[..|calls| - 1];
      forall i | 0 <= i < |before| ensures VerdictAgrees(p, before[..i], before[i]) {
        assert before[..i] == calls[..i];
      }
      FaithfulIsAgreed(p, before);
    }
  }

  lemma {:induction false} GrantsSpendTokens(p: Params, calls: seq<Call>, key: Key, from: real, to: real)
    requires Tuned(p) && NonDecreasing(calls) && After(calls, to) && from <= to && Agreed(p, calls)
    ensures Grants(calls, key, from) as real + Level(p, Reference(p, calls, key), to)
         <= p.burst as real + Refill(p, from, to)
  {
    hide Level, Take, Refill;
    if calls == [] {
      NoGrantsFit(p, calls, key, from, to);
    } else {
      var n := |calls| - 1;
      var before, c := calls[..n], calls[n];
      assert calls == before + [c];
      if c.now < from {
        GrantsOutsideWindow(calls, key, from);
        NoGrantsFit(p, calls, key, from, to);
      } else {
        GrantsSpendTokens(p, before, key, from, c.now);
        GrantsGrow(p, before, c, key, from, to);
      }
    }
  }

  lemma NoGrantsFit(p: Params, calls: seq<Call>, key: Key, from: real, to: real)
    requires Tuned(p) && from <= to && Grants(calls, key, from) == 0
    ensures Grants(calls, key, from) as real + Level(p, Reference(p, calls, key), to)
         <= p.burst as real + Refill(p, from, to)
  {
    hide Level, Refill;
    LevelCap(p, Reference(p, calls, key), to);
    RefillNonNegative(p, from, to);
  }

  lemma LevelCap(p: Params, b: TokenBucket, t: real)
    ensures Level(p, b, t) <= p.burst as real
  {
  }

  // One more call, then waiting until `to`, adds at most the refill of that wait.
  lemma GrantsGrow(p: Params, before: seq<Call>, c: Call, key: Key, from: real, to: real)
    requires Tuned(p) && from <= c.now <= to && VerdictAgrees(p, before, c)
    requires Grants(before, key, from) as real + Level(p, Reference(p, before, key), c.now)
          <= p.burst as real + Refill(p, from, c.now)
    ensures Grants(before + [c], key, from) as real + Level(p, Reference(p, before + [c], key), to)
         <= p.burst as real + Refill(p, from, to)
  {
    hide Level, Refill;
    GrantSpends(p, before, c, key, from);
    LevelBounds(p, Reference(p, before + [c], key), c.now, to);
    RefillSplits(p, from, c.now, to);
  }

  lemma GrantSpends(p: Params, before: seq<Call>, c: Call, key: Key, from: real)
    requires Tuned(p) && from <= c.now && VerdictAgrees(p, before, c)
    ensures Grants(before + [c], key, from) as real + Level(p, Reference(p, before + [c], key), c.now)
         == Grants(before, key, from) as real + Level(p, Reference(p, before, key), c.now)
  {
    assert (before + [c])[..|before|] == before;
    TakeSpends(p, Reference(p, before, c.key), c.now);
  }

  lemma RefillNonNegative(p: Params, from: real, to: real)
    requires p.limit >= 0.0 && from <= to
    ensures Refill(p, from, to) >= 0.0
  {
  }

  lemma RefillSplits(p: Params, from: real, mid: real, to: real)
    ensures Refill(p, from, to) == Refill(p, from, mid) + Refill(p, mid, to)
  {
  }

  lemma {:induction false} GrantsOutsideWindow(calls: seq<Call>, key: Key, from: real)
    requires forall i :: 0 <= i < |calls| ==> calls[i].now < from
    ensures Grants(calls, key, from) == 0
  {
    if calls != [] { GrantsOutsideWindow(calls[..|calls| - 1], key, from); }
  }

  // The calls made no later than `to`.
  function UpTo(calls: seq<Call>, to: real): seq<Call> {
    if calls == [] || calls[|calls| - 1].now <= to then calls else UpTo(calls[..|calls| - 1], to)
  }

  /** In any run, a key is granted at most burst + limit * (to - from) attempts in
      any window, however often its bucket was dropped and recreated inside it. */
  lemma {:induction false} ThroughputBound(p: Params, calls: seq<Call>, states: seq<State>, key: Key, from: real,
                                           to: real)
    requires Tuned(p) && p.limit * STALE_AFTER >= p.burst as real
    requires IsRun(p, calls, states) && from <= to
    ensures Grants(UpTo(calls, to), key, from) as real <= p.burst as real + Refill(p, from, to)
  {
    if calls == [] || calls[|calls| - 1].now <= to {
      BoundedMapRefinesBuckets(p, calls, states);
      FaithfulIsAgreed(p, calls);
      GrantsSpendTokens(p, calls, key, from, to);
      ReferenceNeverNegative(p, calls, key, to);
    } else {
      RunPrefix(p, calls, states);
      ThroughputBound(p, calls[..|calls| - 1], states[..|calls|], key, from, to);
    }
  }

  lemma {:induction false} ReferenceNeverNegative(p: Params, calls: seq<Call>, key: Key, now: real)
    requires Tuned(p) && NonDecreasing(calls) && After(calls, now)
    ensures Level(p, Reference(p, calls, key), now) >= 0.0
  {
    if calls != [] {
      hide Level, Refill;
      var n := |calls| - 1;
      ReferenceNeverNegative(p, calls[..n], key, calls[n].now);
      TakeSpends(p, Reference(p, calls[..n], key), calls[n].now);
      LevelBounds(p, Reference(p, calls, key), calls[n].now, now);
    }
  }

  // ---------- Who is granted ----------

  // Between two charges the level climbs with the clock, up to the burst.
  lemma LevelClimbs(p: Params, b: TokenBucket, s: real, t: real)
    requires p.limit >= 0.0 && s <= t && (b.Charged? ==> b.last <= s)
    ensures var climbed := Level(p, b, s) + p.limit * (t - s);
      Level(p, b, t) == if climbed > p.burst as real then p.burst as real else climbed
  {
    RefillIs(p, s, t);
    RefillNonNegative(p, s, t);
    if b.Charged? { RefillSplits(p, b.last, s, t); }
    hide Refill;
  }

  lemma {:induction false} ReferenceIsPast(p: Params, calls: seq<Call>, key: Key, now: real)
    requires After(calls, now)
    ensures Reference(p, calls, key).Charged? ==> Reference(p, calls, key).last <= now
  {
    if calls != [] {
      hide Level;
      ReferenceIsPast(p, calls[..|calls| - 1], key, now);
    }
  }

  lemma LastCall(p: Params, before: seq<Call>, c: Call, key: Key, from: real)
    requires VerdictAgrees(p, before, c)
    ensures var mine := c.key == key && c.verdict == Granted;
      && Reference(p, before + [c], key) == (if mine then Take(p, Reference(p, before, key), c.now).0
                                             else Reference(p, before, key))
      && Grants(before + [c], key, from) == Grants(before, key, from) + if mine && from <= c.now then 1 else 0
  {
    hide Level;
    assert (before + [c])[..|before|] == before;
  }

  // A window that accounted for the level before a grant accounts for it after one.
  lemma GrantIsAccounted(p: Params, before: seq<Call>, c: Call, key: Key, start: real, to: real)
    requires Tuned(p) && After(before, c.now) && VerdictAgrees(p, before, c) && c.key == key && c.verdict == Granted
    requires start <= c.now <= to
    requires Grants(before, key, start) as real + Level(p, Reference(p, before, key), c.now)
          >= p.burst as real + Refill(p, start, c.now)
    ensures var now := Level(p, Reference(p, before + [c], key), to);
      now == p.burst as real
      || Grants(before + [c], key, start) as real + now >= p.burst as real + Refill(p, start, to)
  {
    var calls := before + [c];
    ReferenceIsPast(p, calls, key, c.now);
    GrantSpends(p, before, c, key, start);
    LevelClimbs(p, Reference(p, calls, key), c.now, to);
    RefillIs(p, c.now, to);
    RefillSplits(p, start, c.now, to);
    hide Level, Take, Refill, Reference, Grants;
  }

  /** Some window accounts for every token a key is short of its burst. */
  lemma {:induction false} TokensAreAccounted(p: Params, calls: seq<Call>, key: Key, to: real) returns (from: real)
    requires Tuned(p) && NonDecreasing(calls) && After(calls, to) && Agreed(p, calls)
    ensures from <= to
    ensures Grants(calls, key, from) as real + Level(p, Reference(p, calls, key), to)
         >= p.burst as real + Refill(p, from, to)
  {
    hide Level, Take, Refill, VerdictAgrees;
    from := to;
    NothingRefills(p, to);
    if calls == [] {
      FullAtFirst(p, to);
    } else {
      var n := |calls| - 1;
      var before, c := calls[..n], calls[n];
      assert calls == before + [c];
      if c.key == key && c.verdict == Granted {
        var start := TokensAreAccounted(p, before, key, c.now);
        GrantIsAccounted(p, before, c, key, start, to);
        if Level(p, Reference(p, calls, key), to) < p.burst as real { from := start; }
      } else {
        from := TokensAreAccounted(p, before, key, to);
        LastCall(p, before, c, key, from);
      }
    }
  }

  lemma FullAtFirst(p: Params, t: real)
    ensures Level(p, Untouched, t) == p.burst as real
  {
  }

  lemma RefillIs(p: Params, from: real, to: real)
    ensures Refill(p, from, to) == p.limit * (to - from)
  {
  }

  lemma NothingRefills(p: Params, t: real)
    ensures Refill(p, t, t) == 0.0
  {
    var elapsed := t - t;
    assert elapsed == 0.0;
    assert p.limit * elapsed == 0.0;
  }

  // One more grant now would keep the window that starts at `from` within burst and refill.
  ghost predicate Allows(p: Params, before: seq<Call>, key: Key, from: real, now: real) {
    Grants(before, key, from) as real + 1.0 <= p.burst as real + p.limit * (now - from)
  }

  lemma AllowsIs(p: Params, before: seq<Call>, key: Key, from: real, now: real)
    ensures Allows(p, before, key, from, now) <==>
            Grants(before, key, from) as real + 1.0 <= p.burst as real + Refill(p, from, now)
  {
    hide Grants;
  }

  lemma ReferenceGrantsIff(p: Params, before: seq<Call>, key: Key, now: real)
    requires Tuned(p) && NonDecreasing(before) && After(before, now) && Agreed(p, before)
    ensures Level(p, Reference(p, before, key), now) >= 1.0
       <==> forall from :: from <= now ==> Allows(p, before, key, from, now)
  {
    hide Level, Refill, Allows, Grants, Reference;
    if Level(p, Reference(p, before, key), now) >= 1.0 {
      forall from | from <= now ensures Allows(p, before, key, from, now) {
        GrantsSpendTokens(p, before, key, from, now);
        AllowsIs(p, before, key, from, now);
      }
    } else {
      var from := TokensAreAccounted(p, before, key, now);
      AllowsIs(p, before, key, from, now);
    }
  }

  lemma {:induction false} AgreedBefore(p: Params, calls: seq<Call>, i: nat)
    requires i <= |calls| && forall j :: 0 <= j < |calls| ==> VerdictAgrees(p, calls[..j], calls[j])
    ensures Agreed(p, calls[..i])
  {
    forall j | 0 <= j < i ensures VerdictAgrees(p, calls[..i][..j], calls[..i][j]) {
      assert calls[..i][..j] == calls[..j];
    }
    FaithfulIsAgreed(p, calls[..i]);
  }

  /** Who gets through, said without any bucket: in any run an attempt that is not turned
      away by a full map is granted if and only if, for every window that ends with it, the
      grants to its key so far leave one under burst + limit * length. */
  lemma GrantedIff(p: Params, calls: seq<Call>, states: seq<State>, i: nat)
    requires Tuned(p) && p.limit * STALE_AFTER >= p.burst as real && IsRun(p, calls, states)
    requires i < |calls| && calls[i].verdict != TurnedAway
    ensures calls[i].verdict == Granted
       <==> forall from :: from <= calls[i].now ==> Allows(p, calls[..i], calls[i].key, from, calls[i].now)
  {
    BoundedMapRefinesBuckets(p, calls, states);
    AgreedBefore(p, calls, i);
    assert VerdictAgrees(p, calls[..i], calls[i]);
    hide Allows, Agreed, Level;
    ReferenceGrantsIff(p, calls[..i], calls[i].key, calls[i].now);
  }

  // ---------- Capacity and availability ----------

  lemma AdmitAddsOneKey(p: Params, s: State, c: Call, s': State)
    requires c.key !in s.buckets && Admits(p, s, c, s')
    ensures |s'.buckets| == |s.buckets| + 1
  {
    assert s'.buckets.Keys == s.buckets.Keys + {c.key};
    assert |s'.buckets.Keys| == |s.buckets.Keys| + 1;
  }

  lemma StepKeepsCapacity(p: Params, s: State, c: Call, s': State)
    requires |s.buckets| <= MAX_BUCKETS && Step(p, s, c, s')
    ensures |s'.buckets| <= MAX_BUCKETS
  {
    var t := Swept(s, c.now);
    assert |t.buckets| <= |s.buckets| by { SubsetSize(t.buckets.Keys, s.buckets.Keys); }
    if c.key in t.buckets {
      assert s'.buckets.Keys == t.buckets.Keys;
    } else if |t.buckets| < MAX_BUCKETS {
      AdmitAddsOneKey(p, t, c, s');
    } else if victim, u :| Evicts(p, t, victim, c.now, u) && Admits(p, u, c, s') {
      assert u.buckets.Keys == t.buckets.Keys - {victim};
      AdmitAddsOneKey(p, u, c, s');
    }
  }

  lemma SubsetSize<T>(a: set<T>, b: set<T>)
    requires a <= b
    ensures |a| <= |b|
  {
    assert b == a + (b - a);
  }

  /** The map never outgrows its cap, under any parameters. */
  lemma {:induction false} CapacityBound(p: Params, calls: seq<Call>, states: seq<State>)
    requires IsRun(p, calls, states)
    ensures |states[|calls|].buckets| <= MAX_BUCKETS
  {
    if calls != [] {
      var n := |calls| - 1;
      RunPrefix(p, calls, states);
      CapacityBound(p, calls[..n], states[..n + 1]);
      StepKeepsCapacity(p, states[n], calls[n], states[n + 1]);
    }
  }

  /** A newcomer is turned away only while at least EVICT_SAMPLE clients are being
      throttled: an idle map cannot lock anyone out. */
  lemma {:induction false} TurnedAwayOnlyWhenBusy(p: Params, calls: seq<Call>, states: seq<State>, i: nat)
    requires Tuned(p) && IsRun(p, calls, states) && i < |calls| && calls[i].verdict == TurnedAway
    ensures exists busy: set<Key> ::
      |busy| == EVICT_SAMPLE && forall k :: k in busy ==> Effective(p, states[i], k, calls[i].now) < p.burst as real
  {
    var t := Swept(states[i], calls[i].now);
    assert Step(p, states[i], calls[i], states[i + 1]);
    var sample :| BusySample(p, t, sample, calls[i].now);
    forall k | k in sample ensures Effective(p, states[i], k, calls[i].now) < p.burst as real {
      assert k in t.buckets && !Refilled(p, t.buckets[k], calls[i].now);
    }
  }

  // Swept less than a window ago, and then no bucket was a whole window old.
  ghost predicate Recent(s: State, now: real) {
    && s.lastSweep.Some? && s.lastSweep.value <= now && now - s.lastSweep.value < STALE_AFTER
    && forall k :: k in s.buckets ==>
      s.buckets[k].lastSeen.Some? && s.buckets[k].lastSeen.value <= now
      && s.lastSweep.value - s.buckets[k].lastSeen.value < STALE_AFTER
  }

  lemma SweepIsRecent(s: State, before: real, now: real)
    requires (s == Empty || Recent(s, before)) && before <= now
    ensures Recent(Swept(s, now), now)
  {
  }

  lemma ChargeIsRecent(p: Params, s: State, key: Key, now: real)
    requires key in s.buckets && Recent(s.(buckets := s.buckets - {key}), now)
    requires s.buckets[key].lastSeen == None ==> Level(p, s.buckets[key].limiter, now) >= 1.0
    requires s.buckets[key].lastSeen.Some? ==> Recent(s, now)
    ensures Recent(Charge(p, s, key, now).0, now)
  {
    hide Level;
    var r := Charge(p, s, key, now).0;
    forall k | k in r.buckets
      ensures r.buckets[k].lastSeen.Some? && r.buckets[k].lastSeen.value <= now
      ensures r.lastSweep.value - r.buckets[k].lastSeen.value < STALE_AFTER
    {
      if k != key { assert k in s.buckets - {key}; }
    }
  }

  lemma AdmitIsRecent(p: Params, s: State, c: Call, s': State)
    requires Tuned(p) && Recent(s, c.now) && c.key !in s.buckets && Admits(p, s, c, s')
    ensures Recent(s', c.now)
  {
    FullAtFirst(p, c.now);
    hide Level, Charge;
    assert Opened(s, c.key).buckets - {c.key} == s.buckets;
    ChargeIsRecent(p, Opened(s, c.key), c.key, c.now);
  }

  lemma StepKeepsRecent(p: Params, s: State, before: real, c: Call, s': State)
    requires Tuned(p) && (s == Empty || Recent(s, before)) && before <= c.now && Step(p, s, c, s')
    ensures Recent(s', c.now)
  {
    SweepIsRecent(s, before, c.now);
    hide Level, Charge, Admits, Swept, BusySample;
    var t := Swept(s, c.now);
    if c.key in t.buckets {
      ChargeIsRecent(p, t, c.key, c.now);
    } else if |t.buckets| < MAX_BUCKETS {
      AdmitIsRecent(p, t, c, s');
    } else if victim, u :| Evicts(p, t, victim, c.now, u) && Admits(p, u, c, s') {
      AdmitIsRecent(p, u, c, s');
    }
  }

  /** A client is forgotten within two windows of its last grant, so an idle map empties. */
  lemma {:induction false} IdleAreForgotten(p: Params, calls: seq<Call>, states: seq<State>)
    requires Tuned(p) && IsRun(p, calls, states) && calls != []
    ensures var s, now := states[|calls|], calls[|calls| - 1].now;
      Recent(s, now)
      && forall k :: k in s.buckets ==>
        s.buckets[k].lastSeen.Some? && now - s.buckets[k].lastSeen.value < 2.0 * STALE_AFTER
  {
    var n := |calls| - 1;
    RunPrefix(p, calls, states);
    if n > 0 { IdleAreForgotten(p, calls[..n], states[..n + 1]); }
    hide Step, Recent;
    StepKeepsRecent(p, states[n], if n > 0 then calls[n - 1].now else calls[n].now, calls[n], states[n + 1]);
    assert Recent(states[|calls|], calls[n].now);
    RecentMeans(states[|calls|], calls[n].now);
  }

  lemma RecentMeans(s: State, now: real)
    requires Recent(s, now)
    ensures forall k :: k in s.buckets ==>
      s.buckets[k].lastSeen.Some? && now - s.buckets[k].lastSeen.value < 2.0 * STALE_AFTER
  {
  }

  // ---------- The object ----------

  class RateLimiter {
    const limit: real
    const burst: int
    var buckets: map<Key, Bucket>
    var lastSweep: Option<real>

    // The calls answered so far, and the map before and after each.
    ghost var calls: seq<Call>
    ghost var states: seq<State>

    ghost function P(): Params { Params(limit, burst) }

    ghost function Now(): State reads this { State(buckets, lastSweep) }

    ghost predicate Valid() reads this {
      IsRun(P(), calls, states) && states[|calls|] == Now()
    }

    constructor (limit: real, burst: int)
      ensures Valid() && calls == [] && P() == Params(limit, burst)
    {
      this.limit, this.burst := limit, burst;
      buckets, lastSweep := map[], None;
      calls, states := [], [Empty];
    }

    /** Answers one attempt at time `now`. Valid() ties the answer to a run of the
        specification, so every lemma about runs is about this object. */
    method Allow(key: Key, now: real) returns (ok: bool)
      requires Valid() && After(calls, now)
      modifies this
      ensures Valid()
      ensures exists v :: calls == old(calls) + [Call(key, now, v)] && (ok <==> v == Granted)
      ensures |buckets| <= MAX_BUCKETS
      ensures Tuned(P()) && limit * STALE_AFTER >= burst as real && calls[|calls| - 1].verdict != TurnedAway ==>
        (ok <==> forall from :: from <= now ==> Allows(P(), old(calls), key, from, now))
    {
      var verdict := Decide(key, now);
      ok := verdict == Granted;
      calls, states := calls + [Call(key, now, verdict)], states + [Now()];
      hide Step, Allows;
      forall i | 0 <= i < |calls| ensures Step(P(), states[i], calls[i], states[i + 1]) {
        if i < |old(calls)| { assert old(states)[i + 1] == states[i + 1]; }
      }
      CapacityBound(P(), calls, states);
      ghost var n := |calls| - 1;
      assert calls[..n] == old(calls);
      if Tuned(P()) && limit * STALE_AFTER >= burst as real && verdict != TurnedAway {
        GrantedIff(P(), calls, states, n);
      }
    }

    method Decide(key: Key, now: real) returns (verdict: Verdict)
      modifies `buckets, `lastSweep
      ensures Step(P(), old(Now()), Call(key, now, verdict), Now())
    {
      Sweep(now);
      ghost var t := Now();
      if key !in buckets {
        if |buckets| >= MAX_BUCKETS {
          var room := EvictRefilled(now);
          if !room { return TurnedAway; }
        }
        buckets := buckets[key := Bucket(Untouched, None)];
      }
      var (limiter, ok) := Take(Params(limit, burst), buckets[key].limiter, now);
      if !ok { return Throttled; }
      buckets := buckets[key := Bucket(limiter, Some(now))];
      return Granted;
    }

    /** Drops one sampled bucket that is full again, looking at no more than
        EVICT_SAMPLE of them in an arbitrary order. */
    method EvictRefilled(now: real) returns (room: bool)
      modifies `buckets
      ensures room ==> exists victim :: Evicts(P(), old(Now()), victim, now, Now())
      ensures !room ==> Now() == old(Now()) && exists sample :: BusySample(P(), Now(), sample, now)
    {
      var rest, inspected := buckets.Keys, {};
      while rest != {} && |inspected| < EVICT_SAMPLE
        invariant rest + inspected == buckets.Keys && rest !! inspected
        invariant buckets == old(buckets) && lastSweep == old(lastSweep)
        invariant |inspected| <= EVICT_SAMPLE
        invariant forall k :: k in inspected ==> !Refilled(P(), buckets[k], now)
        decreases |rest|
      {
        var key :| key in rest;
        if Refilled(Params(limit, burst), buckets[key], now) {
          buckets := buckets - {key};
          assert Evicts(P(), old(Now()), key, now, Now());
          return true;
        }
        rest, inspected := rest - {key}, inspected + {key};
      }
      SubsetSize(inspected, buckets.Keys);
      assert BusySample(P(), Now(), inspected, now);
      return false;
    }

    /** Drops the buckets idle past the stale window, at most once per window. */
    method Sweep(now: real)
      modifies `buckets, `lastSweep
      ensures Now() == Swept(old(Now()), now)
    {
      if !Stale(lastSweep, now) { return; }
      lastSweep := Some(now);
      var rest := buckets.Keys;
      while rest != {}
        invariant lastSweep == Some(now) && rest <= old(buckets).Keys
        invariant buckets ==
          map k | k in old(buckets) && (k in rest || !Stale(old(buckets)[k].lastSeen, now)) :: old(buckets)[k]
        decreases |rest|
      {
        var key :| key in rest;
        rest := rest - {key};
        if Stale(buckets[key].lastSeen, now) { buckets := buckets - {key}; }
      }
    }
  }
}
