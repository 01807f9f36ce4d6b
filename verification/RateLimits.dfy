/** The two rate limiters: the sliding-window log of RedisCacheService.checkRateLimit and the
    renewed-TTL counter of RateLimitGuard, each for one key.

    Times and the window w are milliseconds. A Redis key whose TTL of w is set at t is gone from t + w on. */
module RateLimits {

  ghost predicate Sorted(ts: seq<nat>) {
    forall i, j :: 0 <= i < j < |ts| ==> ts[i] <= ts[j]
  }

  /** Arrival times that never go back, the first not before `from`. */
  predicate Ascending(from: nat, ts: seq<nat>)
    decreases |ts|
  {
    ts != [] ==> from <= ts[0] && Ascending(ts[0], ts[1..])
  }

  // ---------------------------------------------------------------- the sliding-window log

  /** The scores of the zset, ascending, and the time at which the key expires. */
  datatype LogState = LogState(log: seq<nat>, expireAt: int)
  datatype Verdict = Verdict(allowed: bool, remaining: int, resetTime: int)
  datatype Checked = Checked(state: LogState, verdict: Verdict)

  const NoLog := LogState([], 0)

  /** ZREMRANGEBYSCORE key 0 windowStart: scores are non-negative, so what remains is later than windowStart. */
  function Prune(log: seq<nat>, windowStart: int): seq<nat> {
    if log == [] then []
    else if log[0] <= windowStart then Prune(log[1..], windowStart)
    else [log[0]] + Prune(log[1..], windowStart)
  }

  /** ZADD keeps the zset ordered by score. */
  function Insert(log: seq<nat>, t: nat): seq<nat> {
    if log == [] then [t]
    else if t < log[0] then [t] + log
    else [log[0]] + Insert(log[1..], t)
  }

  /** What Redis still holds of the key at time `now`. */
  function LiveLog(s: LogState, now: nat): seq<nat> {
    if now >= s.expireAt then [] else s.log
  }

  function Check(s: LogState, now: nat, maxRequests: int, w: nat): Checked {
    var current := Prune(LiveLog(s, now), now - w);
    if |current| >= maxRequests then
      Checked(LogState(current, s.expireAt), Verdict(false, 0, if current != [] then current[0] + w else now + w))
    else
      Checked(LogState(Insert(current, now), now + w), Verdict(true, maxRequests - |current| - 1, now + w))
  }

  // ---- arrivals

  function After(s: LogState, ts: seq<nat>, maxRequests: int, w: nat): LogState
    decreases |ts|
  {
    if ts == [] then s else After(Check(s, ts[0], maxRequests, w).state, ts[1..], maxRequests, w)
  }

  function Grant(s: LogState, now: nat, maxRequests: int, w: nat): seq<nat> {
    if Check(s, now, maxRequests, w).verdict.allowed then [now] else []
  }

  /** The times of the granted ones among these arrivals. */
  function Granted(s: LogState, ts: seq<nat>, maxRequests: int, w: nat): seq<nat>
    decreases |ts|
  {
    if ts == [] then []
    else Grant(s, ts[0], maxRequests, w) + Granted(Check(s, ts[0], maxRequests, w).state, ts[1..], maxRequests, w)
  }

  /** How many of the times lie in the half-open interval from a to b. */
  function CountIn(ts: seq<nat>, a: int, b: int): nat {
    if ts == [] then 0 else (if a <= ts[0] < b then 1 else 0) + CountIn(ts[1..], a, b)
  }

  // ---- pruning

  lemma {:induction false} PruneAppend(log: seq<nat>, t: nat, ws: int)
    ensures Prune(log + [t], ws) == Prune(log, ws) + if t <= ws then [] else [t]
  {
    if log == [] {
      assert [] + [t] == [t] && [t][1..] == [];
    } else {
      assert (log + [t])[1..] == log[1..] + [t];
      PruneAppend(log[1..], t, ws);
    }
  }

  lemma {:induction false} PruneKeeps(log: seq<nat>, ws: int)
    ensures forall t :: t in Prune(log, ws) <==> t in log && t > ws
  {
    if log != [] {
      PruneKeeps(log[1..], ws);
      assert log == [log[0]] + log[1..];
    }
  }

  lemma {:induction false} PruneTwice(log: seq<nat>, ws: int, later: int)
    requires ws <= later
    ensures Prune(Prune(log, ws), later) == Prune(log, later)
    ensures |Prune(log, later)| <= |Prune(log, ws)|
  {
    if log != [] {
      PruneTwice(log[1..], ws, later);
      if log[0] > ws {
        var rest := Prune(log[1..], ws);
        assert ([log[0]] + rest)[1..] == rest;
      }
    }
  }

  lemma {:induction false} PruneAll(log: seq<nat>, ws: int)
    requires forall t :: t in log ==> t <= ws
    ensures Prune(log, ws) == []
  {
    if log != [] {
      assert log[0] in log && forall x :: x in log[1..] ==> x in log;
      PruneAll(log[1..], ws);
    }
  }

  lemma {:induction false} PruneNone(log: seq<nat>, ws: int)
    requires forall t :: t in log ==> t > ws
    ensures Prune(log, ws) == log
  {
    if log != [] {
      assert log[0] in log && forall x :: x in log[1..] ==> x in log;
      PruneNone(log[1..], ws);
    }
  }

  lemma {:induction false} InsertLatest(log: seq<nat>, t: nat)
    requires forall x :: x in log ==> x <= t
    ensures Insert(log, t) == log + [t]
  {
    if log != [] {
      assert log[0] in log && forall x :: x in log[1..] ==> x in log;
      InsertLatest(log[1..], t);
    }
  }

  lemma {:induction false} CountAppend(log: seq<nat>, t: nat, a: int, b: int)
    ensures CountIn(log + [t], a, b) == CountIn(log, a, b) + if a <= t < b then 1 else 0
  {
    if log == [] {
      assert [] + [t] == [t] && [t][1..] == [];
    } else {
      assert (log + [t])[1..] == log[1..] + [t];
      CountAppend(log[1..], t, a, b);
    }
  }

  /** Every time in an interval that starts after ws survives pruning at ws. */
  lemma {:induction false} CountLePrune(log: seq<nat>, a: int, b: int, ws: int)
    requires ws < a
    ensures CountIn(log, a, b) <= |Prune(log, ws)|
  {
    if log != [] { CountLePrune(log[1..], a, b, ws); }
  }

  lemma {:induction false} CountIsPrune(log: seq<nat>, ws: int, b: int)
    requires forall t :: t in log ==> t < b
    ensures CountIn(log, ws + 1, b) == |Prune(log, ws)|
  {
    if log != [] {
      assert log[0] in log && forall x :: x in log[1..] ==> x in log;
      CountIsPrune(log[1..], ws, b);
    }
  }

  // ---- the log is the window of all grants

  function Cap(maxRequests: int): nat {
    if maxRequests > 0 then maxRequests else 0
  }

  /** At time `now` the key holds exactly those of all grants g so far that are still in the window, no more
      than allowed, and its TTL outlives each of them. */
  ghost predicate Window(s: LogState, g: seq<nat>, now: nat, maxRequests: int, w: nat) {
    && (forall t :: t in g ==> t <= now)
    && s.log == Prune(g, now - w)
    && |s.log| <= Cap(maxRequests)
    && (forall t :: t in s.log ==> t + w <= s.expireAt)
  }

  /** The TTL never drops an entry that would still count. */
  lemma TtlDropsNothing(s: LogState, now: nat, w: nat)
    requires forall t :: t in s.log ==> t + w <= s.expireAt
    ensures Prune(LiveLog(s, now), now - w) == Prune(s.log, now - w)
  {
    if now >= s.expireAt { PruneAll(s.log, now - w); }
  }

  /** What a check counts: the earlier grants of the last window. */
  lemma CheckCounts(s: LogState, g: seq<nat>, before: nat, now: nat, maxRequests: int, w: nat)
    requires Window(s, g, before, maxRequests, w) && before <= now
    ensures Prune(LiveLog(s, now), now - w) == Prune(g, now - w)
    ensures |Prune(g, now - w)| <= Cap(maxRequests)
  {
    TtlDropsNothing(s, now, w);
    PruneTwice(g, before - w, now - w);
  }

  lemma PruneKeepsWindow(g: seq<nat>, t: nat, w: nat)
    requires (forall x :: x in g ==> x <= t) && w > 0
    ensures Insert(Prune(g, t - w), t) == Prune(g + [t], t - w) == Prune(g, t - w) + [t]
  {
    PruneKeeps(g, t - w);
    InsertLatest(Prune(g, t - w), t);
    PruneAppend(g, t, t - w);
  }

  /** A denial only prunes. */
  lemma DeniedStep(s: LogState, g: seq<nat>, before: nat, now: nat, maxRequests: int, w: nat)
    requires Window(s, g, before, maxRequests, w) && before <= now
    ensures Window(LogState(Prune(g, now - w), s.expireAt), g, now, maxRequests, w)
  {
    CheckCounts(s, g, before, now, maxRequests, w);
    PruneTwice(g, before - w, now - w);
    PruneKeeps(s.log, now - w);
  }

  /** A grant is recorded as the latest entry and renews the TTL. */
  lemma GrantedStep(g: seq<nat>, now: nat, maxRequests: int, w: nat)
    requires (forall t :: t in g ==> t <= now) && w > 0 && |Prune(g, now - w)| < maxRequests
    ensures Window(LogState(Insert(Prune(g, now - w), now), now + w), g + [now], now, maxRequests, w)
  {
    PruneKeepsWindow(g, now, w);
    PruneKeeps(g + [now], now - w);
  }

  lemma CheckStep(s: LogState, g: seq<nat>, before: nat, now: nat, maxRequests: int, w: nat)
    requires Window(s, g, before, maxRequests, w) && before <= now && w > 0
    ensures Window(Check(s, now, maxRequests, w).state, g + Grant(s, now, maxRequests, w), now, maxRequests, w)
  {
    CheckCounts(s, g, before, now, maxRequests, w);
    if |Prune(g, now - w)| >= maxRequests {
      DeniedStep(s, g, before, now, maxRequests, w);
      assert g + [] == g;
    } else {
      GrantedStep(g, now, maxRequests, w);
    }
  }

  /** The decision, without the data structure: a request is granted iff fewer than maxRequests earlier
      grants lie within the last window. */
  lemma GrantedIff(s: LogState, g: seq<nat>, before: nat, now: nat, maxRequests: int, w: nat)
    requires Window(s, g, before, maxRequests, w) && before <= now
    ensures Check(s, now, maxRequests, w).verdict.allowed <==> CountIn(g, now - w + 1, now + 1) < maxRequests
  {
    CheckCounts(s, g, before, now, maxRequests, w);
    CountIsPrune(g, now - w, now + 1);
  }

  /** The grants of a run, with those of its first request moved to the earlier ones. */
  lemma GrantedShift(s: LogState, g: seq<nat>, ts: seq<nat>, maxRequests: int, w: nat)
    requires ts != []
    ensures g + Granted(s, ts, maxRequests, w)
            == (g + Grant(s, ts[0], maxRequests, w)) + Granted(Check(s, ts[0], maxRequests, w).state, ts[1..], maxRequests, w)
  {}

  lemma LatestOfRest(ts: seq<nat>, before: nat)
    requires ts != []
    ensures ts[|ts|-1] == if ts[1..] == [] then ts[0] else ts[1..][|ts[1..]|-1]
  {}

  lemma {:induction false} RunKeepsWindow(s: LogState, g: seq<nat>, before: nat, ts: seq<nat>, maxRequests: int, w: nat)
    requires Window(s, g, before, maxRequests, w) && Ascending(before, ts) && w > 0
    ensures Window(After(s, ts, maxRequests, w), g + Granted(s, ts, maxRequests, w),
                   if ts == [] then before else ts[|ts|-1], maxRequests, w)
    decreases |ts|
  {
    if ts == [] {
      assert g + [] == g;
    } else {
      var t, g' := Check(s, ts[0], maxRequests, w).state, g + Grant(s, ts[0], maxRequests, w);
      CheckStep(s, g, before, ts[0], maxRequests, w);
      RunKeepsWindow(t, g', ts[0], ts[1..], maxRequests, w);
      GrantedShift(s, g, ts, maxRequests, w);
      LatestOfRest(ts, before);
      assert After(s, ts, maxRequests, w) == After(t, ts[1..], maxRequests, w);
    }
  }

  lemma {:induction false} WindowBound(s: LogState, g: seq<nat>, before: nat, ts: seq<nat>, maxRequests: int, w: nat, a: int)
    requires Window(s, g, before, maxRequests, w) && Ascending(before, ts) && w > 0
    requires CountIn(g, a, a + w) <= Cap(maxRequests)
    ensures CountIn(g + Granted(s, ts, maxRequests, w), a, a + w) <= Cap(maxRequests)
    decreases |ts|
  {
    if ts == [] {
      assert g + [] == g;
    } else {
      var now := ts[0];
      var t, g' := Check(s, now, maxRequests, w).state, g + Grant(s, now, maxRequests, w);
      CheckCounts(s, g, before, now, maxRequests, w);
      CheckStep(s, g, before, now, maxRequests, w);
      CountAppend(g, now, a, a + w);
      if a <= now < a + w { CountLePrune(g, a, a + w, now - w); }
      assert g + [] == g;
      WindowBound(t, g', now, ts[1..], maxRequests, w, a);
      GrantedShift(s, g, ts, maxRequests, w);
    }
  }

  lemma {:induction false} CountNone(ts: seq<nat>, a: int)
    ensures CountIn(ts, a, a) == 0
  {
    if ts != [] { CountNone(ts[1..], a); }
  }

  /** Main result: for all arrivals, limits and windows, no half-open interval of one window's length holds
      more than maxRequests grants. */
  lemma SlidingWindowGuarantee(ts: seq<nat>, maxRequests: int, w: nat, a: int)
    requires Ascending(0, ts)
    ensures CountIn(Granted(NoLog, ts, maxRequests, w), a, a + w) <= if maxRequests > 0 then maxRequests else 0
  {
    if w == 0 {
      CountNone(Granted(NoLog, ts, maxRequests, w), a);
    } else {
      WindowBound(NoLog, [], 0, ts, maxRequests, w, a);
      assert [] + Granted(NoLog, ts, maxRequests, w) == Granted(NoLog, ts, maxRequests, w);
    }
  }

  // ---- resetTime

  /** The window is full, and stays so until its oldest grant leaves it at `reset`. */
  predicate Full(g: seq<nat>, t: nat, maxRequests: int, w: nat) {
    |Prune(g, t - w)| >= maxRequests
  }

  ghost predicate FullUntil(g: seq<nat>, now: nat, reset: int, maxRequests: int, w: nat) {
    forall t: nat :: now <= t < reset ==> Full(g, t, maxRequests, w)
  }

  lemma DeniedWhenFull(s: LogState, g: seq<nat>, before: nat, t: nat, maxRequests: int, w: nat)
    requires Window(s, g, before, maxRequests, w) && before <= t && w > 0 && Full(g, t, maxRequests, w)
    ensures Grant(s, t, maxRequests, w) == [] && Window(Check(s, t, maxRequests, w).state, g, t, maxRequests, w)
  {
    CheckCounts(s, g, before, t, maxRequests, w);
    CheckStep(s, g, before, t, maxRequests, w);
    assert g + [] == g;
  }

  lemma {:induction false} DeniedBeforeReset(
    s: LogState, g: seq<nat>, now: nat, later: seq<nat>, reset: int, maxRequests: int, w: nat)
    requires Window(s, g, now, maxRequests, w) && Ascending(now, later) && w > 0
    requires FullUntil(g, now, reset, maxRequests, w) && forall t :: t in later ==> t < reset
    ensures Granted(s, later, maxRequests, w) == []
    ensures Window(After(s, later, maxRequests, w), g, if later == [] then now else later[|later|-1], maxRequests, w)
    decreases |later|
  {
    if later != [] {
      var t := later[0];
      assert t in later && forall x :: x in later[1..] ==> x in later;
      assert Full(g, t, maxRequests, w);
      DeniedWhenFull(s, g, now, t, maxRequests, w);
      DeniedBeforeReset(Check(s, t, maxRequests, w).state, g, t, later[1..], reset, maxRequests, w);
    }
  }

  lemma {:induction false} OldestLeaves(log: seq<nat>, ws: int)
    requires log != [] && log[0] <= ws
    ensures |Prune(log, ws)| < |log|
  {
    PruneLength(log[1..], ws);
  }

  lemma {:induction false} PruneLength(log: seq<nat>, ws: int)
    ensures |Prune(log, ws)| <= |log|
  {
    if log != [] { PruneLength(log[1..], ws); }
  }

  lemma {:induction false} PruneSorted(log: seq<nat>, ws: int)
    requires Sorted(log)
    ensures Sorted(Prune(log, ws))
  {
    if log != [] {
      PruneSorted(log[1..], ws);
      PruneKeeps(log[1..], ws);
      var p := Prune(log[1..], ws);
      forall i | 0 <= i < |p| ensures log[0] <= p[i] {
        assert p[i] in p;
      }
    }
  }

  /** The oldest counted grant decides when the window stops being full. */
  lemma FullIffBeforeReset(g: seq<nat>, now: nat, t: nat, maxRequests: int, w: nat)
    requires Sorted(g) && maxRequests > 0 && |Prune(g, now - w)| == maxRequests && now <= t
    ensures Full(g, t, maxRequests, w) <==> t < Prune(g, now - w)[0] + w
  {
    var p := Prune(g, now - w);
    PruneTwice(g, now - w, t - w);
    if t < p[0] + w {
      PruneSorted(g, now - w);
      forall x | x in p ensures x > t - w {
        var i :| 0 <= i < |p| && p[i] == x;
        assert i == 0 || p[0] <= p[i];
      }
      PruneNone(p, t - w);
    } else {
      OldestLeaves(p, t - w);
    }
  }

  /** `resetTime` is exact. After a denial at `now`, let any requests follow strictly before the returned
      reset time: all are denied, and the next request is granted iff it comes at or after it. */
  lemma ResetTimeExact(s: LogState, g: seq<nat>, before: nat, now: nat, later: seq<nat>, t: nat, maxRequests: int, w: nat)
    requires Window(s, g, before, maxRequests, w) && Sorted(g) && before <= now && w > 0 && maxRequests > 0
    requires !Check(s, now, maxRequests, w).verdict.allowed
    requires Ascending(now, later) && now <= t && (forall x :: x in later ==> x <= t)
    requires forall x :: x in later ==> x < Check(s, now, maxRequests, w).verdict.resetTime
    ensures var denied := Check(s, now, maxRequests, w);
            && Granted(denied.state, later, maxRequests, w) == []
            && (Check(After(denied.state, later, maxRequests, w), t, maxRequests, w).verdict.allowed
                <==> denied.verdict.resetTime <= t)
  {
    var denied := Check(s, now, maxRequests, w);
    CheckCounts(s, g, before, now, maxRequests, w);
    CheckStep(s, g, before, now, maxRequests, w);
    assert g + [] == g;
    forall x: nat | now <= x ensures Full(g, x, maxRequests, w) <==> x < denied.verdict.resetTime {
      FullIffBeforeReset(g, now, x, maxRequests, w);
    }
    DeniedBeforeReset(denied.state, g, now, later, denied.verdict.resetTime, maxRequests, w);
    var latest := if later == [] then now else later[|later|-1];
    assert later != [] ==> latest in later;
    CheckCounts(After(denied.state, later, maxRequests, w), g, latest, t, maxRequests, w);
    assert denied.verdict.resetTime <= t <==> !Full(g, t, maxRequests, w);
  }

  /** The grants of a run from an empty key meet the conditions of the two results above. */
  lemma {:induction false} GrantedSorted(s: LogState, g: seq<nat>, before: nat, ts: seq<nat>, maxRequests: int, w: nat)
    requires Sorted(g) && (forall t :: t in g ==> t <= before) && Ascending(before, ts)
    ensures Sorted(g + Granted(s, ts, maxRequests, w))
    decreases |ts|
  {
    if ts == [] {
      assert g + [] == g;
    } else {
      var t, g' := Check(s, ts[0], maxRequests, w).state, g + Grant(s, ts[0], maxRequests, w);
      forall i, j | 0 <= i < j < |g'| ensures g'[i] <= g'[j] {
        if j == |g| { assert g[i] in g; }
      }
      GrantedSorted(t, g', ts[0], ts[1..], maxRequests, w);
      GrantedShift(s, g, ts, maxRequests, w);
    }
  }

  // ---- the remaining count

  /** n requests at one instant. */
  function Burst(now: nat, n: nat): seq<nat> {
    if n == 0 then [] else [now] + Burst(now, n - 1)
  }

  function Least(a: nat, b: int): nat {
    if b < 0 then 0 else if a <= b then a else b
  }

  /** A check at `now` adds its grant to what counts, and grants iff there is room. */
  lemma CheckFills(s: LogState, g: seq<nat>, before: nat, now: nat, maxRequests: int, w: nat)
    requires Window(s, g, before, maxRequests, w) && before <= now && w > 0
    ensures var grant := Grant(s, now, maxRequests, w);
            && |Prune(g + grant, now - w)| == |Prune(g, now - w)| + |grant|
            && |grant| == if |Prune(g, now - w)| < maxRequests then 1 else 0
  {
    CheckCounts(s, g, before, now, maxRequests, w);
    PruneAppend(g, now, now - w);
    assert g + [] == g;
  }

  lemma {:induction false} BurstGranted(s: LogState, g: seq<nat>, now: nat, maxRequests: int, w: nat, n: nat)
    requires Window(s, g, now, maxRequests, w) && w > 0
    ensures |Granted(s, Burst(now, n), maxRequests, w)| == Least(n, maxRequests - |Prune(g, now - w)|)
    decreases n
  {
    if n > 0 {
      var t, grant := Check(s, now, maxRequests, w).state, Grant(s, now, maxRequests, w);
      CheckFills(s, g, now, now, maxRequests, w);
      CheckStep(s, g, now, now, maxRequests, w);
      BurstGranted(t, g + grant, now, maxRequests, w, n - 1);
      assert Burst(now, n)[1..] == Burst(now, n - 1);
      assert Granted(s, Burst(now, n), maxRequests, w) == grant + Granted(t, Burst(now, n - 1), maxRequests, w);
    }
  }

  /** `remaining` is exact: of any further requests at the same instant exactly that many are granted. */
  lemma RemainingExact(s: LogState, g: seq<nat>, before: nat, now: nat, maxRequests: int, w: nat, n: nat)
    requires Window(s, g, before, maxRequests, w) && before <= now && w > 0
    ensures var checked := Check(s, now, maxRequests, w);
            |Granted(checked.state, Burst(now, n), maxRequests, w)| == Least(n, checked.verdict.remaining)
  {
    CheckCounts(s, g, before, now, maxRequests, w);
    CheckFills(s, g, before, now, maxRequests, w);
    CheckStep(s, g, before, now, maxRequests, w);
    BurstGranted(Check(s, now, maxRequests, w).state, g + Grant(s, now, maxRequests, w), now, maxRequests, w, n);
  }

  /** The reset time of a granted reply is when its own entry stops counting. */
  lemma GrantCountsUntilReset(s: LogState, g: seq<nat>, before: nat, now: nat, t: nat, maxRequests: int, w: nat)
    requires Window(s, g, before, maxRequests, w) && before <= now <= t
    requires Check(s, now, maxRequests, w).verdict.allowed
    ensures var checked := Check(s, now, maxRequests, w);
            now in Prune(checked.state.log, t - w) <==> t < checked.verdict.resetTime
  {
    CheckCounts(s, g, before, now, maxRequests, w);
    PruneKeeps(g, now - w);
    InsertLatest(Prune(g, now - w), now);
    PruneKeeps(Check(s, now, maxRequests, w).state.log, t - w);
  }

  // ---------------------------------------------------------------- the renewed-TTL counter

  datatype Counter = Counter(count: nat, expireAt: int)

  const NoCounter := Counter(0, 0)

  /** INCR and EXPIRE in one pipeline: every request, refused ones included, renews the TTL. */
  function Hit(c: Counter, now: nat, w: nat): Counter {
    Counter((if now >= c.expireAt then 0 else c.count) + 1, now + w)
  }

  function Hits(c: Counter, ts: seq<nat>, w: nat): Counter
    decreases |ts|
  {
    if ts == [] then c else Hits(Hit(c, ts[0], w), ts[1..], w)
  }

  predicate Admits(c: Counter, now: nat, limit: int, w: nat) {
    Hit(c, now, w).count <= limit
  }

  /** The counter is the number k of arrivals since the last silence of a full window. */
  ghost predicate CountsSinceSilence(c: Counter, history: seq<nat>, w: nat) {
    && history != []
    && c.expireAt == history[|history|-1] + w
    && 1 <= c.count <= |history|
    && (forall i :: |history| - c.count < i < |history| ==> history[i] - history[i-1] < w)
    && (c.count < |history| ==> history[|history|-c.count] - history[|history|-c.count-1] >= w)
  }

  lemma {:induction false} CounterMeaning(c: Counter, history: seq<nat>, ts: seq<nat>, w: nat)
    requires CountsSinceSilence(c, history, w)
    ensures CountsSinceSilence(Hits(c, ts, w), history + ts, w)
    decreases |ts|
  {
    if ts == [] {
      assert history + ts == history;
    } else {
      CounterMeaning(Hit(c, ts[0], w), history + [ts[0]], ts[1..], w);
      assert history + ts == (history + [ts[0]]) + ts[1..];
    }
  }

  /** From a missing key the meaning holds after the first request. */
  lemma CounterMeaningFromStart(ts: seq<nat>, w: nat)
    requires ts != []
    ensures CountsSinceSilence(Hits(NoCounter, ts, w), ts, w)
  {
    CounterMeaning(Hit(NoCounter, ts[0], w), [ts[0]], ts[1..], w);
    assert [ts[0]] + ts[1..] == ts;
  }

  function AdmittedCount(c: Counter, ts: seq<nat>, limit: int, w: nat): nat
    decreases |ts|
  {
    if ts == [] then 0
    else (if Admits(c, ts[0], limit, w) then 1 else 0) + AdmittedCount(Hit(c, ts[0], w), ts[1..], limit, w)
  }

  /** Arrivals without a silence of a full window between any two consecutive ones. */
  predicate NoSilence(ts: seq<nat>, w: nat) {
    |ts| >= 2 ==> ts[1] < ts[0] + w && NoSilence(ts[1..], w)
  }

  lemma {:induction false} BusyAdmits(c: Counter, ts: seq<nat>, limit: nat, w: nat)
    requires NoSilence(ts, w) && (ts != [] ==> ts[0] < c.expireAt)
    ensures AdmittedCount(c, ts, limit, w) <= if limit > c.count then limit - c.count else 0
    decreases |ts|
  {
    if ts != [] { BusyAdmits(Hit(c, ts[0], w), ts[1..], limit, w); }
  }

  /** Main result: from any counter, the guard admits at most `limit` of a group of requests between two
      silences of a full window. */
  lemma GuardBound(c: Counter, ts: seq<nat>, limit: nat, w: nat)
    requires NoSilence(ts, w)
    ensures AdmittedCount(c, ts, limit, w) <= limit
  {
    if ts != [] { BusyAdmits(Hit(c, ts[0], w), ts[1..], limit, w); }
  }

  /** X-RateLimit-Remaining. */
  function Remaining(c: Counter, limit: nat): nat {
    if c.count <= limit then limit - c.count else 0
  }

  /** The remaining header is exact: of any further requests at the same instant exactly that many are admitted. */
  lemma {:induction false} GuardRemainingExact(c: Counter, now: nat, limit: nat, w: nat, n: nat)
    requires w > 0
    ensures AdmittedCount(Hit(c, now, w), Burst(now, n), limit, w) == Least(n, Remaining(Hit(c, now, w), limit))
    decreases n
  {
    if n > 0 {
      assert Burst(now, n)[1..] == Burst(now, n - 1);
      GuardRemainingExact(Hit(c, now, w), now, limit, w, n - 1);
    }
  }

  /** The Retry-After header is exact: a refused client is admitted again iff it stays silent for a full window. */
  lemma RetryAfterExact(c: Counter, now: nat, t: nat, limit: nat, w: nat)
    requires !Admits(c, now, limit, w) && limit > 0 && now <= t
    ensures Admits(Hit(c, now, w), t, limit, w) <==> t >= now + w
  {}

  // ---------------------------------------------------------------- the guard simulated by the log

  /** The grants still in the window never outnumber what the guard still counts. */
  ghost predicate Dominated(g: seq<nat>, c: Counter, now: nat, w: nat) {
    && |Prune(g, now - w)| <= c.count
    && (g != [] ==> c.expireAt == now + w)
  }

  lemma DominatedLater(g: seq<nat>, c: Counter, before: nat, now: nat, w: nat)
    requires Dominated(g, c, before, w) && before <= now && forall t :: t in g ==> t <= before
    ensures |Prune(g, now - w)| <= if now >= c.expireAt then 0 else c.count
  {
    if g != [] {
      if now >= c.expireAt { PruneAll(g, now - w); } else { PruneTwice(g, before - w, now - w); }
    }
  }

  /** For each arrival: did the limiter let it pass? */
  function LogVerdicts(s: LogState, ts: seq<nat>, maxRequests: int, w: nat): (v: seq<bool>)
    ensures |v| == |ts|
    decreases |ts|
  {
    if ts == [] then []
    else [Check(s, ts[0], maxRequests, w).verdict.allowed]
         + LogVerdicts(Check(s, ts[0], maxRequests, w).state, ts[1..], maxRequests, w)
  }

  function GuardVerdicts(c: Counter, ts: seq<nat>, limit: int, w: nat): (v: seq<bool>)
    ensures |v| == |ts|
    decreases |ts|
  {
    if ts == [] then [] else [Admits(c, ts[0], limit, w)] + GuardVerdicts(Hit(c, ts[0], w), ts[1..], limit, w)
  }

  lemma {:induction false} SimulatedFrom(
    s: LogState, g: seq<nat>, c: Counter, before: nat, ts: seq<nat>, limit: int, w: nat)
    requires Window(s, g, before, limit, w) && Dominated(g, c, before, w) && Ascending(before, ts) && w > 0
    ensures forall i :: 0 <= i < |ts| && GuardVerdicts(c, ts, limit, w)[i] ==> LogVerdicts(s, ts, limit, w)[i]
    decreases |ts|
  {
    if ts != [] {
      var now := ts[0];
      var g' := g + Grant(s, now, limit, w);
      CheckCounts(s, g, before, now, limit, w);
      CheckStep(s, g, before, now, limit, w);
      DominatedLater(g, c, before, now, w);
      PruneAppend(g, now, now - w);
      assert g + [] == g;
      SimulatedFrom(Check(s, now, limit, w).state, g', Hit(c, now, w), now, ts[1..], limit, w);
    }
  }

  /** Main result: on the same arrivals, whatever the guard admits the sliding-window log grants too. */
  lemma GuardSimulatedByLog(ts: seq<nat>, limit: int, w: nat)
    requires Ascending(0, ts) && w > 0
    ensures forall i :: 0 <= i < |ts| && GuardVerdicts(NoCounter, ts, limit, w)[i] ==> LogVerdicts(NoLog, ts, limit, w)[i]
  {
    SimulatedFrom(NoLog, [], NoCounter, 0, ts, limit, w);
  }

  /** The simulation is strict: with one request per second, arrivals at 0 s, 0.6 s and 1.1 s. The log grants
      the third, the guard, whose TTL the second one renewed, refuses it. */
  lemma GuardIsStricter()
    ensures LogVerdicts(NoLog, [0, 600, 1100], 1, 1000) == [true, false, true]
    ensures GuardVerdicts(NoCounter, [0, 600, 1100], 1, 1000) == [true, false, false]
  {}

  // ---------------------------------------------------------------- the services, updating their keys in place

  class SlidingWindowKey {
    var log: seq<nat>
    var expireAt: int

    constructor ()
      ensures Key() == NoLog
    {
      log, expireAt := [], 0;
    }

    function Key(): LogState
      reads this
    {
      LogState(log, expireAt)
    }

    method CheckRateLimit(now: nat, maxRequests: int, windowSeconds: nat) returns (verdict: Verdict)
      modifies this
      ensures Checked(Key(), verdict) == Check(old(Key()), now, maxRequests, windowSeconds * 1000)
    {
      var w := windowSeconds * 1000;
      if now >= expireAt { log := []; }
      log := Prune(log, now - w);
      var currentCount := |log|;
      if currentCount >= maxRequests {
        return Verdict(false, 0, if log != [] then log[0] + w else now + w);
      }
      log := Insert(log, now);
      expireAt := now + w;
      verdict := Verdict(true, maxRequests - currentCount - 1, now + w);
    }
  }

  class GuardKey {
    var count: nat
    var expireAt: int

    constructor ()
      ensures Key() == NoCounter
    {
      count, expireAt := 0, 0;
    }

    function Key(): Counter
      reads this
    {
      Counter(count, expireAt)
    }

    method IncrementCounter(now: nat, windowSeconds: nat) returns (current: nat)
      modifies this
      ensures Key() == Hit(old(Key()), now, windowSeconds * 1000) && current == Key().count
    {
      if now >= expireAt { count := 0; }
      count := count + 1;
      expireAt := now + windowSeconds * 1000;
      current := count;
    }

    /** The decision and the X-RateLimit-Remaining header of canActivate. */
    method CanActivate(now: nat, requests: nat, windowSeconds: nat) returns (admitted: bool, remaining: nat)
      modifies this
      ensures Key() == Hit(old(Key()), now, windowSeconds * 1000)
      ensures admitted <==> Key().count <= requests
      ensures remaining == Remaining(Key(), requests)
    {
      var current := IncrementCounter(now, windowSeconds);
      admitted := current <= requests;
      remaining := if requests >= current then requests - current else 0;
    }
  }
}
