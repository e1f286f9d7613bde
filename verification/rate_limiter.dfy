/** `RateLimiterService` (src/core/services/rate-limiter.service.ts): a
    sliding-window limiter that keeps, per key, the timestamps of the calls
    it let through. `Date.now()` is the `now` parameter of `CheckLimit`. */
module RateLimiter {
  import opened Base

  const DefaultWindowMs := 60000
  const DefaultMaxRequests := 100

  /** `.filter(timestamp => timestamp > windowStart)`. */
  function Window(ts: seq<int>, windowStart: int): (r: seq<int>)
    ensures |r| <= |ts|
  {
    if ts == [] then []
    else (if ts[0] > windowStart then [ts[0]] else []) + Window(ts[1..], windowStart)
  }

  /** The window keeps exactly the timestamps after its start. */
  lemma {:induction false} WindowKeepsNewer(ts: seq<int>, windowStart: int)
    ensures forall t :: t in Window(ts, windowStart) <==> t in ts && t > windowStart
  {
    if ts != [] {
      WindowKeepsNewer(ts[1..], windowStart);
      assert ts == [ts[0]] + ts[1..];
    }
  }

  lemma {:induction false} WindowAppend(a: seq<int>, b: seq<int>, windowStart: int)
    ensures Window(a + b, windowStart) == Window(a, windowStart) + Window(b, windowStart)
  {
    if a != [] {
      assert (a + b)[1..] == a[1..] + b;
      WindowAppend(a[1..], b, windowStart);
    } else {
      assert a + b == b;
    }
  }

  /** Filtering with a later window start after an earlier one is filtering
      with the later one alone. */
  lemma {:induction false} WindowNarrows(ts: seq<int>, f: int, g: int)
    requires f <= g
    ensures Window(Window(ts, f), g) == Window(ts, g)
  {
    if ts != [] {
      WindowNarrows(ts[1..], f, g);
      WindowAppend(if ts[0] > f then [ts[0]] else [], Window(ts[1..], f), g);
    }
  }

  /** What `checkLimit` decides from the list stored for the key, if any:
      whether the call passes, and the list stored afterwards. */
  function Decide(stored: Option<seq<int>>, now: int, windowMs: int, maxRequests: int): (bool, seq<int>) {
    match stored
    case None => (true, [now])
    case Some(ts) =>
      var requests := Window(ts, now - windowMs);
      if |requests| >= maxRequests then (false, ts) else (true, requests + [now])
  }

  function ExceededMetric(key: string): Metric {
    Increment("rate_limit_exceeded", Some([Defined("key", key)]))
  }

  /** A single decision: the first call for a key passes and stores `[now]`;
      a later call passes exactly when fewer than `maxRequests` stored
      timestamps are newer than `now - windowMs`; a passing call stores those
      timestamps followed by `now` (so at most `maxRequests` of them), and a
      refused one leaves the stored list as it was. */
  lemma DecideOutcome(stored: Option<seq<int>>, now: int, windowMs: int, maxRequests: int)
    ensures stored.None? ==> Decide(stored, now, windowMs, maxRequests) == (true, [now])
    ensures stored.Some? ==>
      var (allowed, after) := Decide(stored, now, windowMs, maxRequests);
      var inWindow := Window(stored.value, now - windowMs);
      && (allowed <==> |inWindow| < maxRequests)
      && (allowed ==> after == inWindow + [now] && |after| <= maxRequests)
      && (!allowed ==> after == stored.value)
  {
  }

  /** The step that keeps the stored list equal to the window of admitted
      timestamps: if the list is what the admitted timestamps `admitted` leave
      after a window start `f` no later than this call's, a call passes
      exactly when fewer than `maxRequests` admitted calls are newer than
      `now - windowMs`; when it passes the list becomes the window of the
      admitted timestamps including `now`, and otherwise it stays. */
  lemma StoredIsWindowOfAdmitted(admitted: seq<int>, f: int, now: int, windowMs: int, maxRequests: int)
    requires windowMs > 0 && f <= now - windowMs
    ensures var (allowed, after) := Decide(Some(Window(admitted, f)), now, windowMs, maxRequests);
      && (allowed <==> |Window(admitted, now - windowMs)| < maxRequests)
      && (allowed ==> after == Window(admitted + [now], now - windowMs) && |after| <= maxRequests)
      && (!allowed ==> after == Window(admitted, f))
  {
    WindowNarrows(admitted, f, now - windowMs);
    WindowAppend(admitted, [now], now - windowMs);
    assert Window([now], now - windowMs) == [now] by {
      assert [now][1..] == [];
    }
  }

  /** The verdicts `checkLimit` gives one key for calls at the given times. */
  function Verdicts(stored: Option<seq<int>>, times: seq<int>, windowMs: int, maxRequests: int): (v: seq<bool>)
    ensures |v| == |times|
    decreases |times|
  {
    if times == [] then []
    else
      var (allowed, after) := Decide(stored, times[0], windowMs, maxRequests);
      [allowed] + Verdicts(Some(after), times[1..], windowMs, maxRequests)
  }

  /** The times of the calls that were let through. */
  function Admitted(times: seq<int>, verdicts: seq<bool>): (r: seq<int>)
    requires |verdicts| == |times|
    ensures |r| <= |times|
  {
    if times == [] then []
    else (if verdicts[0] then [times[0]] else []) + Admitted(times[1..], verdicts[1..])
  }

  /** Each call comes no earlier than the one before it. */
  predicate NonDecreasing(times: seq<int>)
    decreases |times|
  {
    |times| <= 1 || (times[0] <= times[1] && NonDecreasing(times[1..]))
  }

  function Max(a: int, b: int): int {
    if a >= b then a else b
  }

  /** The limit a sliding window promises: with a clock that does not run
      backwards, whenever a call for a key is let through at time `t`, at most
      `maxRequests` calls let through so far (at most one when `maxRequests` is
      below one, since a key's first call always passes) have times in
      `(t - windowMs, t]`. */
  lemma SlidingWindowLimit(times: seq<int>, windowMs: int, maxRequests: int)
    requires windowMs > 0 && NonDecreasing(times)
    ensures var v := Verdicts(None, times, windowMs, maxRequests);
      forall i :: 0 <= i < |times| && v[i] ==>
        |Window(Admitted(times[..i + 1], v[..i + 1]), times[i] - windowMs)| <= Max(maxRequests, 1)
  {
    LimitFrom(None, [], 0, times, windowMs, maxRequests);
    var v := Verdicts(None, times, windowMs, maxRequests);
    forall i | 0 <= i < |times| && v[i]
      ensures |Window(Admitted(times[..i + 1], v[..i + 1]), times[i] - windowMs)| <= Max(maxRequests, 1)
    {
      assert [] + Admitted(times[..i + 1], v[..i + 1]) == Admitted(times[..i + 1], v[..i + 1]);
    }
  }

  /** Every call let through, from the given state on, sees at most the limit
      among the calls admitted before it and itself. */
  ghost predicate WithinLimit(stored: Option<seq<int>>, admitted: seq<int>, times: seq<int>, windowMs: int, maxRequests: int) {
    var v := Verdicts(stored, times, windowMs, maxRequests);
    forall i :: 0 <= i < |times| && v[i] ==>
      |Window(admitted + Admitted(times[..i + 1], v[..i + 1]), times[i] - windowMs)| <= Max(maxRequests, 1)
  }

  /** `SlidingWindowLimit` from any state in which the stored list is the
      window of the timestamps admitted so far. */
  lemma {:induction false} LimitFrom(stored: Option<seq<int>>, admitted: seq<int>, f: int, times: seq<int>, windowMs: int, maxRequests: int)
    requires windowMs > 0 && NonDecreasing(times)
    requires stored.None? ==> admitted == []
    requires stored.Some? ==> stored.value == Window(admitted, f) && (times != [] ==> f <= times[0] - windowMs)
    ensures WithinLimit(stored, admitted, times, windowMs, maxRequests)
    decreases |times|
  {
    if times != [] {
      var t := times[0];
      var d := Decide(stored, t, windowMs, maxRequests);
      var admitted' := if d.0 then admitted + [t] else admitted;
      var f' := if d.0 then t - windowMs else f;
      StepKeepsWindow(stored, admitted, f, t, windowMs, maxRequests);
      LaterCalls(times, f', windowMs);
      LimitFrom(Some(d.1), admitted', f', times[1..], windowMs, maxRequests);
      LimitStep(stored, admitted, times, windowMs, maxRequests);
    }
  }

  /** The bound for every call, from the bound at the first call and the
      bounds from the state after it. */
  lemma LimitStep(stored: Option<seq<int>>, admitted: seq<int>, times: seq<int>, windowMs: int, maxRequests: int)
    requires times != []
    requires var d := Decide(stored, times[0], windowMs, maxRequests);
      var admitted' := if d.0 then admitted + [times[0]] else admitted;
      && (d.0 ==> |Window(admitted', times[0] - windowMs)| <= Max(maxRequests, 1))
      && WithinLimit(Some(d.1), admitted', times[1..], windowMs, maxRequests)
    ensures WithinLimit(stored, admitted, times, windowMs, maxRequests)
  {
    var d := Decide(stored, times[0], windowMs, maxRequests);
    var admitted' := if d.0 then admitted + [times[0]] else admitted;
    var v := Verdicts(stored, times, windowMs, maxRequests);
    var rest := Verdicts(Some(d.1), times[1..], windowMs, maxRequests);
    VerdictsFront(stored, times, windowMs, maxRequests);
    AllBounds(admitted, admitted', times, v, rest, windowMs, Max(maxRequests, 1));
  }

  lemma VerdictsFront(stored: Option<seq<int>>, times: seq<int>, windowMs: int, maxRequests: int)
    requires times != []
    ensures var d := Decide(stored, times[0], windowMs, maxRequests);
      var v := Verdicts(stored, times, windowMs, maxRequests);
      v[0] == d.0 && v[1..] == Verdicts(Some(d.1), times[1..], windowMs, maxRequests)
  {
  }

  /** `BoundAt` for every call let through. */
  lemma AllBounds(admitted: seq<int>, admitted': seq<int>, times: seq<int>, v: seq<bool>, rest: seq<bool>,
                  windowMs: int, bound: int)
    requires |v| == |times| && times != []
    requires v[1..] == rest
    requires admitted' == admitted + (if v[0] then [times[0]] else [])
    requires v[0] ==> |Window(admitted', times[0] - windowMs)| <= bound
    requires forall j :: 0 <= j < |rest| && rest[j] ==>
      |Window(admitted' + Admitted(times[1..][..j + 1], rest[..j + 1]), times[1..][j] - windowMs)| <= bound
    ensures forall i :: 0 <= i < |times| && v[i] ==>
      |Window(admitted + Admitted(times[..i + 1], v[..i + 1]), times[i] - windowMs)| <= bound
  {
    forall i | 0 <= i < |times| && v[i]
      ensures |Window(admitted + Admitted(times[..i + 1], v[..i + 1]), times[i] - windowMs)| <= bound
    {
      BoundAt(admitted, admitted', times, v, rest, windowMs, bound, i);
    }
  }

  /** The bound at call i, from the bound at the first call and the bounds
      the later calls meet counted from the state after the first. */
  lemma BoundAt(admitted: seq<int>, admitted': seq<int>, times: seq<int>, v: seq<bool>, rest: seq<bool>,
                windowMs: int, bound: int, i: nat)
    requires |v| == |times| && 0 <= i < |times| && v[i]
    requires v[1..] == rest
    requires admitted' == admitted + (if v[0] then [times[0]] else [])
    requires v[0] ==> |Window(admitted', times[0] - windowMs)| <= bound
    requires forall j :: 0 <= j < |rest| && rest[j] ==>
      |Window(admitted' + Admitted(times[1..][..j + 1], rest[..j + 1]), times[1..][j] - windowMs)| <= bound
    ensures |Window(admitted + Admitted(times[..i + 1], v[..i + 1]), times[i] - windowMs)| <= bound
  {
    var later := Admitted(times[1..][..i], rest[..i]);
    ShiftAdmitted(admitted, times, v, i);
    assert admitted + Admitted(times[..i + 1], v[..i + 1]) == admitted' + later;
    if i == 0 {
      assert times[1..][..0] == [] && rest[..0] == [];
      assert admitted' + later == admitted';
    } else {
      var j := i - 1;
      assert rest[j] && times[1..][j] == times[i];
      assert times[1..][..j + 1] == times[1..][..i] && rest[..j + 1] == rest[..i];
    }
  }

  /** The calls after the first still come in time order, and none precedes
      a window start the first call's could have set. */
  lemma LaterCalls(times: seq<int>, f: int, windowMs: int)
    requires NonDecreasing(times) && times != [] && f <= times[0] - windowMs
    ensures NonDecreasing(times[1..])
    ensures times[1..] != [] ==> f <= times[1..][0] - windowMs
  {
    if |times| > 1 {
      assert times[1..][0] == times[1];
    }
  }

  /** One call keeps the stored list equal to the window of the admitted
      timestamps, and a call let through sees at most the limit. */
  lemma StepKeepsWindow(stored: Option<seq<int>>, admitted: seq<int>, f: int, t: int, windowMs: int, maxRequests: int)
    requires windowMs > 0
    requires stored.None? ==> admitted == []
    requires stored.Some? ==> stored.value == Window(admitted, f) && f <= t - windowMs
    ensures var (allowed, after) := Decide(stored, t, windowMs, maxRequests);
      && after == Window(if allowed then admitted + [t] else admitted, if allowed then t - windowMs else f)
      && (allowed ==> |Window(admitted + [t], t - windowMs)| <= Max(maxRequests, 1))
  {
    assert Window([t], t - windowMs) == [t] by {
      assert [t][1..] == [];
    }
    if stored.Some? {
      StoredIsWindowOfAdmitted(admitted, f, t, windowMs, maxRequests);
      var (allowed, after) := Decide(stored, t, windowMs, maxRequests);
      if allowed {
        WindowNarrows(admitted + [t], t - windowMs, t - windowMs);
      }
    } else {
      assert admitted + [t] == [t];
    }
  }

  /** The admitted timestamps after the first i + 1 calls, counted from the
      state after the first call. */
  lemma ShiftAdmitted(admitted: seq<int>, times: seq<int>, v: seq<bool>, i: nat)
    requires |v| == |times| && i < |times|
    ensures admitted + Admitted(times[..i + 1], v[..i + 1])
         == (admitted + (if v[0] then [times[0]] else [])) + Admitted(times[1..][..i], v[1..][..i])
  {
    AdmittedFront(times, v, i);
  }

  /** `Admitted` over the first i + 1 calls, split after the first call. */
  lemma AdmittedFront(times: seq<int>, v: seq<bool>, i: nat)
    requires |v| == |times| && i < |times|
    ensures Admitted(times[..i + 1], v[..i + 1])
         == (if v[0] then [times[0]] else []) + Admitted(times[1..][..i], v[1..][..i])
  {
    assert times[..i + 1][1..] == times[1..][..i];
    assert v[..i + 1][1..] == v[1..][..i];
  }

  class RateLimiterService {
    const windowMs: int
    const maxRequests: int
    var requests: map<string, seq<int>>
    /** The calls made on the monitoring service. */
    var metrics: seq<Metric>

    constructor (windowMs: int, maxRequests: int)
      ensures this.windowMs == windowMs && this.maxRequests == maxRequests
      ensures requests == map[] && metrics == []
    {
      this.windowMs := windowMs;
      this.maxRequests := maxRequests;
      requests := map[];
      metrics := [];
    }

    constructor WithDefaults()
      ensures windowMs == DefaultWindowMs && maxRequests == DefaultMaxRequests
      ensures requests == map[] && metrics == []
    {
      windowMs := DefaultWindowMs;
      maxRequests := DefaultMaxRequests;
      requests := map[];
      metrics := [];
    }

    /** Every stored list is as long as the limit allows, or holds a key's
        single first call. */
    predicate Bounded()
      reads this
    {
      forall k :: k in requests ==> |requests[k]| <= Max(maxRequests, 1)
    }

    method CheckLimit(key: string, now: int) returns (allowed: bool)
      modifies this
      ensures var (pass, after) := Decide(if key in old(requests) then Some(old(requests)[key]) else None, now, windowMs, maxRequests);
        && allowed == pass
        && requests == old(requests)[key := after]
        && metrics == old(metrics) + (if pass then [] else [ExceededMetric(key)])
      ensures old(Bounded()) ==> Bounded()
    {
      var windowStart := now - windowMs;
      if key !in requests {
        requests := requests[key := [now]];
        return true;
      }
      var inWindow := Window(requests[key], windowStart);
      if |inWindow| >= maxRequests {
        metrics := metrics + [ExceededMetric(key)];
        assert requests == requests[key := requests[key]];
        return false;
      }
      requests := requests[key := inWindow + [now]];
      return true;
    }
  }
}
