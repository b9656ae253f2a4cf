/** The per-address rate limiter: a counter per aligned window, kept in a cache whose entries expire. */
module RateLimit {

  /** `rl:{route}:{ip}:{window}` */
  datatype WindowKey = WindowKey(route: string, ip: string, window: int)

  datatype Counter = Counter(count: nat, expires: real)

  type CounterCache = map<WindowKey, Counter>

  /** Calls and seconds. */
  datatype Limit = Limit(maxCalls: int, period: int)

  predicate PositiveLimit(limit: Limit)
  {
    limit.maxCalls > 0 && limit.period > 0
  }

  /** A call and the moment it is made; `cacheDown` when the cache raises during the check. */
  datatype Call = Call(route: string, ip: string, at: real, cacheDown: bool)

  /** `int(time.time()) // period` */
  function WindowOf(at: real, period: int): int
    requires period > 0
  {
    at.Floor / period
  }

  /** What the cache returns for a key: an expired entry is gone. */
  function Live(cache: CounterCache, key: WindowKey, at: real): nat
  {
    if key in cache && at < cache[key].expires then cache[key].count else 0
  }

  function KeyOf(call: Call, limit: Limit): WindowKey
    requires limit.period > 0
  {
    WindowKey(call.route, call.ip, WindowOf(call.at, limit.period))
  }

  /** The check lets the call through. */
  predicate Admits(cache: CounterCache, call: Call, limit: Limit)
    requires PositiveLimit(limit)
  {
    !call.cacheDown && Live(cache, KeyOf(call, limit), call.at) < limit.maxCalls
  }

  function AfterCall(cache: CounterCache, call: Call, limit: Limit): CounterCache
    requires PositiveLimit(limit)
  {
    var key := KeyOf(call, limit);
    if !Admits(cache, call, limit) then cache
    else cache[key := Counter(Live(cache, key, call.at) + 1, call.at + 2.0 * limit.period as real)]
  }

  /** Process-wide policy: switched on or off, with bounds of their own for some routes. */
  datatype Policy = Policy(enabled: bool, routes: map<string, Limit>)

  /** The manifest block: only pairs of positive numbers replace a route's bounds. */
  function Configured(enabled: bool, routes: map<string, Limit>): (p: Policy)
    ensures p.enabled == enabled
    ensures forall r :: r in p.routes <==> r in routes && PositiveLimit(routes[r])
    ensures forall r :: r in p.routes ==> p.routes[r] == routes[r]
  {
    Policy(enabled, map r | r in routes && PositiveLimit(routes[r]) :: routes[r])
  }

  function LimitFor(policy: Policy, default: Limit, route: string): Limit
  {
    if route in policy.routes then policy.routes[route] else default
  }

  class RateLimiter {
    var cache: CounterCache
    const default: Limit
    const hasCache: bool

    constructor (default: Limit, hasCache: bool)
      requires PositiveLimit(default)
      ensures this.default == default && this.hasCache == hasCache && cache == map[]
    {
      this.default := default;
      this.hasCache := hasCache;
      cache := map[];
    }

    /** `_check`: a refused call is answered 429 and counts nothing; without a cache, or switched off, everything is let through. */
    method Check(policy: Policy, call: Call) returns (allowed: bool)
      requires PositiveLimit(LimitFor(policy, default, call.route))
      modifies this
      ensures !hasCache || !policy.enabled ==> allowed && cache == old(cache)
      ensures hasCache && policy.enabled ==> allowed == Admits(old(cache), call, LimitFor(policy, default, call.route))
      ensures hasCache && policy.enabled ==> cache == AfterCall(old(cache), call, LimitFor(policy, default, call.route))
    {
      if !hasCache || !policy.enabled { return true; }
      var limit := LimitFor(policy, default, call.route);
      var key := KeyOf(call, limit);
      if call.cacheDown { return false; }
      var current := Live(cache, key, call.at);
      if current >= limit.maxCalls { return false; }
      cache := cache[key := Counter(current + 1, call.at + 2.0 * limit.period as real)];
      return true;
    }
  }

  // ---- Runs of calls, on any routes and addresses ----

  ghost predicate WellConfigured(policy: Policy, default: Limit)
  {
    PositiveLimit(default) && forall r :: r in policy.routes ==> PositiveLimit(policy.routes[r])
  }

  ghost function RunCalls(cache: CounterCache, calls: seq<Call>, policy: Policy, default: Limit): CounterCache
    requires WellConfigured(policy, default)
    decreases |calls|
  {
    if calls == [] then cache
    else RunCalls(AfterCall(cache, calls[0], LimitFor(policy, default, calls[0].route)), calls[1..], policy, default)
  }

  /** Calls of the run that fall into this window and reach a working cache. */
  ghost function Made(calls: seq<Call>, key: WindowKey, policy: Policy, default: Limit): nat
    requires WellConfigured(policy, default)
    decreases |calls|
  {
    if calls == [] then 0
    else (if !calls[0].cacheDown && KeyOf(calls[0], LimitFor(policy, default, calls[0].route)) == key then 1 else 0)
         + Made(calls[1..], key, policy, default)
  }

  /** Calls of the run that were let through in this window. */
  ghost function Admitted(cache: CounterCache, calls: seq<Call>, key: WindowKey, policy: Policy, default: Limit): nat
    requires WellConfigured(policy, default)
    decreases |calls|
  {
    if calls == [] then 0
    else
      var limit := LimitFor(policy, default, calls[0].route);
      (if KeyOf(calls[0], limit) == key && Admits(cache, calls[0], limit) then 1 else 0)
      + Admitted(AfterCall(cache, calls[0], limit), calls[1..], key, policy, default)
  }

  function Counted(cache: CounterCache, key: WindowKey): nat
  {
    if key in cache then cache[key].count else 0
  }

  function EndOfWindow(key: WindowKey, limit: Limit): real
  {
    ((key.window + 1) * limit.period) as real
  }

  /** No counter is above its bound, and none expires before its window is over. */
  ghost predicate Lasting(cache: CounterCache, policy: Policy, default: Limit)
  {
    forall key :: key in cache ==>
      var limit := LimitFor(policy, default, key.route);
      cache[key].count <= limit.maxCalls && EndOfWindow(key, limit) <= cache[key].expires
  }

  lemma WindowBounds(at: real, period: int)
    requires period > 0
    ensures (WindowOf(at, period) * period) as real <= at < ((WindowOf(at, period) + 1) * period) as real
  {
    var f := at.Floor;
    assert f == (f / period) * period + f % period;
    assert (WindowOf(at, period) + 1) * period == WindowOf(at, period) * period + period;
  }

  lemma CallKeepsLasting(cache: CounterCache, call: Call, policy: Policy, default: Limit)
    requires WellConfigured(policy, default) && Lasting(cache, policy, default)
    ensures Lasting(AfterCall(cache, call, LimitFor(policy, default, call.route)), policy, default)
  {
    var limit := LimitFor(policy, default, call.route);
    WindowBounds(call.at, limit.period);
    var key := KeyOf(call, limit);
    assert EndOfWindow(key, limit) == (key.window * limit.period) as real + limit.period as real;
  }

  /** Inside its window a counter is read back as it was written. */
  lemma CounterIsRead(cache: CounterCache, call: Call, policy: Policy, default: Limit)
    requires WellConfigured(policy, default) && Lasting(cache, policy, default)
    ensures var limit := LimitFor(policy, default, call.route);
            Live(cache, KeyOf(call, limit), call.at) == Counted(cache, KeyOf(call, limit))
  {
    WindowBounds(call.at, LimitFor(policy, default, call.route).period);
  }

  function Min(a: int, b: int): int
  {
    if a <= b then a else b
  }

  /** Whatever the order of calls, a window lets through what its bound still allows. */
  lemma {:induction false} WindowAdmits(cache: CounterCache, calls: seq<Call>, key: WindowKey, policy: Policy, default: Limit)
    requires WellConfigured(policy, default) && Lasting(cache, policy, default)
    ensures Admitted(cache, calls, key, policy, default)
         == Min(Made(calls, key, policy, default), LimitFor(policy, default, key.route).maxCalls - Counted(cache, key))
    ensures Counted(RunCalls(cache, calls, policy, default), key)
         == Counted(cache, key) + Admitted(cache, calls, key, policy, default)
    ensures Lasting(RunCalls(cache, calls, policy, default), policy, default)
    decreases |calls|
  {
    if calls != [] {
      var limit := LimitFor(policy, default, calls[0].route);
      CounterIsRead(cache, calls[0], policy, default);
      CallKeepsLasting(cache, calls[0], policy, default);
      WindowAdmits(AfterCall(cache, calls[0], limit), calls[1..], key, policy, default);
    }
  }

  /** From an empty cache, each aligned window admits exactly the smaller of its calls and its bound. */
  lemma WindowAdmitsExactly(calls: seq<Call>, key: WindowKey, policy: Policy, default: Limit)
    requires WellConfigured(policy, default)
    ensures Admitted(map[], calls, key, policy, default)
         == Min(Made(calls, key, policy, default), LimitFor(policy, default, key.route).maxCalls)
  {
    WindowAdmits(map[], calls, key, policy, default);
  }

  /** A call is refused, while the cache works, only after the full bound was admitted in its window. */
  lemma RefusedOnlyWhenFull(calls: seq<Call>, call: Call, policy: Policy, default: Limit)
    requires WellConfigured(policy, default)
    ensures
      var limit := LimitFor(policy, default, call.route);
      !call.cacheDown ==>
        (Admits(RunCalls(map[], calls, policy, default), call, limit)
         <==> Admitted(map[], calls, KeyOf(call, limit), policy, default) < limit.maxCalls)
  {
    var limit := LimitFor(policy, default, call.route);
    WindowAdmits(map[], calls, KeyOf(call, limit), policy, default);
    CounterIsRead(RunCalls(map[], calls, policy, default), call, policy, default);
  }

  // ---- In terms of the manifest ----

  /** The pair that the manifest gives for the route, if both its numbers are positive; else the built-in one. */
  function BoundOf(routes: map<string, Limit>, default: Limit, route: string): Limit
  {
    if route in routes && routes[route].maxCalls > 0 && routes[route].period > 0 then routes[route] else default
  }

  /** A call counts in the window of its route's own period. */
  lemma WindowAsConfigured(routes: map<string, Limit>, default: Limit, call: Call)
    requires default.maxCalls > 0 && default.period > 0
    ensures var limit := LimitFor(Configured(true, routes), default, call.route);
            && limit.period > 0
            && KeyOf(call, limit) == WindowKey(call.route, call.ip, call.at.Floor / BoundOf(routes, default, call.route).period)
  {
  }

  /** Each window of a route lets through exactly what the manifest allows for that route. */
  lemma WindowAdmitsAsConfigured(calls: seq<Call>, key: WindowKey, routes: map<string, Limit>, default: Limit)
    requires default.maxCalls > 0 && default.period > 0
    ensures var policy := Configured(true, routes);
            && WellConfigured(policy, default)
            && Admitted(map[], calls, key, policy, default) == Min(Made(calls, key, policy, default), BoundOf(routes, default, key.route).maxCalls)
  {
    WindowAdmitsExactly(calls, key, Configured(true, routes), default);
  }

  // ---- Any interval of one period ----

  /** Calls let through on this route and address between `from` and `to`, both included. */
  ghost function AdmittedBetween(cache: CounterCache, calls: seq<Call>, route: string, ip: string, from: real, to: real, policy: Policy, default: Limit): nat
    requires WellConfigured(policy, default)
    decreases |calls|
  {
    if calls == [] then 0
    else
      var limit := LimitFor(policy, default, calls[0].route);
      (if calls[0].route == route && calls[0].ip == ip && from <= calls[0].at <= to && Admits(cache, calls[0], limit) then 1 else 0)
      + AdmittedBetween(AfterCall(cache, calls[0], limit), calls[1..], route, ip, from, to, policy, default)
  }

  /** A stretch of one period meets at most two windows. */
  lemma TwoWindows(from: real, at: real, period: int)
    requires period > 0 && from <= at <= from + period as real
    ensures WindowOf(from, period) <= WindowOf(at, period) <= WindowOf(from, period) + 1
  {
    WindowBounds(from, period);
    WindowBounds(at, period);
    var w, v := WindowOf(from, period), WindowOf(at, period);
    assert (v * period) as real < ((w + 1) * period) as real + period as real;
    assert v * period < (w + 2) * period;
    assert w * period < (v + 1) * period;
    Cancel(v, w + 2, period);
    Cancel(w, v + 1, period);
  }

  lemma Cancel(a: int, b: int, k: int)
    requires k > 0 && a * k < b * k
    ensures a < b
  {
  }

  lemma {:induction false} BetweenIsInTwoWindows(cache: CounterCache, calls: seq<Call>, route: string, ip: string, from: real, policy: Policy, default: Limit)
    requires WellConfigured(policy, default)
    ensures
      var period := LimitFor(policy, default, route).period;
      var w := WindowOf(from, period);
      AdmittedBetween(cache, calls, route, ip, from, from + period as real, policy, default)
      <= Admitted(cache, calls, WindowKey(route, ip, w), policy, default) + Admitted(cache, calls, WindowKey(route, ip, w + 1), policy, default)
    decreases |calls|
  {
    if calls != [] {
      var limit := LimitFor(policy, default, calls[0].route);
      BetweenIsInTwoWindows(AfterCall(cache, calls[0], limit), calls[1..], route, ip, from, policy, default);
      if calls[0].route == route && from <= calls[0].at <= from + limit.period as real {
        TwoWindows(from, calls[0].at, limit.period);
      }
    }
  }

  /** Any interval of one period, aligned or not, lets through at most twice the bound on a route and address. */
  lemma AtMostTwiceInAnyPeriod(calls: seq<Call>, route: string, ip: string, from: real, policy: Policy, default: Limit)
    requires WellConfigured(policy, default)
    ensures
      var limit := LimitFor(policy, default, route);
      AdmittedBetween(map[], calls, route, ip, from, from + limit.period as real, policy, default) <= 2 * limit.maxCalls
  {
    var w := WindowOf(from, LimitFor(policy, default, route).period);
    BetweenIsInTwoWindows(map[], calls, route, ip, from, policy, default);
    WindowAdmitsExactly(calls, WindowKey(route, ip, w), policy, default);
    WindowAdmitsExactly(calls, WindowKey(route, ip, w + 1), policy, default);
  }
}
