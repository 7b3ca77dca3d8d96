/** The four-layer limiter object over one Redis keyspace (RateLimiter, app/services/rate_limiter.py). */
module RateLimiter {
  import opened Common
  import opened SlidingWindow

  datatype KeyName = ApiKey(prefix: string) | Application(id: nat) | Domain(name: string) | ProxyKey(id: nat)

  datatype Layer = LayerNone | LayerKey | LayerApp | LayerDomain | LayerProxy

  datatype Result = Result(allowed: bool, limit: int, remaining: int, resetAtMs: int, layer: Layer, retryAfter: real)

  const PERMISSIVE: Result := Result(true, 0, 0, 0, LayerNone, 0.0)

  /** One layer check as its environment decides it: the call, the clock of the denial and whether Redis answers. */
  datatype Check = Check(request: Request, clock: real, redisUp: bool)

  type Keyspace = map<KeyName, Key>

  function KeyOf(ks: Keyspace, name: KeyName): Key {
    if name in ks then ks[name] else ABSENT
  }

  /** The layer admits: its window has room, or Redis is down and the limiter fails open. */
  predicate LayerAdmits(k: Key, l: Limits, c: Check) {
    !c.redisUp || Admits(l, k, c.request)
  }

  function LayerKeyspace(ks: Keyspace, name: KeyName, l: Limits, c: Check): Keyspace {
    if c.redisUp then ks[name := KeyAfter(l, KeyOf(ks, name), c.request)] else ks
  }

  function LayerResult(k: Key, l: Limits, layer: Layer, c: Check): Result {
    if !c.redisUp then PERMISSIVE
    else
      var reply := ReplyTo(l, k, c.request);
      Result(reply.allowed, l.limit, Max(0, l.limit - reply.count), reply.resetAt, layer,
             if reply.allowed then 0.0 else RetryAfter(reply.resetAt, c.clock))
  }

  const KEY_LIMITS: Limits := Limits(60, 60)

  function AppLimits(monthlyQuota: int): Limits { Limits(30 * 24 * 3600, monthlyQuota) }

  /** Per-second limit of a domain or proxy; `rps` is already truncated to an integer. */
  function RpsLimits(rps: int): Limits { Limits(1, Max(1, rps)) }

  /** The arguments of one check_all call, one Check per layer. */
  datatype Query = Query(
    prefix: string, app: nat, domain: string, proxy: Option<nat>, rps: int, quota: int,
    c1: Check, c2: Check, c3: Check, c4: Check)

  predicate Admits1(ks: Keyspace, q: Query) { LayerAdmits(KeyOf(ks, ApiKey(q.prefix)), KEY_LIMITS, q.c1) }
  predicate Admits2(ks: Keyspace, q: Query) { LayerAdmits(KeyOf(ks, Application(q.app)), AppLimits(q.quota), q.c2) }
  predicate Admits3(ks: Keyspace, q: Query) { LayerAdmits(KeyOf(ks, Domain(q.domain)), RpsLimits(q.rps), q.c3) }
  predicate Admits4(ks: Keyspace, q: Query) {
    q.proxy.None? || LayerAdmits(KeyOf(ks, ProxyKey(q.proxy.value)), RpsLimits(2), q.c4)
  }

  class RateLimiter {
    var keys: Keyspace

    constructor ()
      ensures keys == map[]
    {
      keys := map[];
    }

    /** The ZADD loop: one member per unit of cost. */
    static method AddUnits(kept: set<Member>, r: Request) returns (members: set<Member>)
      ensures members == kept + NewMembers(r)
    {
      members := kept;
      for i := 0 to |r.salts|
        invariant members == kept + (set j | 0 <= j < i :: Member(r.now, j + 1, r.salts[j]))
      {
        members := members + {Member(r.now, i + 1, r.salts[i])};
      }
    }

    /**
      The script, command by command: trim, count, then either answer the denial or add one member per unit of cost.
     */
    method Eval(name: KeyName, l: Limits, r: Request) returns (reply: Reply)
      modifies this
      ensures reply == ReplyTo(l, KeyOf(old(keys), name), r)
      ensures keys == old(keys)[name := KeyAfter(l, KeyOf(old(keys), name), r)]
    {
      hide Oldest, NewMembers;
      var key := KeyOf(keys, name);
      var cutoff := r.now - l.window * 1000;
      var members := set m | m in Visible(key, r.now) && m.at > cutoff;
      assert members == Trimmed(l, key, r.now);
      var count := |members|;
      if count + |r.salts| > l.limit {
        var resetAt := 0;
        if members != {} { resetAt := Oldest(members) + l.window * 1000; }
        keys := keys[name := if members == {} then ABSENT else Key(members, key.expiresAt)];
        return Reply(false, count, resetAt);
      }
      members := AddUnits(members, r);
      keys := keys[name := if members == {} then ABSENT else Key(members, Some(r.now + (l.window + 1) * 1000))];
      return Reply(true, count + |r.salts|, r.now + l.window * 1000);
    }

    method CheckLayer(name: KeyName, l: Limits, layer: Layer, c: Check) returns (result: Result)
      modifies this
      ensures result == LayerResult(KeyOf(old(keys), name), l, layer, c)
      ensures result.allowed <==> LayerAdmits(KeyOf(old(keys), name), l, c)
      ensures keys == LayerKeyspace(old(keys), name, l, c)
    {
      if !c.redisUp { return PERMISSIVE; }
      var reply := Eval(name, l, c.request);
      var wait := if reply.allowed then 0.0 else RetryAfter(reply.resetAt, c.clock);
      return Result(reply.allowed, l.limit, Max(0, l.limit - reply.count), reply.resetAt, layer, wait);
    }

    /**
      check_all: the key and application layers are both evaluated; the domain layer only if both admit; the proxy layer
      only if the domain layer admits too. The answer allows exactly when every layer does, and a denial is that of the
      first denying layer.
     */
    method CheckAll(q: Query) returns (result: Result)
      modifies this
      ensures var ks := old(keys);
              result == (if !Admits1(ks, q) then LayerResult(KeyOf(ks, ApiKey(q.prefix)), KEY_LIMITS, LayerKey, q.c1)
                         else if !Admits2(ks, q) then
                           LayerResult(KeyOf(ks, Application(q.app)), AppLimits(q.quota), LayerApp, q.c2)
                         else if Admits3(ks, q) && !Admits4(ks, q) then
                           LayerResult(KeyOf(ks, ProxyKey(q.proxy.value)), RpsLimits(2), LayerProxy, q.c4)
                         else LayerResult(KeyOf(ks, Domain(q.domain)), RpsLimits(q.rps), LayerDomain, q.c3))
      ensures var ks := old(keys);
              result.allowed <==> Admits1(ks, q) && Admits2(ks, q) && Admits3(ks, q) && Admits4(ks, q)
      ensures keys == KeyspaceAfter(old(keys), q)
    {
      hide KeyAfter, LayerResult, Admits;
      var r1 := CheckLayer(ApiKey(q.prefix), KEY_LIMITS, LayerKey, q.c1);
      var r2 := CheckLayer(Application(q.app), AppLimits(q.quota), LayerApp, q.c2);
      if !r1.allowed { return r1; }
      if !r2.allowed { return r2; }
      var r3 := CheckLayer(Domain(q.domain), RpsLimits(q.rps), LayerDomain, q.c3);
      if !r3.allowed { return r3; }
      if q.proxy.Some? {
        var r4 := CheckLayer(ProxyKey(q.proxy.value), RpsLimits(2), LayerProxy, q.c4);
        if !r4.allowed { return r4; }
      }
      return r3;
    }
  }

  function KeyspaceAfter(ks: Keyspace, q: Query): Keyspace {
    var ks1 := LayerKeyspace(ks, ApiKey(q.prefix), KEY_LIMITS, q.c1);
    var ks2 := LayerKeyspace(ks1, Application(q.app), AppLimits(q.quota), q.c2);
    if !Admits1(ks, q) || !Admits2(ks, q) then ks2
    else
      var ks3 := LayerKeyspace(ks2, Domain(q.domain), RpsLimits(q.rps), q.c3);
      if !Admits3(ks, q) || q.proxy.None? then ks3
      else LayerKeyspace(ks3, ProxyKey(q.proxy.value), RpsLimits(2), q.c4)
  }

  /** The key holds the units of the call. */
  predicate Charged(ks: Keyspace, name: KeyName, c: Check) {
    NewMembers(c.request) <= KeyOf(ks, name).members
  }

  /**
    Which layers one check_all charges, for calls of positive cost with members not in the keyspace: every layer whose
    own window admits, provided the layers before it admitted, except that the monthly quota does not wait for the key
    layer.
   */
  lemma LayersChargedExactly(ks: Keyspace, q: Query)
    requires q.c1.redisUp && q.c2.redisUp && q.c3.redisUp && q.c4.redisUp
    requires q.c1.request.salts != [] && q.c2.request.salts != []
    requires q.c3.request.salts != [] && q.c4.request.salts != []
    requires KeyOf(ks, ApiKey(q.prefix)).members !! NewMembers(q.c1.request)
    requires KeyOf(ks, Application(q.app)).members !! NewMembers(q.c2.request)
    requires KeyOf(ks, Domain(q.domain)).members !! NewMembers(q.c3.request)
    requires q.proxy.Some? ==> KeyOf(ks, ProxyKey(q.proxy.value)).members !! NewMembers(q.c4.request)
    ensures var ks' := KeyspaceAfter(ks, q);
            && (Charged(ks', ApiKey(q.prefix), q.c1) <==> Admits1(ks, q))
            && (Charged(ks', Application(q.app), q.c2) <==> Admits2(ks, q))
            && (Charged(ks', Domain(q.domain), q.c3) <==> Admits1(ks, q) && Admits2(ks, q) && Admits3(ks, q))
            && (q.proxy.Some? ==>
                  (Charged(ks', ProxyKey(q.proxy.value), q.c4)
                   <==> Admits1(ks, q) && Admits2(ks, q) && Admits3(ks, q) && Admits4(ks, q)))
  {
    hide KeyAfter, Admits, NewMembers;
    ChargedIffAdmits(KeyOf(ks, ApiKey(q.prefix)), KEY_LIMITS, q.c1.request);
    ChargedIffAdmits(KeyOf(ks, Application(q.app)), AppLimits(q.quota), q.c2.request);
    ChargedIffAdmits(KeyOf(ks, Domain(q.domain)), RpsLimits(q.rps), q.c3.request);
    if q.proxy.Some? {
      ChargedIffAdmits(KeyOf(ks, ProxyKey(q.proxy.value)), RpsLimits(2), q.c4.request);
    }
  }

  /**
    One script call stores its members iff it admits; a key that does not hold them before does not hold them unasked.
   */
  lemma ChargedIffAdmits(k: Key, l: Limits, r: Request)
    requires r.salts != [] && k.members !! NewMembers(r)
    ensures NewMembers(r) <= KeyAfter(l, k, r).members <==> Admits(l, k, r)
    ensures !(NewMembers(r) <= k.members)
  {
    assert Member(r.now, 0 + 1, r.salts[0]) in NewMembers(r);
  }
}
