/** The proxy service object: breaker keys, sticky pins and proxy events (app/services/proxy_manager.py). */
module ProxyManager {
  import opened Common
  import opened ProxySelection
  import opened CircuitBreaker

  datatype Pin = Pin(proxyId: ProxyId, expiresAt: int)

  datatype StickyKey = StickyKey(domain: string, session: string)

  /** Which Redis calls of one `get_proxy` call succeed: breaker check, pin read, pin delete, pin write. */
  datatype Redis = Redis(breaker: bool, read: bool, delete: bool, write: bool)

  /**
    The pins after one call under a session key: a live pin that is not excluded and still usable is kept, a dead one is
    deleted, and a freshly drawn proxy is pinned. Redis calls that fail leave what they would have changed.
   */
  function PinsAfter(pins: map<StickyKey, Pin>, key: StickyKey, v: PoolView, excluded: set<ProxyId>, p: Option<Proxy>,
                     ttl: int, up: Redis): map<StickyKey, Pin>
    requires v.View?
  {
    if v.breakerOpen || StickyPick(v, excluded).Some? then pins
    else
      var dead := v.pinned.Some? && v.pinned.value !in excluded;
      var kept := if dead && up.delete then pins - {key} else pins;
      if p.Some? && up.write then kept[key := Pin(p.value.id, v.now + ttl)] else kept
  }

  class ProxyManager {
    const settings: Settings
    var counters: map<string, Counter>
    var openUntil: map<string, int>
    var pins: map<StickyKey, Pin>
    var events: map<string, seq<EventType>>

    constructor (settings: Settings)
      ensures this.settings == settings
      ensures forall d :: BreakerOf(d) == FRESH
      ensures pins == map[]
    {
      this.settings := settings;
      counters, openUntil, pins, events := map[], map[], map[], map[];
    }

    /** The abstract breaker of one domain. */
    ghost function BreakerOf(domain: string): Breaker
      reads this
    {
      Breaker(
        if domain in counters then Some(counters[domain]) else None,
        if domain in openUntil then Some(openUntil[domain]) else None,
        if domain in events then events[domain] else [])
    }

    /** With Redis down the breaker reads as closed. */
    method IsCircuitOpen(domain: string, now: int, redisUp: bool) returns (open: bool)
      ensures open <==> redisUp && IsOpen(BreakerOf(domain), now)
    {
      open := redisUp && domain in openUntil && now < openUntil[domain];
    }

    method Emit(domain: string, e: EventType)
      modifies this`events
      ensures BreakerOf(domain) == old(BreakerOf(domain)).(log := old(BreakerOf(domain)).log + [e])
      ensures forall d :: d != domain ==> BreakerOf(d) == old(BreakerOf(d))
    {
      var log := if domain in events then events[domain] else [];
      events := events[domain := log + [e]];
    }

    method IncrementCircuitBreaker(domain: string, now: int, redisUp: bool) returns (tripped: bool)
      modifies this`counters, this`openUntil
      ensures redisUp ==>
                var was := old(BreakerOf(domain));
                BreakerOf(domain) == Increment(settings, was, now).(log := was.log)
      ensures tripped <==> redisUp && Increment(settings, old(BreakerOf(domain)), now).log != old(BreakerOf(domain)).log
      ensures forall d :: d != domain || !redisUp ==> BreakerOf(d) == old(BreakerOf(d))
    {
      tripped := false;
      if !redisUp { return; }
      var live := domain in counters && now < counters[domain].expiresAt;
      var count := (if live then counters[domain].value else 0) + 1;
      counters := counters[domain := Counter(count, now + 2 * settings.timeout)];
      if count >= settings.threshold {
        var wasOpen := IsCircuitOpen(domain, now, true);
        openUntil := openUntil[domain := now + 2 * settings.timeout];
        tripped := !wasOpen;
      }
    }

    method ResetCircuitBreaker(domain: string, now: int, redisUp: bool) returns (wasOpen: bool)
      modifies this`counters, this`openUntil
      ensures wasOpen <==> redisUp && IsOpen(old(BreakerOf(domain)), now)
      ensures redisUp ==> BreakerOf(domain) == Reset(old(BreakerOf(domain)), now, false)
      ensures forall d :: d != domain || !redisUp ==> BreakerOf(d) == old(BreakerOf(d))
    {
      wasOpen := false;
      if !redisUp { return; }
      wasOpen := IsCircuitOpen(domain, now, true);
      counters := counters - {domain};
      openUntil := openUntil - {domain};
    }

    /**
      The breaker part of `report_result`: one atomic operation on the domain's breaker and nothing else; nothing at
      all and no event when Redis is down.
     */
    method ReportResult(domain: string, success: bool, now: int, redisUp: bool)
      modifies this`counters, this`openUntil, this`events
      ensures redisUp ==>
                var op := if success then Success(now) else Failure(now);
                BreakerOf(domain) == Apply(settings, old(BreakerOf(domain)), op)
      ensures forall d :: d != domain || !redisUp ==> BreakerOf(d) == old(BreakerOf(d))
    {
      if success {
        var closed := ResetCircuitBreaker(domain, now, redisUp);
        if closed { Emit(domain, CircuitClose); }
      } else {
        var tripped := IncrementCircuitBreaker(domain, now, redisUp);
        if tripped { Emit(domain, CircuitOpen); }
      }
    }

    /** The pinned proxy of a session, if the pin has not expired. */
    ghost function PinnedFor(key: StickyKey, now: int): Option<ProxyId>
      reads this
    {
      if key in pins && now < pins[key].expiresAt then Some(pins[key].proxyId) else None
    }

    /** What this call reads, as one value. */
    ghost function ViewOf(domain: string, sticky: Option<string>, rows: seq<Proxy>, now: int, draw: nat, up: Redis)
      : PoolView
      reads this
    {
      View(rows, now, up.breaker && IsOpen(BreakerOf(domain), now),
           if sticky.Some? && up.read then PinnedFor(StickyKey(domain, sticky.value), now) else None, draw)
    }

    /**
      Selection: breaker, then the sticky pin, then a draw among the eligible rows. `PinsAfter` is the whole effect on
      the pins. What a later call sees: a proxy handed out under a session key is the session's pin afterwards, unless
      the write fails or the TTL is not positive; after a refusal the session has no pin, or its pin is excluded,
      unless the breaker refused or Redis failed.
     */
    method GetProxy(domain: string, sticky: Option<string>, ttl: int, rows: seq<Proxy>, now: int,
                    f: Filter, excluded: set<ProxyId>, draw: nat, up: Redis)
      returns (p: Option<Proxy>)
      modifies this`pins
      ensures p == Pick(old(ViewOf(domain, sticky, rows, now, draw, up)), sticky.Some?, f, excluded)
      ensures p.Some? ==>
                && p.value in rows && p.value.isActive && p.value.id !in excluded
                && (p.value.cooldownUntil.Some? ==> p.value.cooldownUntil.value <= now)
      ensures p.Some? && (sticky.None? || old(PinnedFor(StickyKey(domain, sticky.value), now)) != Some(p.value.id)) ==>
                && (f.pool.Some? ==> p.value.poolId == f.pool.value)
                && (f.country.Some? ==> p.value.country == Some(CountryCode(f.country.value)))
                && (f.city.Some? ==> p.value.city == f.city)
                && (f.kind.Some? ==> p.value.kind == f.kind.value)
      ensures p.None? ==>
                || (up.breaker && domain in openUntil && now < openUntil[domain])
                || Eligible(rows, now, f, excluded) == []
      ensures pins == if sticky.None? then old(pins)
                      else PinsAfter(old(pins), StickyKey(domain, sticky.value),
                                     old(ViewOf(domain, sticky, rows, now, draw, up)), excluded, p, ttl, up)
      ensures forall k: StickyKey ::
                k.domain != domain || sticky != Some(k.session) ==> PinnedFor(k, now) == old(PinnedFor(k, now))
      ensures sticky.Some? && p.Some? && ttl > 0 && up.write ==>
                PinnedFor(StickyKey(domain, sticky.value), now) == Some(p.value.id)
      ensures sticky.Some? && p.Some? && up.write && old(PinnedFor(StickyKey(domain, sticky.value), now)).None? ==>
                forall t :: PinnedFor(StickyKey(domain, sticky.value), t)
                            == if t < now + ttl then Some(p.value.id) else None
      ensures sticky.Some? && p.None? && up.read && up.delete
              && !old(ViewOf(domain, sticky, rows, now, draw, up)).breakerOpen ==>
                var pin := PinnedFor(StickyKey(domain, sticky.value), now);
                pin.None? || pin.value in excluded
    {
      hide Eligible, CountryCode;
      var open := IsCircuitOpen(domain, now, up.breaker);
      if open { return None; }
      if sticky.Some? {
        var key := StickyKey(domain, sticky.value);
        if up.read && key in pins && now < pins[key].expiresAt && pins[key].proxyId !in excluded {
          var row := FindById(rows, pins[key].proxyId);
          if row.Some? && row.value.isActive && !OnCooldown(row.value, now) {
            return row;
          }
          if up.delete { pins := pins - {key}; }
        }
      }
      var eligible := Eligible(rows, now, f, excluded);
      if |eligible| == 0 { return None; }
      var selected := eligible[draw % |eligible|];
      if sticky.Some? && up.write {
        pins := pins[StickyKey(domain, sticky.value) := Pin(selected.id, now + ttl)];
      }
      return Some(selected);
    }
  }
}
