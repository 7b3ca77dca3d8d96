/** Proxy eligibility and selection (ProxyManager.get_proxy, app/services/proxy_manager.py). */
module ProxySelection {
  import opened Common
  import opened Escalation

  type ProxyId = nat

  datatype Proxy = Proxy(
    id: ProxyId,
    isActive: bool,
    cooldownUntil: Option<int>,
    poolId: nat,
    country: Option<string>,
    city: Option<string>,
    kind: ProxyType)

  datatype Filter = Filter(
    pool: Option<nat>,
    country: Option<string>,
    city: Option<string>,
    kind: Option<ProxyType>)

  /** What one `get_proxy` call reads: the proxies table, the clock, the breaker, the pinned proxy, the random draw. */
  datatype PoolView =
    | View(rows: seq<Proxy>, now: int, breakerOpen: bool, pinned: Option<ProxyId>, draw: nat)
    | Unreadable

  predicate OnCooldown(p: Proxy, now: int) {
    p.cooldownUntil.Some? && p.cooldownUntil.value > now
  }

  function UpperChar(c: char): char {
    if 'a' <= c <= 'z' then c - 'a' + 'A' else c
  }

  /** The two-letter code a country is compared as: upper case (of ASCII letters), cut to two characters. */
  function CountryCode(country: string): (code: string)
    ensures |code| == Min(|country|, 2)
    ensures forall i :: 0 <= i < |code| ==>
              code[i] as int == country[i] as int - (if 'a' <= country[i] <= 'z' then 32 else 0)
  {
    seq(Min(|country|, 2), i requires 0 <= i < |country| => UpperChar(country[i]))
  }

  predicate Matches(p: Proxy, f: Filter) {
    && (f.pool.Some? ==> p.poolId == f.pool.value)
    && (f.country.Some? ==> p.country == Some(CountryCode(f.country.value)))
    && (f.city.Some? ==> p.city == f.city)
    && (f.kind.Some? ==> p.kind == f.kind.value)
  }

  predicate Usable(p: Proxy, now: int, excluded: set<ProxyId>) {
    p.isActive && !OnCooldown(p, now) && p.id !in excluded
  }

  /** The rows the query and the list comprehension keep, in table order. */
  function Eligible(rows: seq<Proxy>, now: int, f: Filter, excluded: set<ProxyId>): (kept: seq<Proxy>)
    ensures forall p :: p in kept <==>
              && p in rows && p.isActive && p.id !in excluded
              && (p.cooldownUntil.None? || p.cooldownUntil.value <= now)
              && (f.pool.None? || f.pool.value == p.poolId)
              && (f.country.None? || p.country == Some(CountryCode(f.country.value)))
              && (f.city.None? || f.city == p.city)
              && (f.kind.None? || f.kind.value == p.kind)
  {
    if rows == [] then []
    else
      var rest := Eligible(rows[1..], now, f, excluded);
      if Matches(rows[0], f) && Usable(rows[0], now, excluded) then [rows[0]] + rest else rest
  }

  function FindById(rows: seq<Proxy>, id: ProxyId): (p: Option<Proxy>)
    ensures p.Some? ==> p.value in rows && p.value.id == id
    ensures p.None? ==> forall q :: q in rows ==> q.id != id
  {
    if rows == [] then None
    else if rows[0].id == id then Some(rows[0])
    else FindById(rows[1..], id)
  }

  /** The pinned proxy, when it is not excluded and still usable. Pool, country, city and type are not re-checked. */
  function StickyPick(v: PoolView, excluded: set<ProxyId>): Option<Proxy>
    requires v.View?
  {
    if v.pinned.None? || v.pinned.value in excluded then None
    else
      match FindById(v.rows, v.pinned.value)
      case None => None
      case Some(p) => if p.isActive && !OnCooldown(p, v.now) then Some(p) else None
  }

  /**
    The proxy one `get_proxy` call returns.
    A refusal means the breaker is open or every active matching proxy is cooling down or excluded.
   */
  function Pick(v: PoolView, useSticky: bool, f: Filter, excluded: set<ProxyId>): (p: Option<Proxy>)
    requires v.View?
    ensures p.Some? ==> p.value in v.rows && Usable(p.value, v.now, excluded) && !v.breakerOpen
    ensures useSticky && !v.breakerOpen && v.pinned.Some? && v.pinned.value !in excluded
            && (exists q :: q in v.rows && q.id == v.pinned.value)
            && (forall q :: q in v.rows && q.id == v.pinned.value ==> Usable(q, v.now, excluded)) ==>
              p.Some? && p.value.id == v.pinned.value
    ensures p.Some? ==> Matches(p.value, f) || (useSticky && v.pinned == Some(p.value.id))
    ensures p.None? && !v.breakerOpen ==>
              forall q :: q in v.rows && q.isActive && Matches(q, f) ==> OnCooldown(q, v.now) || q.id in excluded
  {
    if v.breakerOpen then None
    else if useSticky && StickyPick(v, excluded).Some? then StickyPick(v, excluded)
    else
      var kept := Eligible(v.rows, v.now, f, excluded);
      if kept == [] then assert forall q :: q in v.rows && Matches(q, f) ==> q !in kept; None
      else Some(kept[v.draw % |kept|])
  }

  /** The draw is fair to every row: without a pin, each eligible row is picked by some draw. */
  lemma EveryEligibleCanBeDrawn(v: PoolView, f: Filter, excluded: set<ProxyId>, q: Proxy) returns (draw: nat)
    requires v.View? && !v.breakerOpen && q in Eligible(v.rows, v.now, f, excluded)
    ensures Pick(v.(draw := draw), false, f, excluded) == Some(q)
  {
    hide Eligible, CountryCode, StickyPick;
    var kept := Eligible(v.rows, v.now, f, excluded);
    draw :| 0 <= draw < |kept| && kept[draw] == q;
    SmallRemainder(draw, |kept|);
  }

  lemma SmallRemainder(k: nat, n: nat)
    requires k < n
    ensures k % n == k
  {
  }
}
