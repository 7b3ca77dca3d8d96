/**
  The retry and escalation machine as a step function (fetch_with_retry, app/services/fetchers/base.py).
  The environment answers attempt `n` with the event `env(n)`; everything else is determined.
 */
module RetryMachine {
  import opened Common
  import opened Escalation
  import opened ProxySelection

  datatype Policy = Policy(
    maxEscalationAttempts: Option<int>,
    maxRetries: Option<int>,
    useProxy: Option<bool>,
    proxyType: Option<ProxyType>,
    proxyPool: Option<nat>,
    escalationTier: int,
    antibotType: Option<string>)

  /**
    The arguments of one call: `useProxy` and `proxyType` are overrides, `country` and `city` the effective targets.
   */
  datatype Config = Config(
    policy: Option<Policy>,
    enablePremium: bool,
    hasManager: bool,
    hasStickyKey: bool,
    useProxy: Option<bool>,
    proxyType: Option<ProxyType>,
    country: Option<string>,
    city: Option<string>,
    requestedEngine: Option<Engine>)

  /** What a fetch does. `Crashed` is any exception that is not a FetchError. */
  datatype Outcome = Succeeded | Blocked(reason: Option<string>) | FetchFailed | Crashed

  /** One attempt as the environment decides it. `reportFails` says that report_result raises. */
  datatype Event = Event(pool: PoolView, outcome: Outcome, reportFails: bool)

  type Env = nat -> Event

  datatype FetchResult = FetchResult(
    blocked: bool,
    reason: Option<string>,
    engine: Engine,
    proxy: Option<ProxyId>,
    tierUsed: nat,
    retriesUsed: nat)

  datatype Exit =
    | Returned(result: FetchResult)
    | PoolExhausted
    | PoolEmpty
    | Raised(cause: Outcome)
    | ReportRaised
    | TrailingRaise(lastError: Option<Outcome>)

  /** One report_result call. */
  datatype Report = Report(proxy: ProxyId, success: bool)

  datatype State = State(
    tier: nat,
    attemptsAtTier: nat,
    fetcher: Option<Engine>,
    failed: set<ProxyId>,
    attempts: nat,
    lastResult: Option<FetchResult>,
    lastError: Option<Outcome>,
    reports: seq<Report>)

  datatype Status = Running(state: State) | Done(exit: Exit, state: State)

  // ---------- settings derived from the arguments ----------

  function Ceiling(cfg: Config): (m: nat)
    ensures m < |LADDER|
  {
    EffectiveMaxTier(cfg.enablePremium)
  }

  /** A zero or missing budget falls back to 12; a negative one is kept. */
  function Budget(cfg: Config): int {
    if cfg.policy.Some? && cfg.policy.value.maxEscalationAttempts.Some?
       && cfg.policy.value.maxEscalationAttempts.value != 0
    then cfg.policy.value.maxEscalationAttempts.value
    else 12
  }

  function PerTier(cfg: Config): (a: nat)
    ensures a >= 1
  {
    if cfg.policy.Some? && cfg.policy.value.maxRetries.Some? && cfg.policy.value.maxRetries.value > 0
    then cfg.policy.value.maxRetries.value
    else MAX_ATTEMPTS_PER_TIER
  }

  function StartTier(cfg: Config): (t: nat)
    ensures t < |LADDER|
  {
    match cfg.requestedEngine
    case Some(engine) => FirstRung(engine)
    case None =>
      Min(if cfg.policy.Some? then InitialTier(cfg.policy.value.escalationTier, cfg.policy.value.antibotType) else 0,
          Ceiling(cfg))
  }

  /**
    A run without a requested engine starts on the rung tier_for reports: the learned tier or the vendor floor,
    whichever is higher, but not above the ceiling.
   */
  lemma StartsOnTierFor(cfg: Config)
    requires cfg.requestedEngine.None? && cfg.policy.Some?
    ensures var p, s := cfg.policy.value, StartTier(cfg);
            && LADDER[s] == TierFor(p.escalationTier, p.antibotType, cfg.enablePremium)
            && s <= Ceiling(cfg)
            && (s >= p.escalationTier || s == Ceiling(cfg))
            && (s >= VendorFloor(p.antibotType) || s == Ceiling(cfg))
            && (s <= p.escalationTier || s <= VendorFloor(p.antibotType))
  {
  }

  /** The defaults: twelve attempts in all and two per tier, unless the policy sets a usable number. */
  lemma BudgetsOfThePolicy(cfg: Config)
    ensures cfg.policy.None? ==>
              && Budget(cfg) == 12 && PerTier(cfg) == 2
              && (cfg.requestedEngine.None? ==> StartTier(cfg) == 0)
    ensures cfg.policy.Some? && cfg.policy.value.maxEscalationAttempts in {None, Some(0)} ==> Budget(cfg) == 12
    ensures cfg.policy.Some? && cfg.policy.value.maxEscalationAttempts.Some? ==>
              cfg.policy.value.maxEscalationAttempts.value in {0, Budget(cfg)}
    ensures cfg.policy.Some? && cfg.policy.value.maxRetries.None? ==> PerTier(cfg) == 2
    ensures cfg.policy.Some? && cfg.policy.value.maxRetries.Some? ==>
              var r := cfg.policy.value.maxRetries.value;
              PerTier(cfg) == if r <= 0 then 2 else r
  {
  }

  /** An explicitly requested engine may run above the ceiling, without the rung's premium proxy. */
  predicate GateBypassed(cfg: Config, tier: nat)
    requires tier < |LADDER|
  {
    tier > Ceiling(cfg) && cfg.requestedEngine == Some(LADDER[tier].engine)
  }

  predicate GateHit(cfg: Config, tier: nat)
    requires tier < |LADDER|
  {
    tier > Ceiling(cfg) && !GateBypassed(cfg, tier)
  }

  predicate WantsProxy(cfg: Config, tier: nat)
    requires tier < |LADDER|
  {
    if cfg.useProxy.Some? then cfg.useProxy.value
    else if GateBypassed(cfg, tier) then false
    else if LADDER[tier].useProxy then true
    else cfg.policy.Some? && cfg.policy.value.useProxy == Some(true)
  }

  function WantedType(cfg: Config, tier: nat): Option<ProxyType>
    requires tier < |LADDER|
  {
    if cfg.proxyType.Some? then cfg.proxyType
    else if GateBypassed(cfg, tier) then None
    else if LADDER[tier].proxyType.Some? then LADDER[tier].proxyType
    else if cfg.policy.Some? then cfg.policy.value.proxyType
    else None
  }

  /** Attempts at this tier ask the proxy manager for a proxy. */
  predicate Proxied(cfg: Config, tier: nat)
    requires tier < |LADDER|
  {
    WantsProxy(cfg, tier) && cfg.hasManager
  }

  function FilterAt(cfg: Config, tier: nat): Filter
    requires tier < |LADDER|
  {
    Filter(if cfg.policy.Some? then cfg.policy.value.proxyPool else None, cfg.country, cfg.city, WantedType(cfg, tier))
  }

  // ---------- one iteration of the loop ----------

  function Init(cfg: Config): State {
    State(StartTier(cfg), 0, None, {}, 0, None, None, [])
  }

  function AsSet(p: Option<ProxyId>): set<ProxyId> {
    if p.Some? then {p.value} else {}
  }

  /** The proxy manager's answer in state `s`, before the attempt is counted. */
  function Selected(cfg: Config, pool: PoolView, s: State): Option<Proxy>
    requires s.tier < |LADDER| && pool.View?
  {
    Pick(pool, cfg.hasStickyKey && s.attempts == 0, FilterAt(cfg, s.tier), s.failed)
  }

  /**
    The proxy the attempt fetches through; None when the rung is direct, the pool is unreadable or selection refuses.
   */
  function ProxyFor(cfg: Config, ev: Event, s: State): Option<ProxyId>
    requires s.tier < |LADDER|
  {
    if !Proxied(cfg, s.tier) || ev.pool.Unreadable? then None
    else
      match Selected(cfg, ev.pool, s)
      case None => None
      case Some(p) => Some(p.id)
  }

  function BumpTo(s: State, tier: nat): State {
    s.(tier := tier, attemptsAtTier := 0, fetcher := None)
  }

  /** The generic exception handler. */
  function OnCrash(cfg: Config, proxy: Option<ProxyId>, s: State): Status {
    var s' := s.(lastError := Some(Crashed), failed := s.failed + AsSet(proxy));
    if s.attempts < Budget(cfg) then Running(s') else Done(Raised(Crashed), s')
  }

  /** The state after the report of a fetch, if it went through a proxy; a report that raises has been made. */
  function Reported(s: State, proxy: Option<ProxyId>, success: bool): State {
    if proxy.Some? then s.(reports := s.reports + [Report(proxy.value, success)]) else s
  }

  function OnFetchError(cfg: Config, ev: Event, proxy: Option<ProxyId>, s: State): Status {
    var s' := Reported(s, proxy, false).(lastError := Some(FetchFailed));
    if proxy.Some? && ev.reportFails then Done(ReportRaised, s')
    else
      var s'' := s'.(failed := s.failed + AsSet(proxy));
      if s.attempts < Budget(cfg) then Running(s'') else Done(Raised(FetchFailed), s'')
  }

  /** Escalate, leave the direct rung, rotate, or return; `s` already counts this block. */
  function OnBlock(cfg: Config, result: FetchResult, proxy: Option<ProxyId>, s: State): Status {
    var next := NextTier(s.tier);
    if s.attemptsAtTier >= PerTier(cfg) && IsEscalatable(result.reason) then
      if next.None? || next.value > Ceiling(cfg) then Done(Returned(result), s)
      else Running(BumpTo(s, next.value).(failed := {}))
    else if proxy.None? && cfg.useProxy != Some(true) then
      if next.Some? && next.value <= Ceiling(cfg) then Running(BumpTo(s, next.value))
      else Done(Returned(result), s)
    else if s.attempts < Budget(cfg) then Running(s)
    else Done(Returned(result), s)
  }

  /** The result as the current fetcher returns it, stamped with tier and retries. */
  function ResultOf(ev: Event, proxy: Option<ProxyId>, s: State): FetchResult
    requires s.fetcher.Some? && s.attempts >= 1
  {
    FetchResult(ev.outcome.Blocked?, if ev.outcome.Blocked? then ev.outcome.reason else None,
                s.fetcher.value, proxy, s.tier, s.attempts - 1)
  }

  /** The fetch and everything after it; `s` already counts the attempt. */
  function AfterFetch(cfg: Config, ev: Event, proxy: Option<ProxyId>, s: State): Status
    requires s.fetcher.Some? && s.attempts >= 1
  {
    var result := ResultOf(ev, proxy, s);
    match ev.outcome
    case Succeeded =>
      var s' := Reported(s, proxy, true);
      if proxy.Some? && ev.reportFails then OnCrash(cfg, proxy, s') else Done(Returned(result), s')
    case Blocked(_) =>
      var s' := Reported(s, proxy, false).(lastResult := Some(result), attemptsAtTier := s.attemptsAtTier + 1);
      if proxy.Some? && ev.reportFails then OnCrash(cfg, proxy, s')
      else OnBlock(cfg, result, proxy, s'.(failed := s.failed + AsSet(proxy)))
    case FetchFailed => OnFetchError(cfg, ev, proxy, s)
    case Crashed => OnCrash(cfg, proxy, s)
  }

  /** One pass through the loop body. */
  function Iterate(cfg: Config, ev: Event, s: State): Status
    requires s.tier < |LADDER|
  {
    if GateHit(cfg, s.tier) then
      if s.lastResult.Some? then Done(Returned(s.lastResult.value), s) else Done(TrailingRaise(s.lastError), s)
    else
      var s' := s.(attempts := s.attempts + 1, fetcher := Some(LADDER[s.tier].engine));
      if !Proxied(cfg, s.tier) then AfterFetch(cfg, ev, None, s')
      else if ev.pool.Unreadable? then OnCrash(cfg, None, s')
      else
        match Selected(cfg, ev.pool, s)
        case None => Done(if s.failed != {} then PoolExhausted else PoolEmpty, s')
        case Some(p) => AfterFetch(cfg, ev, Some(p.id), s')
  }

  // ---------- runs ----------

  /** A tier is always a rung of the ladder, so `Iterate` applies. */
  lemma IterateStaysOnLadder(cfg: Config, ev: Event, s: State)
    requires s.tier < |LADDER|
    ensures Iterate(cfg, ev, s).state.tier < |LADDER|
  {
  }

  /** The machine after `n` passes of the loop. A finished run stays finished. */
  function Exec(cfg: Config, env: Env, n: nat): (r: Status)
    ensures r.state.tier < |LADDER|
  {
    if n == 0 then Running(Init(cfg))
    else
      match Exec(cfg, env, n - 1)
      case Done(exit, s) => Done(exit, s)
      case Running(s) =>
        if s.attempts < Budget(cfg) then
          IterateStaysOnLadder(cfg, env(s.attempts), s);
          Iterate(cfg, env(s.attempts), s)
        else Done(TrailingRaise(s.lastError), s)
  }

  /** How the call ends. */
  function Final(cfg: Config, env: Env): Status {
    Exec(cfg, env, Max(0, Budget(cfg)) + 1)
  }

  /** A run that is finished after `n` passes is finished the same way after any later number of passes. */
  lemma {:induction false} DoneIsFinal(cfg: Config, env: Env, n: nat, m: nat)
    requires n <= m && Exec(cfg, env, n).Done?
    ensures Exec(cfg, env, m) == Exec(cfg, env, n)
  {
    hide Iterate;
    if n < m { DoneIsFinal(cfg, env, n, m - 1); }
  }

  lemma PassCounts(cfg: Config, ev: Event, s: State)
    requires s.tier < |LADDER| && Iterate(cfg, ev, s).Running?
    ensures Iterate(cfg, ev, s).state.attempts == s.attempts + 1
  {
    hide Pick;
  }

  /** Every pass that does not leave the loop counts exactly one attempt. */
  lemma {:induction false} CountsPasses(cfg: Config, env: Env, n: nat)
    requires Exec(cfg, env, n).Running?
    ensures Exec(cfg, env, n).state.attempts == n
    ensures n <= Max(0, Budget(cfg))
  {
    hide Iterate;
    if n > 0 {
      CountsPasses(cfg, env, n - 1);
      PassCounts(cfg, env(n - 1), Exec(cfg, env, n - 1).state);
    }
  }

  // ---------- observations of a run, total so that theorems can quantify over attempts ----------

  /** Attempt number `n` (counted from 0) takes place. */
  predicate Attempted(cfg: Config, env: Env, n: nat) {
    Exec(cfg, env, n).Running? && n < Budget(cfg)
  }

  function TierAt(cfg: Config, env: Env, n: nat): (t: nat)
    ensures t < |LADDER|
  {
    Exec(cfg, env, n).state.tier
  }

  /** The proxy attempt `n` fetches through, if it gets as far as a fetch through a proxy. */
  function ProxyAt(cfg: Config, env: Env, n: nat): Option<ProxyId> {
    if Attempted(cfg, env, n) then ProxyFor(cfg, env(n), Exec(cfg, env, n).state) else None
  }
}
