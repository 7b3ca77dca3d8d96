/** Facts about every run of the retry machine: for all arguments, all environments and all attempts. */
module RetryTheorems {
  import opened Common
  import opened Escalation
  import opened ProxySelection
  import opened RetryMachine

  /** What every pass keeps. */
  ghost predicate Inv(cfg: Config, s: State) {
    && StartTier(cfg) <= s.tier < |LADDER|
    && (s.tier <= Ceiling(cfg) || (cfg.requestedEngine.Some? && s.tier == StartTier(cfg)))
    && (s.failed != {} ==> Proxied(cfg, s.tier))
  }

  /** An attempt through `proxy` at `tier` gets as far as a fetch, and the fetch is blocked. */
  predicate FetchBlocked(cfg: Config, ev: Event, proxy: Option<ProxyId>, tier: nat)
    requires tier < |LADDER|
  {
    (Proxied(cfg, tier) ==> proxy.Some?) && ev.outcome.Blocked?
  }

  /**
    When an attempt changes the tier, after `blocks` earlier blocks on it: it is blocked, its report does not raise,
    the next rung is in reach, and either the per-tier cap is met by an escalatable block or the block was met
    directly while the caller does not force a proxy.
   */
  predicate ShouldBump(cfg: Config, ev: Event, proxy: Option<ProxyId>, tier: nat, blocks: nat)
    requires tier < |LADDER|
  {
    && FetchBlocked(cfg, ev, proxy, tier)
    && !(proxy.Some? && ev.reportFails)
    && tier + 1 <= Ceiling(cfg)
    && (|| (blocks + 1 >= PerTier(cfg) && IsEscalatable(ev.outcome.reason))
        || (proxy.None? && cfg.useProxy != Some(true)))
  }

  /** The blocked result of attempt number `before`, made at `tier` through `proxy`. */
  ghost predicate IsBlockOf(r: FetchResult, ev: Event, proxy: Option<ProxyId>, tier: nat, before: nat)
    requires tier < |LADDER|
  {
    && ev.outcome.Blocked? && r.blocked && r.reason == ev.outcome.reason
    && r.engine == LADDER[tier].engine && r.proxy == proxy && r.tierUsed == tier && r.retriesUsed == before
  }

  /** The pass stays on the tier: its proxy joins the failed set, a block is counted, and budget is left. */
  ghost predicate Stays(cfg: Config, ev: Event, s: State, s': State)
    requires s.tier < |LADDER|
  {
    && s'.tier == s.tier
    && s'.failed == s.failed + AsSet(ProxyFor(cfg, ev, s))
    && s'.attemptsAtTier == s.attemptsAtTier + (if FetchBlocked(cfg, ev, ProxyFor(cfg, ev, s), s.tier) then 1 else 0)
    && s'.attempts < Budget(cfg)
  }

  /** The pass bumps the tier: the next rung is entered with clean counters, and the blocked result is remembered. */
  ghost predicate Bumps(cfg: Config, ev: Event, s: State, s': State)
    requires s.tier < |LADDER|
  {
    && s'.tier == s.tier + 1
    && s'.failed == {}
    && s'.attemptsAtTier == 0
    && s'.lastResult.Some? && IsBlockOf(s'.lastResult.value, ev, ProxyFor(cfg, ev, s), s.tier, s.attempts)
  }

  /** An exit taken by an attempt speaks about that attempt alone. `before` is the number of earlier attempts. */
  ghost predicate ExitLaw(cfg: Config, ev: Event, proxy: Option<ProxyId>, tier: nat, before: nat, exit: Exit)
    requires tier < |LADDER|
  {
    match exit
    case Returned(r) =>
      && r.tierUsed == tier && r.retriesUsed == before
      && r.engine == LADDER[tier].engine && r.proxy == proxy
      && r.blocked == ev.outcome.Blocked? && (r.blocked ==> r.reason == ev.outcome.reason)
      && (r.blocked || ev.outcome == Succeeded)
      && (r.proxy.Some? <==> Proxied(cfg, tier))
    case PoolExhausted => Proxied(cfg, tier) && ev.pool.View? && proxy.None?
    case PoolEmpty => Proxied(cfg, tier) && ev.pool.View? && proxy.None?
    case Raised(cause) =>
      && before + 1 == Budget(cfg)
      && if cause == FetchFailed then ev.outcome == FetchFailed
         else cause == Crashed
              && (|| ev.outcome == Crashed
                  || (ev.reportFails && proxy.Some?)
                  || (Proxied(cfg, tier) && ev.pool.Unreadable?))
    case ReportRaised => ev.outcome == FetchFailed && ev.reportFails && proxy.Some?
    case TrailingRaise(_) => false
  }

  /** What any handler of the loop body does to a counted state `s` when the attempt went through `proxy`. */
  ghost predicate HandlerLaw(cfg: Config, ev: Event, proxy: Option<ProxyId>, s: State, r: Status)
    requires s.tier < |LADDER| && s.attempts >= 1
  {
    && r.state.attempts == s.attempts
    && (r.Done? ==> r.state.tier == s.tier && ExitLaw(cfg, ev, proxy, s.tier, s.attempts - 1, r.exit))
    && (r.Running? && !ShouldBump(cfg, ev, proxy, s.tier, s.attemptsAtTier) ==>
          && r.state.tier == s.tier && r.state.failed == s.failed + AsSet(proxy)
          && r.state.attemptsAtTier == s.attemptsAtTier + (if ev.outcome.Blocked? then 1 else 0)
          && s.attempts < Budget(cfg))
    && (ShouldBump(cfg, ev, proxy, s.tier, s.attemptsAtTier) ==>
          && r.Running? && r.state.tier == s.tier + 1 && r.state.failed == {} && r.state.attemptsAtTier == 0
          && r.state.lastResult.Some? && IsBlockOf(r.state.lastResult.value, ev, proxy, s.tier, s.attempts - 1))
  }

  lemma BlockLaw(cfg: Config, ev: Event, proxy: Option<ProxyId>, s: State)
    requires s.tier < |LADDER| && s.attempts >= 1 && s.fetcher == Some(LADDER[s.tier].engine)
    requires ev.outcome.Blocked? && !(proxy.Some? && ev.reportFails)
    requires proxy.Some? <==> Proxied(cfg, s.tier)
    requires proxy.None? ==> s.failed == {}
    ensures var result := ResultOf(ev, proxy, s);
            var counted := Reported(s, proxy, false).(
              lastResult := Some(result), attemptsAtTier := s.attemptsAtTier + 1, failed := s.failed + AsSet(proxy));
            HandlerLaw(cfg, ev, proxy, s, OnBlock(cfg, result, proxy, counted))
  {
  }

  lemma AfterFetchLaw(cfg: Config, ev: Event, proxy: Option<ProxyId>, s: State)
    requires s.tier < |LADDER| && 1 <= s.attempts <= Budget(cfg) && s.fetcher == Some(LADDER[s.tier].engine)
    requires proxy.Some? <==> Proxied(cfg, s.tier)
    requires proxy.None? ==> s.failed == {}
    ensures HandlerLaw(cfg, ev, proxy, s, AfterFetch(cfg, ev, proxy, s))
  {
    hide OnBlock;
    if ev.outcome.Blocked? && !(proxy.Some? && ev.reportFails) {
      BlockLaw(cfg, ev, proxy, s);
    }
  }

  /** What one pass through `proxy` makes of state `s`. */
  ghost predicate PassLaw(cfg: Config, ev: Event, proxy: Option<ProxyId>, s: State, r: Status)
    requires s.tier < |LADDER|
  {
    && r.state.attempts == s.attempts + 1
    && (r.Done? ==> r.state.tier == s.tier && ExitLaw(cfg, ev, proxy, s.tier, s.attempts, r.exit))
    && (r.Done? && r.exit in {PoolExhausted, PoolEmpty} ==> (r.exit == PoolExhausted <==> s.failed != {}))
    && (r.Running? ==> Inv(cfg, r.state))
    && if ShouldBump(cfg, ev, proxy, s.tier, s.attemptsAtTier)
       then r.Running? && Bumps(cfg, ev, s, r.state)
       else r.Running? ==> Stays(cfg, ev, s, r.state)
  }

  function Counted(s: State): State
    requires s.tier < |LADDER|
  {
    s.(attempts := s.attempts + 1, fetcher := Some(LADDER[s.tier].engine))
  }

  /** Passes that reach a fetch, directly or through the selected proxy. */
  lemma FetchPass(cfg: Config, ev: Event, s: State)
    requires Inv(cfg, s) && s.attempts < Budget(cfg) && !GateHit(cfg, s.tier)
    requires ProxyFor(cfg, ev, s).Some? <==> Proxied(cfg, s.tier)
    ensures Iterate(cfg, ev, s) == AfterFetch(cfg, ev, ProxyFor(cfg, ev, s), Counted(s))
  {
    hide Pick, AfterFetch;
  }

  /** Passes whose pool does not answer or refuses. */
  lemma NoProxyPass(cfg: Config, ev: Event, s: State)
    requires Inv(cfg, s) && s.attempts < Budget(cfg) && !GateHit(cfg, s.tier)
    requires Proxied(cfg, s.tier) && ProxyFor(cfg, ev, s).None?
    ensures PassLaw(cfg, ev, None, s, Iterate(cfg, ev, s))
  {
    hide Pick, AfterFetch;
  }

  lemma HandledPass(cfg: Config, ev: Event, s: State, r: Status)
    requires Inv(cfg, s) && (ProxyFor(cfg, ev, s).Some? <==> Proxied(cfg, s.tier))
    requires HandlerLaw(cfg, ev, ProxyFor(cfg, ev, s), Counted(s), r)
    ensures PassLaw(cfg, ev, ProxyFor(cfg, ev, s), s, r)
  {
    hide ProxyFor, IsBlockOf;
  }

  /** One pass of the loop, from any state the invariant allows. */
  lemma StepLaw(cfg: Config, ev: Event, s: State)
    requires Inv(cfg, s) && s.attempts < Budget(cfg)
    ensures !GateHit(cfg, s.tier)
    ensures PassLaw(cfg, ev, ProxyFor(cfg, ev, s), s, Iterate(cfg, ev, s))
  {
    hide Iterate, AfterFetch, PassLaw, HandlerLaw, Pick;
    var proxy := ProxyFor(cfg, ev, s);
    if Proxied(cfg, s.tier) && proxy.None? {
      NoProxyPass(cfg, ev, s);
    } else {
      FetchPass(cfg, ev, s);
      AfterFetchLaw(cfg, ev, proxy, Counted(s));
      HandledPass(cfg, ev, s, Iterate(cfg, ev, s));
    }
  }

  lemma {:induction false} InvHolds(cfg: Config, env: Env, n: nat)
    requires Exec(cfg, env, n).Running?
    ensures Inv(cfg, Exec(cfg, env, n).state) && Exec(cfg, env, n).state.attempts == n
  {
    hide Iterate;
    CountsPasses(cfg, env, n);
    if n > 0 {
      CountsPasses(cfg, env, n - 1);
      InvHolds(cfg, env, n - 1);
      StepLaw(cfg, env(n - 1), Exec(cfg, env, n - 1).state);
    }
  }

  /** The exit `exit` describes attempt `n`. */
  ghost predicate ExitOfAttempt(cfg: Config, env: Env, n: nat, exit: Exit) {
    ExitLaw(cfg, env(n), ProxyAt(cfg, env, n), TierAt(cfg, env, n), n, exit)
  }

  /** The law of one attempt inside a run. */
  lemma AttemptLaw(cfg: Config, env: Env, n: nat)
    requires Attempted(cfg, env, n)
    ensures Inv(cfg, Exec(cfg, env, n).state) && Exec(cfg, env, n).state.attempts == n
    ensures Exec(cfg, env, n + 1) == Iterate(cfg, env(n), Exec(cfg, env, n).state)
    ensures var s, r := Exec(cfg, env, n).state, Exec(cfg, env, n + 1);
            && r.state.attempts == n + 1
            && (r.Done? ==> r.state.tier == s.tier && ExitOfAttempt(cfg, env, n, r.exit))
            && (r.Done? && r.exit in {PoolExhausted, PoolEmpty} ==> (r.exit == PoolExhausted <==> s.failed != {}))
            && if ShouldBump(cfg, env(n), ProxyAt(cfg, env, n), s.tier, s.attemptsAtTier)
               then r.Running? && Bumps(cfg, env(n), s, r.state)
               else r.Running? ==> Stays(cfg, env(n), s, r.state)
  {
    hide Iterate;
    InvHolds(cfg, env, n);
    StepLaw(cfg, env(n), Exec(cfg, env, n).state);
  }

  /**
    The premium gate over whole runs: a running tier is within the ceiling or is still the start rung of the
    explicitly requested engine, so the branch that bails out at the gate is never taken.
   */
  lemma GateNeverBailsOut(cfg: Config, env: Env, n: nat)
    requires Attempted(cfg, env, n)
    ensures TierAt(cfg, env, n) <= Ceiling(cfg)
            || (&& cfg.requestedEngine == Some(LADDER[TierAt(cfg, env, n)].engine)
                && TierAt(cfg, env, n) == StartTier(cfg))
    ensures !GateHit(cfg, TierAt(cfg, env, n))
  {
    hide Iterate;
    AttemptLaw(cfg, env, n);
  }

  /** Tiers never decrease and never skip a rung. */
  lemma {:induction false} TiersClimb(cfg: Config, env: Env, i: nat, j: nat)
    requires i <= j
    ensures TierAt(cfg, env, i) <= TierAt(cfg, env, j) <= TierAt(cfg, env, i) + (j - i)
  {
    hide Iterate;
    if i < j {
      TiersClimb(cfg, env, i, j - 1);
      if Attempted(cfg, env, j - 1) {
        AttemptLaw(cfg, env, j - 1);
      } else if Exec(cfg, env, j - 1).Running? {
        CountsPasses(cfg, env, j - 1);
      }
    }
  }

  // ---------- proxies within one visit to a tier ----------

  /** The proxies used by the attempts before `n` that ran at the tier of pass `n`. */
  ghost function VisitProxies(cfg: Config, env: Env, n: nat): set<ProxyId> {
    set i | 0 <= i < n && TierAt(cfg, env, i) == TierAt(cfg, env, n) && ProxyAt(cfg, env, i).Some?
      :: ProxyAt(cfg, env, i).value
  }

  /** The failed set is exactly the set of proxies used in the current visit; in particular it is empty on entry. */
  lemma {:induction false} FailedIsVisit(cfg: Config, env: Env, n: nat)
    requires Exec(cfg, env, n).Running?
    ensures Exec(cfg, env, n).state.failed == VisitProxies(cfg, env, n)
  {
    hide Iterate, ProxyFor;
    if n > 0 {
      CountsPasses(cfg, env, n - 1);
      FailedIsVisit(cfg, env, n - 1);
      AttemptLaw(cfg, env, n - 1);
      var s, s' := Exec(cfg, env, n - 1).state, Exec(cfg, env, n).state;
      if s'.tier == s.tier {
        assert VisitProxies(cfg, env, n) == VisitProxies(cfg, env, n - 1) + AsSet(ProxyAt(cfg, env, n - 1));
      } else {
        forall i | 0 <= i < n ensures TierAt(cfg, env, i) != TierAt(cfg, env, n) {
          TiersClimb(cfg, env, i, n - 1);
        }
        assert VisitProxies(cfg, env, n) == {};
      }
    }
  }

  /** Within one visit to a tier no proxy is used twice. */
  lemma NoProxyTwicePerVisit(cfg: Config, env: Env, i: nat, j: nat)
    requires i < j && TierAt(cfg, env, i) == TierAt(cfg, env, j)
    requires ProxyAt(cfg, env, i).Some? && ProxyAt(cfg, env, j).Some?
    ensures ProxyAt(cfg, env, i) != ProxyAt(cfg, env, j)
  {
    hide Iterate;
    FailedIsVisit(cfg, env, j);
    CountsPasses(cfg, env, j);
    assert ProxyAt(cfg, env, i).value in VisitProxies(cfg, env, j);
  }

  /**
    A pool error at attempt `n`: it is PROXY_POOL_EXHAUSTED exactly when this visit has used a proxy, and with the
    breaker closed every active matching proxy is cooling down or was already used in this visit.
   */
  lemma PoolErrorMeansVisitSpent(cfg: Config, env: Env, n: nat)
    requires Attempted(cfg, env, n)
    requires Exec(cfg, env, n + 1).Done? && Exec(cfg, env, n + 1).exit in {PoolExhausted, PoolEmpty}
    ensures env(n).pool.View?
    ensures Exec(cfg, env, n + 1).exit == PoolExhausted <==> VisitProxies(cfg, env, n) != {}
    ensures !env(n).pool.breakerOpen ==>
              forall q :: q in env(n).pool.rows && q.isActive && Matches(q, FilterAt(cfg, TierAt(cfg, env, n))) ==>
                OnCooldown(q, env(n).pool.now) || q.id in VisitProxies(cfg, env, n)
  {
    hide Iterate;
    AttemptLaw(cfg, env, n);
    FailedIsVisit(cfg, env, n);
  }

  // ---------- tier changes ----------

  /** Attempt `n` gets as far as a fetch, and the fetch is blocked. */
  predicate BlockedAt(cfg: Config, env: Env, n: nat) {
    Attempted(cfg, env, n) && FetchBlocked(cfg, env(n), ProxyAt(cfg, env, n), TierAt(cfg, env, n))
  }

  /** The earlier attempts at the tier of pass `n` that were blocked. */
  ghost function VisitBlocks(cfg: Config, env: Env, n: nat): set<nat> {
    set i: nat | i < n && TierAt(cfg, env, i) == TierAt(cfg, env, n) && BlockedAt(cfg, env, i)
  }

  /** How the blocks of the visit grow while the tier stays, and start afresh when it changes. */
  lemma VisitBlocksStep(cfg: Config, env: Env, n: nat)
    ensures TierAt(cfg, env, n + 1) == TierAt(cfg, env, n) ==>
              |VisitBlocks(cfg, env, n + 1)| == |VisitBlocks(cfg, env, n)| + (if BlockedAt(cfg, env, n) then 1 else 0)
    ensures TierAt(cfg, env, n + 1) != TierAt(cfg, env, n) ==> VisitBlocks(cfg, env, n + 1) == {}
  {
    hide TierAt, BlockedAt;
    if TierAt(cfg, env, n + 1) == TierAt(cfg, env, n) {
      assert VisitBlocks(cfg, env, n + 1) == VisitBlocks(cfg, env, n) + (if BlockedAt(cfg, env, n) then {n} else {});
    } else {
      TiersClimb(cfg, env, n, n + 1);
      forall i: nat | i <= n { TiersClimb(cfg, env, i, n); }
    }
  }

  lemma NoBlocksYet(cfg: Config, env: Env)
    ensures VisitBlocks(cfg, env, 0) == {}
  {
  }

  /** The per-tier counter is the number of blocked fetches of the current visit; failures and crashes do not count. */
  lemma {:induction false} CounterIsVisitBlocks(cfg: Config, env: Env, n: nat)
    requires Exec(cfg, env, n).Running?
    ensures Exec(cfg, env, n).state.attemptsAtTier == |VisitBlocks(cfg, env, n)|
  {
    hide Iterate, ProxyFor, VisitBlocks;
    if n == 0 {
      NoBlocksYet(cfg, env);
    } else {
      CountsPasses(cfg, env, n - 1);
      CounterIsVisitBlocks(cfg, env, n - 1);
      AttemptLaw(cfg, env, n - 1);
      VisitBlocksStep(cfg, env, n - 1);
    }
  }

  /** Attempt `n` is blocked and the blocks of its visit, its reason and its proxy call for the next rung. */
  ghost predicate BumpDue(cfg: Config, env: Env, n: nat) {
    && Attempted(cfg, env, n)
    && ShouldBump(cfg, env(n), ProxyAt(cfg, env, n), TierAt(cfg, env, n), |VisitBlocks(cfg, env, n)|)
  }

  /** Attempt `n` bumps the tier. */
  ghost predicate BumpedBy(cfg: Config, env: Env, n: nat) {
    Exec(cfg, env, n + 1).Running? && TierAt(cfg, env, n + 1) == TierAt(cfg, env, n) + 1
  }

  /** The exact law of tier changes, for every attempt of every run. */
  lemma BumpsIff(cfg: Config, env: Env, n: nat)
    ensures BumpedBy(cfg, env, n) <==> BumpDue(cfg, env, n)
    ensures !BumpedBy(cfg, env, n) ==> TierAt(cfg, env, n + 1) == TierAt(cfg, env, n)
  {
    hide Iterate, ProxyFor, VisitBlocks;
    if Attempted(cfg, env, n) {
      AttemptLaw(cfg, env, n);
      CounterIsVisitBlocks(cfg, env, n);
    } else if Exec(cfg, env, n).Running? {
      CountsPasses(cfg, env, n);
    }
  }

  // ---------- how runs end ----------


  /** The attempt that ended the run, or Budget if none did. */
  lemma {:induction false} LastAttempt(cfg: Config, env: Env, m: nat) returns (n: nat)
    requires m <= Max(0, Budget(cfg))
    ensures n <= m
    ensures Exec(cfg, env, m).Running? ==> n == m
    ensures Exec(cfg, env, m).Done? ==> Attempted(cfg, env, n) && n < m && Exec(cfg, env, n + 1) == Exec(cfg, env, m)
    ensures Exec(cfg, env, m).Done? ==> Exec(cfg, env, n + 1).Done?
  {
    hide Iterate;
    if m == 0 || Exec(cfg, env, m).Running? {
      n := m;
    } else if Exec(cfg, env, m - 1).Running? {
      CountsPasses(cfg, env, m - 1);
      n := m - 1;
    } else {
      n := LastAttempt(cfg, env, m - 1);
    }
  }

  /**
    Main result on exits. Every run ends after at most Budget attempts; with a positive budget it makes at least one.
    Either the exit is the own exit of its last attempt, or it is the trailing raise after the loop, and with a positive
    budget the trailing raise happens exactly when the attempt that spends the budget is blocked in a way that calls for
    the next rung. The run then holds that attempt's blocked result and drops it.
   */
  lemma HowRunsEnd(cfg: Config, env: Env)
    ensures var f := Final(cfg, env);
            && f.Done?
            && f.state.attempts <= Max(0, Budget(cfg))
            && (Budget(cfg) > 0 ==> f.state.attempts >= 1)
            && (Budget(cfg) <= 0 ==> f.exit == TrailingRaise(None))
            && (!f.exit.TrailingRaise? ==>
                  f.state.attempts >= 1 && ExitOfAttempt(cfg, env, f.state.attempts - 1, f.exit)
                  && Attempted(cfg, env, f.state.attempts - 1))
            && (Budget(cfg) > 0 ==>
                  (f.exit.TrailingRaise? <==> BumpDue(cfg, env, Budget(cfg) - 1)))
            && (Budget(cfg) > 0 && f.exit.TrailingRaise? ==>
                  var last := Budget(cfg) - 1;
                  && f.state.lastResult.Some?
                  && IsBlockOf(f.state.lastResult.value, env(last), ProxyAt(cfg, env, last),
                               TierAt(cfg, env, last), last))
  {
    hide Iterate, ProxyFor, VisitBlocks;
    var b := Max(0, Budget(cfg));
    var n := LastAttempt(cfg, env, b);
    if Exec(cfg, env, b).Done? {
      AttemptLaw(cfg, env, n);
      BumpsIff(cfg, env, b - 1);
    } else {
      CountsPasses(cfg, env, b);
      if b > 0 {
        CountsPasses(cfg, env, b - 1);
        AttemptLaw(cfg, env, b - 1);
        BumpsIff(cfg, env, b - 1);
      }
    }
  }

  /**
    A returned result lies on the climb: between the start tier and the ceiling, or on the requested engine's start
    rung.
   */
  lemma ReturnedTierInRange(cfg: Config, env: Env)
    requires Final(cfg, env).Done? && Final(cfg, env).exit.Returned?
    ensures var t := Final(cfg, env).exit.result.tierUsed;
            && StartTier(cfg) <= t
            && (t <= Ceiling(cfg) || (cfg.requestedEngine.Some? && t == StartTier(cfg)))
  {
    hide Iterate;
    HowRunsEnd(cfg, env);
    AttemptLaw(cfg, env, Final(cfg, env).state.attempts - 1);
  }

  // ---------- reports and errors of a run ----------

  /**
    The report attempt `n` makes: Some(true) for a success, Some(false) for a block or a FetchError through a proxy.
   */
  function ReportAt(cfg: Config, env: Env, n: nat): Option<bool> {
    if ProxyAt(cfg, env, n).None? || env(n).outcome == Crashed then None else Some(env(n).outcome == Succeeded)
  }

  /** The reports of the first `n` attempts. */
  function ReportsUpTo(cfg: Config, env: Env, n: nat): seq<Report> {
    if n == 0 then []
    else if ReportAt(cfg, env, n - 1).None? then ReportsUpTo(cfg, env, n - 1)
    else
      ReportsUpTo(cfg, env, n - 1) + [Report(ProxyAt(cfg, env, n - 1).value, ReportAt(cfg, env, n - 1).value)]
  }

  /**
    The error a pass runs into, if any: the fetch's own FetchError or crash, a report that raises after an answered
    fetch, or a proxy manager that does not answer. A pool refusal is not an error the loop remembers.
   */
  function PassError(cfg: Config, ev: Event, s: State): Option<Outcome>
    requires s.tier < |LADDER|
  {
    if Proxied(cfg, s.tier) && ProxyFor(cfg, ev, s).None? then
      if ev.pool.Unreadable? then Some(Crashed) else None
    else
      match ev.outcome
      case FetchFailed => Some(FetchFailed)
      case Crashed => Some(Crashed)
      case _ => if ProxyFor(cfg, ev, s).Some? && ev.reportFails then Some(Crashed) else None
  }

  function ErrorAt(cfg: Config, env: Env, n: nat): Option<Outcome> {
    if Attempted(cfg, env, n) then PassError(cfg, env(n), Exec(cfg, env, n).state) else None
  }

  /** The latest error of the first `n` attempts. */
  function LastErrorOf(cfg: Config, env: Env, n: nat): Option<Outcome> {
    if n == 0 then None
    else if ErrorAt(cfg, env, n - 1).Some? then ErrorAt(cfg, env, n - 1)
    else LastErrorOf(cfg, env, n - 1)
  }

  lemma PassRemembers(cfg: Config, ev: Event, s: State)
    requires s.tier < |LADDER| && !GateHit(cfg, s.tier)
    ensures var r, proxy := Iterate(cfg, ev, s), ProxyFor(cfg, ev, s);
            && r.state.reports == s.reports
                                  + (if proxy.None? || ev.outcome == Crashed then []
                                     else [Report(proxy.value, ev.outcome == Succeeded)])
            && r.state.lastError == (if PassError(cfg, ev, s).Some? then PassError(cfg, ev, s) else s.lastError)
            && (r.Done? && r.exit.Raised? ==> PassError(cfg, ev, s) == Some(r.exit.cause))
            && (r.Done? ==> !r.exit.TrailingRaise?)
  {
    hide Pick;
  }

  /** The loop reports each proxied fetch that is answered or fails exactly once, and remembers its latest error. */
  lemma {:induction false} RunRemembers(cfg: Config, env: Env, n: nat)
    ensures Exec(cfg, env, n).state.reports == ReportsUpTo(cfg, env, n)
    ensures Exec(cfg, env, n).state.lastError == LastErrorOf(cfg, env, n)
  {
    hide Iterate, ProxyFor, PassError;
    if n > 0 {
      RunRemembers(cfg, env, n - 1);
      if Attempted(cfg, env, n - 1) {
        AttemptLaw(cfg, env, n - 1);
        GateNeverBailsOut(cfg, env, n - 1);
        PassRemembers(cfg, env(n - 1), Exec(cfg, env, n - 1).state);
      } else if Exec(cfg, env, n - 1).Running? {
        CountsPasses(cfg, env, n - 1);
      }
    }
  }

  /** What the caller sees of an error: a raise is the error of the last attempt, the trailing raise the latest one. */
  lemma RaisedErrorIsLatest(cfg: Config, env: Env)
    ensures var f := Final(cfg, env);
            && f.Done?
            && (f.exit.TrailingRaise? ==> f.exit.lastError == LastErrorOf(cfg, env, f.state.attempts))
            && (f.exit.Raised? ==>
                  f.state.attempts >= 1 && ErrorAt(cfg, env, f.state.attempts - 1) == Some(f.exit.cause))
  {
    hide Iterate, ProxyFor, PassError, LastErrorOf, PassLaw;
    var b := Max(0, Budget(cfg));
    var n := LastAttempt(cfg, env, b);
    if Exec(cfg, env, b).Done? {
      AttemptLaw(cfg, env, n);
      GateNeverBailsOut(cfg, env, n);
      PassRemembers(cfg, env(n), Exec(cfg, env, n).state);
    } else {
      CountsPasses(cfg, env, b);
      RunRemembers(cfg, env, b);
    }
  }

  // ---------- when and how an attempt ends the run ----------

  /** The attempt through `proxy` gets as far as a fetch. */
  predicate Fetches(cfg: Config, proxy: Option<ProxyId>, tier: nat)
    requires tier < |LADDER|
  {
    Proxied(cfg, tier) ==> proxy.Some?
  }

  /** A block, with `blocks` earlier ones on the tier, that is answered by moving to the next rung if there is one. */
  predicate MovesOn(cfg: Config, ev: Event, proxy: Option<ProxyId>, blocks: nat)
    requires ev.outcome.Blocked?
  {
    (blocks + 1 >= PerTier(cfg) && IsEscalatable(ev.outcome.reason)) || (proxy.None? && cfg.useProxy != Some(true))
  }

  /**
    Whether an attempt is the run's last: a refused pool and a report that raises inside the FetchError handler always
    end it; a success ends it unless its report raises; a block that should move on ends it when no rung is in reach;
    everything else ends it only when the budget is spent.
   */
  predicate EndsRun(cfg: Config, ev: Event, proxy: Option<ProxyId>, tier: nat, blocks: nat, before: nat)
    requires tier < |LADDER|
  {
    var spent, raises := before + 1 == Budget(cfg), proxy.Some? && ev.reportFails;
    if !Fetches(cfg, proxy, tier) then ev.pool.View? || spent
    else
      match ev.outcome
      case Succeeded => !raises || spent
      case FetchFailed => raises || spent
      case Crashed => spent
      case Blocked(_) =>
        if !raises && MovesOn(cfg, ev, proxy, blocks) then tier + 1 > Ceiling(cfg) else spent
  }

  /** How the run ends if the attempt is its last. */
  ghost predicate EndsAs(cfg: Config, ev: Event, proxy: Option<ProxyId>, tier: nat, exit: Exit)
    requires tier < |LADDER|
  {
    var raises := proxy.Some? && ev.reportFails;
    if !Fetches(cfg, proxy, tier) then
      if ev.pool.View? then exit in {PoolExhausted, PoolEmpty} else exit == Raised(Crashed)
    else
      match ev.outcome
      case Succeeded => if raises then exit == Raised(Crashed) else exit.Returned? && !exit.result.blocked
      case FetchFailed => exit == if raises then ReportRaised else Raised(FetchFailed)
      case Crashed => exit == Raised(Crashed)
      case Blocked(_) => if raises then exit == Raised(Crashed) else exit.Returned? && exit.result.blocked
  }

  lemma PassEndsIff(cfg: Config, ev: Event, s: State)
    requires Inv(cfg, s) && s.attempts < Budget(cfg) && !GateHit(cfg, s.tier)
    ensures var r, proxy := Iterate(cfg, ev, s), ProxyFor(cfg, ev, s);
            && (r.Done? <==> EndsRun(cfg, ev, proxy, s.tier, s.attemptsAtTier, s.attempts))
            && (r.Done? ==> EndsAs(cfg, ev, proxy, s.tier, r.exit))
  {
    hide Pick;
  }

  /** The exact law of exits, for every attempt of every run; with BumpsIff it decides every attempt. */
  lemma ExitsIff(cfg: Config, env: Env, n: nat)
    requires Attempted(cfg, env, n)
    ensures var r, proxy, tier := Exec(cfg, env, n + 1), ProxyAt(cfg, env, n), TierAt(cfg, env, n);
            && (r.Done? <==> EndsRun(cfg, env(n), proxy, tier, |VisitBlocks(cfg, env, n)|, n))
            && (r.Done? ==> EndsAs(cfg, env(n), proxy, tier, r.exit) && ExitOfAttempt(cfg, env, n, r.exit))
  {
    hide Iterate, ProxyFor, VisitBlocks, EndsRun, EndsAs;
    AttemptLaw(cfg, env, n);
    GateNeverBailsOut(cfg, env, n);
    CounterIsVisitBlocks(cfg, env, n);
    PassEndsIff(cfg, env(n), Exec(cfg, env, n).state);
  }

  // ---------- proxies that are required, and blocks that only rotate ----------

  /**
    Who asks for a proxy: the caller; or, if the caller leaves it open, every rung of the ladder above the base within
    the ceiling, and the policy on the base rung.
   */
  predicate ProxyAsked(cfg: Config, tier: nat) {
    || cfg.useProxy == Some(true)
    || (cfg.useProxy.None? && 1 <= tier <= Ceiling(cfg))
    || (cfg.useProxy.None? && tier == 0 && cfg.policy.Some? && cfg.policy.value.useProxy == Some(true))
  }

  /** Attempts go to the proxy manager exactly on the tiers for which a proxy is asked. */
  lemma AskedIsProxied(cfg: Config, env: Env, n: nat)
    requires Attempted(cfg, env, n)
    ensures Proxied(cfg, TierAt(cfg, env, n)) <==> cfg.hasManager && ProxyAsked(cfg, TierAt(cfg, env, n))
  {
    hide Exec;
    GateNeverBailsOut(cfg, env, n);
    var t := TierAt(cfg, env, n);
    RungsOfTheLadder(t);
  }

  /** Attempt `n` is the first of a session that was pinned to `p`; a pin is not filtered again. */
  predicate PinnedFirst(cfg: Config, env: Env, n: nat, p: Proxy) {
    n == 0 && cfg.hasStickyKey && env(n).pool.View? && env(n).pool.pinned == Some(p.id)
  }

  /**
    The row behind the proxy of attempt `n`: active, not cooling down, unused in this visit, and matching the tier's
    filter unless it is the very proxy pinned to the session before the first attempt.
   */
  lemma UsedProxyIsEligible(cfg: Config, env: Env, n: nat) returns (p: Proxy)
    requires ProxyAt(cfg, env, n).Some?
    ensures env(n).pool.View? && p in env(n).pool.rows && p.id == ProxyAt(cfg, env, n).value
    ensures Usable(p, env(n).pool.now, VisitProxies(cfg, env, n))
    ensures Matches(p, FilterAt(cfg, TierAt(cfg, env, n))) || PinnedFirst(cfg, env, n, p)
  {
    hide Exec;
    InvHolds(cfg, env, n);
    FailedIsVisit(cfg, env, n);
    p := Selected(cfg, env(n).pool, Exec(cfg, env, n).state).value;
  }

  /** Above the ceiling the requested engine runs direct: without a caller override no proxy is bought for it. */
  lemma GateBypassRunsDirect(cfg: Config, env: Env, n: nat)
    requires cfg.useProxy.None? && TierAt(cfg, env, n) > Ceiling(cfg)
    ensures ProxyAt(cfg, env, n).None?
  {
    hide Exec;
    if Attempted(cfg, env, n) { GateNeverBailsOut(cfg, env, n); }
  }

  /** A policy that asks for a proxy on the base rung asks for a free type. */
  predicate PolicyStaysFree(cfg: Config) {
    cfg.policy.Some? && cfg.policy.value.useProxy == Some(true) ==>
      cfg.policy.value.proxyType in {Some(Datacenter), Some(Isp)}
  }

  /**
    The premium gate protects proxy spend over whole runs: with premium off, no caller override and a free policy
    type, no attempt goes through a residential or mobile proxy, whatever engine was requested, unless the session was
    pinned to that very proxy before the run.
   */
  lemma PremiumProxiesNeverBought(cfg: Config, env: Env, n: nat) returns (p: Proxy)
    requires !cfg.enablePremium && cfg.useProxy.None? && cfg.proxyType.None? && PolicyStaysFree(cfg)
    requires ProxyAt(cfg, env, n).Some?
    ensures env(n).pool.View? && p in env(n).pool.rows && p.id == ProxyAt(cfg, env, n).value
    ensures p.kind in {Datacenter, Isp} || PinnedFirst(cfg, env, n, p)
  {
    hide Exec;
    p := UsedProxyIsEligible(cfg, env, n);
    var t := TierAt(cfg, env, n);
    if t > Ceiling(cfg) {
      GateBypassRunsDirect(cfg, env, n);
    } else {
      CeilingSeparatesPremium(t);
      assert t == 0 || LADDER[t].proxyType == Some(Datacenter);
    }
  }

  /**
    With a manager, a proxy that the caller, the rung or the policy asks for is never replaced by a direct fetch, in
    any attempt of any run: the attempt goes through a proxy, or gets no answer from the proxy manager and so no
    fetch, or ends the run in a pool error.
   */
  lemma RequiredProxyNeverDropped(cfg: Config, env: Env, n: nat)
    requires cfg.hasManager && Attempted(cfg, env, n) && ProxyAsked(cfg, TierAt(cfg, env, n))
    ensures || ProxyAt(cfg, env, n).Some?
            || env(n).pool.Unreadable?
            || (Exec(cfg, env, n + 1).Done? && Exec(cfg, env, n + 1).exit in {PoolExhausted, PoolEmpty})
    ensures ProxyAt(cfg, env, n).None? ==>
              && !BlockedAt(cfg, env, n)
              && Exec(cfg, env, n + 1).state.lastResult == Exec(cfg, env, n).state.lastResult
    ensures ProxyAt(cfg, env, n).None? && Exec(cfg, env, n + 1).Done? ==> !Exec(cfg, env, n + 1).exit.Returned?
  {
    hide Pick;
    AskedIsProxied(cfg, env, n);
    AttemptLaw(cfg, env, n);
  }

  /**
    The converse: without a manager, or where nobody asks for a proxy, the attempt fetches directly and no pool error
    can end it.
   */
  lemma UnaskedIsDirect(cfg: Config, env: Env, n: nat)
    requires Attempted(cfg, env, n) && !(cfg.hasManager && ProxyAsked(cfg, TierAt(cfg, env, n)))
    ensures ProxyAt(cfg, env, n).None?
    ensures env(n).outcome.Blocked? ==> BlockedAt(cfg, env, n)
    ensures env(n).outcome == Succeeded ==>
              && Exec(cfg, env, n + 1).Done? && Exec(cfg, env, n + 1).exit.Returned?
              && Exec(cfg, env, n + 1).exit.result.proxy.None? && !Exec(cfg, env, n + 1).exit.result.blocked
    ensures Exec(cfg, env, n + 1).Done? ==> Exec(cfg, env, n + 1).exit !in {PoolExhausted, PoolEmpty}
  {
    hide Pick;
    AskedIsProxied(cfg, env, n);
    AttemptLaw(cfg, env, n);
  }

  /**
    What is asked for on each rung: the caller's type wins; the ladder wants datacenter proxies on rungs 1 and 2,
    residential ones on 3 to 5 and mobile ones on 6; the policy's type counts on the base rung only, and an engine
    requested above the ceiling gets no type. Pool, country and city are those of the call.
   */
  lemma WantedOnEachRung(cfg: Config, env: Env, n: nat)
    requires Attempted(cfg, env, n)
    ensures var t, f := TierAt(cfg, env, n), FilterAt(cfg, TierAt(cfg, env, n));
            && (cfg.proxyType.Some? ==> f.kind == cfg.proxyType)
            && (cfg.proxyType.None? && t > Ceiling(cfg) ==> f.kind == None)
            && (cfg.proxyType.None? && 1 <= t <= 2 && t <= Ceiling(cfg) ==> f.kind == Some(Datacenter))
            && (cfg.proxyType.None? && 3 <= t <= 5 && t <= Ceiling(cfg) ==> f.kind == Some(Residential))
            && (cfg.proxyType.None? && t == 6 <= Ceiling(cfg) ==> f.kind == Some(Mobile))
            && (cfg.proxyType.None? && t == 0 ==>
                  f.kind == (if cfg.policy.Some? then cfg.policy.value.proxyType else None))
            && f.pool == (if cfg.policy.Some? then cfg.policy.value.proxyPool else None)
            && f.country == cfg.country && f.city == cfg.city
  {
    hide Exec;
    GateNeverBailsOut(cfg, env, n);
    RungsOfTheLadder(TierAt(cfg, env, n));
  }

  /** A session pinned to a usable proxy starts with it, whatever the filter says, as long as a proxy is asked for. */
  lemma PinIsHonoured(cfg: Config, env: Env, id: ProxyId)
    requires Attempted(cfg, env, 0) && cfg.hasManager && ProxyAsked(cfg, TierAt(cfg, env, 0)) && cfg.hasStickyKey
    requires env(0).pool.View? && !env(0).pool.breakerOpen && env(0).pool.pinned == Some(id)
    requires exists p :: p in env(0).pool.rows && p.id == id
    requires forall p :: p in env(0).pool.rows && p.id == id ==> Usable(p, env(0).pool.now, {})
    ensures ProxyAt(cfg, env, 0) == Some(id)
  {
    AskedIsProxied(cfg, env, 0);
  }

  /**
    In particular a result returned from a tier on which a proxy is asked for went through a usable row of the pool.
   */
  lemma RequiredProxyIsUsed(cfg: Config, env: Env)
    requires cfg.hasManager
    requires Final(cfg, env).Done? && Final(cfg, env).exit.Returned?
    requires Final(cfg, env).exit.result.tierUsed < |LADDER|
    requires ProxyAsked(cfg, Final(cfg, env).exit.result.tierUsed)
    ensures var r := Final(cfg, env).exit.result;
            && r.proxy.Some?
            && env(r.retriesUsed).pool.View?
            && exists p :: p in env(r.retriesUsed).pool.rows && p.id == r.proxy.value
                 && Usable(p, env(r.retriesUsed).pool.now, VisitProxies(cfg, env, r.retriesUsed))
  {
    hide Exec;
    HowRunsEnd(cfg, env);
    AskedIsProxied(cfg, env, Final(cfg, env).state.attempts - 1);
    var p := UsedProxyIsEligible(cfg, env, Final(cfg, env).state.attempts - 1);
  }

  /**
    Against the documented "locks tier 0": with use_proxy=False a block leaves the rung exactly when the next one is
    in reach.
   */
  lemma ForcedDirectLeavesIff(cfg: Config, env: Env, n: nat)
    requires cfg.useProxy == Some(false)
    requires Attempted(cfg, env, n) && env(n).outcome.Blocked?
    ensures BumpedBy(cfg, env, n) <==> TierAt(cfg, env, n) + 1 <= Ceiling(cfg)
  {
    hide Pick;
    AttemptLaw(cfg, env, n);
  }

  /** Every block of the run is rotation-only and was met through a proxy (or the caller forces one). */
  ghost predicate OnlyRotates(cfg: Config, env: Env) {
    forall n: nat :: Attempted(cfg, env, n) && env(n).outcome.Blocked? ==>
      && !IsEscalatable(env(n).outcome.reason)
      && (ProxyAt(cfg, env, n).Some? || cfg.useProxy == Some(true))
  }

  lemma {:induction false} RotationKeepsTier(cfg: Config, env: Env, n: nat)
    requires OnlyRotates(cfg, env)
    ensures TierAt(cfg, env, n) == StartTier(cfg)
  {
    hide Iterate;
    if n > 0 {
      RotationKeepsTier(cfg, env, n - 1);
      if Attempted(cfg, env, n - 1) {
        AttemptLaw(cfg, env, n - 1);
      } else if Exec(cfg, env, n - 1).Running? {
        CountsPasses(cfg, env, n - 1);
      }
    }
  }
}
