/**
  The retry loop in the source's own form, proved to compute the step machine's run.
  The local variables of fetch_with_retry are the fields of `RetryLoop`; each handler of the loop body is a method.
  A handler answers None to go round the loop again and Some(exit) to leave it.
 */
module FetchWithRetry {
  import opened Common
  import opened Escalation
  import opened ProxySelection
  import opened RetryMachine

  class RetryLoop {
    const cfg: Config
    var tier: nat
    var attemptsAtTier: nat
    var fetcher: Option<Engine>
    var failed: set<ProxyId>
    var totalAttempts: nat
    var lastResult: Option<FetchResult>
    var lastError: Option<Outcome>
    var reports: seq<Report>

    constructor (cfg: Config)
      ensures this.cfg == cfg && Snapshot() == Init(cfg)
    {
      this.cfg := cfg;
      tier, attemptsAtTier, fetcher := StartTier(cfg), 0, None;
      failed, totalAttempts, lastResult, lastError, reports := {}, 0, None, None, [];
    }

    ghost function Snapshot(): State
      reads this
    {
      State(tier, attemptsAtTier, fetcher, failed, totalAttempts, lastResult, lastError, reports)
    }

    ghost function Answer(exit: Option<Exit>): Status
      reads this
    {
      if exit.None? then Running(Snapshot()) else Done(exit.value, Snapshot())
    }

    /** report_result on the proxy manager; with a proxy there is one. */
    method ReportResult(proxy: Option<ProxyId>, success: bool)
      modifies this`reports
      ensures Snapshot() == Reported(old(Snapshot()), proxy, success)
    {
      if proxy.Some? { reports := reports + [Report(proxy.value, success)]; }
    }

    method HandleCrash(proxy: Option<ProxyId>) returns (exit: Option<Exit>)
      modifies this
      ensures Answer(exit) == OnCrash(cfg, proxy, old(Snapshot()))
    {
      lastError := Some(Crashed);
      if proxy.Some? { failed := failed + {proxy.value}; }
      if totalAttempts < Budget(cfg) { return None; }
      return Some(Raised(Crashed));
    }

    method HandleFetchError(ev: Event, proxy: Option<ProxyId>) returns (exit: Option<Exit>)
      modifies this
      ensures Answer(exit) == OnFetchError(cfg, ev, proxy, old(Snapshot()))
    {
      lastError := Some(FetchFailed);
      ReportResult(proxy, false);
      if proxy.Some? {
        if ev.reportFails { return Some(ReportRaised); }
        failed := failed + {proxy.value};
      }
      if totalAttempts < Budget(cfg) { return None; }
      return Some(Raised(FetchFailed));
    }

    method HandleBlock(result: FetchResult, proxy: Option<ProxyId>) returns (exit: Option<Exit>)
      modifies this
      ensures Answer(exit) == OnBlock(cfg, result, proxy, old(Snapshot()))
    {
      var maxTier := Ceiling(cfg);
      if attemptsAtTier >= PerTier(cfg) && IsEscalatable(result.reason) {
        var next := NextTier(tier);
        if next.None? || next.value > maxTier { return Some(Returned(result)); }
        tier, attemptsAtTier, fetcher, failed := next.value, 0, None, {};
        return None;
      }
      if proxy.None? && cfg.useProxy != Some(true) {
        var next := NextTier(tier);
        if next.Some? && next.value <= maxTier {
          tier, attemptsAtTier, fetcher := next.value, 0, None;
          return None;
        }
        return Some(Returned(result));
      }
      if totalAttempts < Budget(cfg) { return None; }
      return Some(Returned(result));
    }

    method Fetch(ev: Event, proxy: Option<ProxyId>) returns (exit: Option<Exit>)
      requires fetcher.Some? && totalAttempts >= 1
      modifies this
      ensures Answer(exit) == AfterFetch(cfg, ev, proxy, old(Snapshot()))
    {
      match ev.outcome {
        case Crashed =>
          exit := HandleCrash(proxy);
        case FetchFailed =>
          exit := HandleFetchError(ev, proxy);
        case Succeeded =>
          ReportResult(proxy, true);
          if proxy.Some? && ev.reportFails {
            exit := HandleCrash(proxy);
          } else {
            return Some(Returned(FetchResult(false, None, fetcher.value, proxy, tier, totalAttempts - 1)));
          }
        case Blocked(reason) =>
          var result := FetchResult(true, reason, fetcher.value, proxy, tier, totalAttempts - 1);
          lastResult := Some(result);
          attemptsAtTier := attemptsAtTier + 1;
          ReportResult(proxy, false);
          if proxy.Some? && ev.reportFails {
            exit := HandleCrash(proxy);
          } else {
            if proxy.Some? { failed := failed + {proxy.value}; }
            exit := HandleBlock(result, proxy);
          }
      }
    }

    /** The loop body. */
    method Attempt(ev: Event) returns (exit: Option<Exit>)
      requires tier < |LADDER|
      modifies this
      ensures Answer(exit) == Iterate(cfg, ev, old(Snapshot()))
    {
      hide Pick, AfterFetch, OnCrash;
      var bypassed := false;
      if tier > Ceiling(cfg) {
        if cfg.requestedEngine == Some(LADDER[tier].engine) {
          bypassed := true;
        } else {
          return Some(if lastResult.Some? then Returned(lastResult.value) else TrailingRaise(lastError));
        }
      }
      var useProxy := false;
      if cfg.useProxy.Some? {
        useProxy := cfg.useProxy.value;
      } else if bypassed {
        useProxy := false;
      } else if LADDER[tier].useProxy {
        useProxy := true;
      } else if cfg.policy.Some? && cfg.policy.value.useProxy.Some? {
        useProxy := cfg.policy.value.useProxy.value;
      }
      if fetcher != Some(LADDER[tier].engine) { fetcher := Some(LADDER[tier].engine); }
      totalAttempts := totalAttempts + 1;

      var proxy: Option<ProxyId> := None;
      if useProxy && cfg.hasManager {
        if ev.pool.Unreadable? {
          exit := HandleCrash(None);
          return;
        }
        var picked := Pick(ev.pool, cfg.hasStickyKey && totalAttempts == 1, FilterAt(cfg, tier), failed);
        if picked.None? { return Some(if failed != {} then PoolExhausted else PoolEmpty); }
        proxy := Some(picked.value.id);
      }
      exit := Fetch(ev, proxy);
    }

    /** The whole call, on a freshly initialised loop. */
    method Run(env: Env) returns (exit: Exit)
      requires Snapshot() == Init(cfg)
      modifies this
      ensures Final(cfg, env) == Done(exit, Snapshot())
    {
      hide Iterate;
      ghost var passes := Max(0, Budget(cfg)) + 1;
      ghost var n := 0;
      while totalAttempts < Budget(cfg)
        invariant n <= Max(0, Budget(cfg)) && totalAttempts == n
        invariant Exec(cfg, env, n) == Running(Snapshot())
        decreases Budget(cfg) - totalAttempts
      {
        var answer := Attempt(env(totalAttempts));
        n := n + 1;
        assert Exec(cfg, env, n) == Answer(answer);
        if answer.Some? {
          DoneIsFinal(cfg, env, n, passes);
          return answer.value;
        }
        CountsPasses(cfg, env, n);
      }
      return TrailingRaise(lastError);
    }
  }

  method FetchWithRetry(cfg: Config, env: Env) returns (exit: Exit)
    ensures Final(cfg, env).Done? && Final(cfg, env).exit == exit
  {
    var loop := new RetryLoop(cfg);
    exit := loop.Run(env);
  }
}
