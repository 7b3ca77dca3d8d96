/** The retry ladder and the circuit breaker together: a run that is the only reporter for its domain. */
module LadderBreaker {
  import opened Common
  import opened Escalation
  import opened ProxySelection
  import CB = CircuitBreaker
  import opened RetryMachine
  import opened RetryTheorems

  /** When attempt n asks for a proxy, when it reports, and whether the breaker update of that report is lost. */
  datatype Moment = Moment(query: int, report: int, lost: bool)

  type Times = nat -> Moment

  function AfterReport(st: CB.Settings, b: CB.Breaker, report: Option<bool>, m: Moment): CB.Breaker {
    if report.None? || m.lost then b
    else CB.Apply(st, b, if report.value then CB.Success(m.report) else CB.Failure(m.report))
  }

  /** The breaker of the run's domain before attempt `n`. */
  function BreakerAt(st: CB.Settings, start: CB.Breaker, cfg: Config, env: Env, times: Times, n: nat): CB.Breaker {
    if n == 0 then start
    else AfterReport(st, BreakerAt(st, start, cfg, env, times, n - 1), ReportAt(cfg, env, n - 1), times(n - 1))
  }

  /** The breaker operation a report amounts to, unless it is lost. */
  function OpsAt(report: Option<bool>, m: Moment): seq<CB.Op> {
    if m.lost then []
    else
      match report
      case None => []
      case Some(success) => [if success then CB.Success(m.report) else CB.Failure(m.report)]
  }

  /** The breaker operations of the first `n` attempts. */
  function OpsUpTo(cfg: Config, env: Env, times: Times, n: nat): seq<CB.Op> {
    if n == 0 then [] else OpsUpTo(cfg, env, times, n - 1) + OpsAt(ReportAt(cfg, env, n - 1), times(n - 1))
  }

  lemma ReportIsOp(st: CB.Settings, ops: seq<CB.Op>, report: Option<bool>, m: Moment)
    ensures CB.Replay(st, ops + OpsAt(report, m)) == AfterReport(st, CB.Replay(st, ops), report, m)
  {
    hide CB.Replay, CB.Apply;
    if m.lost || report.None? {
      assert ops + [] == ops;
    } else {
      CB.ReplayAppend(st, ops, OpsAt(report, m)[0]);
    }
  }

  /** The run's breaker is the domain's history extended by the run's own reports, successes included. */
  lemma {:induction false} BreakerIsHistory(
    st: CB.Settings, ops: seq<CB.Op>, cfg: Config, env: Env, times: Times, n: nat)
    ensures BreakerAt(st, CB.Replay(st, ops), cfg, env, times, n) == CB.Replay(st, ops + OpsUpTo(cfg, env, times, n))
  {
    hide ReportAt, AfterReport, OpsAt, CB.Replay;
    if n == 0 {
      assert ops + [] == ops;
    } else {
      var before, now := OpsUpTo(cfg, env, times, n - 1), OpsAt(ReportAt(cfg, env, n - 1), times(n - 1));
      BreakerIsHistory(st, ops, cfg, env, times, n - 1);
      ReportIsOp(st, ops + before, ReportAt(cfg, env, n - 1), times(n - 1));
      assert ops + (before + now) == ops + before + now;
    }
  }

  /** Every breaker check of the run reads this breaker: nobody else reports for the domain. */
  ghost predicate SoleReporter(st: CB.Settings, start: CB.Breaker, cfg: Config, env: Env, times: Times) {
    forall n: nat :: Attempted(cfg, env, n) && env(n).pool.View? ==>
      env(n).pool.breakerOpen == CB.IsOpen(BreakerAt(st, start, cfg, env, times, n), times(n).query)
  }

  function StoredCount(b: CB.Breaker): nat {
    if b.counter.Some? then b.counter.value.value else 0
  }

  /** The clock of the run: each attempt asks before it reports, and reports before the next one asks. */
  ghost predicate ClockRuns(times: Times) {
    forall n: nat :: times(n).query <= times(n).report <= times(n + 1).query
  }

  /** The breaker is closed at `now` and shows at most `count` live failures. */
  ghost predicate AtMost(b: CB.Breaker, count: nat, now: int) {
    !CB.IsOpen(b, now) && CB.LiveCount(b, now) <= count
  }

  /** One attempt below the threshold adds at most one live failure and leaves the breaker closed. */
  lemma AttemptAddsOne(st: CB.Settings, b: CB.Breaker, report: Option<bool>, m: Moment, count: nat, next: int)
    requires AtMost(b, count, m.query) && m.query <= m.report <= next && count + 1 < st.threshold
    ensures AtMost(AfterReport(st, b, report, m), count + 1, next)
  {
  }

  /** `n` attempts add at most `n` live failures, and the breaker cannot open below its threshold. */
  lemma {:induction false} LiveCountGrowsByOne(
    st: CB.Settings, start: CB.Breaker, cfg: Config, env: Env, times: Times, n: nat)
    requires ClockRuns(times) && !CB.IsOpen(start, times(0).query)
    requires CB.LiveCount(start, times(0).query) + n < st.threshold
    ensures AtMost(BreakerAt(st, start, cfg, env, times, n), CB.LiveCount(start, times(0).query) + n, times(n).query)
  {
    hide ReportAt, AfterReport, CB.LiveCount, CB.IsOpen;
    if n > 0 {
      var m := times(n - 1);
      assert m.query <= m.report <= times(n - 1 + 1).query;
      LiveCountGrowsByOne(st, start, cfg, env, times, n - 1);
      AttemptAddsOne(st, BreakerAt(st, start, cfg, env, times, n - 1), ReportAt(cfg, env, n - 1), m,
                     CB.LiveCount(start, times(0).query) + n - 1, times(n).query);
    }
  }

  /**
    No get_proxy call of attempt `n` is refused by the breaker, and a pool error there means a pool spent in this
    visit.
   */
  ghost predicate NotTripped(cfg: Config, env: Env, n: nat) {
    && (env(n).pool.View? ==> !env(n).pool.breakerOpen)
    && (Exec(cfg, env, n + 1).Done? && Exec(cfg, env, n + 1).exit in {PoolExhausted, PoolEmpty} ==>
          && env(n).pool.View?
          && forall q :: q in env(n).pool.rows && q.isActive && Matches(q, FilterAt(cfg, TierAt(cfg, env, n))) ==>
               OnCooldown(q, env(n).pool.now) || q.id in VisitProxies(cfg, env, n))
  }

  /**
    If the breaker is closed when the run starts and its live count plus the budget minus one stays below the threshold,
    no attempt of the run is tripped by the breaker, whatever keys are stored and expired at the start.
   */
  lemma LadderDoesNotTripItself(st: CB.Settings, start: CB.Breaker, cfg: Config, env: Env, times: Times, n: nat)
    requires SoleReporter(st, start, cfg, env, times) && ClockRuns(times)
    requires !CB.IsOpen(start, times(0).query)
    requires CB.LiveCount(start, times(0).query) + Budget(cfg) - 1 < st.threshold
    requires Attempted(cfg, env, n)
    ensures NotTripped(cfg, env, n)
  {
    hide Exec;
    LiveCountGrowsByOne(st, start, cfg, env, times, n);
    if Exec(cfg, env, n + 1).Done? && Exec(cfg, env, n + 1).exit in {PoolExhausted, PoolEmpty} {
      PoolErrorMeansVisitSpent(cfg, env, n);
    }
  }

  /**
    The same on the domain's whole past: after any ordered history of reports and resets that does not end in a live
    streak of more than `room` failures, a budget that fits between `room` and the threshold is safe.
   */
  lemma HistoryDoesNotTripLadder(
    st: CB.Settings, ops: seq<CB.Op>, cfg: Config, env: Env, times: Times, room: nat, n: nat)
    requires SoleReporter(st, CB.Replay(st, ops), cfg, env, times) && ClockRuns(times)
    requires CB.InOrder(ops) && (ops != [] ==> ops[|ops| - 1].at <= times(0).query)
    requires !CB.LiveStreak(st, ops, room + 1, times(0).query) && room + Budget(cfg) - 1 < st.threshold
    requires Attempted(cfg, env, n)
    ensures NotTripped(cfg, env, n)
  {
    hide Exec, CB.Replay, SoleReporter;
    var t := times(0).query;
    CB.LiveCountIsStreak(st, ops, room + 1, t);
    CB.OpenIffLiveStreak(st, ops, t);
    if CB.LiveStreak(st, ops, Max(1, st.threshold), t) {
      CB.StreakShrinks(st, ops, Max(1, st.threshold), room + 1);
    }
    LadderDoesNotTripItself(st, CB.Replay(st, ops), cfg, env, times, n);
  }

  /** The shipped settings: threshold 20, and a fresh counter, with any budget up to the default of 12. */
  lemma ShippedSettingsAreSafe(cfg: Config, env: Env, times: Times, n: nat)
    requires Budget(cfg) <= 12
    requires SoleReporter(CB.Settings(20, 300), CB.FRESH, cfg, env, times)
    requires Attempted(cfg, env, n)
    ensures NotTripped(cfg, env, n)
  {
    hide Exec;
    CleanStartNeedsNoClock(CB.Settings(20, 300), CB.FRESH, cfg, env, times, n);
  }

  // ---------- clocks that jump ----------

  /** `n` attempts add at most `n` to the stored counter, whatever the clocks say. */
  lemma {:induction false} CountGrowsByOne(
    st: CB.Settings, start: CB.Breaker, cfg: Config, env: Env, times: Times, n: nat)
    requires start.openUntil.None?
    requires StoredCount(start) + n < st.threshold
    ensures var b := BreakerAt(st, start, cfg, env, times, n);
            b.openUntil.None? && StoredCount(b) <= StoredCount(start) + n
  {
    hide ReportAt;
    if n > 0 { CountGrowsByOne(st, start, cfg, env, times, n - 1); }
  }

  /** From a breaker without a state key the bound holds for clocks in any order, counted on what is stored. */
  lemma CleanStartNeedsNoClock(st: CB.Settings, start: CB.Breaker, cfg: Config, env: Env, times: Times, n: nat)
    requires SoleReporter(st, start, cfg, env, times)
    requires start.openUntil.None?
    requires StoredCount(start) + Budget(cfg) - 1 < st.threshold
    requires Attempted(cfg, env, n)
    ensures NotTripped(cfg, env, n)
  {
    hide Exec;
    CountGrowsByOne(st, start, cfg, env, times, n);
    if Exec(cfg, env, n + 1).Done? && Exec(cfg, env, n + 1).exit in {PoolExhausted, PoolEmpty} {
      PoolErrorMeansVisitSpent(cfg, env, n);
    }
  }

  // ---------- the bound is tight ----------

  /** A caller-forced proxy run with budget `b` and no filters. */
  function TightConfig(b: int): Config {
    Config(Some(Policy(Some(b), None, None, None, None, 0, None)), false, true, false,
           Some(true), None, None, None, None)
  }

  function TightPool(b: nat): seq<Proxy> {
    seq(b, i requires 0 <= i => Proxy(i, true, None, 0, None, None, Datacenter))
  }

  /** Every attempt is IP-banned; the breaker shows open from the report on that brings the count to the threshold. */
  function TightEvent(st: CB.Settings, c: nat, b: nat, n: nat): Event {
    Event(View(TightPool(b), 0, c + n >= st.threshold, None, 0), Blocked(Some("ip_ban")), false)
  }

  function TightStart(st: CB.Settings, c: nat): CB.Breaker {
    CB.Breaker(Some(CB.Counter(c, 2 * st.timeout)), None, [])
  }

  lemma {:induction false} CoverIsLarge(b: nat, ids: set<ProxyId>)
    requires forall i :: 0 <= i < b ==> i in ids
    ensures |ids| >= b
  {
    if b > 0 {
      CoverIsLarge(b - 1, ids - {b - 1});
      assert ids == (ids - {b - 1}) + {b - 1};
    }
  }

  /** A pool of `b` proxies is not exhausted by fewer than `b` exclusions. */
  lemma TightPoolHasRoom(b: nat, excluded: set<ProxyId>, f: Filter)
    requires |excluded| < b && f.pool.None? && f.country.None? && f.city.None? && f.kind in {None, Some(Datacenter)}
    ensures Pick(View(TightPool(b), 0, false, None, 0), false, f, excluded).Some?
  {
    if Pick(View(TightPool(b), 0, false, None, 0), false, f, excluded).None? {
      forall i | 0 <= i < b ensures i in excluded {
        assert TightPool(b)[i].id == i && TightPool(b)[i] in TightPool(b);
      }
      CoverIsLarge(b, excluded);
    }
  }

  lemma TightStep(st: CB.Settings, c: nat, b: nat, s: State)
    requires s.tier == 0 && s.attempts + 1 < b && |s.failed| <= s.attempts && c + s.attempts < st.threshold
    ensures var ev := TightEvent(st, c, b, s.attempts);
            var r := Iterate(TightConfig(b), ev, s);
            && ProxyFor(TightConfig(b), ev, s).Some?
            && r.Running? && r.state.tier == 0 && r.state.attempts == s.attempts + 1
            && |r.state.failed| <= s.attempts + 1
  {
    hide Pick;
    EscalatesIff("ip_ban");
    TightPoolHasRoom(b, s.failed, FilterAt(TightConfig(b), 0));
  }

  /** After `c` stored failures: open from the threshold on. */
  ghost predicate TightCount(st: CB.Settings, b: CB.Breaker, c: nat) {
    && b.counter == Some(CB.Counter(c, 2 * st.timeout))
    && (c < st.threshold ==> b.openUntil.None?)
    && (c == st.threshold ==> b.openUntil == Some(2 * st.timeout))
  }

  lemma TightReport(st: CB.Settings, b: CB.Breaker, c: nat)
    requires st.timeout > 0 && c < st.threshold && TightCount(st, b, c)
    ensures TightCount(st, AfterReport(st, b, Some(false), Moment(0, 0, false)), c + 1)
  {
  }

  ghost predicate TightEnv(st: CB.Settings, c: nat, b: nat, env: Env) {
    forall k: nat :: env(k) == TightEvent(st, c, b, k)
  }

  ghost predicate Rotating(r: Status, n: nat) {
    r.Running? && r.state.tier == 0 && r.state.attempts == n && |r.state.failed| <= n
  }

  lemma TightBudget(b: nat)
    requires b >= 1
    ensures Budget(TightConfig(b)) == b && StartTier(TightConfig(b)) == 0
  {
  }

  /** The run keeps rotating on tier 0. */
  lemma {:induction false} TightRun(st: CB.Settings, c: nat, b: nat, env: Env, n: nat)
    requires c + n <= st.threshold && n < b && TightEnv(st, c, b, env)
    ensures Rotating(Exec(TightConfig(b), env, n), n)
  {
    hide Iterate, ProxyFor, TightEvent, TightConfig, Budget, StartTier;
    TightBudget(b);
    if n > 0 {
      TightRun(st, c, b, env, n - 1);
      TightStep(st, c, b, Exec(TightConfig(b), env, n - 1).state);
    }
  }

  lemma TightReportsFailure(st: CB.Settings, c: nat, b: nat, env: Env, n: nat)
    requires c + n < st.threshold && n + 1 < b && TightEnv(st, c, b, env)
    ensures ReportAt(TightConfig(b), env, n) == Some(false)
  {
    hide Exec, Iterate, ProxyFor, TightConfig, Budget, TightPool;
    TightBudget(b);
    TightRun(st, c, b, env, n);
    TightStep(st, c, b, Exec(TightConfig(b), env, n).state);
  }

  /** Every attempt adds one failure to the breaker. */
  lemma {:induction false} TightBreaker(st: CB.Settings, c: nat, b: nat, env: Env, times: Times, n: nat)
    requires st.timeout > 0 && c < st.threshold && c + n <= st.threshold && n < b && TightEnv(st, c, b, env)
    requires forall k: nat :: times(k) == Moment(0, 0, false)
    ensures TightCount(st, BreakerAt(st, TightStart(st, c), TightConfig(b), env, times, n), c + n)
  {
    hide AfterReport, TightConfig, ReportAt, TightEnv;
    if n > 0 {
      TightBreaker(st, c, b, env, times, n - 1);
      TightReportsFailure(st, c, b, env, n - 1);
      TightReport(st, BreakerAt(st, TightStart(st, c), TightConfig(b), env, times, n - 1), c + n - 1);
    }
  }

  /** At the threshold the breaker refuses and the run is over. */
  lemma TightEnd(st: CB.Settings, c: nat, b: nat, s: State)
    requires s.tier == 0 && c + s.attempts >= st.threshold
    ensures Iterate(TightConfig(b), TightEvent(st, c, b, s.attempts), s).Done?
  {
  }

  /**
    The bound of LadderDoesNotTripItself cannot be improved: for every count below the threshold and every budget that
    violates it, there is a run, sole reporter on its domain, whose own reports make the breaker refuse it a proxy.
   */
  lemma ThresholdIsTight(st: CB.Settings, c: nat, b: nat)
    returns (start: CB.Breaker, cfg: Config, env: Env, times: Times, n: nat)
    requires st.timeout > 0 && c < st.threshold <= c + b - 1
    ensures start.openUntil.None? && StoredCount(start) == c && Budget(cfg) == b
    ensures ClockRuns(times) && CB.LiveCount(start, times(0).query) == c
    ensures SoleReporter(st, start, cfg, env, times)
    ensures Attempted(cfg, env, n) && env(n).pool.View? && env(n).pool.breakerOpen
  {
    hide Iterate, BreakerAt;
    start, cfg, n := TightStart(st, c), TightConfig(b), st.threshold - c;
    env := (k: nat) => TightEvent(st, c, b, k);
    times := (k: nat) => Moment(0, 0, false);
    TightRun(st, c, b, env, n);
    TightEnd(st, c, b, Exec(cfg, env, n).state);
    forall k: nat | Attempted(cfg, env, k)
      ensures env(k).pool.breakerOpen == CB.IsOpen(BreakerAt(st, start, cfg, env, times, k), times(k).query)
    {
      if k > n { DoneIsFinal(cfg, env, n + 1, k); }
      TightBreaker(st, c, b, env, times, k);
    }
  }
}
