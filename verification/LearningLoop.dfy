/** The closed loop: fetch jobs that start from the learned policy and write their outcome back to it. */
module LearningLoop {
  import opened Common
  import opened Escalation
  import opened RetryMachine
  import opened RetryTheorems
  import opened PolicyLearner

  /** The engine a job runs: the policy's, or else the one of the API mode (httpx for unknown modes). */
  function EngineFor(policyEngine: Option<Engine>, mode: string): Engine {
    if policyEngine.Some? then policyEngine.value
    else if mode == "stealth" then CurlCffi
    else if mode == "browser" then Playwright
    else if mode == "camoufox" then Camoufox
    else Httpx
  }

  function RequestedEngine(engine: Engine): Option<Engine> {
    if engine != Httpx then Some(engine) else None
  }

  /**
    The engine that the policy or the API mode chooses really runs the first attempt: a browser or stealth engine even
    above the premium ceiling, and on its lowest rung. Only httpx leaves the start to the learned tier.
   */
  lemma ExplicitEngineRunsFirst(cfg: Config, env: Env, policyEngine: Option<Engine>, mode: string)
    requires cfg.requestedEngine == RequestedEngine(EngineFor(policyEngine, mode))
    ensures EngineFor(policyEngine, mode) != Httpx ==>
              && LADDER[TierAt(cfg, env, 0)].engine == EngineFor(policyEngine, mode)
              && (forall t :: 0 <= t < TierAt(cfg, env, 0) ==> LADDER[t].engine != EngineFor(policyEngine, mode))
    ensures policyEngine.None? && mode == "stealth" ==> LADDER[TierAt(cfg, env, 0)].engine == CurlCffi
    ensures policyEngine.None? && mode == "browser" ==> LADDER[TierAt(cfg, env, 0)].engine == Playwright
    ensures policyEngine.None? && mode == "camoufox" ==> LADDER[TierAt(cfg, env, 0)].engine == Camoufox
    ensures policyEngine.Some? && policyEngine != Some(Httpx) ==>
              LADDER[TierAt(cfg, env, 0)].engine == policyEngine.value
    ensures Budget(cfg) > 0 ==> Attempted(cfg, env, 0) && !GateHit(cfg, TierAt(cfg, env, 0))
    ensures EngineFor(policyEngine, mode) == Httpx <==>
              policyEngine == Some(Httpx) || (policyEngine.None? && mode !in {"stealth", "browser", "camoufox"})
    ensures EngineFor(policyEngine, mode) == Httpx ==> TierAt(cfg, env, 0) <= Ceiling(cfg)
  {
  }

  /**
    One fetch job on an httpx policy. The overrides, the other policy columns, the environment and the detected vendor
    are arbitrary; `recorded` is false when the job fails before the learner or the learner skips the row.
   */
  datatype Job = Job(
    policy: Policy,
    hasManager: bool,
    hasStickyKey: bool,
    useProxy: Option<bool>,
    proxyType: Option<ProxyType>,
    country: Option<string>,
    city: Option<string>,
    env: Env,
    vendor: Option<string>,
    now: int,
    recorded: bool)

  function ConfigOf(premium: bool, row: PolicyRow, job: Job): Config {
    Config(Some(job.policy.(escalationTier := row.escalationTier, antibotType := row.antibotType)), premium,
           job.hasManager, job.hasStickyKey, job.useProxy, job.proxyType, job.country, job.city, RequestedEngine(Httpx))
  }

  /**
    A job starts from the row as it is: on the learned tier or the floor of the learned vendor, whichever is higher,
    within the ceiling. The overrides of its request decide the proxy of every tier.
   */
  lemma JobStartsFromRow(premium: bool, row: PolicyRow, job: Job, tier: nat)
    requires tier < |LADDER|
    ensures var cfg, floor := ConfigOf(premium, row, job), VendorFloor(row.antibotType);
            var start := TierAt(cfg, job.env, 0);
            && start <= EffectiveMaxTier(premium) == Ceiling(cfg)
            && ((start >= row.escalationTier && start >= floor) || start == EffectiveMaxTier(premium))
            && (start <= row.escalationTier || start <= floor)
            && (job.useProxy.Some? ==> (Proxied(cfg, tier) <==> job.useProxy.value && job.hasManager))
            && (job.proxyType.Some? ==> FilterAt(cfg, tier).kind == job.proxyType)
            && FilterAt(cfg, tier).country == job.country && FilterAt(cfg, tier).city == job.city
            && FilterAt(cfg, tier).pool == job.policy.proxyPool
  {
  }

  /** The job returns a result and the learner stores it. */
  predicate Stored(premium: bool, row: PolicyRow, job: Job) {
    var f := Final(ConfigOf(premium, row, job), job.env);
    job.recorded && f.Done? && f.exit.Returned?
  }

  function ResultFor(premium: bool, row: PolicyRow, job: Job): FetchResult
    requires Stored(premium, row, job)
  {
    Final(ConfigOf(premium, row, job), job.env).exit.result
  }

  predicate StoresSuccess(premium: bool, row: PolicyRow, job: Job) {
    Stored(premium, row, job) && !ResultFor(premium, row, job).blocked
  }

  function RunJob(premium: bool, row: PolicyRow, job: Job): PolicyRow {
    if Stored(premium, row, job) then
      var r := ResultFor(premium, row, job);
      Learn(row, Lesson(r.blocked, r.reason, r.tierUsed, job.vendor, job.now))
    else row
  }

  /**
    What else a stored job leaves in the row: the vendor seen, the block counter, and the last reason or success time.
   */
  lemma JobTeachesRow(premium: bool, row: PolicyRow, job: Job)
    ensures !Stored(premium, row, job) ==> RunJob(premium, row, job) == row
    ensures Stored(premium, row, job) ==>
              var r, after := ResultFor(premium, row, job), RunJob(premium, row, job);
              && after.antibotType == (if job.vendor.None? then row.antibotType else job.vendor)
              && (r.blocked ==> after.consecutiveBlocks == row.consecutiveBlocks + 1
                                && after.lastBlockReason == r.reason && after.lastSuccessAt == row.lastSuccessAt)
              && (!r.blocked ==> after.consecutiveBlocks == 0 && after.lastSuccessAt == Some(job.now)
                                 && after.lastBlockReason == row.lastBlockReason)
  {
    hide Final;
  }

  function RunJobs(premium: bool, row: PolicyRow, jobs: seq<Job>): PolicyRow {
    if jobs == [] then row else RunJob(premium, RunJobs(premium, row, jobs[..|jobs| - 1]), jobs[|jobs| - 1])
  }

  /** The number of jobs that raised the learned tier. */
  function Rises(premium: bool, row: PolicyRow, jobs: seq<Job>): nat {
    if jobs == [] then 0
    else
      var init := jobs[..|jobs| - 1];
      var mid := RunJobs(premium, row, init);
      Rises(premium, row, init)
      + (if RunJob(premium, mid, jobs[|jobs| - 1]).escalationTier > mid.escalationTier then 1 else 0)
  }

  function Successes(premium: bool, row: PolicyRow, jobs: seq<Job>): nat {
    if jobs == [] then 0
    else
      var init := jobs[..|jobs| - 1];
      Successes(premium, row, init)
      + (if StoresSuccess(premium, RunJobs(premium, row, init), jobs[|jobs| - 1]) then 1 else 0)
  }

  /**
    One job: at or below the ceiling the tier can only climb; above it a success steps down once and a block does
    nothing. A stored block teaches the higher of the tier it ended on and the row's; a stored success the higher of the
    tier it ran on and one below the row's.
   */
  lemma JobLaw(premium: bool, row: PolicyRow, job: Job)
    requires !row.tierLocked
    ensures var t, t', m := row.escalationTier, RunJob(premium, row, job).escalationTier, EffectiveMaxTier(premium);
            && !RunJob(premium, row, job).tierLocked
            && (t <= m ==> t <= t' <= m)
            && (t > m ==> t' == (if StoresSuccess(premium, row, job) then t - 1 else t))
            && (!Stored(premium, row, job) ==> t' == t)
            && (Stored(premium, row, job) && ResultFor(premium, row, job).blocked ==>
                  t' >= t && t' >= ResultFor(premium, row, job).tierUsed
                  && t' in {t, ResultFor(premium, row, job).tierUsed})
            && (StoresSuccess(premium, row, job) ==>
                  t' >= t - 1 && t' >= ResultFor(premium, row, job).tierUsed
                  && t' in {t - 1, ResultFor(premium, row, job).tierUsed})
  {
    hide Exec;
    if Stored(premium, row, job) {
      ReturnedTierInRange(ConfigOf(premium, row, job), job.env);
    }
  }

  /**
    Main result of the loop, for every sequence of jobs and whatever vendors are detected on the way: a learned tier at
    or below the ceiling M stays there, never falls and rises at most M - t times; one at or above M is exactly
    max(M, t - successes).
   */
  lemma {:induction false} LearnedTierConverges(premium: bool, row: PolicyRow, jobs: seq<Job>)
    requires !row.tierLocked
    ensures var t, t', m := row.escalationTier, RunJobs(premium, row, jobs).escalationTier, EffectiveMaxTier(premium);
            && !RunJobs(premium, row, jobs).tierLocked
            && (t <= m ==> t <= t' <= m && Rises(premium, row, jobs) <= t' - t)
            && (t >= m ==> t' == Max(m, t - Successes(premium, row, jobs)))
  {
    hide RunJob, StoresSuccess;
    if jobs != [] {
      var init := jobs[..|jobs| - 1];
      LearnedTierConverges(premium, row, init);
      JobLaw(premium, RunJobs(premium, row, init), jobs[|jobs| - 1]);
    }
  }

  /** The learned tier never falls between any two points of the sequence while it is at or below the ceiling. */
  lemma {:induction false} LearnedTierNeverFalls(premium: bool, row: PolicyRow, jobs: seq<Job>, i: nat)
    requires !row.tierLocked && row.escalationTier <= EffectiveMaxTier(premium) && i <= |jobs|
    ensures RunJobs(premium, row, jobs[..i]).escalationTier <= RunJobs(premium, row, jobs).escalationTier
    decreases |jobs|
  {
    hide RunJob;
    if i == |jobs| {
      assert jobs[..i] == jobs;
    } else {
      var init := jobs[..|jobs| - 1];
      LearnedTierNeverFalls(premium, row, init, i);
      assert init[..i] == jobs[..i];
      LearnedTierConverges(premium, row, init);
      JobLaw(premium, RunJobs(premium, row, init), jobs[|jobs| - 1]);
    }
  }
}
