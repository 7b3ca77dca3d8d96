/** Runs that the code can really make, for the results that differ from what the source documents. */
module Witnesses {
  import opened Common
  import opened Escalation
  import opened ProxySelection
  import opened RetryMachine
  import opened RetryTheorems
  import opened AllBlockedRun
  import opened LadderBreaker
  import opened PolicyLearner
  import opened LearningLoop
  import J = OverlappingJobs

  const NO_POLICY_CHOICES := Policy(None, None, None, None, None, 0, None)

  // ---------- all-blocked runs of every size ----------

  /** A caller that forces datacenter proxies on a policy with learned tier `s`, per-tier cap `a` and budget `b`. */
  function ForcedConfig(premium: bool, s: nat, a: nat, b: nat): Config {
    Config(Some(NO_POLICY_CHOICES.(maxEscalationAttempts := Some(b), maxRetries := Some(a), escalationTier := s)),
           premium, true, false, Some(true), Some(Datacenter), None, None, None)
  }

  /** Every fetch meets a Cloudflare challenge, and the pool has one datacenter proxy per attempt. */
  function Challenged(b: nat): Env {
    (n: nat) => Event(View(TightPool(b), 0, false, None, 0), Blocked(Some("cloudflare")), false)
  }

  /** A run excludes at most one proxy per attempt. */
  lemma {:induction false} ExclusionsBounded(cfg: Config, env: Env, n: nat)
    requires Exec(cfg, env, n).Running?
    ensures |Exec(cfg, env, n).state.failed| <= n
  {
    hide Iterate, ProxyFor, Exec;
    if n > 0 {
      PrefixRuns(cfg, env, n - 1);
      ExclusionsBounded(cfg, env, n - 1);
      AttemptLaw(cfg, env, n - 1);
    } else {
      StartsClean(cfg, env);
    }
  }

  lemma StartsClean(cfg: Config, env: Env)
    ensures Exec(cfg, env, 0).state.failed == {}
  {
  }

  lemma PrefixRuns(cfg: Config, env: Env, n: nat)
    requires Exec(cfg, env, n + 1).Running?
    ensures Attempted(cfg, env, n)
  {
    hide Iterate;
    CountsPasses(cfg, env, n);
  }

  lemma ChallengedIsAllBlocked(premium: bool, s: nat, a: nat, b: nat)
    requires b >= 1
    ensures AllBlocked(ForcedConfig(premium, s, a, b), Challenged(b))
  {
    hide Exec, Pick;
    var cfg, env := ForcedConfig(premium, s, a, b), Challenged(b);
    EscalatesIff("cloudflare");
    forall n: nat | Attempted(cfg, env, n) ensures ProxyAt(cfg, env, n).Some? {
      ExclusionsBounded(cfg, env, n);
      AttemptLaw(cfg, env, n);
      TightPoolHasRoom(b, Exec(cfg, env, n).state.failed, FilterAt(cfg, TierAt(cfg, env, n)));
    }
  }

  /**
    Every case of the closed form occurs: for every start tier, per-tier cap and budget there is a run it describes.
    When the cap divides the budget and the ladder is not exhausted, that run raises the bare trailing error while it
    holds the blocked result of its last attempt.
   */
  lemma EveryCourseOccurs(premium: bool, s: nat, a: nat, b: nat) returns (cfg: Config, env: Env)
    requires s <= EffectiveMaxTier(premium) && a >= 1 && b >= 1
    ensures StartTier(cfg) == s && PerTier(cfg) == a && Budget(cfg) == b && Top(cfg) == EffectiveMaxTier(premium)
    ensures AllBlocked(cfg, env) && UniformCost(cfg)
    ensures var n := a * (EffectiveMaxTier(premium) - s + 1);
            && Course(cfg, env, s, a, b, EffectiveMaxTier(premium), n)
            && (b < n && b % a == 0 ==>
                  var f := Final(cfg, env);
                  && f.Done? && f.exit == TrailingRaise(None)
                  && f.state.lastResult.Some? && f.state.lastResult.value.blocked
                  && f.state.lastResult.value.tierUsed == s + (b - 1) / a)
  {
    hide Exec, Final, AllBlocked, ReturnsBlocked;
    cfg, env := ForcedConfig(premium, s, a, b), Challenged(b);
    ChallengedIsAllBlocked(premium, s, a, b);
    ClosedForm(cfg, env);
    HowRunsEnd(cfg, env);
  }

  /**
    Under use_proxy=False, where the documentation promises tier 0, a blocked run visits every rung up to the ceiling.
   */
  lemma ForcedDirectReachesEveryRung(premium: bool, k: nat) returns (cfg: Config, env: Env)
    requires k <= EffectiveMaxTier(premium)
    ensures cfg.useProxy == Some(false) && cfg.policy.None? && cfg.enablePremium == premium
    ensures Attempted(cfg, env, k) && TierAt(cfg, env, k) == k
  {
    hide Exec;
    cfg := Config(None, premium, true, false, Some(false), None, None, None, None);
    env := Challenged(0);
    EscalatesIff("cloudflare");
    ForcedDirectClimbs(cfg, env, k);
  }

  // ---------- a success that raises the learned tier ----------

  /** The direct fetch is IP-banned; the next one, through the only proxy, succeeds. */
  function BannedOnce(): Env {
    (n: nat) =>
      Event(View(TightPool(1), 0, false, None, 0), if n == 0 then Blocked(Some("ip_ban")) else Succeeded, false)
  }

  function LearningJob(): Job {
    Job(NO_POLICY_CHOICES, true, true, None, None, None, None, BannedOnce(), None, 0, true)
  }

  /** The first attempt is direct and its block leaves rung 0. */
  lemma FirstBanBumps(cfg: Config, ev: Event, s: State)
    requires cfg == LearningConfig() && s == Init(cfg) && ev.outcome == Blocked(Some("ip_ban"))
    ensures var r := Iterate(cfg, ev, s);
            r.Running? && r.state.tier == 1 && r.state.failed == {} && r.state.attempts == 1
  {
    EscalatesIff("ip_ban");
    CeilingSeparatesPremium(1);
  }

  /** The second attempt goes through the pool's proxy and succeeds. */
  lemma SecondTrySucceeds(cfg: Config, ev: Event, s: State)
    requires cfg == LearningConfig() && s.tier == 1 && s.failed == {} && s.attempts == 1
    requires ev == Event(View(TightPool(1), 0, false, None, 0), Succeeded, false)
    ensures var r := Iterate(cfg, ev, s);
            r.Done? && r.exit.Returned? && !r.exit.result.blocked && r.exit.result.tierUsed == 1
  {
    hide Pick, TightPool;
    CeilingSeparatesPremium(1);
    TightPoolHasRoom(1, {}, FilterAt(cfg, 1));
  }

  function LearningConfig(): Config {
    Config(Some(NO_POLICY_CHOICES), false, true, true, None, None, None, None, None)
  }

  lemma BannedOnceReturns(cfg: Config)
    requires cfg == LearningConfig()
    ensures var f := Final(cfg, BannedOnce());
            f.Done? && f.exit.Returned? && !f.exit.result.blocked && f.exit.result.tierUsed == 1
  {
    hide Iterate, TightPool;
    var env := BannedOnce();
    FirstBanBumps(cfg, env(0), Init(cfg));
    assert Exec(cfg, env, 0) == Running(Init(cfg));
    assert Exec(cfg, env, 1) == Iterate(cfg, env(0), Init(cfg));
    SecondTrySucceeds(cfg, env(1), Exec(cfg, env, 1).state);
    assert Exec(cfg, env, 2).Done?;
    DoneIsFinal(cfg, env, 2, 13);
  }

  /** A job on a fresh policy whose success raises the learned tier from 0 to 1. */
  lemma SuccessfulJobRaisesTier() returns (row: PolicyRow, job: Job)
    ensures !row.tierLocked && row.escalationTier == 0
    ensures StoresSuccess(false, row, job) && RunJob(false, row, job).escalationTier == 1
  {
    hide Exec, Final;
    row, job := NEW_POLICY, LearningJob();
    BannedOnceReturns(ConfigOf(false, row, job));
  }

  // ---------- overlapping jobs that lower the learned tier ----------

  /** The first `n` fetches are IP-banned and the next one succeeds. */
  function BannedFor(k: nat): Env {
    (n: nat) => Event(Unreadable, if n < k then Blocked(Some("ip_ban")) else Succeeded, false)
  }

  /** A direct job that succeeds on rung `k`. */
  function DirectJob(k: nat): Job {
    Job(NO_POLICY_CHOICES, true, true, Some(false), None, None, None, BannedFor(k), None, 0, true)
  }

  const NEW_POLICY := PolicyRow(0, false, None, 0, None, None)

  /** Before rung `k` is reached, attempt `n` runs on rung `n`. */
  lemma {:induction false} DirectJobClimbs(cfg: Config, k: nat, n: nat)
    requires cfg == ConfigOf(false, NEW_POLICY, DirectJob(k)) && n <= k <= EffectiveMaxTier(false)
    ensures Attempted(cfg, BannedFor(k), n) && TierAt(cfg, BannedFor(k), n) == n
  {
    hide Iterate;
    if n > 0 {
      DirectJobClimbs(cfg, k, n - 1);
      ForcedDirectLeavesIff(cfg, BannedFor(k), n - 1);
    }
  }

  lemma DirectJobTeaches(k: nat)
    requires k <= EffectiveMaxTier(false)
    ensures J.LessonOf(false, NEW_POLICY, DirectJob(k)) == Some(Lesson(false, None, k, None, 0))
  {
    hide Exec, Iterate;
    var cfg, env := ConfigOf(false, NEW_POLICY, DirectJob(k)), BannedFor(k);
    DirectJobClimbs(cfg, k, k);
    AttemptLaw(cfg, env, k);
    DirectSuccessReturns(cfg, env(k), Exec(cfg, env, k).state);
    DoneIsFinal(cfg, env, k + 1, 13);
  }

  lemma DirectSuccessReturns(cfg: Config, ev: Event, s: State)
    requires cfg.useProxy == Some(false) && s.tier < |LADDER| && !GateHit(cfg, s.tier) && ev.outcome == Succeeded
    ensures var r := Iterate(cfg, ev, s);
            r.Done? && r.exit.Returned? && !r.exit.result.blocked && r.exit.result.reason == None
            && r.exit.result.tierUsed == s.tier
  {
  }

  /**
    Two jobs that both read tier 0: the one that succeeds on rung 2 ends first, the other then lowers the tier to 1.
   */
  lemma OverlapLowersTier() returns (steps: seq<J.Step>)
    ensures NEW_POLICY.escalationTier == 0 && !NEW_POLICY.tierLocked && |steps| == 4
    ensures J.Run(false, NEW_POLICY, steps[..3]).row.escalationTier == 2
    ensures J.Run(false, NEW_POLICY, steps).row.escalationTier == 1
  {
    hide Exec, Final, J.LessonOf;
    CeilingSeparatesPremium(2);
    DirectJobTeaches(0);
    DirectJobTeaches(2);
    var a, b := J.Begin(1, DirectJob(0)), J.Begin(2, DirectJob(2));
    steps := [a, b, J.Finish(2), J.Finish(1)];
    assert steps[..3] == [a, b, J.Finish(2)] && steps[..3][..2] == [a, b] && [a, b][..1] == [a] && [a][..0] == [];
    assert J.Run(false, NEW_POLICY, [a]).row == NEW_POLICY;
    assert J.Run(false, NEW_POLICY, [a, b]).row == NEW_POLICY;
  }
}
