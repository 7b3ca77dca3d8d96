/** The exact course of a run in which every attempt is blocked for an escalatable reason. */
module AllBlockedRun {
  import opened Common
  import opened Escalation
  import opened ProxySelection
  import opened RetryMachine
  import opened RetryTheorems

  /** Every attempt is blocked, every block is escalatable, reporting works and the pool never runs dry. */
  ghost predicate AllBlocked(cfg: Config, env: Env) {
    forall n: nat :: Attempted(cfg, env, n) ==>
      && env(n).outcome.Blocked? && IsEscalatable(env(n).outcome.reason) && !env(n).reportFails
      && (Proxied(cfg, TierAt(cfg, env, n)) ==> ProxyAt(cfg, env, n).Some?)
  }

  /** How many blocks a tier absorbs: the per-tier cap, or one on a direct rung the caller did not force a proxy on. */
  function VisitCost(cfg: Config, tier: nat): (c: nat)
    requires tier < |LADDER|
    ensures c >= 1
  {
    if Proxied(cfg, tier) || cfg.useProxy == Some(true) then PerTier(cfg) else 1
  }

  /** The highest tier the run can reach. */
  function Top(cfg: Config): (t: nat)
    ensures StartTier(cfg) <= t < |LADDER|
  {
    Max(StartTier(cfg), Ceiling(cfg))
  }

  /** The number of attempts spent below `tier`. */
  function Before(cfg: Config, tier: nat): (n: nat)
    requires StartTier(cfg) <= tier <= |LADDER|
    ensures tier > StartTier(cfg) ==> n >= 1
  {
    if tier == StartTier(cfg) then 0 else Before(cfg, tier - 1) + VisitCost(cfg, tier - 1)
  }

  /** One blocked attempt: climb when the visit is spent, otherwise retry; return at the top or out of budget. */
  lemma BlockedStep(cfg: Config, ev: Event, s: State)
    requires Inv(cfg, s) && s.attempts < Budget(cfg)
    requires ev.outcome.Blocked? && IsEscalatable(ev.outcome.reason) && !ev.reportFails
    requires Proxied(cfg, s.tier) ==> ProxyFor(cfg, ev, s).Some?
    requires s.attemptsAtTier < VisitCost(cfg, s.tier)
    ensures var r, spent := Iterate(cfg, ev, s), s.attemptsAtTier + 1 == VisitCost(cfg, s.tier);
            if (if spent then s.tier + 1 <= Ceiling(cfg) else s.attempts + 1 < Budget(cfg)) then
              && r.Running? && r.state.lastError == s.lastError
              && r.state.tier == (if spent then s.tier + 1 else s.tier)
              && r.state.attemptsAtTier == (if spent then 0 else s.attemptsAtTier + 1)
            else
              r.Done? && r.exit.Returned?
  {
    hide Pick;
  }

  /** Attempt `k` runs at the tier whose share of the budget contains `k`. */
  lemma {:induction false} ClimbAt(cfg: Config, env: Env, k: nat, t: nat)
    requires AllBlocked(cfg, env)
    requires StartTier(cfg) <= t <= Top(cfg)
    requires Before(cfg, t) <= k < Before(cfg, t + 1)
    requires k < Budget(cfg) || (k == Budget(cfg) && k == Before(cfg, t))
    ensures Exec(cfg, env, k).Running? && Exec(cfg, env, k).state.lastError.None?
    ensures TierAt(cfg, env, k) == t && (k < Budget(cfg) ==> Attempted(cfg, env, k))
    ensures Exec(cfg, env, k).state.attemptsAtTier == k - Before(cfg, t)
  {
    hide Iterate;
    if k == 0 {
      assert t == StartTier(cfg);
    } else {
      var u := if k > Before(cfg, t) then t else t - 1;
      ClimbAt(cfg, env, k - 1, u);
      AttemptLaw(cfg, env, k - 1);
      BlockedStep(cfg, env(k - 1), Exec(cfg, env, k - 1).state);
    }
  }

  /** The run returns its own blocked result, produced at `tier` by attempt number `attempts`. */
  ghost predicate ReturnsBlocked(cfg: Config, env: Env, tier: nat, attempts: nat) {
    var f := Final(cfg, env);
    && f.Done? && f.exit.Returned? && f.exit.result.blocked
    && f.exit.result.tierUsed == tier && f.state.attempts == attempts
  }

  lemma EndsAt(cfg: Config, env: Env, k: nat, t: nat)
    requires AllBlocked(cfg, env)
    requires StartTier(cfg) <= t <= Top(cfg)
    requires Before(cfg, t) <= k < Before(cfg, t + 1) && k < Budget(cfg)
    requires k + 1 == Before(cfg, t + 1) ==> t == Top(cfg)
    requires k + 1 != Before(cfg, t + 1) ==> k + 1 == Budget(cfg)
    ensures ReturnsBlocked(cfg, env, t, k + 1)
  {
    hide Iterate;
    ClimbAt(cfg, env, k, t);
    AttemptLaw(cfg, env, k);
    BlockedStep(cfg, env(k), Exec(cfg, env, k).state);
    DoneIsFinal(cfg, env, k + 1, Max(0, Budget(cfg)) + 1);
  }

  /** The budget is spent on tier `t`, or reaches beyond the top and `t` is the top. */
  ghost predicate SpentOn(cfg: Config, t: nat) {
    && StartTier(cfg) <= t <= Top(cfg)
    && Before(cfg, t) < Budget(cfg) && (t == Top(cfg) || Budget(cfg) <= Before(cfg, t + 1))
  }

  lemma {:induction false} FindTier(cfg: Config, from: nat) returns (t: nat)
    requires StartTier(cfg) <= from <= Top(cfg) && Before(cfg, from) < Budget(cfg)
    ensures SpentOn(cfg, t)
    decreases Top(cfg) - from
  {
    if from == Top(cfg) || Budget(cfg) <= Before(cfg, from + 1) {
      t := from;
    } else {
      t := FindTier(cfg, from + 1);
    }
  }

  /** How an all-blocked run ends whose budget is spent on tier `t`. */
  ghost predicate Ending(cfg: Config, env: Env, t: nat)
    requires StartTier(cfg) <= t < |LADDER| && Budget(cfg) > 0
  {
    var b, n := Budget(cfg), Before(cfg, Top(cfg) + 1);
    if b >= n then ReturnsBlocked(cfg, env, Top(cfg), n)
    else if b == Before(cfg, t + 1) then
      Final(cfg, env).Done? && Final(cfg, env).exit == TrailingRaise(None) && Final(cfg, env).state.attempts == b
    else ReturnsBlocked(cfg, env, t, b)
  }

  lemma EndsOn(cfg: Config, env: Env, t: nat)
    requires AllBlocked(cfg, env) && Budget(cfg) > 0 && SpentOn(cfg, t)
    ensures Ending(cfg, env, t)
  {
    hide Iterate;
    var b, n := Budget(cfg), Before(cfg, Top(cfg) + 1);
    if b >= n {
      EndsAt(cfg, env, n - 1, Top(cfg));
    } else if b == Before(cfg, t + 1) {
      ClimbAt(cfg, env, b, t + 1);
      CountsPasses(cfg, env, b);
    } else {
      EndsAt(cfg, env, b - 1, t);
    }
  }

  /**
    Main result for all-blocked runs, for every positive budget. There is a tier `t` on which the budget is spent (or
    the top). The run returns at the top once every visit is spent, raises the bare trailing error when the budget
    runs out exactly at a tier change, and otherwise returns the blocked result of the attempt that spent the budget.
   */
  lemma AllBlockedRunEnds(cfg: Config, env: Env) returns (t: nat)
    requires AllBlocked(cfg, env) && Budget(cfg) > 0
    ensures SpentOn(cfg, t) && Ending(cfg, env, t)
  {
    hide Exec, Final;
    t := FindTier(cfg, StartTier(cfg));
    EndsOn(cfg, env, t);
  }

  // ---------- the closed form when every visited tier is proxied ----------

  ghost predicate UniformCost(cfg: Config) {
    forall t :: StartTier(cfg) <= t <= Top(cfg) ==> VisitCost(cfg, t) == PerTier(cfg)
  }

  lemma {:induction false} BeforeIsLinear(cfg: Config, d: nat)
    requires UniformCost(cfg)
    requires StartTier(cfg) + d <= Top(cfg) + 1
    ensures Before(cfg, StartTier(cfg) + d) == PerTier(cfg) * d
  {
    if d > 0 {
      BeforeIsLinear(cfg, d - 1);
      assert PerTier(cfg) * d == PerTier(cfg) * (d - 1) + PerTier(cfg);
    }
  }

  lemma ProductGrows(a: nat, d: int)
    ensures d >= 1 ==> a * d >= a
    ensures d <= -1 ==> a * d + a <= 0
  {
    if d >= 1 {
      assert a * (d - 1) >= 0;
    } else if d <= -1 {
      assert a * (-d - 1) >= 0;
    }
  }

  lemma RemainderIsUnique(k: nat, a: nat, q: nat, r: nat)
    requires a >= 1 && k == a * q + r && r < a
    ensures k % a == r && k / a == q
  {
    var d := k / a - q;
    assert k == a * (k / a) + k % a;
    assert a * d == r - k % a;
    ProductGrows(a, d);
  }

  lemma QuotientFits(k: nat, a: nat, q: nat, w: nat)
    requires a >= 1 && a * q <= k < a * w
    ensures q < w
  {
    ProductGrows(a, q - w + 1);
    assert a * (q - w + 1) == a * q - a * w + a;
  }

  lemma NextIsMultiple(k: nat, a: nat, q: nat, r: nat)
    requires a >= 1 && k == a * q + r && r < a
    ensures (k + 1) % a == 0 <==> r + 1 == a
  {
    if r + 1 == a {
      assert a * (q + 1) == a * q + a;
      RemainderIsUnique(k + 1, a, q + 1, 0);
    } else {
      RemainderIsUnique(k + 1, a, q, r + 1);
    }
  }

  lemma QuotientBounds(k: nat, a: nat, w: nat) returns (q: nat)
    requires a >= 1 && k < a * w
    ensures q == k / a && q < w
    ensures a * q <= k < a * (q + 1)
    ensures (k + 1) % a == 0 <==> k + 1 == a * (q + 1)
  {
    q := k / a;
    var r := k % a;
    assert k == a * q + r;
    assert a * (q + 1) == a * q + a;
    QuotientFits(k, a, q, w);
    NextIsMultiple(k, a, q, r);
  }

  /** The tier of each attempt, in closed form. */
  lemma ClosedFormTier(cfg: Config, env: Env, k: nat)
    requires AllBlocked(cfg, env) && UniformCost(cfg)
    requires k < Budget(cfg) && k < PerTier(cfg) * (Top(cfg) - StartTier(cfg) + 1)
    ensures Attempted(cfg, env, k) && TierAt(cfg, env, k) == StartTier(cfg) + k / PerTier(cfg)
  {
    hide *;
    var a := PerTier(cfg);
    var q := QuotientBounds(k, a, Top(cfg) - StartTier(cfg) + 1);
    BeforeIsLinear(cfg, q);
    BeforeIsLinear(cfg, q + 1);
    ClimbAt(cfg, env, k, StartTier(cfg) + q);
  }

  /**
    The course of a run with start tier `s`, per-tier cap `a`, budget `b` and top `top`, where `n` attempts exhaust
    the ladder.
   */
  ghost predicate Course(cfg: Config, env: Env, s: nat, a: nat, b: nat, top: nat, n: nat)
    requires a >= 1 && b >= 1
  {
    && (forall k: nat :: k < b && k < n ==> Attempted(cfg, env, k) && TierAt(cfg, env, k) == s + k / a)
    && if b >= n then ReturnsBlocked(cfg, env, top, n)
       else if b % a == 0 then
         Final(cfg, env).Done? && Final(cfg, env).exit == TrailingRaise(None) && Final(cfg, env).state.attempts == b
       else ReturnsBlocked(cfg, env, s + (b - 1) / a, b)
  }

  /**
    Closed form. With start tier s, per-tier cap A, reachable top M and N = A * (M - s + 1), attempt n (from 0) runs at
    tier s + n / A; the run returns at tier M after N attempts if the budget B allows it, otherwise it ends in the
    trailing error if A divides B and returns at tier s + (B - 1) / A after B attempts if not.
   */
  lemma ClosedForm(cfg: Config, env: Env)
    requires AllBlocked(cfg, env) && UniformCost(cfg) && Budget(cfg) > 0
    ensures Course(cfg, env, StartTier(cfg), PerTier(cfg), Budget(cfg), Top(cfg),
                   PerTier(cfg) * (Top(cfg) - StartTier(cfg) + 1))
  {
    hide Exec, Final, PerTier, StartTier, Top, Budget, Before;
    hide AllBlocked, UniformCost, ReturnsBlocked, Attempted, TierAt;
    var a, b, w := PerTier(cfg), Budget(cfg), Top(cfg) - StartTier(cfg) + 1;
    BeforeIsLinear(cfg, w);
    forall k: nat | k < b && k < a * w ensures Attempted(cfg, env, k) && TierAt(cfg, env, k) == StartTier(cfg) + k / a {
      ClosedFormTier(cfg, env, k);
    }
    if b >= a * w {
      BeforeIsLinear(cfg, w - 1);
      assert a * (w - 1) + a == a * w;
      EndsOn(cfg, env, Top(cfg));
    } else {
      var q := QuotientBounds(b - 1, a, w);
      BeforeIsLinear(cfg, q);
      BeforeIsLinear(cfg, q + 1);
      EndsOn(cfg, env, StartTier(cfg) + q);
    }
  }

  /**
    Forcing use_proxy=False does not pin tier 0: an all-blocked direct run spends one attempt per rung and climbs to
    the ceiling (or to the budget).
   */
  lemma ForcedDirectClimbs(cfg: Config, env: Env, k: nat)
    requires AllBlocked(cfg, env)
    requires cfg.useProxy == Some(false)
    requires StartTier(cfg) + k <= Top(cfg) && k < Budget(cfg)
    ensures Attempted(cfg, env, k) && TierAt(cfg, env, k) == StartTier(cfg) + k
  {
    hide Exec;
    DirectCostIsOne(cfg, StartTier(cfg) + k);
    ClimbAt(cfg, env, k, StartTier(cfg) + k);
  }

  lemma {:induction false} DirectCostIsOne(cfg: Config, t: nat)
    requires cfg.useProxy == Some(false) && StartTier(cfg) <= t <= |LADDER|
    ensures Before(cfg, t) == t - StartTier(cfg)
  {
    if t > StartTier(cfg) { DirectCostIsOne(cfg, t - 1); }
  }
}
