/**
  Proxy health accounting (app/services/proxy_health.py). `record_failure` reads consecutive_failures in one statement
  and writes it back in another, so reports of different workers may interleave between the two.
 */
module ProxyHealth {
  import opened Common

  const HEALTH_DECAY: real := 0.15
  const HEALTH_RECOVER: real := 0.05
  const COOLDOWN_BASE_S: nat := 60
  const COOLDOWN_MAX_S: nat := 3600

  datatype Row = Row(
    health: real, consecutiveFailures: nat, cooldownUntil: Option<int>, totalRequests: nat, totalErrors: nat)

  const NEW_ROW: Row := Row(1.0, 0, None, 0, 0)

  function Pow2(n: nat): (p: nat)
    ensures p >= 1
  {
    if n == 0 then 1 else 2 * Pow2(n - 1)
  }

  function Cooldown(failures: nat): (s: nat)
    requires failures >= 1
    ensures COOLDOWN_BASE_S <= s <= COOLDOWN_MAX_S
  {
    Min(COOLDOWN_BASE_S * Pow2(failures - 1), COOLDOWN_MAX_S)
  }

  function AfterSuccess(r: Row): Row {
    var raised := r.health + HEALTH_RECOVER;
    Row(if raised > 1.0 then 1.0 else raised, 0, None, r.totalRequests + 1, r.totalErrors)
  }

  /** The UPDATE of `record_failure` with the failure count computed from the earlier SELECT. */
  function AfterFailure(r: Row, newFailures: nat, now: int): Row
    requires newFailures >= 1
  {
    var lowered := r.health - HEALTH_DECAY;
    Row(if lowered < 0.0 then 0.0 else lowered, newFailures, Some(now + Cooldown(newFailures)),
        r.totalRequests + 1, r.totalErrors + 1)
  }

  /** The row in the table, updated in place by the two reports. */
  class ProxyRow {
    var health: real
    var consecutiveFailures: nat
    var cooldownUntil: Option<int>
    var totalRequests: nat
    var totalErrors: nat

    constructor ()
      ensures Value() == NEW_ROW
    {
      health, consecutiveFailures, cooldownUntil, totalRequests, totalErrors := 1.0, 0, None, 0, 0;
    }

    ghost function Value(): Row
      reads this
    {
      Row(health, consecutiveFailures, cooldownUntil, totalRequests, totalErrors)
    }

    method RecordSuccess()
      modifies this
      ensures Value() == AfterSuccess(old(Value()))
    {
      health := if health + HEALTH_RECOVER > 1.0 then 1.0 else health + HEALTH_RECOVER;
      consecutiveFailures, cooldownUntil := 0, None;
      totalRequests := totalRequests + 1;
    }

    /** The SELECT half of a failure report. */
    method ReadFailures() returns (newFailures: nat)
      ensures newFailures == Value().consecutiveFailures + 1
    {
      newFailures := consecutiveFailures + 1;
    }

    /** The UPDATE half of a failure report. */
    method WriteFailure(newFailures: nat, now: int)
      requires newFailures >= 1
      modifies this
      ensures Value() == AfterFailure(old(Value()), newFailures, now)
    {
      var seconds := Min(COOLDOWN_BASE_S * Pow2(newFailures - 1), COOLDOWN_MAX_S);
      health := if health - HEALTH_DECAY < 0.0 then 0.0 else health - HEALTH_DECAY;
      consecutiveFailures, cooldownUntil := newFailures, Some(now + seconds);
      totalErrors, totalRequests := totalErrors + 1, totalRequests + 1;
    }
  }

  // ---------- interleaved reports ----------

  /** `pending` holds, per worker, the count a failure report has read and not yet written. */
  datatype System = System(row: Row, pending: map<nat, nat>)

  datatype Step =
    | Success
    | FailRead(worker: nat)
    | FailWrite(worker: nat, now: int)

  /** A write happens only after its worker's read. */
  predicate Enabled(s: System, step: Step) {
    step.FailWrite? ==> step.worker in s.pending && s.pending[step.worker] >= 1
  }

  function Apply(s: System, step: Step): System
    requires Enabled(s, step)
  {
    match step
    case Success => s.(row := AfterSuccess(s.row))
    case FailRead(w) => s.(pending := s.pending[w := s.row.consecutiveFailures + 1])
    case FailWrite(w, now) => System(AfterFailure(s.row, s.pending[w], now), s.pending - {w})
  }

  /** Runs a schedule; a step that is not enabled does nothing. */
  function Run(steps: seq<Step>): System {
    if steps == [] then System(NEW_ROW, map[])
    else
      var s, last := Run(steps[..|steps| - 1]), steps[|steps| - 1];
      if Enabled(s, last) then Apply(s, last) else s
  }

  function SuccessCount(steps: seq<Step>): nat {
    if steps == [] then 0 else SuccessCount(steps[..|steps| - 1]) + (if steps[|steps| - 1].Success? then 1 else 0)
  }

  ghost predicate Accounted(s: System) {
    && 0.0 <= s.row.health <= 1.0
    && s.row.consecutiveFailures <= s.row.totalErrors
    && (forall w :: w in s.pending ==> 1 <= s.pending[w] <= s.row.totalErrors + 1)
    && (s.row.cooldownUntil.None? <==> s.row.consecutiveFailures == 0)
  }

  /**
    Under every interleaving of reports from a new row: requests minus errors is the number of successes, health stays
    in [0, 1], consecutive failures never exceed errors, and the row is cooling down iff its failure count is
    positive.
   */
  lemma {:induction false} AccountingSurvivesInterleaving(steps: seq<Step>)
    ensures var s := Run(steps);
            Accounted(s) && s.row.totalRequests - s.row.totalErrors == SuccessCount(steps)
  {
    if steps != [] { AccountingSurvivesInterleaving(steps[..|steps| - 1]); }
  }

  /** Every cooldown written in any run lies between one minute and one hour after its write. */
  lemma CooldownIsBounded(steps: seq<Step>, w: nat, now: int)
    requires Enabled(Run(steps), FailWrite(w, now))
    ensures var until := Apply(Run(steps), FailWrite(w, now)).row.cooldownUntil;
            until.Some? && now + COOLDOWN_BASE_S <= until.value <= now + COOLDOWN_MAX_S
  {
  }

  // ---------- reports that do not overlap ----------

  datatype Report = Ok | Fail(now: int)

  function Sequential(r: Row, reports: seq<Report>): Row {
    if reports == [] then r
    else
      var before := Sequential(r, reports[..|reports| - 1]);
      match reports[|reports| - 1]
      case Ok => AfterSuccess(before)
      case Fail(now) => AfterFailure(before, before.consecutiveFailures + 1, now)
  }

  /** The schedule in which each report runs alone, its read and its write back to back. */
  function Serialised(reports: seq<Report>): seq<Step> {
    if reports == [] then []
    else
      Serialised(reports[..|reports| - 1])
      + (match reports[|reports| - 1] case Ok => [Success] case Fail(now) => [FailRead(0), FailWrite(0, now)])
  }

  lemma RunOne(steps: seq<Step>, step: Step)
    ensures Run(steps + [step]) == if Enabled(Run(steps), step) then Apply(Run(steps), step) else Run(steps)
  {
    assert (steps + [step])[..|steps + [step]| - 1] == steps;
  }

  lemma RunNothing()
    ensures Run([]) == System(NEW_ROW, map[])
  {
  }

  /** Serialised reports compute the sequential reference. */
  lemma {:induction false} SerialisedIsSequential(reports: seq<Report>)
    ensures Run(Serialised(reports)) == System(Sequential(NEW_ROW, reports), map[])
  {
    hide AfterSuccess, AfterFailure, Run;
    assert Run([]) == System(NEW_ROW, map[]) by { RunNothing(); }
    if reports != [] {
      var before := Serialised(reports[..|reports| - 1]);
      SerialisedIsSequential(reports[..|reports| - 1]);
      match reports[|reports| - 1] {
        case Ok =>
          RunOne(before, Success);
        case Fail(now) =>
          RunOne(before, FailRead(0));
          RunOne(before + [FailRead(0)], FailWrite(0, now));
          assert before + [FailRead(0), FailWrite(0, now)] == before + [FailRead(0)] + [FailWrite(0, now)];
          assert forall n: nat :: map[0 := n] - {0} == map[];
      }
    }
  }

  /** `k` failures in a row after a healthy point: the exact counter, cooldown and health. */
  lemma {:induction false} BackoffIsExponential(r: Row, fails: seq<Report>)
    requires r.consecutiveFailures == 0 && r.health >= 0.0
    requires fails != [] && forall i :: 0 <= i < |fails| ==> fails[i].Fail?
    ensures var k, after := |fails|, Sequential(r, fails);
            && after.consecutiveFailures == k
            && after.cooldownUntil == Some(fails[k - 1].now + Min(60 * Pow2(k - 1), 3600))
            && after.health == (if r.health - 0.15 * k as real < 0.0 then 0.0 else r.health - 0.15 * k as real)
  {
    if |fails| > 1 {
      BackoffIsExponential(r, fails[..|fails| - 1]);
    } else {
      assert fails[..0] == [];
    }
  }

  /**
    `k` successes in a row: the failure state is cleared at once, health climbs by 0.05 each up to 1, and only
    requests grow.
   */
  lemma {:induction false} RecoveryIsLinear(r: Row, oks: seq<Report>)
    requires r.health <= 1.0 && oks != [] && forall i :: 0 <= i < |oks| ==> oks[i].Ok?
    ensures var k, after := |oks|, Sequential(r, oks);
            && after.consecutiveFailures == 0 && after.cooldownUntil.None?
            && after.health == (if r.health + 0.05 * k as real > 1.0 then 1.0 else r.health + 0.05 * k as real)
            && after.totalErrors == r.totalErrors && after.totalRequests == r.totalRequests + k
  {
    if |oks| > 1 {
      RecoveryIsLinear(r, oks[..|oks| - 1]);
    } else {
      assert oks[..0] == [];
    }
  }

  /** The failure counter of the sequential reference is the length of the trailing run of failures. */
  lemma {:induction false} CounterIsStreak(reports: seq<Report>)
    ensures var k := Sequential(NEW_ROW, reports).consecutiveFailures;
            && k <= |reports|
            && (forall i :: |reports| - k <= i < |reports| ==> reports[i].Fail?)
            && (k < |reports| ==> reports[|reports| - k - 1].Ok?)
  {
    if reports != [] {
      var init := reports[..|reports| - 1];
      CounterIsStreak(init);
      var k := Sequential(NEW_ROW, init).consecutiveFailures;
      assert k < |init| ==> init[|init| - k - 1] == reports[|init| - k - 1];
    }
  }

  // ---------- when the counter is the streak, over every schedule ----------

  /** Worker `w` has read for a failure report it has not written yet. */
  predicate HasRead(steps: seq<Step>, w: nat) {
    steps != [] &&
    var last := steps[|steps| - 1];
    last == FailRead(w) || (!(last.FailWrite? && last.worker == w) && HasRead(steps[..|steps| - 1], w))
  }

  /** The number of failure reports completed since the last success. */
  function Streak(steps: seq<Step>): nat {
    if steps == [] then 0
    else
      var init, last := steps[..|steps| - 1], steps[|steps| - 1];
      match last
      case Success => 0
      case FailRead(_) => Streak(init)
      case FailWrite(w, _) => if HasRead(init, w) then Streak(init) + 1 else Streak(init)
  }

  /** The streak at the latest read of worker `w`. */
  function ReadStreak(steps: seq<Step>, w: nat): nat {
    if steps == [] then 0
    else if steps[|steps| - 1] == FailRead(w) then Streak(steps[..|steps| - 1])
    else ReadStreak(steps[..|steps| - 1], w)
  }

  /** At every point of the schedule the stored counter is the streak. */
  ghost predicate CounterExact(steps: seq<Step>) {
    forall n :: 0 <= n <= |steps| ==> Run(steps[..n]).row.consecutiveFailures == Streak(steps[..n])
  }

  /** The step completes a failure report whose read saw another streak than its write meets. */
  predicate StaleWrite(steps: seq<Step>, step: Step) {
    step.FailWrite? && HasRead(steps, step.worker) && Streak(steps) != ReadStreak(steps, step.worker)
  }

  ghost predicate NoStaleWrite(steps: seq<Step>) {
    forall n :: 0 <= n < |steps| ==> !StaleWrite(steps[..n], steps[n])
  }

  lemma {:induction false} PendingIsRead(steps: seq<Step>, w: nat)
    ensures w in Run(steps).pending <==> HasRead(steps, w)
    ensures w in Run(steps).pending ==> Run(steps).pending[w] >= 1
  {
    hide AfterSuccess, AfterFailure;
    if steps != [] { PendingIsRead(steps[..|steps| - 1], w); }
  }

  /** While the counter is exact, a pending report holds one more than the streak it read. */
  lemma {:induction false} PendingHoldsReadStreak(steps: seq<Step>, w: nat)
    requires CounterExact(steps) && w in Run(steps).pending
    ensures Run(steps).pending[w] == ReadStreak(steps, w) + 1
  {
    hide AfterSuccess, AfterFailure, Streak;
    if steps != [] {
      var init := steps[..|steps| - 1];
      ExactSplits(steps);
      if w in Run(init).pending { PendingHoldsReadStreak(init, w); }
      assert init[..|init|] == init;
    }
  }

  lemma ExactSplits(steps: seq<Step>)
    requires steps != []
    ensures var init := steps[..|steps| - 1];
            && (CounterExact(steps) <==>
                  CounterExact(init) && Run(steps).row.consecutiveFailures == Streak(steps))
            && (NoStaleWrite(steps) <==> NoStaleWrite(init) && !StaleWrite(init, steps[|steps| - 1]))
            && (CounterExact(init) ==> Run(init).row.consecutiveFailures == Streak(init))
  {
    hide Run, Streak, StaleWrite;
    var init := steps[..|steps| - 1];
    assert steps[..|steps|] == steps && init[..|init|] == init;
    assert forall n :: 0 <= n <= |init| ==> init[..n] == steps[..n];
  }

  lemma StepKeepsExactIff(init: seq<Step>, step: Step)
    requires CounterExact(init)
    ensures Run(init + [step]).row.consecutiveFailures == Streak(init + [step]) <==> !StaleWrite(init, step)
  {
    hide CounterExact, ReadStreak, HasRead;
    var steps := init + [step];
    assert steps[..|steps| - 1] == init && steps[|steps| - 1] == step;
    ExactSplits(steps);
    RunOne(init, step);
    if step.FailWrite? {
      PendingIsRead(init, step.worker);
      if step.worker in Run(init).pending { PendingHoldsReadStreak(init, step.worker); }
    }
  }

  /**
    The failure counter under interleaving, for every schedule: it is the number of failures since the last success at
    every point if and only if every completed failure report wrote while the streak was the one it had read.
   */
  lemma {:induction false} CounterExactIffNoStaleWrite(steps: seq<Step>)
    ensures CounterExact(steps) <==> NoStaleWrite(steps)
  {
    hide StaleWrite;
    if steps != [] {
      var init := steps[..|steps| - 1];
      hide Run, Streak;
      CounterExactIffNoStaleWrite(init);
      ExactSplits(steps);
      assert steps == init + [steps[|steps| - 1]];
      if CounterExact(init) { StepKeepsExactIff(init, steps[|steps| - 1]); }
    } else {
      assert steps[..0] == [];
    }
  }

  /** Two overlapping failure reports lose one count: two errors in a row, a counter of one. */
  lemma OverlapLosesACount()
    ensures var r := Run([FailRead(1), FailRead(2), FailWrite(1, 0), FailWrite(2, 5)]).row;
            r.totalErrors == 2 && r.consecutiveFailures == 1
  {
    var a, b, c, d := FailRead(1), FailRead(2), FailWrite(1, 0), FailWrite(2, 5);
    RunOne([], a);
    RunOne([a], b);
    RunOne([a, b], c);
    RunOne([a, b, c], d);
    assert [] + [a] == [a] && [a] + [b] == [a, b] && [a, b] + [c] == [a, b, c] && [a, b, c] + [d] == [a, b, c, d];
  }
}
