/**
  Fetch jobs of several workers on one policy row. A job reads the row when it starts and teaches the row as it is when
  the job ends (fetch_task.py and policy_learner.py), so jobs overlap between the two.
 */
module OverlappingJobs {
  import opened Common
  import opened Escalation
  import opened RetryMachine
  import opened RetryTheorems
  import opened PolicyLearner
  import opened LearningLoop

  /** What the job would teach, had it started from `row`; None when it teaches nothing. */
  function LessonOf(premium: bool, row: PolicyRow, job: Job): Option<Lesson> {
    if Stored(premium, row, job) then
      var r := ResultFor(premium, row, job);
      Some(Lesson(r.blocked, r.reason, r.tierUsed, job.vendor, job.now))
    else None
  }

  function Taught(row: PolicyRow, lesson: Option<Lesson>): PolicyRow {
    if lesson.Some? then Learn(row, lesson.value) else row
  }

  /** A job in progress: the tier it read and what it is going to teach. */
  datatype Flight = Flight(readTier: int, lesson: Option<Lesson>)

  datatype System = System(row: PolicyRow, flights: map<nat, Flight>)

  datatype Step = Begin(worker: nat, job: Job) | Finish(worker: nat)

  function Apply(premium: bool, s: System, step: Step): System {
    match step
    case Begin(w, job) =>
      s.(flights := s.flights[w := Flight(s.row.escalationTier, LessonOf(premium, s.row, job))])
    case Finish(w) =>
      if w !in s.flights then s else System(Taught(s.row, s.flights[w].lesson), s.flights - {w})
  }

  function Run(premium: bool, row: PolicyRow, steps: seq<Step>): System {
    if steps == [] then System(row, map[])
    else Apply(premium, Run(premium, row, steps[..|steps| - 1]), steps[|steps| - 1])
  }

  // ---------- what every interleaving keeps ----------

  /**
    The tier is unlocked, at least `low` and within the ceiling; every lesson was learned at or above the tier read.
   */
  ghost predicate InRange(premium: bool, low: int, s: System) {
    && !s.row.tierLocked
    && low <= s.row.escalationTier <= EffectiveMaxTier(premium)
    && forall w :: w in s.flights ==> FlightInRange(premium, low, s.flights[w])
  }

  ghost predicate FlightInRange(premium: bool, low: int, f: Flight) {
    && low <= f.readTier
    && (f.lesson.Some? ==> f.readTier <= f.lesson.value.tierUsed <= EffectiveMaxTier(premium))
  }

  lemma LessonInRange(premium: bool, row: PolicyRow, job: Job)
    requires row.escalationTier <= EffectiveMaxTier(premium)
    ensures FlightInRange(premium, row.escalationTier, Flight(row.escalationTier, LessonOf(premium, row, job)))
  {
    hide Exec;
    if Stored(premium, row, job) {
      ReturnedTierInRange(ConfigOf(premium, row, job), job.env);
    }
  }

  lemma StepKeepsRange(premium: bool, low: int, s: System, step: Step)
    requires InRange(premium, low, s)
    ensures InRange(premium, low, Apply(premium, s, step))
  {
    hide LessonOf, EffectiveMaxTier;
    match step
    case Begin(_, job) => LessonInRange(premium, s.row, job);
    case Finish(_) =>
  }

  /**
    In every interleaving of jobs, a tier that starts within the ceiling stays between its first value and the ceiling.
   */
  lemma {:induction false} OverlapStaysInRange(premium: bool, row: PolicyRow, steps: seq<Step>)
    requires !row.tierLocked && row.escalationTier <= EffectiveMaxTier(premium)
    ensures InRange(premium, row.escalationTier, Run(premium, row, steps))
  {
    hide Apply;
    if steps != [] {
      OverlapStaysInRange(premium, row, steps[..|steps| - 1]);
      StepKeepsRange(premium, row.escalationTier, Run(premium, row, steps[..|steps| - 1]), steps[|steps| - 1]);
    }
  }

  // ---------- when the tier falls ----------

  /** The step ends a successful job that ran below the tier the row has by now. */
  predicate StaleSuccess(s: System, step: Step) {
    && step.Finish? && step.worker in s.flights
    && var lesson := s.flights[step.worker].lesson;
       lesson.Some? && !lesson.value.blocked && lesson.value.tierUsed < s.row.escalationTier
  }

  /** One step lowers an unlocked tier iff it is a stale success, and then by exactly one. */
  lemma StepLowersIff(premium: bool, s: System, step: Step)
    requires !s.row.tierLocked
    ensures var t, t' := s.row.escalationTier, Apply(premium, s, step).row.escalationTier;
            && (t' < t <==> StaleSuccess(s, step))
            && (t' < t ==> t' == t - 1)
  {
    hide LessonOf;
  }

  /** The learned tier never falls along the schedule. */
  ghost predicate NeverFalls(premium: bool, row: PolicyRow, steps: seq<Step>) {
    forall n :: 0 <= n < |steps| ==>
      Run(premium, row, steps[..n]).row.escalationTier
      <= Apply(premium, Run(premium, row, steps[..n]), steps[n]).row.escalationTier
  }

  ghost predicate NoStaleSuccess(premium: bool, row: PolicyRow, steps: seq<Step>) {
    forall n :: 0 <= n < |steps| ==> !StaleSuccess(Run(premium, row, steps[..n]), steps[n])
  }

  /**
    Exactly which schedules keep the promise that the tier does not fall: those without a stale success. And a stale
    success needs overlap: some other job raised the tier after the job had read it.
   */
  lemma NeverFallsIff(premium: bool, row: PolicyRow, steps: seq<Step>)
    requires !row.tierLocked && row.escalationTier <= EffectiveMaxTier(premium)
    ensures NeverFalls(premium, row, steps) <==> NoStaleSuccess(premium, row, steps)
    ensures forall n :: 0 <= n < |steps| ==>
              var s := Run(premium, row, steps[..n]);
              StaleSuccess(s, steps[n]) ==> s.flights[steps[n].worker].readTier < s.row.escalationTier
  {
    hide Run, Apply, EffectiveMaxTier;
    forall n | 0 <= n < |steps|
      ensures var s := Run(premium, row, steps[..n]);
              var s' := Apply(premium, s, steps[n]);
              && (s.row.escalationTier <= s'.row.escalationTier <==> !StaleSuccess(s, steps[n]))
              && (StaleSuccess(s, steps[n]) ==> s.flights[steps[n].worker].readTier < s.row.escalationTier)
    {
      OverlapStaysInRange(premium, row, steps[..n]);
      StepLowersIff(premium, Run(premium, row, steps[..n]), steps[n]);
    }
  }

  // ---------- jobs that do not overlap ----------

  function Serial(jobs: seq<Job>): seq<Step> {
    if jobs == [] then [] else Serial(jobs[..|jobs| - 1]) + [Begin(0, jobs[|jobs| - 1]), Finish(0)]
  }

  /** Jobs run one after the other compute the sequential loop. */
  lemma {:induction false} SerialIsSequential(premium: bool, row: PolicyRow, jobs: seq<Job>)
    ensures Run(premium, row, Serial(jobs)) == System(RunJobs(premium, row, jobs), map[])
  {
    if jobs != [] {
      hide LessonOf, RunJob, Learn;
      var init, job := jobs[..|jobs| - 1], jobs[|jobs| - 1];
      SerialIsSequential(premium, row, init);
      var two := Serial(jobs);
      var one := Serial(init) + [Begin(0, job)];
      assert two == one + [Finish(0)];
      assert two[..|two| - 1] == one && one[..|one| - 1] == Serial(init);
      JobTeaches(premium, RunJobs(premium, row, init), job);
      var f := Flight(RunJobs(premium, row, init).escalationTier, LessonOf(premium, RunJobs(premium, row, init), job));
      assert map[0 := f] - {0} == map[];
    }
  }

  lemma JobTeaches(premium: bool, row: PolicyRow, job: Job)
    ensures Taught(row, LessonOf(premium, row, job)) == RunJob(premium, row, job)
  {
    hide Exec;
  }
}
