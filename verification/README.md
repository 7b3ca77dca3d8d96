# Crawler API: a verified model of its stateful services

This project models the parts of the crawler that carry state from one step to the next and proves properties of whole
runs: the adaptive retry ladder and the policy learner that feeds it, the sliding-window rate limiter, proxy selection with
its circuit breaker and health accounting, provider reconciliation, and WARC archiving with deduplication, its dead-letter
queue and usage metering. `dafny verify dfyconfig.toml` checks everything.

## How the model is built

- **Retry ladder** (`Escalation`, `RetryMachine`, `FetchWithRetry`, `RetryTheorems`, `AllBlockedRun`, `Witnesses`). `RetryMachine.Iterate`
  is one pass of the loop as a function of the state and of one environment event. An event says what `get_proxy` reads,
  what the fetch does (success, block with any reason, `FetchError`, any other exception) and whether `report_result`
  raises. An environment is any function from attempt numbers to events, so every theorem is about every run.
  `FetchWithRetry.RetryLoop` is the loop in its own imperative form, proved to compute that machine.
- **Learning loop** (`PolicyLearner`, `LearningLoop`, `OverlappingJobs`). `RecordOutcome` updates the policy row in place;
  `RunJobs` closes the loop job -> learned tier -> next job, and `OverlappingJobs` interleaves jobs of several workers.
- **Breaker and selection** (`CircuitBreaker`, `ProxySelection`, `ProxyManager`, `LadderBreaker`). The breaker is two keys with
  a TTL, refined to a failure streak in the history of reports. `LadderBreaker` runs ladder and breaker together.
- **Rate limiter** (`SlidingWindow`, `RateLimiter`, `LimiterRuns`). The script is proved against the plain history of
  admitted units, and whole runs of four-layer calls against the limits of each key.
- **Proxy health, reconciliation, archive, queue, metering** (`ProxyHealth`, `ProxySync`, `WarcBuffer`, `WarcDedup`,
  `WarcStorage`, `WarcDlq`, `UsageMetering`). Where the source splits one operation over two database or network steps, the
  model is a state machine over those steps and the theorems cover every interleaving.

Redis keys, database tables and the bucket are maps and sequences; clocks, random draws, generated ids, detected vendors,
encoded record bytes and failures of the outside world are parameters.

## Where code and documentation differ

The model follows the code.

- Forcing `use_proxy=False` does not lock tier 0 (app/services/fetchers/base.py:159-161 against 409-418):
  `ForcedDirectLeavesIff`, `ForcedDirectClimbs`, with runs in `ForcedDirectReachesEveryRung`.
- A success can raise the learned tier (app/services/policy_learner.py:49-50 against 128): `SuccessRaisesIff`, with a job in
  `SuccessfulJobRaisesTier`.
- Vendor reasons of the enum do not escalate (app/services/escalation.py:139-151): `EscalatesIff`.
- A run whose last budgeted attempt also bumps the tier raises a bare error and drops the blocked result it has
  (app/services/fetchers/base.py:155-158 against 401-406, 467): `HowRunsEnd`, `BumpsIff`, `ClosedForm`, with runs in
  `EveryCourseOccurs`.
- `check_all` charges the monthly quota even when the key layer denies (docs/decisions/ADR-005-rate-limiter-design.md:26-27
  against app/services/rate_limiter.py:185-193): `LayersChargedExactly`, `QuotaChargedThoughKeyDenies`.
- A record archived while another call's upload is in flight is indexed in a file that does not contain it
  (app/services/warc/storage.py:63-67, 88-119): `OverlappingWriteIsLost`; `ReadableIffCapturedAfter` says exactly which
  records read back, and `SerialRecordsReadable` that none is lost to overlap when writes wait for uploads.
- Overlapping first captures of one page are both stored in full (app/services/warc/dedup.py:23-31):
  `OverlapStoresTwice`; `RevisitIffIndexedAtCheck` and `StoredOnceIff` say exactly when a capture becomes a revisit.
- After a failing upload later captures of the same content are stored as revisits of bytes that are gone
  (app/services/warc/storage.py:45-61, 104-109): `ArchiveAfterLostUpload`, `LostRowStaysLost`; `RevisitReadsBackIff` says
  exactly when a revisit can be read.
- Overlapping jobs can lower a learned tier that lies within the ceiling (app/services/policy_learner.py:3-5):
  `OverlapLowersTier`; `NeverFallsIff` says exactly in which schedules, and `OverlapStaysInRange` what always holds.
- Overlapping failure reports lose counts (app/services/proxy_health.py:54-83): `OverlapLosesACount`;
  `CounterExactIffNoStaleWrite` says exactly for which schedules the counter is right.

## Model

| member | source | states |
|---|---|---|
| `Escalation.EscalatesIff` | app/services/escalation.py:113-151 | a reason escalates iff it is one of the three challenge reasons or outside the enum; bans, rate limits and vendor reasons rotate |
| `Escalation.FirstRung` | app/services/fetchers/base.py:222-227 | the first rung that runs an engine; no lower rung does |
| `Escalation.CeilingSeparatesPremium` | app/services/escalation.py:73-75 | rungs up to the free ceiling are exactly the non-premium ones |
| `Escalation.RungsOfTheLadder` | app/services/escalation.py:46-70 | engine, proxy type and proxy use of every rung, read by column: which rungs have each |
| `Escalation.FloorsSuitVendors` | app/services/escalation.py:79-109 | each vendor's floor is the lowest rung with the engine or proxy that passes the vendor; the floor is 0 exactly for absent, `none` and unknown types |
| `RetryMachine.StartsOnTierFor` | app/services/escalation.py:157-206 | a run starts on the rung `tier_for` reports: the higher of learned tier and vendor floor, or the ceiling if that is lower |
| `RetryMachine.BudgetsOfThePolicy` | app/services/fetchers/base.py:190-199 | 12 attempts in all and 2 per tier, unless the policy sets a non-zero budget or a positive cap |
| `FetchWithRetry.RetryLoop.HandleBlock` | app/services/fetchers/base.py:379-423 | the block branch (escalate, leave the direct rung, rotate, return) does what the step machine does |
| `FetchWithRetry.RetryLoop.Fetch` | app/services/fetchers/base.py:352-436 | fetch, result stamping, reporting and handlers do what the step machine does |
| `FetchWithRetry.RetryLoop.HandleFetchError` | app/services/fetchers/base.py:441-456 | the FetchError handler, including a report that raises |
| `FetchWithRetry.RetryLoop.HandleCrash` | app/services/fetchers/base.py:458-465 | the handler of every other exception |
| `FetchWithRetry.RetryLoop.Attempt` | app/services/fetchers/base.py:237-344 | the loop body: premium gate, proxy precedence, selection, pool errors |
| `FetchWithRetry.RetryLoop.Run` | app/services/fetchers/base.py:230-467 | the loop ends exactly as the step machine's run ends |
| `FetchWithRetry.FetchWithRetry` | app/services/fetchers/base.py:106-467 | the whole call terminates with the exit of the step machine's run |
| `RetryTheorems.StepLaw` | app/services/fetchers/base.py:237-465 | what every pass keeps: tier range, failed set, counters; how it may exit, and exactly when it bumps |
| `RetryTheorems.GateNeverBailsOut` | app/services/fetchers/base.py:238-267 | a running tier is within the ceiling or still the requested engine's start rung, so the bail-out branch is unreachable |
| `RetryTheorems.TiersClimb` | app/services/fetchers/base.py:383-417 | tiers never decrease and never skip a rung |
| `RetryTheorems.FailedIsVisit` | app/services/fetchers/base.py:377-417 | the failed set is exactly the set of proxies used in the current visit to the tier |
| `RetryTheorems.NoProxyTwicePerVisit` | app/services/fetchers/base.py:320-330 | no proxy is used twice within one visit |
| `RetryTheorems.PoolErrorMeansVisitSpent` | app/services/fetchers/base.py:331-344 | exhausted iff this visit used a proxy; with the breaker closed every active matching proxy cools down or was used in this visit |
| `RetryTheorems.CounterIsVisitBlocks` | app/services/fetchers/base.py:362-417 | attempts_at_tier is the number of blocked fetches of the current visit, in every run |
| `RetryTheorems.BumpsIff` | app/services/fetchers/base.py:362-423 | an attempt changes the tier iff its fetch is blocked, its report does not raise, the next rung is within the ceiling, and either the visit blocks meet the per-tier cap with an escalatable reason or the block was met directly without a forced proxy |
| `RetryTheorems.HowRunsEnd` | app/services/fetchers/base.py:237-467 | at most budget attempts; the exit is the last attempt's own, or the trailing raise, which happens iff the attempt that spends the budget meets the bump condition; the run then holds that attempt's blocked result and drops it |
| `RetryTheorems.ExitsIff` | app/services/fetchers/base.py:320-465 | exactly when an attempt ends the run and how, from its outcome, its report, the visit blocks, the ceiling and the budget |
| `RetryTheorems.RunRemembers` | app/services/fetchers/base.py:365-456 | every proxied fetch that is answered or fails is reported once with its verdict, crashes are not; the remembered error is the latest one |
| `RetryTheorems.RaisedErrorIsLatest` | app/services/fetchers/base.py:441-467 | a raise carries the error of the last attempt, the trailing raise the latest error of the run |
| `RetryTheorems.ReturnedTierInRange` | app/services/fetchers/base.py:358-360 | a returned result's tier lies between the start tier and the ceiling, or is the requested engine's start rung |
| `RetryTheorems.UsedProxyIsEligible` | app/services/fetchers/base.py:320-330 | the proxy of each attempt is an active, rested row unused in its visit that matches the tier's filter, or the very proxy the session was pinned to before its first attempt |
| `RetryTheorems.GateBypassRunsDirect` | app/services/fetchers/base.py:238-254 | an engine requested above the ceiling runs without a proxy unless the caller forces one |
| `RetryTheorems.PremiumProxiesNeverBought` | app/services/fetchers/base.py:271-297 | with premium off, no override and a free policy type, no attempt of any run uses a residential or mobile proxy, unless the session was already pinned to it |
| `RetryTheorems.AskedIsProxied` | app/services/fetchers/base.py:278-287 | an attempt goes to the proxy manager iff there is one and the caller, a rung from 1 to the ceiling, or the policy on rung 0 asks for a proxy |
| `RetryTheorems.RequiredProxyNeverDropped` | app/services/fetchers/base.py:278-344 | for every such attempt the proxy is used, or the manager does not answer and nothing is fetched, or the run ends in a pool error |
| `RetryTheorems.UnaskedIsDirect` | app/services/fetchers/base.py:278-313 | every other attempt fetches directly and cannot end in a pool error |
| `RetryTheorems.WantedOnEachRung` | app/services/fetchers/base.py:289-330 | the proxy type asked for on each rung, and the pool, country and city |
| `RetryTheorems.PinIsHonoured` | app/services/fetchers/base.py:320-330 | a session pinned to a usable proxy makes its first attempt through it |
| `RetryTheorems.RequiredProxyIsUsed` | app/services/fetchers/base.py:163-165 | a result returned from a tier on which a proxy is asked for went through a usable pool row unused in its visit |
| `RetryTheorems.ForcedDirectLeavesIff` | app/services/fetchers/base.py:408-418 | with use_proxy=False a block leaves the rung iff the next rung is within the ceiling |
| `RetryTheorems.RotationKeepsTier` | app/services/fetchers/base.py:408-423 | a run whose blocks are rotation-only and proxied never changes tier |
| `AllBlockedRun.ClimbAt` | app/services/fetchers/base.py:362-423 | in an all-blocked run, the tier of each attempt from the visit costs of the tiers below |
| `AllBlockedRun.AllBlockedRunEnds` | app/services/fetchers/base.py:379-467 | for every positive budget: the tier on which it is spent, the three endings of an all-blocked run and exactly when each occurs |
| `AllBlockedRun.ClosedForm` | app/services/fetchers/base.py:190-199 | with uniform cost A, start s, top M, budget B: attempt n runs at s + n/A; ends at M after A(M-s+1), in the trailing error if A divides B, or at s + (B-1)/A |
| `AllBlockedRun.ForcedDirectClimbs` | app/services/fetchers/base.py:408-418 | a forced-direct all-blocked run spends one attempt per rung up to the ceiling |
| `Witnesses.EveryCourseOccurs` | app/services/fetchers/base.py:190-199 | for every start tier, cap and budget a concrete run follows the closed form; where it ends in the trailing raise it holds a blocked result |
| `Witnesses.ForcedDirectReachesEveryRung` | app/services/fetchers/base.py:159-161 | concrete runs under use_proxy=False that visit every rung up to the ceiling |
| `PolicyLearner.DomainPolicy.RecordOutcome` | app/services/policy_learner.py:85-159 | the whole new row after one outcome, unchanged when the row is not found |
| `PolicyLearner.LockHoldsTier` | app/services/policy_learner.py:107-107 | a locked tier survives any sequence of outcomes |
| `PolicyLearner.TierIsHighestWorth` | app/services/policy_learner.py:106-138 | closed form over any outcomes: the tier is the highest of the start tier less all successes and of each outcome's tier less the successes after it |
| `PolicyLearner.BlocksTeach` | app/services/policy_learner.py:108-112 | since the last success the tier is at least that of every block |
| `PolicyLearner.LastOutcomesRemembered` | app/services/policy_learner.py:141-157 | last_block_reason is that of the last block and last_success_at the time of the last success, locked or not |
| `PolicyLearner.CounterIsTrailingBlocks` | app/services/policy_learner.py:141-157 | consecutive_blocks is the exact length of the trailing run of blocks |
| `PolicyLearner.LastVendorWins` | app/services/policy_learner.py:98-104 | the antibot type is the last detected vendor; no detection never erases it |
| `PolicyLearner.SuccessRaisesIff` | app/services/policy_learner.py:121-138 | a success raises the tier iff it was produced above it, and lowers it by at most one |
| `Witnesses.SuccessfulJobRaisesTier` | app/services/policy_learner.py:121-138 | a concrete job, banned on the direct rung and successful on the next, whose success raises the learned tier from 0 to 1 |
| `LearningLoop.ExplicitEngineRunsFirst` | app/worker/tasks/fetch_task.py:14-98 | per mode and policy the engine of the first attempt, on its lowest rung, even above the ceiling; only httpx leaves the start to the learned tier |
| `LearningLoop.JobStartsFromRow` | app/worker/tasks/fetch_task.py:50-98 | a job starts on the higher of learned tier and vendor floor within the ceiling, and its overrides decide proxy, type, country and city on every tier |
| `LearningLoop.JobTeachesRow` | app/worker/tasks/fetch_task.py:157-169 | the vendor, block counter, reason and success time a stored job leaves; a job that stores nothing leaves the row |
| `LearningLoop.JobLaw` | app/worker/tasks/fetch_task.py:80-169 | one job moves the learned tier up within the ceiling, or down by one per success above it; a block teaches the higher of its tier and the row's |
| `LearningLoop.LearnedTierConverges` | app/services/policy_learner.py:98-138 | over any jobs: at or below M the tier never falls and rises at most M - t times; from M up it is max(M, t - successes) |
| `LearningLoop.LearnedTierNeverFalls` | app/services/policy_learner.py:106-138 | between any two points of a job sequence the tier does not fall while within the ceiling |
| `OverlappingJobs.OverlapStaysInRange` | app/services/policy_learner.py:85-138 | in every interleaving of job starts and lessons the tier stays between its first value and the ceiling |
| `OverlappingJobs.StepLowersIff` | app/services/policy_learner.py:121-138 | a step lowers the tier iff it ends a successful job that ran below the tier the row has by then, and by exactly one |
| `OverlappingJobs.NeverFallsIff` | app/services/policy_learner.py:3-5 | a schedule never lowers the tier iff it has no such success; each such success had read a tier that another job raised since |
| `OverlappingJobs.SerialIsSequential` | app/worker/tasks/fetch_task.py:80-169 | jobs that do not overlap compute the sequential loop |
| `Witnesses.OverlapLowersTier` | app/services/policy_learner.py:121-138 | two concrete overlapping jobs on a new policy: the tier is learned as 2 and then lowered to 1 |
| `ProxySelection.Eligible` | app/services/proxy_manager.py:180-195 | exactly the rows that are active, rested, not excluded and of the pool, two-letter country, city and type asked for |
| `ProxySelection.Pick` | app/services/proxy_manager.py:159-205 | a usable pin is picked; a picked proxy is usable and matches the filter or is the pin; a refusal means an open breaker or no eligible row |
| `ProxySelection.EveryEligibleCanBeDrawn` | app/services/proxy_manager.py:206-209 | every eligible row is picked by some draw |
| `ProxyManager.ProxyManager.GetProxy` | app/services/proxy_manager.py:127-216 | the selection field by field and all pins afterwards with their lifetime, also when any of the Redis calls fails; a refused session keeps no pin but an excluded one |
| `ProxyManager.ProxyManager.IncrementCircuitBreaker` | app/services/proxy_manager.py:64-80 | one failure on one domain's keys, and whether it newly opened |
| `ProxyManager.ProxyManager.ResetCircuitBreaker` | app/services/proxy_manager.py:82-91 | both keys gone, and whether the breaker was open |
| `ProxyManager.ProxyManager.IsCircuitOpen` | app/services/proxy_manager.py:93-100 | open iff Redis answers and the state key is live |
| `ProxyManager.ProxyManager.ReportResult` | app/services/proxy_manager.py:236-258 | one breaker operation with its event on its own domain only, and nothing when Redis is down |
| `CircuitBreaker.OpenIffLiveStreak` | app/services/proxy_manager.py:64-100 | open iff the last max(1, threshold) operations are failures less than 2*timeout apart and from now |
| `CircuitBreaker.LiveCountIsStreak` | app/services/proxy_manager.py:64-71 | the live counter has reached k iff the last k operations are a live failure streak |
| `CircuitBreaker.LogIsExact` | app/services/proxy_manager.py:236-258 | a success logs circuit_close iff a live streak of the threshold preceded it, a failure circuit_open iff it completes such a streak and none was live, a reset nothing |
| `CircuitBreaker.ClosesNeverOutnumberOpens` | app/services/proxy_manager.py:236-258 | in every prefix of a domain's log closes never outnumber opens and each close directly follows an open |
| `LadderBreaker.LadderDoesNotTripItself` | app/core/config.py:52-56 | from any closed breaker with live count + budget - 1 < threshold, no get_proxy call of a sole reporter's run is refused by the breaker and every pool error means a spent pool |
| `LadderBreaker.HistoryDoesNotTripLadder` | app/services/proxy_manager.py:54-77 | the same stated on the domain's whole history of reports and resets |
| `LadderBreaker.BreakerIsHistory` | app/services/proxy_manager.py:236-258 | the breaker a run sees is the replay of the domain's history followed by the run's own reports |
| `LadderBreaker.CleanStartNeedsNoClock` | app/services/proxy_manager.py:64-80 | from a breaker without a state key the bound needs no order of the clocks |
| `LadderBreaker.ShippedSettingsAreSafe` | app/core/config.py:52-56 | threshold 20 is safe from a fresh counter for every budget up to 12, with or without a policy row |
| `LadderBreaker.ThresholdIsTight` | app/services/proxy_manager.py:54-77 | whenever that inequality fails for a count below the threshold, some run refuses itself a proxy |
| `SlidingWindow.KeyShowsHistory` | app/services/rate_limiter.py:41-60 | what the script sees is exactly the window of the full admission history |
| `SlidingWindow.TtlIsUnobservable` | app/services/rate_limiter.py:58-58 | a limiter without TTL gives the same reply to every call |
| `SlidingWindow.WindowNeverOverfull` | app/services/rate_limiter.py:35-60 | every half-open window contains at most limit admitted units |
| `SlidingWindow.AdmitsIffHistoryHasRoom` | app/services/rate_limiter.py:43-53 | a call is admitted iff the history's window has room for its cost |
| `SlidingWindow.RetryHintIsExact` | app/services/rate_limiter.py:46-53 | after a cost-1 denial a retry is admitted iff it comes at or after reset_at |
| `SlidingWindow.AdmissionResetIsExact` | app/services/rate_limiter.py:55-59 | admitted units leave the window exactly at the reported reset time |
| `SlidingWindow.WaitingAsToldIsEnough` | app/services/rate_limiter.py:82-92 | waiting retry_after_s from any clock reading reaches reset_at |
| `SlidingWindow.RetryAfterIsExact` | app/services/rate_limiter.py:82-92 | retry_after_s is the exact time to reset_at in seconds, or 0.1 s when less than that is left |
| `SlidingWindow.IdleKeyExpires` | app/services/rate_limiter.py:58-58 | an idle key disappears exactly one second after its last unit left the window |
| `SlidingWindow.CollisionOverfills` | app/services/rate_limiter.py:32-33 | without unique members the bound fails, on a concrete run |
| `RateLimiter.RateLimiter.Eval` | app/services/rate_limiter.py:35-60 | the script on one key of the keyspace, every other key unchanged |
| `RateLimiter.RateLimiter.CheckLayer` | app/services/rate_limiter.py:124-139 | one layer's result, failing open when Redis is down |
| `RateLimiter.RateLimiter.CheckAll` | app/services/rate_limiter.py:170-206 | allowed iff all layers admit; a denial is the first denying layer's; the keyspace afterwards |
| `RateLimiter.LayersChargedExactly` | app/services/rate_limiter.py:185-206 | which layers one call charges; the quota does not wait for the key layer |
| `LimiterRuns.CallOnKey` | app/services/rate_limiter.py:185-206 | one check_all call is, on any one key, one run of the script or nothing; an allowed call charges every key it names |
| `LimiterRuns.KeyNeverOvercharged` | app/services/rate_limiter.py:141-206 | over any run of check_all calls no window of a key is charged more than the highest limit asked for on it, even if limits change |
| `LimiterRuns.AllowedCallsBounded` | app/services/rate_limiter.py:170-206 | over any run, Redis failing at will, the allowed calls in a window that Redis answered for stay within the limit |
| `LimiterRuns.LayersHold` | app/services/rate_limiter.py:143-168 | 60 calls per key and minute, the quota per application and 30 days, max(1, rps) per domain and second, 2 per proxy and second |
| `LimiterRuns.AllowedIffRoom` | app/services/rate_limiter.py:143-206 | a call is allowed iff the units charged so far leave room in all of its windows: 60, the quota, max(1, rps) and 2 |
| `LimiterRuns.AnswerMeans` | app/services/rate_limiter.py:82-139 | remaining is the room left in the window after the call, with limit, layer and reset time; permissive when Redis is down |
| `LimiterRuns.ResetIsExact` | app/services/rate_limiter.py:46-53 | in any run, after a denial the key admits a later call iff it comes at or after reset_at |
| `LimiterRuns.RetryAfterHolds` | app/services/rate_limiter.py:82-92 | whoever waits retry_after_s passes the denying layer; whoever waits less (above the 0.1 s floor) is denied again by check_all |
| `LimiterRuns.QuotaChargedThoughKeyDenies` | app/services/rate_limiter.py:185-193 | a concrete run of 60 cost-1 check_all calls after which the next is denied by the key layer and still spends quota |
| `ProxyHealth.ProxyRow.RecordSuccess` | app/services/proxy_health.py:27-41 | the whole row after a success |
| `ProxyHealth.ProxyRow.WriteFailure` | app/services/proxy_health.py:62-83 | the whole row after the write half of a failure |
| `ProxyHealth.AccountingSurvivesInterleaving` | app/services/proxy_health.py:27-83 | in every interleaving: requests - errors = successes, health in [0,1], failures <= errors, cooling down iff failures > 0 |
| `ProxyHealth.CooldownIsBounded` | app/services/proxy_health.py:62-64 | every cooldown written in any run is between 60 and 3600 s |
| `ProxyHealth.SerialisedIsSequential` | app/services/proxy_health.py:44-83 | reports that do not overlap compute the sequential reference |
| `ProxyHealth.BackoffIsExponential` | app/services/proxy_health.py:51-64 | the k-th consecutive failure cools down min(60*2^(k-1), 3600) s and costs 0.15 health each |
| `ProxyHealth.RecoveryIsLinear` | app/services/proxy_health.py:27-41 | k successes clear the failures and add 0.05 health each up to 1 |
| `ProxyHealth.CounterIsStreak` | app/services/proxy_health.py:53-72 | without overlap the counter is the length of the trailing failure streak |
| `ProxyHealth.CounterExactIffNoStaleWrite` | app/services/proxy_health.py:54-83 | over every schedule: the counter is the failure streak at every point iff no failure write comes when the streak differs from the one its read saw |
| `ProxyHealth.OverlapLosesACount` | app/services/proxy_health.py:54-83 | two overlapping failures leave a counter of one |
| `ProxySync.ProxySyncService.EnsureProviderPool` | app/services/proxy_sync_service.py:143-158 | the provider's oldest pool, created once, other providers' pools unchanged |
| `ProxySync.ProxySyncService.SyncProvider` | app/services/proxy_sync_service.py:43-141 | the table, every row's new events and the statistics after one sync |
| `ProxySync.ProxySyncService.Sync` | app/services/proxy_sync_service.py:36-41 | every provider before the first raising fetch (all, if none raises) has exactly the active rows of its last feed |
| `ProxySync.SyncReconciles` | app/services/proxy_sync_service.py:57-119 | active iff fetched; attributes and pool updated; new rows with their id and full health; identities, health and other providers untouched |
| `ProxySync.LastListedWins` | app/services/proxy_sync_service.py:46-46 | of several entries with one URL the last one counts |
| `ProxySync.StatsBalance` | app/services/proxy_sync_service.py:132-141 | active + inserted + activated - deactivated = fetched, and the active set equals the fetched set |
| `ProxySync.RepeatIsQuiet` | app/services/proxy_sync_service.py:94-128 | repeating a list changes nothing and emits no event |
| `ProxySync.LogReplaysToFlag` | app/services/proxy_sync_service.py:94-128 | over any run of syncs each row's events alternate and replay to its flag |
| `WarcBuffer.RunConsistent` | app/services/warc/writer.py:100-117 | in every interleaving records tile each buffer and every stored object is a prefix of its stream |
| `WarcBuffer.ReadableIffCapturedAfter` | app/services/warc/storage.py:80-119 | in every interleaving a record with content reads back iff its file was stored and the upload that stored it last was captured after the record was written |
| `WarcBuffer.SerialRecordsReadable` | app/services/warc/storage.py:63-119 | if no write overlaps an upload, every record of every stored file reads back exactly |
| `WarcBuffer.SerialRunLosesNothing` | app/services/warc/storage.py:80-119 | if also every upload succeeds, each record is in the open buffer or in the bucket |
| `WarcBuffer.ObjectsAreUploads` | app/services/warc/storage.py:88-109 | in every interleaving the bucket holds exactly the files some rotation stored |
| `WarcBuffer.LostStaysLost` | app/services/warc/storage.py:80-119 | a closed file that was not stored and is not in flight is never stored later |
| `WarcBuffer.OverlappingWriteIsLost` | app/services/warc/storage.py:88-119 | a write during an upload is indexed in a stored file that lacks it |
| `WarcDedup.CheckDuplicate` | app/services/warc/dedup.py:12-34 | the latest row of the (url, digest) pair, None iff there is none |
| `WarcDedup.OriginalOf` | app/api/v1/endpoints/archive.py:40-48 | the earliest full record of the digest, None iff there is none |
| `WarcDedup.RevisitsAlwaysResolve` | app/api/v1/endpoints/archive.py:38-55 | in every interleaving each revisit row has an earlier full record of its URL and digest, so the lookup never misses |
| `WarcDedup.SerialStoresOnce` | app/services/warc/storage.py:45-61 | without overlap a row is a revisit iff an earlier call archived the same URL and digest |
| `WarcDedup.RevisitIffIndexedAtCheck` | app/services/warc/storage.py:45-78 | in every interleaving a row is a revisit iff its own duplicate query worked and a row of its URL and digest was indexed before that query |
| `WarcDedup.StoredOnceIff` | app/services/warc/dedup.py:23-34 | in every interleaving a pair has a single full record iff every later capture of it queried, successfully, after the first was indexed |
| `WarcDedup.OverlapStoresTwice` | app/services/warc/dedup.py:23-31 | two overlapping first captures of one page leave two rows of it, both full records |
| `WarcStorage.WarcWriter.WriteResponse` | app/services/warc/writer.py:69-117 | the record's offset and length are the slice appended to the buffer |
| `WarcStorage.WarcWriter.WriteRevisit` | app/services/warc/writer.py:119-165 | the same for a revisit, with the digest of the original |
| `WarcStorage.WarcStorage.Rotate` | app/services/warc/storage.py:80-119 | upload or discard, then an empty writer under a new name |
| `WarcStorage.WarcStorage.Archive` | app/services/warc/storage.py:25-78 | the row is a revisit iff the pair was indexed, and points at the file and slice written, even across rotation; a failing insert leaves no row; bucket and buffer afterwards, the open buffer below its size and age bounds |
| `WarcStorage.WarcStorage.WriteRecord` | app/services/warc/storage.py:45-61 | a revisit that refers to the duplicate's file, or a full record, appended to the buffer |
| `WarcStorage.WarcStorage.StoredRowsReadable` | app/services/warc/storage.py:63-78 | between non-overlapping calls every row of a stored file reads back the bytes its archive call was given |
| `WarcStorage.WarcStorage.RevisitReadsBackIff` | app/api/v1/endpoints/archive.py:38-60 | a revisit resolves to a full record of its digest, whose bytes read back iff some rotation stored its file |
| `WarcStorage.WarcStorage.LostRowStaysLost` | app/services/warc/storage.py:80-112 | a row of a discarded file never reads back again |
| `WarcStorage.ArchiveAfterLostUpload` | app/services/warc/storage.py:45-112 | after one failing upload the next capture of the same content is a revisit that resolves to lost bytes |
| `WarcDlq.WarcDlq.Evict` | app/services/warc/dlq.py:110-121 | the loop: total is exactly the bytes left plus those of entries with stuck metadata; exits when it fits or every entry was tried; removes only tried entries |
| `WarcDlq.WarcDlq.EnforceCap` | app/services/warc/dlq.py:95-121 | scan, oldest-first order by mtime, size and path, and eviction together |
| `WarcDlq.SortSorts` | app/services/warc/dlq.py:110-110 | the order is sorted by (mtime, size, path) and a permutation |
| `WarcDlq.EvictsShortestPrefix` | app/services/warc/dlq.py:110-121 | when all removals succeed the evicted entries are the shortest prefix that makes room, and none is newer than a kept one |
| `UsageMetering.CostCents` | app/worker/tasks/fetch_task.py:285-302 | the exact price rounded up: never below it, less than a cent above, zero for nothing |
| `UsageMetering.GigabytePrice` | app/worker/tasks/fetch_task.py:285-290 | whole gigabytes cost 350 cents each |
| `UsageMetering.UsageCounters.UpsertUsage` | app/worker/tasks/fetch_task.py:293-324 | a committed upsert is credited to exactly the summaries that select it; a failed one to none |
| `UsageMetering.StoredIsUnique` | app/models/usage_counter.py:20-24 | one row per application and month |
| `UsageMetering.SummaryIsHistory` | app/api/v1/endpoints/usage.py:42-68 | every summary is the exact total of the application's jobs whose month lies in the inclusive range asked for |
| `UsageMetering.CentsWithinOnePerRequest` | app/worker/tasks/fetch_task.py:288-321 | reported cents are at least the exact price of the reported bytes and less than one cent per non-empty request above it |

## Left out

- The fetch engines, browser pool and startup checks: network and browser I/O; a fetch is an arbitrary outcome.
- Block, vendor and header detection, jitter and the weights of the random draw: a reason, a vendor and a draw are arbitrary.
- Unknown engine names: an engine is one of the four that `get_fetcher` accepts.
- Cancellation of a running job, which is not an exception the retry loop handles.
- Concurrency inside one manager call and inside one sync: each breaker report and each provider transaction is one step.
- OverlappingJobs.Apply: the learner's re-read returns the stored row; caching inside the database session is not modelled.
- ProxyHealth.BackoffIsExponential: health is an exact real, as in `RecoveryIsLinear`; the rounding of the Float column is not modelled.
- ProxySelection.CountryCode: upper-cases ASCII letters only.
- ProxyManager.ProxyManager.IncrementCircuitBreaker: a Redis outage between two commands of one breaker update is not modelled; an update happens as a whole or not at all.
- ProxyManager.ProxyManager.ReportResult: the daily aggregate and the health metric are not modelled; health is `ProxyHealth`.
- RateLimiter.RateLimiter.CheckAll: the concurrent key and application checks are run one after the other; they touch different keys.
- SlidingWindow.WindowNeverOverfull: assumes the random suffix never repeats an admitted member; `CollisionOverfills` shows why.
- SlidingWindow.TtlIsUnobservable: the TTL runs on the caller's clock, which EXPIRE reads from the Redis server; skew between the two clocks is not modelled.
- ProxyHealth.Run: one proxy row that is never deleted; the operator's health reset is not a step.
- WarcStorage.WarcStorage.Rotate: assumes that generated file names do not repeat.
- Record encoding, gzip, SHA-256 and S3 are opaque bytes; the archive reader returns the first record of a file and is not modelled.
- WarcDlq.WarcDlq.EnforceCap: files whose stat fails are not counted, as in the source; paths are compared as numbers.
- Storing into and retrying from the dead-letter queue, and its count: file plumbing around the eviction.
- UsageMetering.CostCents: the price is exact; floating-point rounding and integer overflow are not modelled.
- URL and SSRF guards, keys, tenants, batches, callbacks, status payloads, metrics, migrations and scripts.
