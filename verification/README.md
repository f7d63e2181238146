# Astra scheduler: verified model

A Dafny model of the decision logic of the Astra scheduler and its node agent,
with proofs of what that logic guarantees over all inputs and all runs.

The system places AI workloads in two stages. The central scheduler filters and
scores nodes and writes the chosen budget into a per-node ledger object. The
agent on the node expands that ledger into allocations, plans them greedily
against the node's capacity, applies the plans, records the outcome and
publishes an hourly forecast, which the central scheduler reads when it admits
the next workload. Evicted workloads are migrated through replacement pods.

| module | what it covers |
|---|---|
| `Text`, `Resources` | case folding, string order; the six-dimensional budget with int32 wrap-around, and exact sums to compare it with |
| `Windows` | both parsers and both readings of daily time windows, overlap |
| `Allocations`, `Ordering` | budgets, priorities, activity; the stable order and the grouping of allocations |
| `Observation`, `Planner`, `PlannerProofs` | capacities the managers observe, the mutable budget ledger and the greedy pass, and what it guarantees |
| `Forecast`, `Envelope` | the agent's hourly buckets, the backend's sums, and the central 24-hour admission check with reclaim |
| `Handover`, `HandoverExact` | the contract between central admission and local acceptance |
| `Scoring`, `ScoringProofs`, `ScoreState` | headroom scores over exact reals and what they depend on, the best-tier tracker and normalisation |
| `ReserveProtocol`, `ReserveRetries`, `Names` | concurrent Reserve and Unreserve on one ledger, their retries; derived names and their collisions |
| `StatusLedger`, `Reconcile`, `PassFailures`, `ReconcileProofs` | workload statuses and their aggregates, the agent's pass, where failures stop it, convergence |
| `Migration`, `MigrationPass` | the replacement-pod protocol as a state machine, and what an undisturbed pass does |
| `Loop`, `Scenarios` | pass, status, admission and next pass in one theorem; concrete nodes on which promises fail |

State that the source updates in place is a class or an array here
(`Planner.Ledger`, `ScoreState.SchedulingState`, `Reconcile.Agent`, the bucket
and score arrays), proved against functions about which the lemmas speak. The
two API-server protocols are state machines whose runs interleave arbitrarily;
their logs exist only for stating properties.

## Main results

- **Central admission implies that the node does not turn the workload away**
  (`Handover.AdmittedIsNotRejected`), the contract the repository's README asks
  for, and that it is accepted unless it is granted tokens without GPU capacity
  (`AdmittedIsAcceptedExactly`). `Loop.AdmittedAfterPassIsNotRejected` composes
  it with the passes that produce the status. What a status shows and what the
  agent plans are two lists. For workloads that rank below all residents
  `HandoverExact.ContractHoldsExactly` shows when the contract holds: if and
  only if what the planned residents are granted stays within what the published
  ones forecast. Two things break it: a resident granted a preferred budget
  beyond its required one outside its windows (`LoneResidentBreaksContract`,
  `PreferringResidentBreaksContract`), and a resident that is planned but not
  applied, which the refreshed status leaves out
  (`Scenarios.UnappliedResidentBreaksContract`).
- **The planner conserves the budget** after every step and for any list,
  duplicate keys included (`PlannerProofs.PlannerConserves`); whatever the signs,
  exactly when its reservations are representable (`RunConservesExactly`). Lower ranks never
  influence higher ones (`PriorityNonInterference`); allocations are planned by
  rank, activity, age and name (`Ordering.PlannedInOrder`); and each plan's
  grant and reported tier follow from the plans before it (`PlanTiers`).
- **The envelope check is exact** (`Envelope.EnvelopeIsExact`, `CheckDecides`)
  when the forecast is the sum of the residents' buckets: it keeps room for
  exactly the residents the newcomer may not reclaim from (`KeptExactly`).
  `Handover.PublishedTestAgreesExactly` says for which published statuses it can
  be trusted at all.
- **No lost updates** over every interleaving of Reserve, Unreserve and status
  writes, and the unconditional delete is the only step that can lose one
  (`ReserveProtocol.NothingLostExactly`, `NoLostUpdates`). What is stored are
  the entries put last and not dropped since (`ReserveRetries.StoredExactly`),
  and a reservation survives four conflicts but not five (`SurvivesFourConflicts`).
- **Migration is safe in every run** (`Migration.MigrationIsSafe`), provided
  names do not collide; `SelfReplacementNeverHappensExactly` and
  `SharedReplacementNeverHappensExactly` say exactly when they do. The delete
  goes by name: `DeletionHitsFoundPodExactly` says when it hits the pod that was
  found. Undisturbed, a migration completes (`MigrationPass.UndisturbedPass`,
  `MigrationCompletes`).
- **Scoring passes do not depend on the order of the calls**, tiers stay
  separated, and improving a node never lets another one overtake it
  (`ScoreState.ImprovedNodeKeepsRank`), although its own number can drop
  (`OwnScoreDropsExactly`).
- **Reconciliation converges after one pass** exactly when every recorded
  workload is settled or first in the status list
  (`ReconcileProofs.ReconcileConvergesExactly`); a workload recorded further back
  keeps its entry through any number of passes (`Reconcile.NeverBroughtUpToDate`).
  In any world the first failure ends the pass and leaves everything after it
  alone (`PassFailures.PassStopsAtFirstFailure`, `PassOkExactly`).

## Where the code and its documentation differ

The model follows the code.

- The README says nodes outside the best tier are scored below it (README.md:582-586).
  They tie with it when the worst of the tier scores zero: `ScoreState.TierSeparation`,
  `ScoreState.TierCanTie`.
- It also says nodes with equal match counts share their intermediate score
  (README.md:582-584). That holds inside the best tier (`ScoreState.ScoreReflectsTier`)
  and in general exactly as `ScoreState.EqualCountsScoreAlikeExactly` says;
  `ScoreState.EqualCountsDifferentScores` is an instance where it fails.
- The README asks that local arbitration does not routinely overturn central
  placement (README.md:496-498). The conditions of `AdmittedIsNotRejected` are
  needed: `HandoverExact.PreferringResidentBreaksContract` and
  `Scenarios.UnappliedResidentBreaksContract` exhibit nodes, residents and
  admitted workloads that are rejected. In the second the status is the one the
  agent leaves after every pass, which shows applied residents only
  (internal/agent/controller.go:326-336).
- A workload's update is sent as the first entry of the agent's copy of the
  status list (internal/agent/status_recorder.go:138), so it may not arrive and
  may put an old first entry back: `Reconcile.UpdateReachesExactly`,
  `Reconcile.UpdateRevertsFirst`, `Scenarios.StaleWorkloadStaysStale`.
- A degraded plan is recorded with the budget the planner took back, so the
  recorded total can exceed the planner's books: on nodes without GPU capacity
  and exactly when tokens are granted there
  (`ReconcileProofs.RecordedMatchesBooksExactly`, `RecordedExceedsBooks`).
- Recording one workload as released marks the whole ledger so, and if that is a
  pass's last write no workload of the ledger is planned again:
  `Reconcile.LedgerHiddenExactly`, `Scenarios.ReleaseHidesAppliedWorkload`.
- Grouping compares raw priority strings while sorting ignores case, an active
  window without a name counts as inactive and masks those behind it, and the two
  window parsers disagree on some texts: `Ordering.OneGroupPerRankExactly`,
  `Allocations.ActiveExactly`, `Windows.ParsersAgreeExactly`.

## Model

| member | source | states |
|---|---|---|
| `Resources.AddIsExact` | internal/agent/local/ledger.go:252-261 | int32 addition equals the mathematical sum whenever that is representable |
| `Resources.SubtractIsExact` | internal/agent/local/ledger.go:263-272 | subtracting something that fits triggers neither the clamp nor wrap-around |
| `Resources.WrappedTotalIsExact` | internal/agent/backend/fake.go:246-253 | accumulating non-negative budgets wraps at no step if the exact total is representable |
| `Windows.ClockShapedReadsAlike` | internal/scheduler/policy/simple_policy.go:380-394 | on every two-digit HH:MM text the central parser and the agent's parser return the same minute |
| `Windows.CentralReadsExactly` | internal/scheduler/policy/simple_policy.go:380-398 | the central parser reads exactly the texts with one colon between a numeral up to 23 and one up to 59, signs and leading zeros included |
| `Windows.ParsersAgreeExactly` | internal/agent/local/ledger.go:206-212 | the two parsers agree if and only if the text is one or two digits, colon, two digits, or not of that wider shape |
| `Windows.ParsersDisagreeOnShortMinutes` | internal/scheduler/policy/simple_policy.go:396-398 | a text one side reads and the other refuses |
| `Windows.SplitDayContains` | internal/scheduler/policy/simple_policy.go:359-378 | splitting an overnight or full-day window into intervals describes the same minutes as the wrap-around test |
| `Windows.WindowSemanticsAgree` | internal/agent/local/ledger.go:214-222 | central interval membership, planner membership and forecast membership of a window coincide at every minute |
| `Windows.WindowListsAgree` | internal/agent/hourly_forecast.go:76-114 | the same for lists of windows |
| `Windows.HourInTimeWindows` | internal/scheduler/policy/time_window_policy.go:110-129 | the nested search finds exactly the hours 0..23 whose first minute some window contains |
| `Windows.IntervalsOverlap` | internal/scheduler/policy/simple_policy.go:400-409 | true if and only if some minute lies in both interval lists |
| `Windows.TimeWindowsOverlap` | internal/scheduler/policy/simple_policy.go:335-352 | true if and only if some minute of the day lies in a window of either list |
| `Windows.WholeHourMembership` | internal/scheduler/policy/time_window_policy.go:110-129 | with boundaries on the hour, membership at any of the 1440 minutes is membership at the start of its hour |
| `Allocations.ActiveIsMembership` | internal/agent/local/ledger.go:99-122 | with named windows and one wall clock, having an active window is window membership |
| `Allocations.ActiveExactly` | internal/agent/local/ledger.go:99-122 | an allocation is active if and only if the first window that contains the current minute has a name |
| `Allocations.ActiveWindowIsFirstOpen` | internal/agent/local/ledger.go:99-122 | the window reported as active is the first one that contains the current minute |
| `Allocations.UnnamedWindowMasks` | internal/agent/local/ledger.go:117-118 | an open unnamed window hides an open named one behind it, but not one in front |
| `Allocations.PriorityRankExactly` | internal/agent/local/scheduler.go:280-293 | critical, high, medium and low rank in this order in any case, and every other text below them |
| `Allocations.LabelRanksUnnamed` | internal/agent/local/ledger.go:189-194 | the spec's priority decides the rank, and the label only where the spec names none |
| `Allocations.BeforeIsStrictWeakOrder` | internal/agent/local/ledger.go:133-166 | the comparator is irreflexive, transitive, and incomparability is transitive |
| `Ordering.OrderIsPermutation` | internal/agent/local/ledger.go:133-166 | ordering loses, adds and duplicates nothing |
| `Ordering.OrderIsOrdered` | internal/agent/local/ledger.go:133-166 | no later allocation precedes an earlier one |
| `Ordering.PlannedInOrder` | internal/agent/local/ledger.go:133-166 | of two positions of the planned list the later one does not rank higher; at equal rank it is not active while the earlier is inactive; at equal rank and activity it is not older, a missing timestamp being last; and at equal age its name is not smaller |
| `Ordering.OrderIsStable` | internal/agent/local/ledger.go:133-166 | allocations the comparator cannot tell apart keep their input order |
| `Ordering.OrderIsTheStableSort` | internal/agent/local/ledger.go:133-166 | any ordered list that keeps ties in input order is this order, so the library's algorithm does not matter |
| `Ordering.OrderSplitsByRank` | internal/agent/local/ledger.go:133-166 | ordering a list is ordering its high-rank part followed by ordering the rest |
| `Ordering.GroupAllocationsByPriority` | internal/agent/local/ledger.go:168-187 | the loop computes the maximal runs of equal priority strings |
| `Ordering.GroupsFlatten` | internal/agent/local/ledger.go:168-187 | groups concatenate back to the list |
| `Ordering.GroupsHomogeneous` | internal/agent/local/ledger.go:168-187 | every group is non-empty and has one priority |
| `Ordering.OneGroupPerPriority` | internal/agent/local/ledger.go:168-187 | on an ordered list with canonical strings each priority forms exactly one group |
| `Ordering.OneGroupPerRankExactly` | internal/agent/local/ledger.go:168-187 | on a list in descending rank no two groups share a rank if and only if equal ranks are spelled alike |
| `Ordering.MixedCaseSplitsGroup` | internal/agent/local/ledger.go:178 | two spellings of one priority have equal rank and different groups |
| `Observation.ObserveGpuCapacity` | internal/agent/resources/gpu_manager.go:22-53 | the fallback loop yields the allocatable values or, where they are zero, the count and memory sum of the listed GPUs |
| `Observation.ObservedCapacityIgnoresAllocations` | internal/agent/local/ledger.go:67-73 | the planner's capacity does not depend on the allocations |
| `Observation.CapacityCoversAllocatable` | internal/agent/local/ledger.go:67-73 | the planner's capacity is never below what the node reports as allocatable |
| `Observation.CapacityByDimension` | internal/agent/resources/token_throughput_manager.go:22-40 | each dimension is what is allocatable or, where that is zero, the GPUs listed, their memory, and the KV cache, prefill, decode and total rates of the runtime spec, and never negative |
| `Observation.CapacityWithoutSpec` | internal/agent/resources/kv_cache_manager.go:22-29 | without allocatable values, GPUs and runtime spec the capacity is zero |
| `Observation.InUseOneMore` | internal/agent/resources/token_throughput_manager.go:42-47 | one more allocation adds its specified budget to what is in use, each manager counting its own dimensions |
| `Observation.ValidationRedundantExactly` | internal/agent/local/scheduler.go:233-261 | the three managers accept everything the ledger can grant if and only if no observed capacity is negative |
| `Observation.SupportedExactly` | internal/agent/constraints/runtime_action_constraint.go:19-41 | applying is always supported, each other action unless the node is known to lack its capability |
| `Planner.Ledger.Reserve` | internal/agent/local/ledger.go:31-56 | succeeds if and only if the mandatory budget fits, grants the first non-zero fitting candidate or else the mandatory budget, and changes nothing on failure |
| `Planner.Ledger.Release` | internal/agent/local/ledger.go:58-65 | returns the reserved budget of that key and forgets it |
| `Planner.BuildPlanForAllocation` | internal/agent/local/scheduler.go:104-211 | plan and new ledger contents are those of one step of the greedy pass |
| `Planner.HasAnyActiveTimeWindow` | internal/agent/local/ledger.go:124-131 | finds exactly whether some member of the group is active |
| `Planner.PlanGroup` | internal/agent/local/scheduler.go:91-102 | planning a group in the loop extends the run by that group |
| `Planner.BuildPlansAt` | internal/agent/local/scheduler.go:78-102 | the imperative planner computes the plans all lemmas about runs speak of |
| `PlannerProofs.ReleaseUndoesReserve` | internal/agent/local/ledger.go:31-65 | releasing restores the remaining budget exactly, duplicate keys or not |
| `PlannerProofs.StepConserves` | internal/agent/local/scheduler.go:150-210 | a step takes exactly what an accepted plan is granted and nothing for a failed one |
| `PlannerProofs.ReserveExactlyWhenRepresentable` | internal/agent/local/ledger.go:263-272 | for arbitrary int32 budgets a reservation is exact if and only if the difference is representable |
| `PlannerProofs.RunConservesExactly` | internal/agent/local/ledger.go:31-65 | for arbitrary int32 budgets a run conserves the budget after every step if and only if every reservation leaves a representable rest |
| `PlannerProofs.PairPlans` | internal/agent/local/scheduler.go:91-102 | of two allocations of different rank the second is planned from exactly what the first leaves |
| `PlannerProofs.RunConserves` | internal/agent/local/scheduler.go:91-102 | conservation over a run from any sound ledger |
| `PlannerProofs.PlannerConserves` | internal/agent/local/ledger.go:31-65 | after every step, remaining is capacity minus the accepted budgets, so accepted plans never exceed capacity in any dimension |
| `PlannerProofs.PlanTiers` | internal/agent/local/scheduler.go:118-210 | rejected if and only if the mandatory budget does not fit what earlier accepted plans left; otherwise which of max, required or preferred is granted, and degraded if and only if managers or constraints refuse it. An accepted plan reports Max if and only if it is active with a non-zero max, Preferred if and only if not so, no peer is active and a non-zero preferred fits, Required otherwise |
| `PlannerProofs.PlanReports` | internal/agent/local/action_policy.go:18-31 | on any list a plan reports the budget it asked for, the first open window, and Apply if accepted, else the first permitted of throttle, pause and evict |
| `PlannerProofs.AcceptedCoversRequired` | internal/agent/local/ledger.go:36-55 | with required, preferred and max in order, every accepted plan covers required |
| `PlannerProofs.CoversRequiredExactly` | internal/agent/local/scheduler.go:118-148 | accepted plans cover required on every node and in every list if and only if a non-zero max (inside windows) or preferred (outside) covers it |
| `PlannerProofs.PreferredMayUndercutRequired` | internal/agent/local/ledger.go:46-50 | the planner accepts a workload with one GPU where two are required |
| `PlannerProofs.NegativeBudgetInflatesLedger` | internal/agent/local/ledger.go:53 | behind a negative budget the planner accepts plans that together exceed the node's capacity |
| `PlannerProofs.NegativeList` | internal/agent/local/ledger.go:53 | such lists exist |
| `PlannerProofs.LonePlan` | internal/agent/local/scheduler.go:104-211 | a lone allocation's plan follows from its budgets, windows and the node alone |
| `PlannerProofs.DegradedOnlyWithoutGpu` | internal/agent/constraints/token_gpu_constraint.go:17-37 | a plan is degraded if and only if tokens are granted on a node without GPU capacity |
| `PlannerProofs.HighPartIsPrefix` | internal/agent/local/scheduler.go:78-102 | planning the high-rank part alone gives the first plans of planning everything |
| `PlannerProofs.PriorityNonInterference` | internal/agent/local/scheduler.go:78-102 | lists that agree above a rank get identical plans above it |
| `PlannerProofs.GroupActiveMeansActivePeer` | internal/agent/local/ledger.go:124-187 | with canonical priorities a group is active if and only if some allocation of that priority is |
| `Forecast.HourInForecastWindows` | internal/agent/hourly_forecast.go:76-96 | true if and only if the hour is 0..23 and its first minute lies in a window |
| `Forecast.BuildHourlyForecast` | internal/agent/hourly_forecast.go:12-36 | 24 buckets, each the max inside a window and the required budget elsewhere |
| `Forecast.BucketCoversEveryMinute` | internal/agent/hourly_forecast.go:12-36 | with whole-hour windows the bucket is the planner's mandatory demand at every minute of the hour |
| `Forecast.HourlyForecastFromAllocations` | internal/agent/backend/fake.go:201-234 | the in-place sums hold every allocation's contribution at every hour |
| `Forecast.ContributionCases` | internal/agent/backend/fake.go:205-244 | a released allocation contributes nothing, a forecast its bucket, and without one the current, else the observed, else the specified resources |
| `Forecast.PublishedIsSumOfBuckets` | internal/agent/backend/fake.go:201-234 | for recorded allocations the published bucket is the sum of their buckets |
| `Forecast.BucketsSubMultiset` | internal/agent/backend/fake.go:201-234 | fewer allocations never forecast more |
| `Envelope.ReclaimableResourceForHour` | internal/scheduler/policy/time_window_policy.go:51-69 | the loop sums exactly the buckets of the residents the newcomer may reclaim from |
| `Envelope.Check` | internal/scheduler/policy/filter_constraint.go:179-227 | early exits and the 24-hour loop accept exactly the admitted workloads |
| `Envelope.HourTestIsExact` | internal/scheduler/policy/filter_constraint.go:201-224 | an hour passes if and only if the non-reclaimable residents and the newcomer fit; the clamp hides no load |
| `Envelope.EnvelopeIsExact` | internal/scheduler/policy/filter_constraint.go:179-227 | past the early exits the check accepts if and only if that holds in all 24 hours |
| `Envelope.ReclaimedRanksLower` | internal/scheduler/policy/simple_policy.go:411-419 | everything reclaimed has strictly lower rank than the newcomer |
| `Envelope.KeptExactly` | internal/scheduler/policy/simple_policy.go:411-419 | kept are exactly the buckets of residents for which the newcomer is neither online nor hybrid, or does not rank above them, or that are neither offline nor batch and cannot be throttled, paused or evicted |
| `Envelope.CheckDecides` | internal/scheduler/policy/filter_constraint.go:179-227 | the whole check in its own terms: who passes unexamined, and for the others that the protected residents and the newcomer fit the capacity in all 24 hours |
| `Envelope.ResidentBucketCases` | internal/scheduler/policy/time_window_policy.go:71-96 | a resident counts for its forecast bucket, else its request at that hour, else its current usage, else what it was assigned |
| `Envelope.OverflowHidesLoad` | internal/scheduler/policy/resource_policy.go:39-48 | with nothing to reclaim an hour passes if and only if every dimension fits or overflows int32 |
| `Envelope.HourTestAgreesExactly` | internal/scheduler/policy/filter_constraint.go:201-224 | the hourly test decides the kept load for every capacity if and only if the published bucket is the residents' sum, or falls short where nothing is kept or asked |
| `Handover.OwnBucketIsBucket` | internal/scheduler/policy/time_window_policy.go:98-108 | central and agent agree on a workload's budget at every hour when required is set |
| `Handover.PublishedForecastIsExact` | internal/agent/backend/fake.go:173-234 | what the agent publishes for recorded residents satisfies the envelope's exactness condition |
| `Handover.AdmissionBoundsKept` | internal/scheduler/policy/filter_constraint.go:201-224 | admission bounds the residents that stay plus the newcomer at every hour |
| `Handover.GivesWayExactly` | internal/scheduler/policy/simple_policy.go:418 | on eight GPUs, beside an online resident of low priority that forecasts five, a high-priority newcomer for four is admitted if and only if the resident may be throttled, paused or evicted |
| `Handover.EvictableGivesWay` | internal/scheduler/policy/simple_policy.go:418 | an instance: an evictable resident gives way |
| `Handover.ReclaimableStays` | internal/scheduler/policy/simple_policy.go:418 | an instance: one marked reclaimable alone does not |
| `Handover.AdmittedIsNotRejected` | README.md:496-498 | an online, windowed workload admitted against a status that shows what is planned ahead of it is never rejected by the node's planner, at any whole hour, or at any minute for whole-hour windows |
| `Handover.AdmittedIsAcceptedExactly` | README.md:496-498 | and it is accepted if and only if it is not granted tokens on a node without GPU capacity |
| `Handover.MandatoryIsBucketExactly` | internal/agent/local/ledger.go:99-122 | the planner's demand is the forecast bucket if and only if its clock and the forecast agree on being in a window, or the budgets coincide |
| `Handover.PublishedTestAgreesExactly` | internal/agent/backend/fake.go:201-244 | the hourly test against a published status is right for every capacity if and only if what residents show adds up to what is reclaimed from them, or falls short where nothing is kept or asked |
| `Handover.UnderstatedReclaimHidesLoad` | internal/scheduler/policy/time_window_policy.go:51-96 | whenever a resident shows enough less than is reclaimed from it, the check admits a newcomer that fits at no hour beside the kept load |
| `Handover.ReclaimWithoutForecastHidesLoad` | internal/scheduler/policy/time_window_policy.go:71-96 | an instance with a reserved, not yet recorded resident: nine GPUs of kept and new load admitted on eight |
| `Handover.AllDayIsAlwaysOpen` | internal/scheduler/policy/simple_policy.go:359-378 | a window that ends when it starts is open at every hour |
| `HandoverExact.PlannedLast` | internal/agent/local/scheduler.go:78-102 | a newcomer below all residents is planned last, from exactly what the residents alone leave |
| `HandoverExact.WithinForecastProtects` | README.md:496-498 | planned residents within the published forecast leave room for every admitted newcomer below them |
| `HandoverExact.BeyondForecastBreaks` | internal/agent/local/scheduler.go:118-123 | planned residents beyond the published forecast lead to an admitted workload that is rejected |
| `HandoverExact.LoneResidentExceedsExactly` | internal/agent/local/scheduler.go:118-148 | a lone resident exceeds its forecast if and only if it is outside its windows and a preferred budget beyond required fits and is grantable |
| `HandoverExact.LoneResidentBreaksContract` | README.md:496-498 | beside a lone resident the contract holds if and only if that is not so |
| `HandoverExact.PreferringResidentBreaksContract` | README.md:496-498 | an instance: three GPUs admitted at every hour and rejected by the planner on a four-GPU node |
| `HandoverExact.ContractHoldsExactly` | README.md:496-498 | for any published and any planned residents, the contract holds for newcomers below them if and only if the planned ones' grants stay within the published ones' forecast |
| `HandoverExact.RemainderCanBePlaced` | README.md:496-498 | all that steady residents' forecasts leave at an hour can be admitted and placed: the contract's assumptions are met and the newcomer is not rejected |
| `Scoring.PreferredMatchCount` | internal/scheduler/policy/simple_policy.go:168-194 | counts preferred dimensions and those covered; 0 <= matched <= total <= 6 |
| `Scoring.WeightedHeadroomScore` | internal/scheduler/policy/simple_policy.go:258-289 | the loop computes the weighted headroom score, always within 0..100 |
| `Scoring.HeadroomScoreBounded` | internal/scheduler/policy/simple_policy.go:258-289 | the score is a valid node score for any key and any values |
| `Scoring.MoreAvailableScoresHigher` | internal/scheduler/policy/simple_policy.go:168-289 | more of any resource never lowers the match count or the headroom score |
| `Scoring.BuildDetail` | internal/scheduler/policy/scorer.go:101-110 | the loop folds the scorers' contributions in order |
| `Scoring.ScorersPermute` | internal/scheduler/policy/scorer.go:167-196 | any permutation of the scorers gives the same detail if no built-in scorer occurs twice |
| `Scoring.DecideMonotone` | internal/scheduler/policy/scorer.go:141-162 | under equal multipliers and penalties more headroom never lowers the final score |
| `Scoring.MoreAvailableImproves` | internal/scheduler/policy/scorer.go:141-162 | more available resources improve a node's detail and never lower its decision |
| `ScoringProofs.RoundIsNearest` | internal/scheduler/policy/simple_policy.go:520-525 | rounding goes to a nearest integer, halves away from zero |
| `ScoringProofs.MatchesByDimension` | internal/scheduler/policy/simple_policy.go:168-194 | the counts by dimension: preferred at all, and preferred and covered |
| `ScoringProofs.HeadroomExactly` | internal/scheduler/policy/simple_policy.go:527-537 | headroom is zero without spare capacity, one from twice the preference on, and the ratio in between |
| `ScoringProofs.UnfocusedScoreIsMean` | internal/scheduler/policy/demand_shape.go:52-60 | without a key among the preferred dimensions the score is their mean headroom in percent |
| `ScoringProofs.KeyCountsFourToThree` | internal/scheduler/policy/demand_shape.go:52-60 | with one, its dimension counts four parts where every other preferred one counts three |
| `ScoringProofs.ExtrasAccumulate` | internal/scheduler/policy/scorer.go:186-194 | scores and penalties of unknown scorers add up, their positive multipliers multiply |
| `ScoringProofs.BuiltInsKeepTheirFields` | internal/scheduler/policy/scorer.go:167-185 | each built-in scorer's result ends up in its own field, whatever else runs |
| `ScoringProofs.MissingScorersAreNeutral` | internal/scheduler/policy/scorer.go:98-110 | a built-in scorer that does not run leaves its field neutral |
| `ScoringProofs.PenaltiesNeverHelp` | internal/scheduler/policy/scorer.go:152-153 | raising either penalty never raises the decision |
| `ScoringProofs.ExtraScoreNeverHurts` | internal/scheduler/policy/scorer.go:144-145 | raising the extra score never lowers it |
| `ScoringProofs.LargerMultipliersNeverHurt` | internal/scheduler/policy/scorer.go:142-145 | raising positive multipliers over scores that are not negative never lowers it |
| `ScoringProofs.PlainDecision` | internal/scheduler/policy/scorer.go:141-162 | without multipliers the decision is headroom and extra score less both penalties, within 0..100; a multiplier that is not positive counts as one |
| `ScoringProofs.DecidesInStages` | internal/scheduler/policy/scorer.go:142-153 | in general window and mix multiply in turn, the extra score is added before the extra multiplier applies, and the penalties come off last |
| `ScoringProofs.RiskCosts` | internal/scheduler/policy/scorer.go:152-153 | an instance: headroom 50 and a risk penalty of 15 score 35 |
| `ScoreState.SchedulingState.RecordScoreDetail` | internal/scheduler/plugin/state.go:91-112 | one call replaces, joins or leaves the best tier and returns the matching intermediate score |
| `ScoreState.SchedulingState.BestScoreDetailSnapshot` | internal/scheduler/plugin/state.go:126-138 | after scoring calls the snapshot holds exactly the nodes with the most matches, each with its recorded detail |
| `ScoreState.BestNodesAreArgmax` | internal/scheduler/plugin/state.go:91-112 | after any sequence of calls, one per node, the best tier is exactly the set of nodes with the most matches |
| `ScoreState.OrderOfScoringIrrelevant` | internal/scheduler/plugin/state.go:91-112 | any two orders of the same calls end with the same details, tier and best count |
| `ScoreState.ScoreReflectsTier` | internal/scheduler/plugin/state.go:99-111 | best-tier nodes were told the final best score, all others less |
| `ScoreState.BestTierScoresHigher` | internal/scheduler/plugin/state.go:99-111 | every best-tier node was told strictly more than any other, within 1..8 for match counts in 0..6 |
| `ScoreState.BestScoreDependsOnOrder` | internal/scheduler/plugin/state.go:99-111 | the best intermediate score itself depends on the order of the calls |
| `ScoreState.EqualCountsScoreAlikeExactly` | internal/scheduler/plugin/state.go:99-111 | two nodes of equal match count are told the same score if and only if the best score did not rise between them, or rose once from a tier the first was in |
| `ScoreState.EqualCountsDifferentScores` | internal/scheduler/plugin/state.go:99-111 | an instance of equal match counts with different scores |
| `ScoreState.NonBestPreferredTierScore` | internal/scheduler/plugin/score.go:108-123 | half of the smallest best-tier decision, or zero |
| `ScoreState.NormalizeScore` | internal/scheduler/plugin/score.go:65-106 | every listed node gets its final score in place and remembers it; fails if and only if a non-empty list names no best-tier node |
| `ScoreState.FinalScoreBounded` | internal/scheduler/plugin/score.go:65-123 | every final score is within 0..100 |
| `ScoreState.TierSeparation` | internal/scheduler/plugin/score.go:65-123 | a node outside the tier never beats one inside; it loses to all of them strictly if and only if the worst of the tier scored above zero |
| `ScoreState.TierCanTie` | internal/scheduler/plugin/score.go:108-123 | an instance: a best tier without headroom ties with the rest at zero |
| `ScoreState.OwnScoreDropsExactly` | internal/scheduler/plugin/score.go:65-123 | improving a node lowers its own score if and only if it enters the tier with less than it was given outside |
| `ScoreState.OwnScoreCanDrop` | internal/scheduler/plugin/score.go:65-123 | an instance: one more match, 40 becomes 10 |
| `ScoreState.ImprovedNodeKeepsRank` | internal/scheduler/plugin/score.go:65-123 | improving a node never lets another node overtake it in the final scores |
| `ScoreState.MoreAvailableKeepsRank` | internal/scheduler/plugin/score.go:65-123 | raising a node's available resources never lets another node overtake it |
| `ReserveProtocol.UpsertInPlace` | internal/scheduler/plugin/reserve.go:193-204 | overwrites the entry of that name in place or reports that it must be appended |
| `ReserveProtocol.RemoveInPlace` | internal/scheduler/plugin/reserve.go:206-217 | compaction in the same array keeps exactly the other entries, in order |
| `ReserveProtocol.NothingLostExactly` | internal/scheduler/plugin/reserve.go:101-119 | a step keeps the stored list equal to the fold of the committed operations if and only if it is not a stale delete |
| `ReserveProtocol.NoLostUpdates` | internal/scheduler/plugin/reserve.go:57-88 | over any interleaving without stale deletes the stored list is the fold of exactly the committed operations in commit order, with unique names |
| `ReserveProtocol.ConflictChangesNothing` | internal/scheduler/plugin/reserve.go:70-83 | an attempt that does not commit leaves ledger and log unchanged |
| `ReserveProtocol.StaleDeleteLosesReservation` | internal/scheduler/plugin/reserve.go:111-117 | a run of three callers in which the unconditional delete drops a committed reservation that nobody removed |
| `ReserveRetries.FoldHoldsExactly` | internal/scheduler/plugin/reserve.go:193-217 | the committed operations describe exactly the entries put and neither replaced nor dropped since |
| `ReserveRetries.StoredExactly` | internal/scheduler/plugin/reserve.go:57-119 | so does the ledger after any run without stale deletes |
| `ReserveRetries.WriteComesTo` | internal/scheduler/plugin/reserve.go:57-88 | a write commits unless what was read is out of date or gone; a conflict sends the call back to its read until the fifth one ends it |
| `ReserveRetries.GetComesTo` | internal/scheduler/plugin/reserve.go:58-63 | a read changes nothing but what the caller has seen; Unreserve is done if there is no ledger |
| `ReserveRetries.CommitLeaves` | internal/scheduler/plugin/reserve.go:101-119 | a write that commits leaves no ledger if an Unreserve saw no other entry, else a ledger with a new version and the operation's result |
| `ReserveRetries.RunKeepsAttempts` | internal/scheduler/plugin/reserve.go:57-119 | in every run a call that is still trying has had fewer than five conflicts |
| `ReserveRetries.SurvivesFourConflicts` | internal/scheduler/plugin/reserve.go:57-88 | after up to four conflicts with status updates the next undisturbed attempt stores the entry; after five the call has given up and stored nothing |
| `Names.SanitizeIsClean` | internal/scheduler/plugin/reserve.go:272-283 | the sanitiser returns a valid name or nothing, and valid names pass unchanged |
| `Names.EntryNameJoins` | internal/scheduler/plugin/reserve.go:219-229 | for valid names the entry name is namespace, dash, name |
| `Names.EntriesCollideExactly` | internal/scheduler/plugin/reserve.go:219-229 | pods of two namespaces can share an entry if and only if one namespace is the other extended by a dash |
| `Names.EntriesDistinctWithinNamespace` | internal/scheduler/plugin/reserve.go:219-229 | inside one namespace entries never clash |
| `Names.ReplacementNameIsValid` | internal/agent/controller.go:459-471 | a replacement name is a valid pod name of at most 63 characters |
| `Names.ReplacementsCollideExactly` | internal/agent/controller.go:459-471 | two sources on one node get the same replacement name if and only if they share the truncated base |
| `Names.ShortSourcesKeepApart` | internal/agent/controller.go:459-471 | sources of at most 48 characters get distinct replacement names |
| `Names.SelfReplacementExactly` | internal/agent/controller.go:459-471 | a pod is named as its own replacement if and only if it has 62 or 63 characters and ends in this ledger's mark |
| `Names.SecondReplacementIsItself` | internal/agent/controller.go:459-484 | replacing a long-named pod twice on one node yields the pod itself |
| `StatusLedger.MergeWorkloadStatus` | internal/agent/allocation_ledger.go:113-124 | overwrites the first entry of that name or appends |
| `StatusLedger.MergeLookup` | internal/agent/allocation_ledger.go:113-136 | a merge is seen under its own name and nowhere else |
| `StatusLedger.MergeKeepsUnique` | internal/agent/allocation_ledger.go:113-124 | merging keeps names unique |
| `StatusLedger.AllocationLedgerSummary` | internal/agent/allocation_ledger.go:138-154 | the loop sums the applied budgets of unreleased entries |
| `StatusLedger.MergeBalancesSummary` | internal/agent/allocation_ledger.go:113-154 | a merge changes the node total by exactly new minus old unreleased budget, wrap-around included |
| `StatusLedger.SummaryOfOneMore` | internal/agent/allocation_ledger.go:138-154 | a released entry, or one that records nothing, adds nothing to the total; any other adds what it records |
| `StatusLedger.AggregateHourlyForecast` | internal/agent/allocation_ledger.go:156-186 | the in-place sums hold every unreleased entry's bucket at every hour |
| `StatusLedger.ExpandLedger` | internal/agent/allocation_ledger.go:11-54 | the ledger itself if it lists no workloads, else one allocation per workload with the status recorded under its name |
| `StatusLedger.ExpandedBudgets` | internal/agent/allocation_ledger.go:18-28 | the planner sees what the request says, else what is desired, else what was assigned, and each higher budget falls back on the one below |
| `StatusLedger.ExpandedShown` | internal/agent/allocation_ledger.go:41-49 | the published forecast takes nothing from a released workload, else its recorded bucket, else what is recorded as applied, and for an unrecorded one what is desired or assigned |
| `StatusLedger.ForecastsAgree` | internal/agent/allocation_ledger.go:156-186 | the ledger's forecast equals the one the backend publishes for the expansion at every hour, wrap-around included |
| `Reconcile.Agent.UpdateAllocationStatus` | internal/agent/status_recorder.go:118-190 | the entry sent is the first of the agent's merged copy; a missing ledger counts as done, a refused update is an error |
| `Reconcile.Agent.ApplyAccepted` | internal/agent/controller.go:167-188 | two writes, the backend call, and a third write; a refusing backend is recorded as failed and ends the pass |
| `Reconcile.Agent.HandleMigrationPlan` | internal/agent/controller.go:191-229 | Migrating is recorded once, Released when the migration finishes; a failing call ends the pass |
| `Reconcile.Agent.ApplyOne` | internal/agent/controller.go:148-189 | skips settled plans, applies accepted ones, migrates evictions and records other failures |
| `Reconcile.Agent.RefreshNode` | internal/agent/controller.go:320-346 | lists again and leaves the node's status showing exactly the applied allocations |
| `Reconcile.Agent.ReconcileNode` | internal/agent/controller.go:113-146 | a status that shows every resident, plan and apply in planning order, a status that shows the applied ones; any error ends the pass |
| `Reconcile.CalmPass` | internal/agent/controller.go:113-146 | a pass in which no call fails goes through, with two snapshots and two node writes, and leaves the status showing what is then applied |
| `Reconcile.RecordsAreEarned` | internal/agent/controller.go:148-229 | whatever fails, a pass records Applied only for workloads it handed to the backend and that were taken, and Released only for those whose migration it saw to the end, unless the entry was there before |
| `Reconcile.NeverBroughtUpToDate` | internal/agent/status_recorder.go:137-152 | a workload recorded behind another keeps its entry over any number of passes, at any clocks, with any plans, failures and spec changes |
| `Reconcile.UpdateReachesExactly` | internal/agent/status_recorder.go:137-152 | an update arrives under its own name if and only if the workload is unrecorded or first; otherwise the stored entry is untouched |
| `Reconcile.UpdateRevertsFirst` | internal/agent/status_recorder.go:137-152 | otherwise the first entry is set back to the agent's copy |
| `Reconcile.LedgerHiddenExactly` | internal/agent/status_recorder.go:148 | a pass hides the ledger if and only if the last plan that writes anything finishes a migration; then no workload of it is planned again |
| `PassFailures.PlanCalls` | internal/agent/controller.go:148-229 | in any world: whether a plan fails, whether it reaches the backend and whether its migration is seen through follow from the answers alone; a plan recorded as applied as granted is skipped |
| `PassFailures.PlanRecords` | internal/agent/controller.go:148-229 | a workload that is unrecorded or first is recorded with the phase of its last update that was written, with its grant and forecast, or with nothing at all 24 hours once released |
| `PassFailures.PassOkExactly` | internal/agent/controller.go:113-146 | a pass succeeds if and only if both status writes succeed and no plan fails |
| `PassFailures.PassStopsAtFirstFailure` | internal/agent/controller.go:134-139 | the first failing plan ends the pass with an error: handed over are exactly the unsettled accepted plans up to it, the node status is written once, no entry of a workload that has not had its turn changes, and the failing one is recorded as its last written update says |
| `PassFailures.FailedPlanLeftAs` | internal/agent/controller.go:182-186 | a refusing backend leaves the workload Failed, a refused update the phase before it, a broken migration Migrating |
| `PassFailures.SyncFailureStopsPass` | internal/agent/controller.go:126-128 | without the first status write no call is made and nothing recorded |
| `PassFailures.RefreshShowsApplied` | internal/agent/controller.go:326-336 | the refreshed status shows exactly the applied allocations, as often as they are listed |
| `PassFailures.PassCompletes` | internal/agent/controller.go:113-146 | a pass in which no plan fails hands over and migrates everything that is due and takes a second snapshot |
| `ReconcileProofs.PlansIgnoreStatus` | internal/agent/local/scheduler.go:78-102 | plans depend on specs only: lists that differ in status get the same plans |
| `ReconcileProofs.PassCost` | internal/agent/controller.go:148-189 | a pass makes one backend call and three writes per unsettled plan and changes nothing if all are settled |
| `ReconcileProofs.PassRecords` | internal/agent/status_recorder.go:118-163 | when every update arrives, a pass leaves every plan recorded as applied |
| `ReconcileProofs.PassLeavesStuck` | internal/agent/status_recorder.go:137-152 | a recorded workload that is not first keeps its entry through any pass |
| `ReconcileProofs.ReconcileConvergesExactly` | internal/agent/controller.go:113-189 | with all plans accepted the next pass applies and writes nothing, beyond its two snapshots and node writes, if and only if each workload was settled, unrecorded or first |
| `ReconcileProofs.RecordedTotal` | internal/agent/allocation_ledger.go:138-154 | a first pass records each grant, and the node total is the accepted plus the degraded budgets |
| `ReconcileProofs.RecordedMatchesBooksExactly` | internal/agent/status_recorder.go:94-104 | that total is the planner's if and only if no plan is granted tokens on a node without GPU capacity |
| `ReconcileProofs.LoneRecordMatchesExactly` | internal/agent/status_recorder.go:94-104 | for one workload, in terms of its spec and the node alone |
| `ReconcileProofs.RecordedExceedsBooks` | internal/agent/status_recorder.go:94-104 | a ledger whose recorded total is not the planner's: tokens recorded, nothing accepted |
| `ReconcileProofs.FreshPassApplies` | internal/agent/controller.go:113-189 | with all plans accepted a first pass records every grant as applied, within the node's capacity |
| `ReconcileProofs.FreshLedgerConverges` | internal/agent/controller.go:113-189 | the pass after a first one applies nothing and writes nothing to the ledger |
| `ReconcileProofs.PassEstablishesRecorded` | internal/agent/status_recorder.go:45-62 | a first accepted pass establishes the recorded forecasts that admission relies on, and its refreshed status shows every workload |
| `Loop.AdmittedAfterPassIsNotRejected` | README.md:496-498 | first pass, the status it leaves, admission, reservation, next pass: the newcomer is planned and not rejected |
| `Loop.ReservationIsListed` | internal/scheduler/plugin/reserve.go:80-85 | a reservation adds one allocation to what the next pass lists and changes no other |
| `Loop.ReleasesAreWarranted` | internal/agent/controller.go:191-229 | a release a pass records anew rests on events of the migration protocol, over all its runs |
| `Scenarios.UnappliedResidentBreaksContract` | internal/agent/controller.go:326-336 | a resident rejected in one hour is left out of the refreshed status; at another hour a workload is admitted for what it takes and rejected |
| `Scenarios.ReleaseHidesAppliedWorkload` | internal/agent/controller.go:450-452 | the release of one workload takes an applied one of the same ledger out of all later passes |
| `Scenarios.StaleWorkloadStaysStale` | internal/agent/status_recorder.go:137-152 | a ledger that goes on recording one GPU for a workload granted two, through any passes |
| `Scenarios.ActivePeerComesFirst` | internal/agent/local/ledger.go:145-148 | an instance: of two workloads of one priority on four GPUs the active one gets its max, whichever is listed first, and the inactive one is rejected |
| `Scenarios.RefusedWorkloadStopsPass` | internal/agent/controller.go:182-186 | an instance: the backend refuses the first workload, which is recorded as failed, and the second is neither handed over nor recorded |
| `Migration.StepKeepsInv` | internal/agent/controller.go:191-298 | every step keeps all logged events justified by earlier ones |
| `Migration.MigrationIsSafe` | internal/agent/controller.go:191-229 | in every run a delete hits only a pod of the source's name, after the replacement was seen running in the same pass; Released is recorded only when the source was gone, or deleted or terminating after such a sighting |
| `Migration.SightingsLast` | internal/agent/controller.go:191-298 | a pod the agent saw is there if and only if no pod of its name was removed since |
| `Migration.DeletionHitsFoundPodExactly` | internal/agent/controller.go:218-222 | a delete hits the pod that was found if and only if no pod of that name was removed in between; otherwise nothing or a later pod of the name |
| `Migration.DeleteCanHitAnotherPod` | internal/agent/controller.go:218-222 | a run in which the delete hits a pod the agent never looked at |
| `Migration.CallsAreLoggedTruthfully` | internal/agent/controller.go:191-298 | each logged event was so when the call was made, the pod a delete hits included, and no call changes a pod or records a release unlogged, lost answers included |
| `Migration.DeletionsRestOnDistinctReplacements` | internal/agent/controller.go:210-222 | migrations with different replacement names never rely on the same pod |
| `Migration.RunKeepsBalance` | internal/agent/controller.go:258-298 | pods of a name: creations equal removals plus the one that exists |
| `Migration.CreatesAtMostOnce` | internal/agent/controller.go:258-298 | across retries and lost answers the agent creates a name at most once more often than it was removed |
| `Migration.SelfReplacementNeverHappensExactly` | internal/agent/controller.go:210-222 | no run deletes a pod on the strength of itself if and only if the pod's name is not its own replacement name |
| `Migration.SharedReplacementNeverHappensExactly` | internal/agent/controller.go:258-271 | no run lets two evictions rely on one replacement if and only if the truncated bases differ, even if one source is the other's earlier replacement |
| `MigrationPass.MigratingIsRecordedFirst` | internal/agent/controller.go:196-200 | a pass records Migrating before it looks at any pod |
| `MigrationPass.UndisturbedPass` | internal/agent/controller.go:191-229 | by the pods it finds: no source, released; no replacement, exactly one is created and nothing deleted or released; one that is not running, nothing; a running one, the source is deleted unless already terminating, and released |
| `MigrationPass.MigrationCompletes` | internal/agent/controller.go:191-298 | creation, waiting, and the pass after the replacement runs lead from a source without replacement to a released one with a running replacement |
| `MigrationPass.ReleaseIsFinal` | internal/agent/controller.go:450-452 | in no run does a released worker start another pass or get recorded anew |
| `MigrationPass.FailedCallEndsPass` | internal/agent/controller.go:191-229 | a refused call ends the pass and changes nothing else; one whose answer is lost takes effect and ends it |

## Left out

- Kubernetes clients, watches, manager setup, the command line, logging, reason and message strings, and timestamps other than creation order.
- `time.LoadLocation`: the minute of the day in each zone is an input; Unicode case folding is modelled for ASCII only.
- SHA-256: the eight hex digits of the hash are an input, the same for all workloads of one node ledger as in the source.
- The real backend and its external commands; applying a plan returns the desired budget, as the fake backend does. ConfigMap overrides, GPU pressure and percentages are not modelled.
- Runtime, capability and required-resource filter checks, the demand-shape counts behind the mix multiplier and the SLO penalty table: single-branch selections; their results are free inputs of the scoring model.
- `keyResourceHeadroom` and `otherHeadroomScore`: they only feed reason strings.
- Float64 rounding: scores are over exact reals, so the order and range facts do not cover rounding of the 0.3, 0.4, 0.95, 1.02 and 1.05 constants. Int64 overflow of scores is not modelled.
- Passes over ledgers without spec.workloads (the older one-workload form), beyond their expansion. The retries of a conflicting status write are one step with its outcome; that such writes only change the version the schedulers see is part of `ReserveProtocol`.
- Global accounting across concurrent central cycles, which the repository lists as future work (README.md:720-726).
- Resources.AddIsExact: int32 wrap-around is modelled for sums and differences of two int32 values, which is all the source computes.
- ReconcileProofs.ReconcileConvergesExactly: covers passes whose plans are all accepted and in which no call fails.
- ReconcileProofs.RecordedTotal: is stated for passes in which no call fails and no migration finishes.
- Handover.AdmittedIsNotRejected: assumes that what is planned ahead of the newcomer is shown by the status, canonical priority strings that both sides rank alike, named windows both parsers read alike, clocks that show one minute of the hour in the zones an allocation mentions, published residents that are recorded, residents that keep to their buckets, a required budget in the request, and an int32 total load. `UnappliedResidentBreaksContract`, `OneGroupPerRankExactly`, `ActiveExactly`, `ParsersAgreeExactly`, `MandatoryIsBucketExactly`, `PublishedTestAgreesExactly`, `LoneResidentBreaksContract` and `OverflowHidesLoad` say what happens without the status, the spelling, the names, the parsers, the clocks, the records, the buckets and the int32 bound; `ReconcileProofs.PassEstablishesRecorded` says how residents become recorded and shown.
- HandoverExact.ContractHoldsExactly: is stated for newcomers that rank below all residents, on nodes whose capacity is what they report as allocatable.
