# Verified models of the nebula-operator control loops

The operator keeps a NebulaGraph cluster in its desired state by reconciling: every pass reads what was
stored, asks other services, changes a little and stores its progress, and any pass may fail half-way and be
repeated. This project models the loops whose correctness spans many such passes, and proves what they keep
over every run.

| module | what it models |
|---|---|
| `SlotBuffers`, `ScaleEvents` | buffers of timestamped entries whose stale slots are overwritten in place |
| `ScalingRules`, `Autoscaler` | scaling policies, stabilisation, and one reconcile of the autoscaler as a class over its per-key buffers |
| `AutoscalerRuns`, `AutoscalerGuarantees` | whole runs beside their full history: when the lossy buffers decide as the full history would, stabilisation and range |
| `AutoscalerBounds`, `AutoscalerDropPeriods` | rate bounds over whole runs for all combinations of policies; when drop limits see true past counts |
| `AutoscalerNumbers` | the same steps in numbers: how far policies let the count go, that it goes that far, and where plain and out-of-range steps end |
| `StoragedScaling` | scaling storage in and out, as a class and as functions of a stream of answers from outside |
| `StoragedSafety`, `StoragedStart` | hosts are dropped only when empty; from which bookkeeping this holds |
| `StoragedProgress`, `StoragedScaleOut`, `StoragedMeasure`, `StoragedOutMeasure` | one job at a time; a measure that every job and leader balance lowers; the operation ends |
| `StoragedBalancing` | what each space gets: in a scale-out a finished job of its own and balanced leaders before the operation is over; leaders before a scale-in is over |
| `NodeZone`, `NodeZoneSpread`, `NodeZoneDeletion` | the scheduler plugin as a transition system, the spreading guarantee, and which deletions endanger it |
| `NodeZoneProgress` | what Filter and Permit let through, and that no triple is ever stuck |
| `RollingUpdate` | which pod is given up when, the partition protocol against a StatefulSet controller, and that a rollout ends |
| `CronSchedule`, `CronRuns` | which scheduled instant is due, and runs of the cron backup controller |
| `CronDecisions` | what a reconcile of a cron backup decides, in terms of the instants of its schedule |
| `WorkerGroup` | the worker group with its channels as a step system |
| `SuspendOrder` | suspending and resuming components in order, and that both complete |
| `FlagConfig` | rendering of configuration files, and patching of run-time flags |
| `FlagLayout` | the layout of a rendered file, line by line |
| `RestorePlacement` | placement of restored parts on data paths |
| `RestoreRequests` | which downloads a restore asks for |

Conventions. Time is in nanoseconds, and a reconcile has one clock value. What comes from outside (answers of
services, the fate of a status write, pods seen, proposals from metrics) is an argument, so a theorem over all
arguments covers every behaviour of the environment. Methods of classes follow the source's control flow and
are proved equal to functions; the theorems are about those functions, over runs.

## What turned out not to hold

Some promises hold only under a condition. Each is stated as an equivalence.

- The autoscaler's limits read the events of both directions, and each direction's events are retired by its own
  longest policy period. In every run the rise limits are computed from the true past counts exactly if the
  longest rise period is at most the longest drop period (`AutoscalerGuarantees.UpStartsRightIff`), the drop
  limits exactly if it is the other way round (`AutoscalerDropPeriods.DownStartsRightIff`). The rate bounds
  themselves hold all the same, because the error is on the safe side (`AutoscalerBounds`).
- Without behaviors the autoscaler can move against the proposal. It does exactly if a higher proposal was recorded
  inside the window and the count is below the maximum; it then rises. It never falls against the proposal
  (`AutoscalerGuarantees.PlainMovesAgainstProposalIff`, `AutoscalerGuarantees.PlainNeverFallsAgainstProposal`).
- Scaling in is safe in every run exactly if it starts from clean bookkeeping. A balance job left over from a
  scale-out, for the first space, is polled as if it were that space's removal
  (`StoragedStart.SafeStartIff`, `StoragedStart.InterruptedScaleOut`).
- Deleting a placed pod that is not in the zone map can put two pods of its triple into one zone exactly if a later
  pod of the triple is placed (`NodeZoneDeletion.DeletionHarmsIff`).
- The jump-ahead of the cron schedule finds an instant exactly if one lies between the jump and now. For backups
  at one and two o'clock every day, a controller that comes back in the evening overlooks both, and its requeue
  delay is negative (`CronSchedule.FoundIff`, `CronSchedule.DelayPositiveIff`, `CronSchedule.OneAndTwoOverlooked`).
- A removed backup can be created a second time exactly if its instant was not recorded yet and no later one has
  come (`CronRuns.RemovalIsSafeIff`). Two backups can be unfinished at once exactly after a reconcile that
  created one which the stored status does not record (`CronRuns.LosingMattersIff`).
- Workloads can be deleted out of the suspend order exactly after a reconcile that leaves graphd or storaged
  unreported: it creates one whose stored status reports none, and the status write or the answer to the
  creation is lost (`SuspendOrder.LosingMattersIff`).
- On a template of plain lines, all custom parameters take effect exactly if no line sets a parameter again that
  a valued line before it sets (`FlagConfig.AlwaysOverridesIff`); the three templates of the repository
  (apis/apps/v1alpha1/template.go) have plain lines with distinct names, for which `FlagConfig.DistinctOverride`
  applies. A flag patch equals a fresh start exactly if every removed flag was started with its default
  (`FlagConfig.PatchIff`).

## Model

| member | source | states |
|---|---|---|
| SlotBuffers.BufferAgrees | pkg/controller/autoscaler/autoscaler.go:535-557 | slot reuse is invisible: after any chronological log, the buffer with overwritten slots holds the same multiset of entries as the log inside the window |
| SlotBuffers.BufferLength | pkg/controller/autoscaler/autoscaler.go:535-557 | the buffer is never longer than one plus the busiest window of the log |
| SlotBuffers.SumExactIff | pkg/controller/autoscaler/autoscaler.go:633-644 | sums over the last period are exact for all logs if and only if the period is at most the retention (plus one tick) |
| SlotBuffers.AgreeExtremes | pkg/controller/autoscaler/autoscaler.go:709-765 | minima and maxima over the window can be read off the buffer |
| ScaleEvents.StoredIsRecorded | pkg/controller/autoscaler/autoscaler.go:658-704 | marking outdated events and reusing the last marked slot is one slot-buffer write; the sticky flags make no difference |
| ScalingRules.LongestCovers | pkg/controller/autoscaler/autoscaler.go:875-886 | the longest policy period bounds every policy's period and is one of them |
| ScalingRules.GetLongestPolicyPeriod | pkg/controller/autoscaler/autoscaler.go:875-886 | the loop computes it |
| ScalingRules.StrictestUpLimit | pkg/controller/autoscaler/autoscaler.go:889-915 | with the minimal change selected, the rise limit is within every policy; in numbers by `AutoscalerNumbers.UpLimitIff` |
| ScalingRules.LaxestUpLimit | pkg/controller/autoscaler/autoscaler.go:889-915 | with the maximal change selected, the rise limit is what one of the policies allows; in numbers by `AutoscalerNumbers.UpLimitIff` |
| ScalingRules.StrictestDownLimit | pkg/controller/autoscaler/autoscaler.go:918-943 | with the minimal change selected, the drop limit is within every policy |
| ScalingRules.LaxestDownLimit | pkg/controller/autoscaler/autoscaler.go:918-943 | with the maximal change selected, the drop limit is what one of the policies allows |
| AutoscalerNumbers.WithinRiseIff | pkg/controller/autoscaler/autoscaler.go:904-911 | a policy allows a rise to a count if and only if the count is at most the start plus so many pods, or so many percent, rounded up |
| AutoscalerNumbers.WithinDropIff | pkg/controller/autoscaler/autoscaler.go:932-939 | a policy allows a drop to a count if and only if the count is at least the start less so many pods, or so many percent, truncated towards zero |
| AutoscalerNumbers.UpLimitIff | pkg/controller/autoscaler/autoscaler.go:889-915 | a count above the current one is within the rise limit if and only if all policies (minimal change), or one of them (maximal change), allow it in these numbers, and none is if rises are disabled |
| AutoscalerNumbers.DownLimitIff | pkg/controller/autoscaler/autoscaler.go:918-943 | the same for drops |
| ScalingRules.BehaviorRateBetween | pkg/controller/autoscaler/autoscaler.go:769-820 | a behavior step ends between the current and the desired count and inside the range |
| ScalingRules.WithRulesInRange | pkg/controller/autoscaler/autoscaler.go:823-861 | a plain step ends inside the range and at most at the doubled count, or four |
| Autoscaler.HorizontalController.RecordInitialRecommendation | pkg/controller/autoscaler/autoscaler.go:496-502 | an empty buffer is seeded with the current count; other keys are untouched |
| Autoscaler.HorizontalController.StabilizeRecommendation | pkg/controller/autoscaler/autoscaler.go:535-557 | the loop returns the maximum over the window and overwrites the last stale slot |
| Autoscaler.HorizontalController.StabilizeRecommendationWithBehaviors | pkg/controller/autoscaler/autoscaler.go:709-765 | the loop returns the current count clamped to the extremes of the two windows and records the proposal |
| Autoscaler.HorizontalController.MarkScaleEventsOutdated | pkg/controller/autoscaler/autoscaler.go:864-873 | exactly the events older than the cutoff are marked |
| Autoscaler.HorizontalController.StoreScaleEvent | pkg/controller/autoscaler/autoscaler.go:658-704 | the event goes into its direction's buffer, retired by that direction's longest period, and nothing without behaviors |
| Autoscaler.HorizontalController.GetReplicasChangePerPeriod | pkg/controller/autoscaler/autoscaler.go:633-644 | the loop sums the events of the period |
| Autoscaler.HorizontalController.CalculateScaleUpLimitWithScalingRules | pkg/controller/autoscaler/autoscaler.go:889-915 | the loop computes, from both event buffers, the rise limit that `AutoscalerNumbers.UpLimitIff` characterises |
| Autoscaler.HorizontalController.CalculateScaleDownLimitWithBehaviors | pkg/controller/autoscaler/autoscaler.go:918-943 | the loop computes, from both event buffers, the drop limit that `AutoscalerNumbers.DownLimitIff` characterises |
| Autoscaler.HorizontalController.ConvertDesiredReplicasWithBehaviorRate | pkg/controller/autoscaler/autoscaler.go:769-820 | the desired count is brought within the policy limits and the range |
| Autoscaler.HorizontalController.ReconcileAutoscaler | pkg/controller/autoscaler/autoscaler.go:294-390 | one reconcile changes count and buffers as the transition function of the run theorems does; other keys are untouched |
| AutoscalerRuns.RunsAreFaithful | pkg/controller/autoscaler/autoscaler.go:247-390 | in every run of reconciles, foreign edits and forgetting, each buffer is what writing its whole history into it leaves |
| AutoscalerRuns.Telescope | pkg/controller/autoscaler/autoscaler.go:903-904 | undoing the recorded changes since a time gives the count at that time, off by exactly the changes that were not recorded |
| AutoscalerGuarantees.DecisionRefinesHistory | pkg/controller/autoscaler/autoscaler.go:294-346 | rises decided on the overwritten buffers are those decided on the complete history if the rise policies ask for no longer periods than the drop policies; drops the other way round; with both, every decision |
| AutoscalerGuarantees.PeriodStartIsPast | pkg/controller/autoscaler/autoscaler.go:889-943 | current count minus rises plus drops inside the period is the count one period ago plus what went unrecorded since |
| AutoscalerGuarantees.PeriodStartsAreCountsInForce | pkg/controller/autoscaler/autoscaler.go:889-943 | if only recorded steps change the count, these are the counts in force one period ago |
| AutoscalerGuarantees.UpStartsRightIff | pkg/controller/autoscaler/autoscaler.go:666-704 | the rise limits see true past counts in every run if and only if the longest rise period is at most the longest drop period |
| AutoscalerDropPeriods.DownStartsRightIff | pkg/controller/autoscaler/autoscaler.go:666-704 | the drop limits of a spec that can raise the count see true past counts in every run if and only if the longest drop period is at most the longest rise period |
| AutoscalerBounds.NeverBolderThanHistory | pkg/controller/autoscaler/autoscaler.go:769-943 | for all combinations of periods, where the controller raises or lowers the count, the decision on the complete history goes at least as far |
| AutoscalerBounds.StartsErrSafely | pkg/controller/autoscaler/autoscaler.go:903-933 | rise limits start from counts at most the true ones, drop limits from counts at least the true ones |
| AutoscalerBounds.RiseWithinPolicies | pkg/controller/autoscaler/autoscaler.go:769-915 | every rise ends at or below the selected policy limit on the counts in force one period ago; in numbers by `AutoscalerNumbers.RiseInNumbers` |
| AutoscalerBounds.DropWithinPolicies | pkg/controller/autoscaler/autoscaler.go:769-943 | every drop ends at or above the selected policy limit on the counts in force one period ago |
| AutoscalerNumbers.RiseInNumbers | pkg/controller/autoscaler/autoscaler.go:769-915 | in every run, a rise ends at a count that exceeds the one in force a period ago by at most so many pods or percent: for every policy with the minimal change selected, for some policy with the maximal; never if rises are disabled |
| AutoscalerNumbers.DropInNumbers | pkg/controller/autoscaler/autoscaler.go:769-943 | the same for drops, in pods or percent truncated towards zero |
| AutoscalerNumbers.RiseReaches | pkg/controller/autoscaler/autoscaler.go:769-915 | where rise limits see true past counts, a rise reaches every count that the stabilised proposal, the maximum and the policies in these numbers allow |
| AutoscalerNumbers.DropReaches | pkg/controller/autoscaler/autoscaler.go:769-943 | the same for drops, with the minimum |
| AutoscalerGuarantees.BehaviorStabilization | pkg/controller/autoscaler/autoscaler.go:709-765 | the stabilised count is the current one clamped to the least and the greatest of the proposal and everything ever recorded inside the two windows, and lies between current count and proposal |
| AutoscalerGuarantees.PlainStabilization | pkg/controller/autoscaler/autoscaler.go:535-557 | the plain result is the maximum of the proposal and everything ever recorded inside the window; the buffer stays bounded |
| AutoscalerGuarantees.RangeKept | pkg/controller/autoscaler/autoscaler.go:294-346 | every written reconcile that a zero count does not disable ends in the range |
| AutoscalerGuarantees.NeverAgainstProposal | pkg/controller/autoscaler/autoscaler.go:596-622 | with behaviors a step never moves against the proposal nor past it |
| AutoscalerGuarantees.PlainMovesAgainstProposalIff | pkg/controller/autoscaler/autoscaler.go:535-578 | without behaviors, in every run, a step with a proposal of at most the current count rises if and only if the count is below the maximum and a higher proposal was recorded inside the window |
| AutoscalerGuarantees.PlainNeverFallsAgainstProposal | pkg/controller/autoscaler/autoscaler.go:535-578 | without behaviors a step with a proposal of at least the current count does not fall |
| AutoscalerGuarantees.PlainCanMoveAgainstProposal | pkg/controller/autoscaler/autoscaler.go:561-578 | a concrete run that rises against the proposal |
| AutoscalerGuarantees.PlainStepBounded | pkg/controller/autoscaler/autoscaler.go:859-861 | a plain step ends at most at the doubled count, or four |
| AutoscalerNumbers.PlainStepEnds | pkg/controller/autoscaler/autoscaler.go:561-578 | in every run a plain step, up or down, ends at the greatest proposal recorded inside the window, or at the greatest count that the maximum and doubling (or four) allow if that is less, or at the minimum |
| AutoscalerNumbers.RulesInNumbers | pkg/controller/autoscaler/autoscaler.go:823-861 | the same of the normalisation alone, for any desired count |
| AutoscalerNumbers.OutOfRangeEnds | pkg/controller/autoscaler/autoscaler.go:294-304 | a count out of range is brought to the nearer end, a zero count below the minimum stays at zero, and neither records a proposal |
| AutoscalerNumbers.NothingWritten | pkg/controller/autoscaler/autoscaler.go:304-390 | without a proposal, or with a failed write, the count stays and no scale event is remembered |
| AutoscalerGuarantees.FullDemandReachesMax | pkg/controller/autoscaler/autoscaler.go:561-578 | sustained proposals of the maximum reach it from any positive count after k steps once 2^k is at least the maximum |
| StoragedScaling.StorageScaler.AdvanceSpace | pkg/controller/component/data_balancer.go:27-140 | start, poll, recover or record the job of one space, as in the run theorems |
| StoragedScaling.StorageScaler.DoScaleIn | pkg/controller/component/storaged_scaler.go:119-238 | moving data off the hosts, dropping them and clearing the bookkeeping, with every early return; what of it comes only after what is `StoragedSafety.ScaleInIsSafe` |
| StoragedScaling.StorageScaler.DoScaleOut | pkg/controller/component/storaged_scaler.go:59-117 | waiting for the pods and balancing onto them, with every early return; that all spaces are balanced when it is over is `StoragedBalancing.ExactlyTheBalancingDue` |
| StoragedScaling.StorageScaler.SyncStoragedWorkload | pkg/controller/component/storaged_cluster.go:236-289 | scaling comes before the workload update, which happens only if it succeeded |
| StoragedSafety.ScaleInIsSafe | pkg/controller/component/storaged_scaler.go:159-211 | in every run from clean bookkeeping, lost status writes included, hosts are asked to be dropped only after a removal job for exactly those hosts was reported finished for every space; and the workload is shrunk, and the bookkeeping cleared, only after the drop of exactly those hosts was answered without error, the latter only after the volumes were marked and found gone |
| StoragedSafety.RunsKeepInvariant | pkg/controller/component/data_balancer.go:83-140 | every space entered as done, in the stored or in the current status, really had its job finished |
| StoragedStart.SafeStartIff | pkg/controller/component/data_balancer.go:83-140 | that safety holds under every environment if and only if the bookkeeping is clean at the start |
| StoragedStart.InterruptedScaleOut | pkg/controller/component/data_balancer.go:27-81 | a scale-out whose first balance job was started leaves bookkeeping that is not clean |
| StoragedStart.InterruptedScaleOutIsUnsafe | pkg/controller/component/storaged_scaler.go:119-238 | if the target is then lowered, a run drops hosts with data on them |
| StoragedStart.AllGoodEnds | pkg/controller/component/storaged_scaler.go:119-238 | if everything succeeds, one reconcile per space and one more shrink the workload and clear the bookkeeping |
| StoragedProgress.JobsOneAtATime | pkg/controller/component/storaged_scaler.go:183-237 | with durable status writes at most one removal job is outstanding at any point of any run |
| StoragedMeasure.DropOutcome | pkg/controller/component/storaged_scaler.go:193-197 | the drop counts as done, and the reconcile goes on, if and only if the request was answered without error |
| StoragedMeasure.StartOutcome | pkg/controller/component/data_balancer.go:27-140 | a job counts as started, and is recorded, if and only if the meta service returned one; the reconcile ends either way |
| StoragedMeasure.PollOutcome | pkg/controller/component/data_balancer.go:27-140 | what a poll leaves for each state of the job: nothing, a recovery, or the space entered, for a scale-out only with its leaders balanced |
| StoragedMeasure.FinishOutcome | pkg/controller/component/storaged_scaler.go:213-237 | the bookkeeping is cleared if and only if the volumes could be marked and are found gone |
| StoragedMeasure.ReconcileLowers | pkg/controller/component/data_balancer.go:27-140 | with durable writes, a reconcile that does not end the operation lowers the measure (two per space, one less once its job is started, one per unbalanced leader set) by exactly the jobs started and finished and the leaders balanced in it |
| StoragedMeasure.ScaleInEnds | pkg/controller/component/storaged_scaler.go:183-237 | with durable writes, three reconciles per space and one more in which any job was started or finished or leaders were balanced, however they ended, shrink the workload and clear the bookkeeping; as many again for each failed workload update after clearing |
| StoragedMeasure.ExactlyTheWorkDue | pkg/controller/component/storaged_scaler.go:183-237 | when the bookkeeping is first cleared, exactly the pending spaces have had a job finished and their leaders balanced |
| StoragedMeasure.NoMoreThanDue | pkg/controller/component/storaged_scaler.go:183-237 | before that, there are at most as many finished jobs, and as many leader balances, as spaces |
| StoragedBalancing.LeadersBeforeClearing | pkg/controller/component/storaged_scaler.go:200-237 | in every run from clean bookkeeping, lost status writes included, the bookkeeping of a scale-in is cleared only after the leaders of every space that was due were balanced |
| StoragedBalancing.AbandonedScaleIn | pkg/controller/component/storaged_scaler.go:159-237 | a scale-in whose target was put back moves no data and drops nothing; if all goes well it clears the bookkeeping and the workload gets its target |
| StoragedBalancing.IdleKeeps | pkg/controller/component/storaged_cluster.go:236-289 | with the target reached and no operation under way nothing is asked for and the status is kept |
| StoragedProgress.GoodReconcilesClear | pkg/controller/component/storaged_scaler.go:183-237 | one reconcile per space and one more in which nothing goes wrong clear the bookkeeping, however many others fail in between |
| StoragedScaleOut.BalanceJobsOneAtATime | pkg/controller/component/storaged_scaler.go:83-117 | with durable status writes at most one balance job is outstanding at any point of any run that scales out |
| StoragedOutMeasure.ScaleOutEnds | pkg/controller/component/storaged_scaler.go:83-117 | with automatic balancing on, two useful reconciles per space and one more enlarge the workload and bring the phase back to Running with all bookkeeping of the scale-out cleared; as many again for each failed workload update; that the work was done by then is `StoragedBalancing.ExactlyTheBalancingDue` |
| StoragedBalancing.RunsBalance | pkg/controller/component/storaged_scaler.go:83-117 | in every run that scales out with automatic balancing on, lost status writes included, a space enters the balanced list only after its own job, started or recorded at the start, was reported finished and its leaders were balanced; and a stored status that is Running, other than the one at the start, means that every space due was balanced so |
| StoragedBalancing.RunningMeansBalanced | pkg/controller/component/storaged_scaler.go:83-117 | with durable writes the stored phase after any reconcile is Running only when every space due was balanced so |
| StoragedBalancing.ExactlyTheBalancingDue | pkg/controller/component/storaged_scaler.go:104-116 | when the phase is first Running again, every space due had its job started and reported finished and its leaders balanced, and no other job was started and no other leaders were balanced |
| NodeZoneSpread.PlacedPodsAreSpread | pkg/scheduler/nodezone/node_zone.go:181-349 | in every interleaving of cycles, binds, zone-map writes and re-creation of mapped pods, two placed pods of a triple are in different zones; that pods do get placed is `NodeZoneProgress.TripleNeverStuckIff` |
| NodeZoneSpread.StepKeepsInvariant | pkg/scheduler/nodezone/node_zone.go:181-373 | each step keeps every placed pod in a zone different from those of the earlier pods of its triple, which are settled |
| NodeZoneSpread.PermittedIsAdmissible | pkg/scheduler/nodezone/node_zone.go:280-349 | what Permit lets through has the earlier pods of its triple settled in other zones |
| NodeZoneSpread.MapKeepsInvariant | pkg/controller/component/storaged_cluster.go:468-505 | writing the zone of a bound pod into the map keeps all this |
| NodeZoneSpread.TrimKeepsInvariant | pkg/controller/component/storaged_cluster.go:512-544 | so does rewriting the map without the entries of pods that are gone |
| NodeZoneDeletion.DeletionHarmsIff | pkg/scheduler/nodezone/node_zone.go:181-349 | in every state reached without such deletions, deleting a placed pod that is not in the zone map can lead, with no further such deletion, to two placed pods of its triple in one zone if and only if a later pod of the triple is placed |
| NodeZoneSpread.UnmappedAnchorLosesSpread | pkg/scheduler/nodezone/node_zone.go:181-349 | a concrete run in which it does |
| NodeZoneProgress.FilterIff | pkg/scheduler/nodezone/node_zone.go:181-277 | Filter lets a labelled node through, for a mapped pod, if and only if the node is in the mapped zone, for another pod if and only if it is the first of its triple or every bound neighbour is on a labelled node of another zone; it fails only without the cycle state |
| NodeZoneProgress.PermitIff | pkg/scheduler/nodezone/node_zone.go:280-349 | Permit succeeds if and only if all earlier pods of the triple are bound to known nodes of other zones (labelled, for the second), and says wait if and only if the first earlier pod for which that is not so is not bound |
| NodeZoneProgress.ReleasedTogether | pkg/scheduler/nodezone/node_zone.go:357-373 | a pod that gives up its place, unless it is the first of its triple, takes exactly the waiting pods of its triple with it |
| NodeZoneProgress.TripleNeverStuckIff | pkg/scheduler/nodezone/node_zone.go:181-373 | after every run in which placed pods are deleted only once mapped, some continuation of that kind has all three pods of a given triple bound in three zones, if and only if there are nodes in three zones |
| RollingUpdate.GetNextUpdatePod | pkg/controller/component/helper.go:322-346 | the descending loop computes the choice characterised by `RollingUpdate.NextBelowIff` |
| RollingUpdate.NextBelowIff | pkg/controller/component/helper.go:322-346 | a pod is chosen if and only if it is outdated and every higher one is updated and running; none is left if and only if all are |
| RollingUpdate.StoragedWorkload.Update | pkg/controller/component/storaged_updater.go:66-132 | which partition is written and when none, and the annotations left behind, as characterised by `RollingUpdate.GivenUpAtOnce`, `GivenUpInTime`, `NothingGivenUp` and `WrittenWithoutNext` |
| RollingUpdate.LeadersGetTheirTime | pkg/controller/component/storaged_updater.go:228-299 | over all sequences of reconciles of the workload, a pod that serves data is given up only when its leaders are known, and are gone or had the time limit since a reconcile that annotated the pod; and it is given up once they are gone or have had it |
| RollingUpdate.LoweredOnlyIfReady | pkg/controller/component/storaged_updater.go:66-132 | the partition is lowered only to an outdated pod that is ready or need not be waited for, with everything above it updated and running; when it is lowered is `RollingUpdate.GivenUpAtOnce` and `GivenUpInTime` |
| RollingUpdate.GivenUpAtOnce | pkg/controller/component/storaged_updater.go:245-247 | if there are no spaces, or fewer than three replicas, or the update is forced, the next pod is given up at once, and no pod is annotated |
| RollingUpdate.GivenUpInTime | pkg/controller/component/storaged_updater.go:249-299 | otherwise the next pod is annotated with the time in whole seconds, if it is not yet and can be, and is given up if and only if its leader count is known and is zero or the time limit has passed; the other annotations stay |
| RollingUpdate.NothingGivenUp | pkg/controller/component/storaged_updater.go:66-132 | with no pod to give up the annotations stay, and the partition moves only to the replica count, when a scaling, another update, a changed template or a finished rollout stands in the way |
| RollingUpdate.WrittenWithoutNext | pkg/controller/component/storaged_updater.go:66-132 | the workload is then written if and only if something stands in the way, or all pods are updated and the leaders are spread |
| RollingUpdate.RolloutEnds | pkg/controller/component/storaged_updater.go:66-132 | if nothing holds the reconciles up, each of them, with time for the StatefulSet controller after it, brings exactly one pod to the update revision, from the highest down, and as many as there are pods finish the rollout |
| RollingUpdate.RolloutIsOrderly | pkg/controller/component/helper.go:322-346 | in every interleaving, with pods looked at one by one, pods above the partition are on the update revision, only the pod at the partition can be in replacement, and the partition drops by one, after all pods from it on were updated and running |
| RollingUpdate.RunsStaySplit | apis/apps/v1alpha1/nebulacluster_common.go:1177-1181 | the invariant from a partition that starts at the replica count |
| RollingUpdate.UninterruptedScan | pkg/controller/component/helper.go:322-346 | a scan that nothing interrupts ends with what the loop returns |
| RollingUpdate.DesiredStepIff | pkg/controller/component/storaged_updater.go:66-132 | a reconcile keeps the partition or lowers it by one if and only if it does not write the replica count back in mid-rollout |
| RollingUpdate.CanFinish | pkg/controller/component/storaged_updater.go:66-132 | from every reachable state a run leads to partition zero with every pod updated and running |
| CronSchedule.MostRecentScheduleTime | pkg/controller/cronbackup/cronbackup_manager.go:189-255 | the search terminates and returns the last instant reached after the jump |
| CronSchedule.ReturnedIsLatest | pkg/controller/cronbackup/cronbackup_manager.go:189-255 | a returned instant is the greatest one up to now and later than the last scheduled one |
| CronSchedule.FoundIff | pkg/controller/cronbackup/cronbackup_manager.go:216-255 | an instant is found if and only if one lies between the place searched from and now |
| CronSchedule.OverlookedIff | pkg/controller/cronbackup/cronbackup_manager.go:216-255 | the latest due instant is returned if it lies after the jump, and overlooked otherwise |
| CronSchedule.FoundByAge | pkg/controller/cronbackup/cronbackup_manager.go:216-255 | with more than one due, the latest instant is found if it is younger than the interval between the first two, and overlooked if it is at least twice that old |
| CronSchedule.OneAndTwoOverlooked | pkg/controller/cronbackup/cronbackup_manager.go:216-255 | the cron expression for one and two o'clock of every day, with both instants overlooked at eight in the evening, and a negative delay |
| CronSchedule.DelayPositiveIff | pkg/controller/cronbackup/cronbackup_manager.go:154-166 | the requeue delay is positive if and only if nothing is due, or something is due after the jump |
| CronDecisions.DelayAimsAtNextInstant | pkg/controller/cronbackup/cronbackup_manager.go:154-166 | for schedules that overlook nothing, the requeue delay of an undisturbed reconcile ends a tenth of a second after the least instant to come |
| CronDecisions.TooManyMissedIff | pkg/controller/cronbackup/cronbackup_manager.go:216-255 | with a constant interval, too many are missed if and only if more than a hundred instants are due |
| CronSchedule.SteadyAlwaysFound | pkg/controller/cronbackup/cronbackup_manager.go:216-255 | with a constant interval the latest due instant is found, however many were missed |
| CronSchedule.SteadyDelayPositive | pkg/controller/cronbackup/cronbackup_manager.go:154-166 | with a constant interval the delay is always positive |
| CronRuns.CronBackupManager.Sync | pkg/controller/cronbackup/cronbackup_manager.go:68-116 | status, backups, delay and error of one reconcile, on every path |
| CronDecisions.PausedDoesNothing | pkg/controller/cronbackup/cronbackup_manager.go:73-76 | a paused cron backup creates nothing, keeps its status and asks for no requeue |
| CronDecisions.PausedRunsCreateNothing | pkg/controller/cronbackup/cronbackup_manager.go:73-76 | over any run of paused reconciles nothing is created and the status stays, whatever else happens |
| CronDecisions.HinderedChangesNothing | pkg/controller/cronbackup/cronbackup_manager.go:118-139 | while the last backup is running, or cannot be asked for, nothing is created or recorded and the reconcile fails |
| CronDecisions.DueIsCreated | pkg/controller/cronbackup/cronbackup_manager.go:78-116 | otherwise the one backup named after the latest instant due is created unless the creation is refused or it exists, and instant and backup are recorded if and only if no error is reported |
| CronDecisions.NothingDue | pkg/controller/cronbackup/cronbackup_manager.go:97-105 | with no instant due nothing changes and a requeue is asked for |
| CronRuns.CronBackupManager.CanPerformNextBackup | pkg/controller/cronbackup/cronbackup_manager.go:118-139 | a new backup may start if the last one is gone or over |
| CronRuns.CronBackupManager.CreateBackup | pkg/kube/nebulabackup.go:62-70 | an existing object of the name counts as created |
| CronRuns.CronExpressionIsExact | pkg/controller/cronbackup/cronbackup_manager.go:189-255 | the run theorems apply to every schedule of whole-second instants |
| CronRuns.ConstantIntervalIsExact | pkg/controller/cronbackup/cronbackup_manager.go:189-255 | and to every constant interval, whose instants are the ticks after the creation |
| CronRuns.ConstantIntervalFinds | pkg/controller/cronbackup/cronbackup_manager.go:189-255 | a constant interval never overlooks a tick |
| CronRuns.StepKeepsConsistent | pkg/controller/cronbackup/cronbackup_manager.go:68-116 | a recorded scheduled time is an instant, never in the future, and any new one is later than the one before |
| CronRuns.RunsStayConsistent | pkg/controller/cronbackup/cronbackup_manager.go:68-116 | the same over every run, lost status writes included; objects are created in order of their instants |
| CronRuns.CreatedOnce | pkg/controller/cronbackup/cronbackup_manager.go:141-147 | each instant yields at most one object over every run, lost status writes included, if only backups that cannot be picked again are removed |
| CronRuns.RemovalIsSafeIff | pkg/controller/cronbackup/cronbackup_control.go:95-137 | removing a finished backup never leads to a second one for its instant if and only if the instant is recorded or a later one has come |
| CronRuns.OneAtATime | pkg/controller/cronbackup/cronbackup_manager.go:118-139 | with durable status at most one backup is unfinished |
| CronRuns.LosingMattersIff | pkg/controller/cronbackup/cronbackup_manager.go:107-112 | for every reachable state and reconcile, two backups can be unfinished at once afterwards if and only if it created one that the stored status does not record |
| CronRuns.LostWriteRunsTwo | pkg/controller/cronbackup/cronbackup_manager.go:111-112 | a concrete run with a lost write and two unfinished backups |
| CronRuns.HarmfulRemovalReachable | pkg/controller/cronbackup/cronbackup_control.go:95-137 | a reachable state in which a removal is not harmless |
| CronRuns.CaughtUp | pkg/controller/cronbackup/cronbackup_manager.go:68-116 | an unhindered reconcile leaves no instant due, its backup exists, and the delay is positive |
| WorkerGroup.ConcurrencyBounded | pkg/util/async/async.go:35-40 | in every interleaving, workers started and not yet collected never exceed the concurrency |
| WorkerGroup.NeverStuckIff | pkg/util/async/async.go:27-66 | no reachable state before the return is stuck if and only if the concurrency is positive or there is no worker |
| WorkerGroup.ReturnsExactlyAtTheEnd | pkg/util/async/async.go:42-65 | every run has at most five steps per worker and returns exactly at the last, after one receipt per worker, with nothing left running |
| WorkerGroup.NilIffAllFine | pkg/util/async/async.go:42-65 | nil is returned if and only if every worker sent nothing, or an empty list of errors |
| WorkerGroup.EveryErrorReturned | pkg/util/async/async.go:42-65 | every error is returned as often as the workers sent it, alone or in lists, and no other is |
| WorkerGroup.ErrorsStayTogether | pkg/util/async/async.go:48-53 | the errors of each worker are next to each other in the result, in the order in which it listed them |
| SuspendOrder.NebulaCluster.SuspendComponent | pkg/controller/component/helper.go:620-649 | phase, workload and result of the suspend decision on every path |
| SuspendOrder.NebulaCluster.CanSuspendComponent | pkg/controller/component/helper.go:651-669 | the loop over the suspend order decides whether everything before the component is suspended |
| SuspendOrder.NebulaCluster.UpdateNebulaCluster | pkg/controller/nebulacluster/nebula_cluster_control.go:140-165 | metad, storaged and graphd in this order, ending at the first error |
| SuspendOrder.RunsKeepOrder | pkg/controller/component/helper.go:620-669 | under arbitrary toggling, failures and lost writes, storaged is in Suspend only if graphd is, and metad only if both are |
| SuspendOrder.RunsDeleteInOrder | apis/apps/v1alpha1/nebulacluster_graphd.go:361-369 | with durable writes, a workload is deleted only when those before it in the order are gone |
| SuspendOrder.LosingMattersIff | pkg/controller/component/helper.go:620-669 | for every reachable state and reconcile, a workload can be deleted too early afterwards if and only if the reconcile creates graphd or storaged while its status reports none, and the status write or the answer is lost |
| SuspendOrder.LostWriteUnreported | pkg/controller/component/graphd_cluster.go:158-175 | such a reconcile: graphd is created after a resume and the status write is lost |
| SuspendOrder.SuspensionCompletes | pkg/controller/component/helper.go:620-669 | six undisturbed reconciles suspend a running cluster and delete all workloads |
| SuspendOrder.ResumptionCompletes | pkg/controller/component/helper.go:620-649 | undisturbed reconciles with the flag off bring any cluster, suspended, half-suspended or busy, back to running components with reported workloads, after a number of them that its state determines |
| SuspendOrder.FiveResume | pkg/controller/nebulacluster/nebula_cluster_control.go:140-165 | that number is at most five, and further reconciles change nothing |
| FlagConfig.AppendCustomConfig | pkg/util/config/config.go:32-82 | the scan and the sorted custom section compute the rendering, and what is deleted from the caller's map |
| FlagConfig.SortedKeys | pkg/util/config/config.go:73-77 | the keys of the custom section, each once and in ascending order |
| FlagLayout.RenderedLayout | pkg/util/config/config.go:32-82 | for every template and any custom parameters: blank lines, comments and parameters of the template keep their places, other lines are gone, a custom value stands exactly where the template first has its parameter, and the custom parameters that the template does not have, and only these, follow below the header, if there are any |
| FlagLayout.LeftOver | pkg/util/config/config.go:56-60 | what is left of the caller's map is exactly the parameters that no line of the template names |
| FlagConfig.RenderedValue | pkg/util/config/config.go:32-82 | what reading the rendered file, last line winning, gives for each name, for every template |
| FlagConfig.OverrideIff | pkg/util/config/config.go:32-82 | on plain lines, it reads as the template overridden by given custom parameters if and only if no later line sets one of them to something else |
| FlagConfig.AlwaysOverridesIff | pkg/util/config/config.go:32-82 | on plain lines, all custom parameters take effect if and only if no line sets a parameter again after a valued line |
| FlagConfig.RepeatedLineWins | pkg/util/config/config.go:56-63 | a template for which they do not: one parameter set twice |
| FlagConfig.UnplainLineIsLost | pkg/util/config/config.go:29 | a line that is not plain, whose own parameter is lost |
| FlagConfig.DistinctOverride | pkg/util/config/config.go:32-82 | with distinct word-named parameters, lines of empty value included, it always does |
| FlagConfig.SeparateFlags | apis/apps/v1alpha1/nebulacluster_common.go:1367-1378 | dynamic and static flags partition the config |
| FlagConfig.IntersectionDifference | pkg/util/maputil/map.go:60-74 | changed values and removed keys |
| FlagConfig.ResetMap | pkg/util/maputil/map.go:76-85 | values present in the second map replace those of the first; no key is added |
| FlagConfig.UpdateDynamicFlags | pkg/controller/component/helper.go:234-269 | the patch sent to the processes, if any |
| FlagConfig.PatchIff | pkg/controller/component/helper.go:234-269 | after the patch a process has its start flags overridden by the new ones if and only if each removed flag was started with its default |
| FlagConfig.PatchIsReapplication | pkg/controller/component/helper.go:234-269 | on top of the defaults, the incremental patch equals full reapplication |
| FlagConfig.HistoryOfPatches | pkg/controller/component/helper.go:234-269 | and so does every sequence of patches |
| RestorePlacement.PathSelector.EvenlyGet | pkg/util/restore/selector.go:33-37 | paths are handed out in turn, wrapping round |
| RestorePlacement.RestoreAgent.DownloadStorageData | pkg/controller/nebularestore/nebula_restore_manager.go:522-590 | every part of every backup goes to all its hosts; through all backups each part keeps a single data path on each host, and any two data paths of a host receive numbers of parts that differ by at most one |
| RestoreRequests.AskedIff | pkg/controller/nebularestore/nebula_restore_manager.go:530-541 | a part is downloaded to a host from a backup if and only if the backup has the part and the host is one of those that take it |
| RestoreRequests.AskedOnce | pkg/controller/nebularestore/nebula_restore_manager.go:530-541 | nothing is downloaded twice if backups, parts and hosts are each listed once |
| RestorePlacement.PathShare | pkg/util/restore/selector.go:33-37 | the parts downloaded to a data path are an even share of the parts downloaded to its host |
| RestorePlacement.EvenSpread | pkg/util/restore/selector.go:33-37 | the same as a difference of at most one between any two data paths |

## Left out

- Overflow of 32-bit counts: the autoscaler's counts are unbounded integers; the model agrees with the code for counts up to 2^30.
- Rounding of float64: percent policies use exact fractions, rounded up for rises and towards zero for drops.
- Metric fetching and the replica calculation: the proposal is an arbitrary integer, or none.
- Policy types other than Pods and Percent, and missing stabilisation windows: the API server fills in and validates these.
- Spec changes in mid-window, a clock that runs backwards, and stale caches: the autoscaler's spec, the space list, the target and the hosts to remove are fixed during a run, and the clock does not decrease.
- The check that the claims of removed storage pods are gone, and failures of pod listings: part of what a reconcile sees.
- Automatic failover and restart of single storage pods.
- StoragedOutMeasure.ScaleOutEnds: assumes that automatic balancing stays on, since the code returns to Running with the bookkeeping as it is when it is off; where the data ends up is decided by the meta service.
- StoragedBalancing.RunsBalance: assumes that automatic balancing stays on, for the same reason.
- AutoscalerNumbers.RiseReaches: for specs whose longest rise period is at most the longest drop period; with others the limit can be lower than the true past counts allow (`AutoscalerGuarantees.UpStartsRightIff`). AutoscalerNumbers.DropReaches needs it the other way round.
- CronDecisions.DelayAimsAtNextInstant: about schedules that never overlook an instant; `CronSchedule.DelayPositiveIff` covers the others.
- RollingUpdate.RolloutEnds: about reconciles that need not wait; how long others wait is RollingUpdate.LeadersGetTheirTime.
- StoragedMeasure.ScaleInEnds: assumes durable status writes.
- AutoscalerBounds.RiseWithinPolicies: excludes percentages below -100 for rises, which turn the sign of the count; policy values are documented to be positive.
- AutoscalerDropPeriods.DownStartsRightIff: about specs that can raise the count; without rises there is nothing to miscount.
- NodeZoneSpread.PlacedPodsAreSpread: assumes zone labels that are not empty, listers that are up to date, and that a pod which holds or is getting a node is deleted only once it is in the zone map; NodeZoneDeletion.DeletionHarmsIff says which other deletions do harm.
- The log line in Filter that looks up the pod's zone in the sorted zone list, and the sorted list itself.
- RollingUpdate.RolloutIsOrderly: one update revision that the operator already sees in the stored status; replica counts do not change meanwhile, and the path that writes the replica count back is covered by RollingUpdate.DesiredStepIff only.
- RollingUpdate.LeadersGetTheirTime: the annotation is the one the operator wrote; an annotation that cannot be parsed, and a pod that cannot be read again once chosen, are not modelled.
- Transfer of leaders to peers before a storage pod is replaced: only its outcome, the leader count and the elapsed time, is seen.
- Parsing of cron expressions and their search limit: a schedule is a function to a later instant. The time of the last successful backup and the choice of expired backups are not modelled; any finished backup may expire.
- CronRuns.CreatedOnce: one way only over runs; the exact condition is given for each removal by CronRuns.RemovalIsSafeIff, for schedules that never overlook an instant.
- The worker group's context: it is never cancelled by the operator, and the model has no such step.
- Components missing from the spec, and workloads created by others, in the suspend order. A deleted workload is gone at once in the model, so the time its pods take to stop is not seen.
- CronRuns.LosingMattersIff: about schedules that never overlook an instant, as every constant interval does.
- Text of a configuration file: lines are given as a list, so values with line breaks and the handling of carriage returns are not modelled; lines that start with neither a hash nor two dashes (with one dash or white space, say) are dropped by the code and not read by the model.
- Failures of the agents during a restore end it with an error and are not modelled; the checkpoint paths kept for clean-up are the download targets. The parts of one backup are taken in any order.
- Generation of Kubernetes objects, certificates, conditions, events and log messages.
