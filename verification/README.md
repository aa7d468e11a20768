# HPA+ verification

Dafny models of the hard parts of HPA+, a predictive autoscaling operator, with proofs of what they promise. `dafny verify dfyconfig.toml` checks the whole project.

The parts, and the modules that hold them:

- **Fenced, sharded history store.** `Chunking`, `Manifest`, `StoreLoops` hold the loops of one commit, load and cleanup. `ShardedStore` is a transition system of any number of mutation calls, cleanups at any speed, crashes, and requests whose response is lost and which may take effect at any later time. `ShardedStoreProofs` keeps its invariant step by step; `ShardedStoreTheorems` draws the promises over whole runs.
- **Write-ahead scale journal.** `ScaleJournal` is a transition system in which journal, Scale and status never commit together, a process may die and a response may be lost at every write, and a Scale write may land at any later time or never. `ScaleJournalProofs` keeps its invariant, `ScaleJournalTheorems` draws the promises over whole runs, `ScaleJournalExamples` holds the runs that break the stronger ones.
- **Scaling decision.** `ScaleBehavior`, `Decision`, `Sorting`, and `RateRun`, which ties the persisted event histories to the real replica trajectory. `JournalRate` joins it to the journal: undisturbed journal runs leave exactly the histories the rate limit counts on.
- **Interval algebra.** `Timed`, `TimedCache`, `SplitWindows` for forecasts; `Integrate`, `IntegrateTheorems` for CPU accounting over sets of instants.
- **Training history.** `History`, `HistoryFacts`, `Sampler`, `SamplerData`, `SamplerRun`, `Slots`, `Backoff`; `Completion`, `CompletionProofs`, `CompletionExamples` for the fences of concurrent fits, samplers and rebindings; `SamplerFence` shows that the two machines describe the same writes.
- **Smaller machines.** `Quality`, `QualityFacts`, `QualityRun`, `QualityRestarts`, `Quantile` (forecast reliability), `Sessions`, `SessionsAdmission`, `SessionsExchange` (worker registry and exchange gate), `Observations`, `ObservationsRun` (observation cache).

Conventions. An instant is an integer number of nanoseconds since the zero time, and 0 is the zero time. A digest stands for the bytes it digests. Concurrent code is a state machine: `Exec` performs one step, a step that is not enabled changes nothing, `Run` performs a sequence, and theorems quantify over every sequence. Sequential code that updates variables or objects is a method or a class, proved against a function.

Where a promise turned out not to hold for all inputs, the code is modelled as it is, a lemma gives a failing input or run, and another gives the exact condition:

- The rate limit's period start is the count by the persisted stamps, for periods that both pruned histories cover. That is the real count exactly when the writes stamped at or before the cutoff and written after it cancel out (`PeriodStartIsReal`, `PeriodStartIsRealExactly`, `StraddlingWriteMiscounts`, `UncoveredPeriodMiscounts`).
- A plan counts a durable charge exactly when the status it read is no older than the charge (`PlanCountsChargeExactly`, `CachedStatusMayMissTheCharge`). A charged decision was accepted exactly when nothing else moved the Scale version it was planned on (`ChargedWasAcceptedExactly`, `RecoveryMayOvercharge`).
- An accepted Scale write on an unchanged target is charged before the next plan exactly when no recovery read Scale and cleared the journal while that request was in flight (`AcceptedIsChargedExactly`, `LateWriteIsNeverCharged`).
- A merged trajectory is accepted by the cache check exactly when the preserved interval starts before the end of the completion second; the code reads the clock twice, so a merge can land after it (`ProducerAndValidatorAgree`, `LaterMergeCanBeRejected`).
- A split window is valid exactly when its moved part is at least a nanosecond and does not start at the zero time (`SplitIsValidExactly`, `UnresolvableSplitExists`).
- CPU adds up over adjacent intervals exactly when no pod has CPU measured before its own creation (`CpuIsAdditiveExactly`).
- No forecast is ever scored twice (`ScoredAtMostOnce`), but scored intervals can overlap across a restart of the evidence: they stay disjoint in every continuation exactly when the restart comes no earlier than a nanosecond before the last scored end (`RestartKeepsDisjointExactly`, `LeadChangeOverlaps`). From an arbitrary stored state and policy an observation keeps the state loadable exactly when the recent window does not overflow (`ObserveKeepsValidExactly`); no run of the code reaches such an overflow (`NeverDiscarded`).
- A cached read leaves an observation at least as new exactly when it began no earlier than the cached one, because an earlier lookup evicts it (`ReadKeepsNewerExactly`).
- An owner's cached observation goes back in time only across a state without one (`CachedMovesForward`), and which step drops it is exact: besides being forgotten or looked up in vain, an owner loses it to another owner's entry exactly when the entries used no less recently than it leave no room for that entry (`DroppedExactly`).
- A fit is published into the window it trained on exactly when, since its start, no write replaced the window under a superseded spec, from another source, or by returning to a target left since the last edit (`FitsStayInTheirWindow`, and the three runs in `CompletionExamples`). A writer owns the resource at its swap exactly when no edit or recreation came after its last comparison (`OwnershipLastsUntilEdit`, `LateEditDoesNotStopPublication`).
- Every recorded fit failure is honoured exactly when the maximum delay is a whole number of seconds or a single nanosecond more; a malformed policy falls back for the delay but not for the check, so its maximum must reach the default (`AlwaysHonouredExactly`). None is honoured exactly when even the first delay passes the maximum and a second (`NeverHonouredExactly`).

## Model

| member | source | states |
|---|---|---|
| `Chunking.Cut` | internal/controllers/sharded_store.go:218-242 | the creation loop makes the expected number of chunks, each the right bytes, and together they are the encoded state |
| `Chunking.JoinPieces` | internal/controllers/sharded_store.go:124-137 | concatenating all chunks gives back the encoded state |
| `Chunking.BudgetBoundsPieces` | internal/history/manifest.go:17-22 | a state within the 16 MiB budget needs at most 32 chunks |
| `Manifest.FenceOf` | internal/history/manifest.go:51-61 | an accepted fence is below the exhausted value, so it can be advanced |
| `Manifest.FenceRoundTrip` | internal/controllers/sharded_store.go:197-206 | the written decimal fence is read back as the same number, and only the exhausted one is refused |
| `Manifest.ScanRefs` | internal/history/manifest.go:77-86 | the reference scan succeeds exactly on valid references with distinct names and returns the total of their bytes |
| `Manifest.DecodeManifest` | internal/history/manifest.go:62-107 | a manifest is accepted exactly when version, count, every reference, name distinctness, total size and fence are right |
| `Manifest.ChunkNameIsLabel` | internal/controllers/sharded_store.go:232-233 | generated chunk names are legal labels with the root's prefix |
| `Manifest.ChunkNamesDiffer` | internal/controllers/sharded_store.go:232-233 | chunks of one commit have different names |
| `Manifest.CommittedManifestDecodes` | internal/controllers/sharded_store.go:218-258 | every manifest a commit writes passes the reader's checks |
| `StoreLoops.Assemble` | internal/controllers/sharded_store.go:124-137 | a load fails on any mismatch and otherwise returns exactly the encoded state |
| `StoreLoops.ChunkStore.Cleanup` | internal/controllers/sharded_store.go:264-293 | exactly the listed chunks of an older generation that the manifest does not name are deleted |
| `StoreLoops.CleanupKeepsManifest` | internal/controllers/sharded_store.go:264-293 | a load of the kept manifest still succeeds after a cleanup |
| `ShardedStoreProofs.FenceKeeps` | internal/controllers/sharded_store.go:197-215 | advancing the fence and starting a cleanup keeps the invariant that no cleanup may delete a published chunk |
| `ShardedStoreProofs.DropKeeps` | internal/controllers/sharded_store.go:283-286 | a delete delivered at any later time never removes a published chunk |
| `ShardedStoreProofs.CreateChunkKeeps` | internal/controllers/sharded_store.go:224-241 | staging a chunk keeps the invariant |
| `ShardedStoreProofs.ExecPublishKeeps` | internal/controllers/sharded_store.go:243-262 | the publishing compare-and-swap keeps the invariant |
| `ShardedStoreProofs.DeliverPutKeeps` | internal/controllers/sharded_store.go:209-211 | a root write whose response was lost keeps the invariant whenever it takes effect |
| `ShardedStoreProofs.StepKeeps` | internal/controllers/sharded_store.go:52-293 | every step of every actor keeps the invariant |
| `ShardedStoreTheorems.PublishedChunksSurvive` | internal/controllers/sharded_store.go:165-293 | in every run each chunk the root names exists with its published bytes, no running or stalled cleanup may delete it, and no load reports corruption |
| `ShardedStoreTheorems.NoLostUpdates` | internal/controllers/history_store.go:164-215 | published states form a chain, each the own mutation of its call applied to its predecessor, and no call is published twice |
| `ShardedStoreTheorems.LoadsArePublishedStates` | internal/controllers/sharded_store.go:52-152 | a successful load is one state that was published as a whole |
| `ShardedStoreTheorems.OvertakenRequestIsRefused` | internal/controllers/sharded_store.go:243-258 | a publication in flight whose fence was overtaken is refused whenever it arrives |
| `ShardedStoreTheorems.OvertakenNeverPublishes` | internal/controllers/sharded_store.go:197-258 | a writer whose fence was overtaken never publishes, at once or delivered late, however the run goes on |
| `ShardedStoreTheorems.UndisturbedCommitPublishes` | internal/controllers/sharded_store.go:165-262 | a commit nobody disturbs publishes exactly its target: inline, in new chunks, or reusing the current ones |
| `ScaleBehavior.PruneTimestampedReplicasToWindow` | internal/scalebehavior/scalebehavior.go:176-193 | the loop keeps exactly the samples within the window, in order |
| `ScaleBehavior.GetReplicaChanges` | internal/scalebehavior/scalebehavior.go:293-303 | the loop sums the changes within the period |
| `ScaleBehavior.PruneKeepsChanges` | internal/scalebehavior/scalebehavior.go:176-193 | pruning to a window at an earlier instant hides no change of a period within the window |
| `ScaleBehavior.GetLongestPolicyPeriod` | internal/scalebehavior/scalebehavior.go:162-174 | the longest period of the policies |
| `ScaleBehavior.CalculateScaleUpLimit` | internal/scalebehavior/scalebehavior.go:232-261 | the largest or smallest policy proposal on the period start, or the current count when disabled |
| `ScaleBehavior.CalculateScaleDownLimit` | internal/scalebehavior/scalebehavior.go:263-291 | the smallest or largest policy proposal on the period start, or the current count when disabled |
| `ScaleBehavior.DecideByRate` | internal/scalebehavior/scalebehavior.go:195-230 | the target, moved back towards the current count to the rate limit of its direction when it passes it |
| `ScaleBehavior.DecideTargetReplicasByBehaviorDetails` | internal/scalebehavior/scalebehavior.go:111-160 | stabilization, rate limit and bounds compose to the specified count |
| `ScaleBehavior.RateLimitMonotone` | internal/scalebehavior/scalebehavior.go:195-230 | a larger target never yields a smaller limited count |
| `ScaleBehavior.DecideMonotone` | internal/scalebehavior/scalebehavior.go:111-160 | stabilization, rate limit and clamp are together monotone in the target |
| `ScaleBehavior.NoScaleDownAgainstTarget` | internal/scalebehavior/scalebehavior.go:111-160 | a target at or above the current count never lowers it below the current count or the maximum |
| `RateRun.RecordKnows` | internal/controllers/scale_decision.go:179-188 | recording one write adds its own change, by its persisted whole-second stamp, to what the histories know, whatever pruning drops |
| `RateRun.EventsKnowPeriod` | internal/controllers/scale_decision.go:169-189 | repeated pruning hides nothing inside a period both windows cover |
| `RateRun.PeriodStartIsStamped` | internal/scalebehavior/scalebehavior.go:232-303 | in every run the computed start of a covered period is the count one period ago by the persisted stamps |
| `RateRun.StampedIsRealPlusDrift` | internal/controllers/scale_decision.go:87-133 | that count is ahead of the real one by exactly the writes stamped before the instant and written after it |
| `RateRun.PeriodStartIsReal` | internal/scalebehavior/scalebehavior.go:232-303 | in every run the computed start of a covered period is the real count one period ago if and only if those writes cancel out |
| `RateRun.UncoveredPeriodMiscounts` | internal/scalebehavior/scalebehavior.go:176-193 | for any period longer than a window there is a one-write run, straddling nothing, that miscounts |
| `RateRun.StraddlingWriteMiscounts` | internal/controllers/scale_decision.go:87-133 | for any covered period there is a one-write run, still under way one period ago, that miscounts |
| `RateRun.PeriodStartIsRealExactly` | internal/scalebehavior/scalebehavior.go:162-303 | the period start is real in every run without a straddling write if and only if both windows cover the period |
| `RateRun.UpLimitIsReal` | internal/scalebehavior/scalebehavior.go:232-261 | the computed up limit is the policies' limit on real counts |
| `RateRun.UpscaleWithinRealLimit` | internal/scalebehavior/scalebehavior.go:111-261 | in every run whose straddling writes cancel out, a scale-up stays within the limit on the real trajectory or at the minimum |
| `RateRun.DownLimitIsReal` | internal/scalebehavior/scalebehavior.go:263-291 | the computed down limit is the policies' limit on real counts |
| `RateRun.DownscaleWithinRealLimit` | internal/scalebehavior/scalebehavior.go:111-291 | in every run whose straddling writes cancel out, a scale-down stops at the limit on the real trajectory or at the maximum |
| `JournalRate.QuietRunsTraceTheTrajectory` | internal/controllers/scale_decision.go:51-218 | while nobody else changes the target and no recovery overtakes a request, through crashes, lost responses and recoveries: charges are the accepted writes in order and the newest status holds exactly their event histories |
| `JournalRate.QuietUpscaleWithinRealLimit` | internal/controllers/scale_decision.go:51-218 | so a plan made in such a journal run never scales up past the policies' limit on the real trajectory |
| `JournalRate.QuietDownscaleWithinRealLimit` | internal/controllers/scale_decision.go:51-218 | nor down past it |
| `Decision.DecideTargetReplicasByScalingStrategy` | internal/scalebehavior/scalebehavior.go:35-94 | fails exactly on no candidates, a negative one or an unknown strategy, and otherwise selects the strategy's statistic |
| `Decision.TotalOfPermutation` | internal/scalebehavior/scalebehavior.go:51-94 | summing the sorted copy is summing the candidates |
| `Decision.SelectWithinRange` | internal/scalebehavior/scalebehavior.go:35-94 | the selected count lies between the smallest and largest candidate |
| `Decision.SelectMonotone` | internal/scalebehavior/scalebehavior.go:35-94 | raising any candidate never lowers the selection, for every strategy |
| `Decision.PlanOnce` | internal/decision/decision.go:69-152 | the plan fails exactly on unplannable input and otherwise carries mode, selection, guard, desired count and all reasons |
| `Decision.PlanRollout` | internal/decision/decision.go:40-67 | control, baseline and assist results are computed over one history |
| `Decision.ReasonsExplain` | internal/decision/decision.go:132-150 | a desired count that differs from the selected one always comes with a reported reason |
| `Decision.PlanMonotoneInPredictions` | internal/decision/decision.go:69-152 | the whole plan is monotone in the predicted counts |
| `Decision.AssistNeverBelowBaseline` | internal/decision/decision.go:40-67 | assist mode never asks for less than the baseline |
| `Decision.IncompleteMetricsHold` | internal/decision/decision.go:117-131 | with incomplete metrics the desired count is at least the requested one, up to the maximum |
| `Decision.DesiredWithinBounds` | internal/decision/decision.go:69-152 | the desired count respects the configured bounds |
| `ScaleJournal.StatusObject.ProjectScaleDecision` | internal/controllers/scale_decision.go:169-189 | the status becomes the specified projection of the decision |
| `ScaleJournal.ProjectIdempotent` | internal/controllers/scale_decision.go:172-174 | projecting the same decision again changes nothing |
| `ScaleJournal.ProjectChargesTheChange` | internal/controllers/scale_decision.go:175-188 | a first projection charges the decision's change to the right history |
| `ScaleJournalProofs.RecoverKeeps` | internal/controllers/scale_decision.go:191-218 | recovery keeps the journal invariant on every branch |
| `ScaleJournalProofs.WriteScaleKeeps` | internal/controllers/scale_decision.go:130-145 | the Scale write keeps it, accepted, rejected or of unknown outcome |
| `ScaleJournalProofs.DeliverKeeps` | internal/controllers/scale_decision.go:133-145 | so does a Scale write that takes effect at any later time |
| `ScaleJournalProofs.StepKeeps` | internal/controllers/scale_decision.go:41-218 | every step of the controller and its environment keeps it |
| `ScaleJournalTheorems.ChargedAtMostOnce` | internal/controllers/scale_decision.go:169-218 | in every run no two durable statuses charge the same decision |
| `ScaleJournalTheorems.AcceptedIsChargedExactly` | internal/controllers/controller.go:203-226 | when a plan is made nothing is pending, and an accepted write on an unchanged target is charged if and only if no recovery cleared it while its request was in flight |
| `ScaleJournalTheorems.PromptReleasesNothing` | internal/controllers/scale_decision.go:191-218 | nothing is overlooked in runs whose recoveries find no request in flight |
| `ScaleJournalTheorems.WriteOnlyWhilePending` | internal/controllers/scale_decision.go:94-145 | every write takes effect once and uncharged, and on an unchanged target while it is pending if and only if it was not overlooked |
| `ScaleJournalTheorems.ChargedWasAcceptedExactly` | internal/controllers/scale_decision.go:205-217 | a charged decision was accepted if and only if its own write is what moved the version it was planned on |
| `ScaleJournalTheorems.PlanCountsChargeExactly` | internal/controllers/controller.go:203-226 | the status a plan starts from is the replay of the ledger up to it, and counts a charge if and only if it is no older than the charge |
| `ScaleJournalTheorems.CurrentPlanCountsAcceptedExactly` | internal/controllers/controller.go:203-226 | a plan on the newest status counts an accepted write on an unchanged target if and only if it was not overlooked |
| `ScaleJournalExamples.CachedStatusMayMissTheCharge` | internal/controllers/controller.go:203-226 | a run whose plan starts from a status without a durable charge |
| `ScaleJournalExamples.RecoveryMayOvercharge` | internal/controllers/scale_decision.go:205-217 | a run in which recovery charges a write that was never sent |
| `ScaleJournalExamples.LateWriteIsNeverCharged` | internal/controllers/scale_decision.go:133-145 | a run in which a timed-out write lands after recovery cleared it, and the next plan never counts it |
| `Timed.ValidateForecastTrajectory` | internal/algorithm/forecast_trajectory.go:16-31 | accepts exactly ordered, disjoint, valid points within the count limit |
| `Timed.ResolveMonotone` | internal/prediction/demand.go:90-117 | more demand never needs fewer replicas |
| `Timed.CeilingDivides` | internal/prediction/demand.go:100-112 | the integer division is the exact ceiling |
| `Timed.TimedWindowReplicas` | internal/prediction/timed.go:44-98 | the loop computes the recommendation of the pointwise demand and the first instant at which any window's status changes |
| `Timed.DeadlineIsSound` | internal/prediction/timed.go:44-98 | the recommendation is the same at every instant until the returned deadline |
| `Timed.AdjustedMonotone` | internal/prediction/timed.go:77-96 | more demand, with the same coverage, never lowers the adjusted count |
| `TimedCache.TrajectoryExpiry` | internal/prediction/timed.go:131-157 | succeeds exactly on a uniform grid over the horizon and returns its end |
| `TimedCache.ModelTrajectoryExpiry` | internal/prediction/trajectory.go:13-48 | the same with the horizon of the model's configuration |
| `TimedCache.MergeCurrentInterval` | internal/prediction/timed.go:105-126 | prepends the clipped interval in progress, if there is one, to the fresh points |
| `TimedCache.CachedTrajectoryDeadline` | internal/controllers/prediction_cache.go:211-229 | accepts exactly a fresh grid, or one behind a preserved interval |
| `TimedCache.MergedIsValid` | internal/prediction/timed.go:105-126 | the merged trajectory is a valid trajectory |
| `TimedCache.MergedKeepsDeadline` | internal/prediction/timed.go:105-126 | merging keeps the fresh deadline |
| `TimedCache.ProducerAndValidatorAgree` | internal/controllers/controller.go:665-668 | the cache check accepts a merge if and only if the preserved interval starts before the end of the completion second |
| `TimedCache.SameInstantAlwaysAgrees` | internal/controllers/prediction_cache.go:211-229 | merged at the completion instant, the check always accepts |
| `TimedCache.LaterMergeCanBeRejected` | internal/controllers/controller.go:665-668 | two clock readings apart, a merge is rejected |
| `TimedCache.FreshPointsTakeOver` | internal/prediction/timed.go:105-126 | the old expiry is never extended and the fresh points alone decide from their start |
| `SplitWindows.ForecastWindows` | internal/prediction/timed.go:23-42 | every window is moved back by the last window's length |
| `SplitWindows.ShiftMovesRecommendation` | internal/prediction/timed.go:16-42 | moving the windows moves the recommendation in time and changes nothing else |
| `SplitWindows.SplitRisingWindows` | internal/controllers/request_demand_reconstructed.go:356-384 | the loop computes the split, or returns the input when there would be too many points |
| `SplitWindows.SplitIsValidExactly` | internal/controllers/request_demand_reconstructed.go:356-384 | the split is ordered and valid if and only if every moved part is at least a nanosecond and starts off the zero time, or the input is returned |
| `SplitWindows.UnresolvableSplitExists` | internal/controllers/request_demand_reconstructed.go:374-378 | a rise too small to move by a nanosecond gives an empty window |
| `SplitWindows.SplitCoversSameInstants` | internal/controllers/request_demand_reconstructed.go:356-384 | exactly the same instants are covered |
| `SplitWindows.SplitRaisesDemand` | internal/controllers/request_demand_reconstructed.go:349-384 | the demand at every instant is at least the original |
| `SplitWindows.SplitNeverLowersReplicas` | internal/controllers/request_demand_reconstructed.go:349-384 | the replicas computed from the split are never fewer |
| `SplitWindows.WindowDemand` | internal/controllers/request_demand_reconstructed.go:388-402 | the loop computes the pointwise demand and coverage |
| `Integrate.RunningTime` | internal/cgroup/integrate.go:149-163 | sort and sweep measure the union of the lifetimes |
| `Integrate.IntegrateContainer` | internal/cgroup/integrate.go:92-134 | fails exactly on an invalid window list, otherwise the overlap-weighted CPU and covered time |
| `Integrate.CoverageIsExact` | internal/cgroup/integrate.go:132-134 | the duration test passes if and only if every instant lies in a window |
| `Integrate.IntegratePod` | internal/cgroup/integrate.go:71-135 | the container loop computes the pod's totals, failing exactly on an invalid window of a counted container |
| `Integrate.IntegrateWorkload` | internal/cgroup/integrate.go:27-187 | fails exactly on a bad interval, snapshot, duplicate or unnamed pod or bad window, and otherwise returns the accumulated observation |
| `IntegrateTheorems.CompleteIsExact` | internal/cgroup/integrate.go:63-172 | an observation is complete if and only if something ran and no running instant of any relevant pod is unmeasured |
| `IntegrateTheorems.RunningTimeCountsInstants` | internal/cgroup/integrate.go:149-164 | running pod time is the number of instants at which some known container of each pod was alive |
| `IntegrateTheorems.CpuSplits` | internal/cgroup/integrate.go:63-135 | cutting an interval in two loses exactly the CPU measured before a pod's creation |
| `IntegrateTheorems.CpuIsAdditive` | internal/cgroup/integrate.go:60-111 | CPU adds up when containers start no earlier than their pod |
| `IntegrateTheorems.CpuIsAdditiveExactly` | internal/cgroup/integrate.go:60-111 | CPU adds up if and only if no pod has CPU from before its creation |
| `IntegrateTheorems.EarlyContainerBreaksAdditivity` | internal/cgroup/integrate.go:60-65 | a container older than its pod breaks additivity |
| `History.ValidateWindow` | internal/history/validation.go:23-83 | the verdict is damaged, ahead of the clock or sound, exactly as specified over all rows |
| `History.SoundLater` | internal/history/validation.go:23-83 | a sound window is sound at every later instant |
| `History.ResetWindow` | internal/history/validation.go:85-103 | fails exactly on a negative or exhausted epoch; otherwise the result is sound at every instant, empty and of a later epoch |
| `History.PruneAgedHistory` | internal/controllers/history_retention.go:32-58 | drops exactly the expired rows and starts a new epoch when any is dropped |
| `History.FilterCpuHistory` | internal/prediction/history.go:22-30 | keeps exactly the rows with a measurement, in order |
| `History.PruneCpuHistory` | internal/prediction/history.go:46-74 | the stable sort and backward scan keep the shortest tail with the given number of measurements |
| `History.PruneModelHistory` | internal/prediction/holtwinters/holtwinters.go:260-308 | keeps the newest measurements by count, or drops whole seasons oldest first |
| `History.LatestTimestamp` | internal/controllers/controller.go:1101-1114 | the latest timestamp of any row |
| `HistoryFacts.SortKeepsCpuRows` | internal/prediction/history.go:54-62 | sorting leaves the measured rows of a chronicle as they are, wherever undated rows stand |
| `HistoryFacts.PruneCpuKeeps` | internal/prediction/history.go:46-74 | pruning keeps a chronicle, a tail of its measured rows, and its newest row |
| `HistoryFacts.RetainedKeeps` | internal/prediction/holtwinters/holtwinters.go:260-308 | every kind of retention keeps a chronicle, a tail of its measured rows, and its newest row |
| `HistoryFacts.PruneAgedKeeps` | internal/controllers/history_retention.go:32-58 | dropping expired rows keeps a window sound |
| `Sampler.NextIntervalRoundsUp` | internal/controllers/controller.go:1032-1040 | the start gate is the first multiple of the interval not before now |
| `Sampler.PreparedIsSound` | internal/controllers/history_sampler.go:350-460 | from any stored state a successful preparation writes a sound window |
| `Sampler.AppliedIsSound` | internal/controllers/history_sampler.go:462-614 | from any stored state a successful application writes a sound window |
| `SamplerData.PrepareModel` | internal/controllers/history_sampler.go:359-449 | one model's preparation as specified; reporting no change means the stored window is unchanged |
| `SamplerData.ApplyModel` | internal/controllers/history_sampler.go:472-603 | one model's application as specified; reporting no change means the stored window is unchanged |
| `SamplerData.HistoryData.PrepareSamplingState` | internal/controllers/history_sampler.go:350-460 | all models are prepared, unconfigured histories dropped, and due and change flags are right |
| `SamplerData.HistoryData.ApplySample` | internal/controllers/history_sampler.go:462-614 | the sample is applied to all models, unconfigured histories dropped, and the change flag is right |
| `SamplerData.PrepareEachIsSound` | internal/controllers/history_sampler.go:350-460 | every configured history is stored and sound after a preparation |
| `SamplerData.ApplyEachIsSound` | internal/controllers/history_sampler.go:462-614 | every configured history is stored and sound after an application |
| `SamplerRun.StepKeeps` | internal/controllers/history_sampler.go:350-614 | sampling, retention, fits and retargeting keep the window sound and the admissions ordered |
| `SamplerRun.StoredWindowsValidate` | internal/history/validation.go:23-83 | under a monotone clock every stored window validates at every later instant |
| `SamplerRun.AdmissionsAdvance` | internal/controllers/history_sampler.go:534-601 | between restarts slots and source measurements of admitted rows strictly increase |
| `SamplerRun.RowsAreAdmitted` | internal/controllers/history_sampler.go:586-601 | every stored row was admitted since the last restart, and measured rows are strictly chronological |
| `SamplerFence.PreparationIsWrite` | internal/controllers/history_sampler.go:350-460 | a preparation samples its window or restarts it under a later epoch with nothing consumed |
| `SamplerFence.ApplicationIsWrite` | internal/controllers/history_sampler.go:462-614 | so does an application |
| `SamplerFence.CreationIsNew` | internal/controllers/history_sampler.go:350-460 | a preparation without a stored window of the type writes a fresh one with nothing consumed |
| `SamplerFence.CompletionIsFit` | internal/controllers/controller.go:1182-1234 | a completion changes only forecast-owned fields, consumes a retained row and leaves the window sound |
| `Slots.NextSamplingDelay` | internal/controllers/history_sampler.go:65-75 | the delay leads to the computed next instant |
| `Slots.NextIsFirstOtherSlot` | internal/controllers/history_sampler.go:65-75 | for every clock value and period that instant is exactly the first later one in another persisted slot |
| `Slots.SlotUnchangedBefore` | internal/controllers/history_sampler.go:346-348 | every earlier instant is in the current slot |
| `Slots.SlotChangesAtNext` | internal/controllers/history_sampler.go:63-75 | the instant is later and its slot is later |
| `Backoff.Delay` | internal/controllers/model_backoff.go:38-61 | the doubling loop is the capped power of two, with fallback for a malformed policy |
| `Backoff.DelayIsMonotone` | internal/controllers/model_backoff.go:38-61 | more failures never shorten the delay, which stays between a second and the maximum |
| `Backoff.RecordedIsValidExactly` | internal/controllers/model_backoff.go:66-70 | a recorded failure is honoured if and only if the rounded retry stays within the maximum plus a second |
| `Backoff.DelayReachesMaximum` | internal/controllers/model_backoff.go:38-61 | eighteen failures reach the maximum under every policy |
| `Backoff.BackoffLastsExactly` | internal/controllers/model_backoff.go:66-117 | a recorded failure holds back fits if and only if it rounds within the check and now is before its rounded retry, which is less than a second after the delay |
| `Backoff.AlwaysHonouredExactly` | internal/controllers/model_backoff.go:66-117 | every failure after any others at every instant is honoured if and only if the maximum is whole seconds or a single nanosecond more, or a malformed policy's maximum reaches the default |
| `Backoff.NeverHonouredExactly` | internal/controllers/model_backoff.go:39-70 | no failure is ever honoured if and only if even the first delay, rounded up, passes the maximum and a second, which takes a malformed policy |
| `CompletionProofs.CompletedChangesLittle` | internal/controllers/controller.go:1182-1234 | a completion passes only with matching target, epoch and forecast state, and never moves the consumed instant back |
| `CompletionProofs.LoadKeeps` | internal/controllers/history_store.go:168-186 | computing a mutation on loaded data keeps the invariant, for fits, samplers and rebindings of any generation |
| `CompletionProofs.CheckKeeps` | internal/controllers/history_store.go:188-201 | so does comparing the owner before the swap |
| `CompletionProofs.CommitKeeps` | internal/controllers/history_store.go:164-215 | the compare-and-swap of any writer keeps the invariant whether it publishes or retries |
| `CompletionProofs.StepKeeps` | internal/controllers/controller.go:1174-1236 | every step of fits, samplers, rebindings and resource edits, superseded generations included, keeps it |
| `CompletionProofs.FitsStayInTheirWindow` | internal/controllers/controller.go:1174-1236 | in every run a publishing fit matches target, epoch and forecast state, and its window is the one it trained on if and only if no window-replacing write of a superseded spec, other source or returning target took effect since it began |
| `CompletionProofs.OwnershipLastsUntilEdit` | internal/controllers/history_store.go:171-201 | every writer about to swap owned the resource when it compared it, and owns it later if and only if it was not edited or recreated since |
| `CompletionProofs.ConsumedNeverMovesBack` | internal/controllers/controller.go:1199-1204 | within one window the consumed instant never moves back |
| `CompletionExamples.SourceSwitchMixesWindows` | internal/controllers/target_history.go:26-38 | a run in which a source switch lets a fit into a new window |
| `CompletionExamples.ReturningTargetMixesWindows` | internal/controllers/target_history.go:26-38 | a run in which rebinding away and back lets a fit into a new window |
| `CompletionExamples.SupersededWriteMixesWindows` | internal/controllers/history_store.go:164-215 | a run in which a sampler of a superseded generation replaces the window under a fit of the newest one |
| `CompletionExamples.LateEditDoesNotStopPublication` | internal/controllers/history_store.go:188-201 | a run in which an edit after the comparison does not stop a publication |
| `Quantile.BoundIsLeast` | internal/forecastquality/quality.go:167-171 | the bound is the least number at or above the floor that at least 95 percent of the errors do not exceed |
| `Quality.Monitor.Record` | internal/forecastquality/quality.go:57-79 | the new state is the specified one; duplicates keep the first forecast |
| `Quality.Monitor.Consume` | internal/forecastquality/quality.go:92-114 | only points still ahead stay pending and the first eligible covering point is matched |
| `Quality.Monitor.Observe` | internal/forecastquality/quality.go:84-165 | the new state is the specified one on every branch |
| `QualityFacts.ErrorInUnit` | internal/forecastquality/quality.go:127-128 | relative errors lie between -1 and 1 |
| `QualityFacts.VerdictIsUnambiguous` | internal/forecastquality/quality.go:146-164 | a window gives at most one verdict |
| `QualityRun.NeverDiscarded` | internal/controllers/forecast_reliability.go:14-35 | every state reachable through any changes of policy is valid and survives a reload |
| `QualityRun.ScoredAtMostOnce` | internal/forecastquality/quality.go:81-126 | in every run, across leads, policies and restarts, scored starts strictly increase, so no forecast is scored twice |
| `QualityRun.ScoredIntervalsAreDisjoint` | internal/forecastquality/quality.go:81-126 | between restarts scored intervals are disjoint and increasing |
| `QualityRun.ScoresAreForeseen` | internal/forecastquality/quality.go:47-52 | every score joins a forecast issued before its interval with an observation inside it |
| `QualityRun.DegradedReferenceIsFrozen` | internal/forecastquality/quality.go:134-141 | while degraded the baseline and bound change only by starting over |
| `QualityRun.AdaptationIsJudgedAfresh` | internal/forecastquality/quality.go:173-180 | after an adaptation, in every continuation, only forecasts issued since are scored |
| `QualityRestarts.RestartKeepsDisjointExactly` | internal/forecastquality/quality.go:57-64 | after a restart every later score in every continuation starts after all earlier scored ends if and only if the restart came no earlier than a nanosecond before the last of them |
| `QualityRestarts.LateRestartsKeepDisjoint` | internal/forecastquality/quality.go:57-126 | in every run whose restarts come late enough all scored intervals are disjoint |
| `QualityRestarts.LeadChangeOverlaps` | internal/forecastquality/quality.go:61-64 | a run in which a changed lead scores overlapping intervals |
| `QualityFacts.ObserveKeepsValidExactly` | internal/forecastquality/quality.go:21-165 | from any valid state under any policy the result is valid if and only if the recent window does not overflow |
| `SessionsAdmission.AdmissionBounds` | internal/algorithm/persistent.go:186-239 | when every unreaped child is registered or being registered, there are at most the limit |
| `SessionsAdmission.AdmitKeeps` | internal/algorithm/persistent.go:213-236 | admission keeps that invariant |
| `SessionsAdmission.ResetKeeps` | internal/algorithm/persistent.go:282-294 | a reset leaves the registry only with a reaped child |
| `SessionsAdmission.StepKeeps` | internal/algorithm/persistent.go:186-318 | every step of every caller, reset, close and worker keeps it |
| `SessionsAdmission.ChildrenAreBounded` | internal/algorithm/persistent.go:186-318 | in every interleaving unreaped children never exceed the limit |
| `SessionsAdmission.ClosedStartsNothing` | internal/algorithm/persistent.go:308-318 | once closed, in every continuation of every run, no child is started and none is registered |
| `SessionsExchange.TakeKeeps` | internal/algorithm/persistent.go:90-100 | taking a response returns the holder's own and leaves the pipe balanced |
| `SessionsExchange.JoinKeeps` | internal/algorithm/persistent.go:101-116 | the gate opens after an abandoned exchange only on a reaped child |
| `SessionsExchange.StepKeeps` | internal/algorithm/persistent.go:46-117 | every step keeps the exchange invariant |
| `SessionsExchange.AnswersAreOwn` | internal/algorithm/persistent.go:67-117 | in every interleaving a success is the answer to the very line the call wrote |
| `SessionsExchange.AnswersAreUnshared` | internal/algorithm/persistent.go:67-117 | no answer is delivered to two calls |
| `Observations.Cache.Lookup` | internal/metrics/observations.go:72-86 | returns and refreshes a usable entry, removes an unusable one, and keeps map, list and byte count in agreement |
| `Observations.Cache.Evict` | internal/metrics/observations.go:122-124 | the loop terminates and keeps the longest recent prefix that leaves room |
| `Observations.Cache.Store` | internal/metrics/observations.go:113-128 | a newer entry stays, otherwise the new one goes in front within both bounds |
| `Observations.Cache.Forget` | internal/metrics/observations.go:48-57 | removes exactly the owner's entry |
| `Observations.Trimmed` | internal/metrics/observations.go:122-124 | what is kept is a prefix with room, and one entry more would not have room |
| `Observations.ReusableObservations` | internal/metrics/observations.go:131-147 | exactly complete, timestamped, neither future nor too old readings are reusable |
| `ObservationsRun.CacheStaysBounded` | internal/metrics/observations.go:13-129 | in every interleaving at most 256 entries and 16 MiB |
| `ObservationsRun.ServedAreRecent` | internal/metrics/observations.go:59-97 | whatever is served was stored by a completed read of the same owner and fingerprint begun less than its lifetime ago |
| `ObservationsRun.StoreKeepsNewer` | internal/metrics/observations.go:115-121 | storing leaves the newer of the two observations |
| `ObservationsRun.ReadKeepsNewerExactly` | internal/metrics/observations.go:72-128 | a whole read leaves at least as new an observation if and only if it began no earlier |
| `ObservationsRun.CachedMovesForward` | internal/metrics/observations.go:59-128 | in every run an owner's cached observation goes back in time only across a state in which it has none |
| `ObservationsRun.DroppedExactly` | internal/metrics/observations.go:48-128 | a step drops an owner's observation if and only if it forgets it, looks it up for something else, earlier or too late, or stores another owner's entry, not older than the one cached for that owner, for which the other entries up to this one leave no room |
| `ObservationsRun.LateLookupLosesNewer` | internal/metrics/observations.go:78-84 | a late lookup loses a newer observation |

## Left out

- Kubernetes clients, informers, HTTP handlers, Prometheus and kubelet reads, process spawning: foreign I/O; their outcomes are step parameters.
- JSON encoding and SHA-256: encoded states are byte sequences and digests identify their bytes.
- Floating-point rounding: reliability errors, CPU shares, percentages and tolerances are exact reals or rationals; NaN and infinities do not occur.
- Timestamp strings: instants replace RFC 3339 text, so two spellings of one instant are equal.
- Manifest.DecodeManifest: does not decode the journal field, which the reader checks by a strict JSON decoding of its own.
- Manifest.CommittedManifestDecodes: says nothing of the journal field, for the same reason.
- Store: fence exhaustion inside the run machine, deletion and recreation of the root, journal budgets beyond the inline limit, and label and owner checks of listed objects; byte budgets other than the encoded state are step parameters.
- Journal: only Scale writes may land late; a journal or status write, which is conditional on the resource version of its object, takes effect at once or never. A recovered decision keeps its nanoseconds until the status is saved. Status budgets, decision validity deadlines and observe mode add only earlier exits.
- Percent policies in RateRun: the limit on real counts uses the same rounding as the code, not a rounding-free percentage.
- Demand resolution: metric-kind and target identity checks; only the arithmetic is modelled.
- Reconstructed recommendation (`reconstructedReplicas`, `postponedRiseHold`) and request-demand acquisition: mostly reads of unmodelled components.
- Prediction cache assessment (`assessCachedPrediction`) and forecast lifetimes beyond the trajectory deadline: straight-line checks.
- Integrate.IntegrateWorkload: does not fail on an overflowing memory sum; memory, throttling and pressure sums, boundary and source flags, and missing reasons are not modelled.
- History.PruneModelHistory: orders rows of equal or missing time as the shared pruning does, where the seasonal adapter leaves them in any order; season settings that validation refuses are not modelled.
- History: reliability, cached prediction and failure state are opaque values there; their own machines are Quality, TimedCache and Backoff.
- SamplerRun.StoredWindowsValidate: assumes a clock that never goes back and source timestamps not after the instant of application.
- RateRun and QualityRun: assume a clock that never goes back.
- Sessions: output size limits and stderr limits appear only as failing steps; the worker is assumed to answer its lines one by one and in order.
- Observation cache: decoding failures and canceled gatherings appear only as reads that neither serve nor store.
- UI, telemetry, events, status reporting and the Python model scripts: no hard property, or not shown.
