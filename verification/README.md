# Release service: the reconcile loop, retries, matching and truncation

A Dafny model of the release-service controller, with proofs over every input and every run.

**The reconcile loop** (`Status`, `Reconciler`, `Adapter`, then `Invariant`, `Safety`, `Creation`,
`Finalizers`, `Progress`, `Outcomes`, `Wakeup`, `Reconciles`, `Verdicts`, `Freed`, `Effects`, and, with
concrete runs, `LostWakeup`, `Unregistered`, `AfterFailure`). A Release goes through five phases, each backed by a
PipelineRun. `Reconcile` runs 21 operations in order; a step of the machine is one operation, the
start or the crash of a reconcile, or something the cluster does by itself between any two
operations: a PipelineRun finishes, is marked for deletion, or vanishes once its finalizer is gone,
or the Release is marked for deletion. What the API answers to an operation is an `Outcome`:
transient and permanent errors of every call, and calls that take effect although their reply is
lost. `Adapters.Adapter` is the same in the form of the source: methods that mutate the in-memory
Release, create runs and send merge patches of the status (section 2 of RFC 7396). Each method is
proved equal to the transition function of `Reconciler`, for any answers, and so is the loop over
the operations. The theorems are about the transition functions and every sequence of steps;
`Verdicts`, `Freed` and `Effects` say what each operation does to status and runs in every reachable
state without naming its transition function.

**Retry decisions** (`RetryPolicy`): tag extraction, disabling tags, RetryInfo.

**Retry arithmetic** (`Timeouts`, `Mitigations`, `Retries`): the specification of a failed run is
mitigated, merged, adjusted and becomes the next run's specification. The theorems are about any
number of retries in a row, through the merged TaskRunSpecs and `AdjustTimeouts`.

**Matching** (`Matching`): the search from a ReleasePlan to its ReleasePlanAdmission and the one back,
over a cluster of any size.

**Truncation** (`Truncation`): the result message of a trace span, on UTF-8 bytes (sections 3 and 4
of RFC 3629).

## What turned out to be false

- *No wake-up is lost* fails in two ways, and `Reconciles.ReconcileWakes` is the exact condition for
  a reconcile that ends without an error to leave the Release settled: finished, or with a run that
  the reconcile itself saw before it was done. (It is exact for that notion: when a reconcile stops
  for the first reason below, a run that was still going when it began may yet wake it up.) First, a
  reconcile that stops because SERVICE_NAMESPACE is not set ends without an error and without
  watching anything. Second, a retry that finds the next run already created, by a reconcile that
  crashed or lost a reply before registering it, registers it even when it is already done: its last
  event is over, the tracking operation has already passed, and the managed phase stays progressing
  until something else triggers a reconcile. `LostWakeup` has a concrete run for each.
- `AdjustTimeouts` is not idempotent for a pipeline timeout of one nanosecond with a finally timeout
  (`Timeouts.IdempotentExactly`).
- Without a finally timeout, a mitigated tasks timeout that reaches the cap is trimmed away by
  `AdjustTimeouts`, and a mitigated task timeout can exceed the tasks timeout of the created run
  (`Retries.WithoutFinallySurvivesExactly`, `Retries.TaskTimeoutFitsExactly`).
- Memory caps may turn a valid request and limit into a request above the limit
  (`Mitigations.SchedulableExactly`).
- A plan that finds an admission is not always listed for it (`Matching.FoundAdmissionListsExactly`);
  `Matching` has a small cluster for each of the three ways in which this happens.
- *Cleanup takes the finalizer off every run* fails for a managed run that has been created but is not
  registered when the managed phase finishes. Cleanup and finalization go by the list of attempts, so
  such a run keeps its finalizer for ever (`Unregistered.LeftBehindForever`), and cleanup without
  errors frees exactly the registered runs (`Unregistered.CleanedUpExactly`). One is left behind
  exactly when the phase finishes, in whatever way, while the run of the next attempt is already
  there, or when it fails because a retry creates that run and its registration is rejected
  (`Unregistered.FinishLeavesBehindExactly`); `Unregistered.RunCanBeLeftBehind` reaches the second
  case.
- *Nothing runs for a Release that has failed* holds for three kinds of runs and fails for two: exactly
  the tenant collectors and the final run can still be created
  (`AfterFailure.CreatedAfterFailureExactly`).

## Assumptions

- One worker per Release; a reconcile starts from the last persisted status, and lookups see every
  earlier creation.
- Nobody but the controller takes the release finalizer off a PipelineRun or changes the status.
- A status patch is atomic. An error of it ends the reconcile, except when it registers the run of a
  retry: there a permanent error is handled like a rejected creation.
- The active admission, its RetryInfo, the plan and the tags may differ from one operation to the
  next, except where a theorem names them as fixed: `Progress.ChangesAreBounded` bounds MaxRetries,
  `Creation.RetryIsAllowed` takes RetryInfo to be the one computed from the given tags.

## Model

| member | source | states |
|---|---|---|
| ReleaseStatus.Release.MarkCurrentAttemptProcessing | api/v1alpha1/release_types.go:673-703 | on its own it takes any managed phase that is not True, even a failed one, back to progressing, and touches only the last attempt |
| ReleaseStatus.Release.MarkCurrentAttemptProcessed | api/v1alpha1/release_types.go:505-557 | only a progressing phase with an attempt that is not done succeeds, and phase and last attempt succeed together |
| ReleaseStatus.Release.MarkCurrentAttemptFailed | api/v1alpha1/release_types.go:785-816 | the last attempt fails with its reason while the phase condition stays as it is |
| ReleaseStatus.Release.MarkReleaseFailed | api/v1alpha1/release_types.go:947-967 | only a releasing Release fails, nothing else changes |
| Adapters.Adapter.PatchStatus | controllers/release/adapter.go:2006-2012 | the server merges what changed since the baseline; after a success the in-memory Release equals the persisted one, after any error it keeps the unpersisted changes |
| Adapters.Adapter.HandleCreationError | controllers/release/utils.go:17-61 | a transient error changes nothing and requeues; a permanent one fails phase and Release in one patch and continues; a finished phase keeps its outcome, and what was not persisted before is not persisted with it |
| Adapters.Adapter.EnsurePipelineIsProcessed | controllers/release/adapter.go:205-674 | for every phase without retries and every API outcome, the new cluster, status and result are those of the transition, and memory equals storage unless it requeues |
| Adapters.Adapter.EnsurePipelineIsTracked | controllers/release/adapter.go:2051-2080 | the same for the tracking of a run, whose outcome `Verdicts.TrackingDecides` ties to the run |
| Adapters.Adapter.EnsureManagedPipelineIsProcessed | controllers/release/adapter.go:541-624 | the same for the managed phase, whose first run is found under the label of the current attempt |
| Adapters.Adapter.EnsureManagedPipelineProcessingIsTracked | controllers/release/adapter.go:792-809 | the same for the tracking of the current attempt |
| Adapters.Adapter.RetryManagedPipeline | controllers/release/adapter.go:1060-1095 | a retry adopts an unregistered run of the next attempt or creates one; on a permanent error the persisted status is untouched and one more patch fails the phase |
| Adapters.Adapter.EnsureManagedPipelineProcessingIsCompleted | controllers/release/adapter.go:834-876 | retry, disabled retry or failure, with the nested error handling, equals the transition |
| Adapters.Adapter.EnsureReleaseIsValid | controllers/release/adapter.go:737-767 | validation outcome, early stop and continuation equal the transition |
| Adapters.Adapter.EnsureReleaseIsRunning | controllers/release/adapter.go:184-201 | stops only when the Release and all five phases have finished |
| Adapters.Adapter.EnsureReleaseIsCompleted | controllers/release/adapter.go:166-180 | looks only at the final phase |
| Adapters.Adapter.EnsureProcessingResourcesAreCleanedUp | controllers/release/adapter.go:950-988 | finalizers go phase by phase, each only after its phase has finished, and errors count only at the end |
| Adapters.Adapter.CleanUpManagedRuns | controllers/release/adapter.go:1013-1049 | the loop takes the finalizer off exactly the runs of the first attempts, up to the error |
| Adapters.Adapter.FinalizeRelease | controllers/release/adapter.go:1695-1838 | the runs that lost their finalizer or were deleted when finalization stops after any number of calls |
| Adapters.Adapter.Reconcile | controllers/release/controller.go:63-105 | the loop over the operations, with any interference between them and crashes, is a run of the state machine |
| Reconciler.Find | loader/loader.go:323-365 | a lookup finds a run with the labels if there is one |
| Invariant.ReachableOk | controllers/release/controller.go:82-104 | in every reachable state phase order, outcome agreement, attempt shape, unique labels, registered attempts, kept runs and backed phases hold |
| Safety.FinishedForever | api/v1alpha1/release_types.go:1051-1062 | a phase has a condition only if its predecessor is finished, and the outcome of a finished phase, of a finished Release and of a done attempt (its status and reason) never changes again, over any continuation with errors and crashes |
| Safety.CompleteManagedEvolves | controllers/release/adapter.go:834-876 | the callers' guards keep a failed managed phase failed |
| Outcomes.ReleasedMeansAllWell | controllers/release/adapter.go:166-201 | Released becomes True only with all five phases finished, none failed, Validated True, in a reconcile whose validation passed |
| Outcomes.FailedPhaseFailsRelease | api/v1alpha1/release_types.go:1030-1048 | in every reachable state a failed phase means a failed Release |
| Finalizers.LabelsUntilCleanup | controllers/release/adapter.go:1939-1969 | until managed cleanup starts, in every run with crashes and errors, the run of attempt k is found under label k, and an unregistered run carries the next label and is found by the next lookup |
| Finalizers.AttemptLabels | loader/loader.go:346-365 | in every reachable state no two managed runs share a label, and every attempt whose run has its finalizer finds that run under its label |
| Finalizers.FinalizerLostOnlyAt | controllers/release/adapter.go:950-988 | a managed run loses its finalizer only when the finished managed phase is cleaned up or a deleted Release is finalized, and only if it is registered |
| Finalizers.ReachableHeld | controllers/release/adapter.go:1121-1192 | in every reachable state a run with the finalizer is there |
| Unregistered.LeavesBehindExactly | controllers/release/adapter.go:834-876 | when the managed phase is persisted as failed, a run is left unregistered if and only if the next run was there already or the retry created it and its registration was rejected |
| Unregistered.FinishLeavesBehindExactly | controllers/release/adapter.go:541-624 | the same for every way in which the managed phase can finish: skipped, rejected creation, success or failure |
| Unregistered.LeftBehindForever | controllers/release/adapter.go:1035-1049 | such a run keeps the finalizer through every later cleanup and through finalization, and stays unregistered |
| Unregistered.CleanedUpExactly | controllers/release/adapter.go:1013-1049 | a cleanup without errors takes the finalizer off exactly the registered managed runs |
| Unregistered.AttemptsAreClosed | api/v1alpha1/release_types.go:673-703 | once the managed phase has finished, no step changes the list of attempts |
| Unregistered.RunCanBeLeftBehind | controllers/release/utils.go:46-61 | a reachable run with the managed phase Failed and a run labelled with the number of attempts left behind |
| Outcomes.AttemptsFollowTheShape | controllers/release/adapter.go:2119-2167 | all attempts but the last failed for a retriable reason, the managed phase succeeds exactly with the last attempt, and a final run exists only after the managed phase finished with every attempt done |
| Verdicts.TrackingDecides | controllers/release/adapter.go:2051-2080 | in every reachable state a progressing phase without retries has exactly one run, and a tracking without errors changes nothing while it is going on, makes the phase succeed if it succeeded, and fails phase and Release if it is done otherwise |
| Verdicts.AttemptTrackingDecides | controllers/release/adapter.go:2119-2167 | the same for the current attempt: success of its own run makes attempt and phase succeed, failure fails only the attempt, with the reason read |
| Verdicts.FailureHasCause | controllers/release/adapter.go:2017-2044 | a phase without retries fails only in a step that sees a run of it done and not succeeded, or whose creation is rejected |
| Verdicts.AttemptFailureHasCause | controllers/release/adapter.go:2126-2164 | an attempt fails only in a step that sees its own run done and not succeeded |
| Verdicts.ReachableEarned | controllers/release/adapter.go:2025-2027 | in every reachable state a phase without retries that succeeded has a run that succeeded, and an attempt that succeeded has its own |
| Verdicts.ReleasedIsEarned | controllers/release/adapter.go:166-180 | Released True implies that every phase was skipped or has a run that succeeded |
| Effects.RetriesExactly | controllers/release/adapter.go:848-876 | without errors, a failed attempt is followed by exactly one more, with the run of the next label, if and only if it was OOMKill or a timeout, retries are enabled, attempts <= MaxRetries, and no Release tag is hit; otherwise phase and Release fail, and the attempt remembers a disabling tag |
| Effects.RetryErrors | controllers/release/adapter.go:1060-1095 | a transient error of a due retry changes nothing and ends the reconcile, a permanent one fails phase and Release |
| Effects.ProcessingExactly | controllers/release/adapter.go:364-461 | exactly when a phase without retries gets its run, is skipped, fails or progresses, and when the reconcile ends |
| Effects.ManagedProcessingExactly | controllers/release/adapter.go:541-624 | the same for the managed phase and its first attempt |
| Effects.JudgementExactly | controllers/release/adapter.go:737-767 | what configuration, start, validation and completion do to Released and Validated, and when they stop |
| Effects.StatusChangesAtomically | controllers/release/adapter.go:2006-2012 | the status changes only by a patch that takes effect, and the reconcile goes on only if its reply arrives |
| Freed.FinalizedExactly | controllers/release/adapter.go:1695-1838 | a finalization without errors frees and deletes every run that is there, except a managed one left behind, and changes no other |
| Freed.CleanUpFreesExactly | controllers/release/adapter.go:880-988 | a cleanup frees exactly the runs of finished phases, the collectors together, and deletes nothing |
| Freed.DeletesOnlyFreed | controllers/release/adapter.go:1717-1727 | wherever a finalization stops, only runs that have lost the finalizer are deleted |
| Creation.NoRunAfterFailure | controllers/release/adapter.go:546-556 | once the Release is Failed, no managed collectors, tenant or managed run, retries included, is ever created |
| AfterFailure.CreatedAfterFailureExactly | controllers/release/adapter.go:364-367 | for a failed Release a run of a kind can be created, in some reachable state, if and only if it is the tenant collectors or the final one |
| Creation.EveryRunGuarded | controllers/release/adapter.go:205-624 | every run was created by one step, in a reconcile whose validation had passed when its phase is one of those three, under a fresh label, for an unfinished phase with a finished predecessor |
| Creation.AtMostOneRunPerType | controllers/release/adapter.go:880-988 | at most one run of each type other than managed is ever created |
| Creation.RetryIsAllowed | controllers/release/adapter.go:848-863 | a retry run needs a retriable failure, retries left, and no tag of the Release, the admission or its plans hit by a disabling tag |
| Progress.ChangesAreBounded | controllers/release/adapter.go:1053-1056 | with MaxRetries at most M there are at most M + 1 attempts, and any run persists at most 2M + 12 changes of phases and attempts |
| Progress.StepPays | api/v1alpha1/release_types.go:595-906 | each change of a phase condition or attempt strictly decreases a measure, which no step increases |
| Reconciles.ReconcileWakes | controllers/release/controller.go:82-104 | over a whole reconcile with any interference: it leaves the Release settled if and only if it neither stopped for the missing namespace with phases left, nor had a step that was a retry adopting a done run |
| Reconciles.WatchedWasAlive | controllers/release/adapter.go:2119-2122 | the run that a reconcile relies on was there and not done, or was created, at one of its steps |
| Wakeup.NoLostWakeup | controllers/release/controller.go:82-104 | the same at the last operation: a reconcile that ends without an error leaves everything finished, or exactly one phase progressing whose run it saw before it was done, if and only if it neither stopped for the missing namespace with work left nor adopted a done run |
| Wakeup.LateAdoption | controllers/release/adapter.go:1060-1095 | the second exception is exactly a retry that finds the run of the next attempt done |
| Wakeup.OnlyRetriesAdopt | controllers/release/controller.go:82-104 | no other operation decides about it, until the next reconcile begins |
| LostWakeup.NamespaceStopLosesWakeup | controllers/release/adapter.go:93-99 | a reachable run that stops for the missing namespace and loses the wake-up |
| LostWakeup.WakeupCanBeLost | controllers/release/adapter.go:1060-1064 | a reachable run that loses the wake-up |
| RetryPolicy.ExtractTags | retry/matcher.go:191-258 | the tags in schema order, as often as they are there |
| RetryPolicy.TagsOfExactly | retry/matcher.go:185-190 | a tag is extracted exactly when it stands at one of the four places of the data schema |
| RetryPolicy.MatchDisablingTags | retry/matcher.go:260-296 | true exactly when some tag equals or matches a disabling tag, with the matched tags joined in the order in which they are hit |
| RetryPolicy.MatchedTagsExactly | retry/matcher.go:264-269 | a matched tag is one of the tags and hit by a disabling tag, and is listed once |
| RetryPolicy.DetermineRetryInfo | retry/matcher.go:36-124 | enabled exactly when the first accepting policy applies and no tag of the admission or a matched plan is disabled; retries, mitigations and disabling tags come from it, and the reason is that of the first check that applies |
| RetryPolicy.DeterminedExactly | retry/matcher.go:60-124 | enabled if and only if a first accepting pipeline exists, the admission does not switch retries off, and no data tag equals or matches a disabling tag; the count of the admission wins |
| RetryPolicy.ReasonExactly | retry/matcher.go:36-124 | which reason is given, for every combination |
| RetryPolicy.AcceptsExactly | retry/matcher.go:146-183 | a URL with and without a trailing .git is accepted alike, by either form; revision by pattern, path by equality |
| RetryPolicy.FirstPolicyExactly | retry/matcher.go:149-186 | the first accepting pipeline of the list decides |
| RetryPolicy.JoinConcat | retry/matcher.go:291-293 | matched tags are separated by comma and blank |
| RetryPolicy.EarlierTagsFirst | retry/matcher.go:271-289 | the tags hit by an earlier disabling tag come first |
| RetryPolicy.DisablesIffNotClear | retry/matcher.go:60-93 | matching the concatenated tags is matching every data field on its own |
| Timeouts.AdjustTimeouts | tekton/utils/pipeline.go:215-334 | the case analysis equals a rule: keep what is consistent, compute a missing pipeline timeout, otherwise let the pipeline timeout decide |
| Timeouts.AdjustedExactly | tekton/utils/pipeline.go:215-334 | the result for every set of timeouts in numbers: ten minutes, or half below twenty |
| Timeouts.DefaultsExactly | tekton/utils/pipeline_run_builder.go:273-282 | only missing and empty timeouts give way to the defaults |
| Timeouts.AdjustedCovers | tekton/utils/pipeline.go:215-334 | an adjusted result is empty exactly when only finally was set, and otherwise has pipeline >= tasks + finally; a set pipeline timeout is kept |
| Timeouts.IdempotentExactly | tekton/utils/pipeline.go:215-334 | adjusting twice is adjusting once, except for a pipeline timeout of 1ns with a finally timeout |
| Timeouts.FixedExactly | tekton/utils/pipeline.go:215-334 | exactly which timeouts AdjustTimeouts leaves alone |
| Timeouts.CreatedCovers | tekton/utils/pipeline_run_builder.go:273-282 | a created run obeys the rule when a pipeline or tasks timeout was asked for, and gets the defaults when only finally was |
| Mitigations.ApplyMemoryMitigation | retry/mitigations.go:34-77 | equals scaling both quantities rounded up under their caps, or nothing when there is no memory entry or no usable multiplier |
| Mitigations.MemoryExactly | retry/mitigations.go:34-77 | when the mitigation applies, and that it scales memory limit and request, rounded up, each under its own cap, and nothing else |
| Mitigations.MultiplyGrows | retry/mitigations.go:223-226 | rounding up never shrinks, and gains a byte for a multiplier above one |
| Mitigations.SchedulableExactly | retry/mitigations.go:34-77 | requests stay at or below limits for all inputs if and only if there is no limit cap or the request cap is not above it |
| Mitigations.RaisedIsLeast | retry/mitigations.go:202-221 | the raised pipeline timeout is the least one that covers tasks and finally |
| Mitigations.MergeTaskRunSpecs | retry/mitigations.go:130-172 | the nested in-place loops equal the fold of single merges |
| Mitigations.MergeReads | retry/mitigations.go:130-172 | read after write and frame for any list of entries, duplicates included |
| Mitigations.MergedEntry | retry/mitigations.go:148-162 | field by field what a merged entry takes over and keeps; the other entries stay |
| Mitigations.TimeoutOverrideExactly | tekton/utils.go:237-242 | the first entry of the task that has a timeout is read |
| Mitigations.StepOverrideExactly | tekton/utils.go:187-209 | the first entry of the task that answers for the step is read, step spec before task resources |
| Mitigations.FallsBack | tekton/utils.go:212-220 | without an override the TaskRun decides |
| Mitigations.MergeNames | retry/mitigations.go:161-168 | entries keep places and names, a new task is appended |
| Mitigations.MergeAllShape | retry/mitigations.go:148-159 | task names stay distinct, and step specs and task resources exclusive, over any overrides |
| Mitigations.MergeAllFrame | retry/mitigations.go:137-147 | what no override names reads as before; an override without a name changes nothing |
| Mitigations.LastTimeoutWins | retry/mitigations.go:160-162 | the last override of a task's timeout is the one read back |
| Mitigations.OtherStepsFallBack | retry/mitigations.go:152-155 | a step override drops the other step overrides of its task |
| Mitigations.GetStepComputeResources | tekton/utils.go:186-220 | the early-exit loops find the first override, then the TaskRun's own step |
| Mitigations.GetTaskRunTimeout | tekton/utils.go:235-251 | the first entry of the task that has a timeout, then the TaskRun's |
| Retries.ComputeRetryOverrides | controllers/release/adapter.go:1499-1609 | per failure reason, the mitigated specification of the failed run, or its unmitigated one, and the mitigation that is recorded |
| Retries.OtherTasksInherited | controllers/release/adapter.go:1518-1522 | a retry reads for every task but the failed one what the failed run had, or the plan if the run had no entries |
| Retries.FailedTaskInherited | controllers/release/adapter.go:1560-1587 | a timeout mitigation leaves the resources of the failed task, a memory mitigation its timeout |
| Retries.TimeoutsInherited | controllers/release/adapter.go:1523-1526 | without a timeout mitigation the created timeouts come from the failed run |
| Retries.NothingToMitigate | controllers/release/adapter.go:1544-1609 | a mitigation that is not configured or has nothing to work on changes nothing |
| Retries.WithoutMitigations | controllers/release/adapter.go:1508-1511 | without mitigations a retry is created from the plan |
| Retries.MitigationsAccumulate | controllers/release/adapter.go:1518-1522 | what was written for one task is still read after any later retries for other tasks |
| Retries.PipelineRetryExactly | retry/mitigations.go:109-126 | the created timeouts after a pipeline timeout, whichever fields are set |
| Retries.TaskRetryExactly | retry/mitigations.go:81-104 | and after a task timeout |
| Retries.FindTaskRunExactly | controllers/release/adapter.go:1528-1540 | the first TaskRun of the failed task is looked at |
| Retries.RecordedIsRead | controllers/release/adapter.go:1550-1583 | the recorded memory and task timeout are those read from the created run |
| Retries.CreateRetryRun | controllers/release/adapter.go:1415-1416 | overrides, adjustment and builder together give the specification of the next run |
| Retries.PipelineTimeoutRetries | retry/mitigations.go:109-126 | closed form after any number of pipeline-timeout retries: T_n = min(T0+n*inc, Max), P_n = max(min(P0+n*inc, Max), T_n+F), without Max when there is no cap |
| Retries.PipelineTimeoutStep | tekton/utils/pipeline.go:257-262 | AdjustTimeouts is the identity in every round |
| Retries.PipelineTimeoutRetriesGrow | retry/mitigations.go:175-221 | from timeouts within the cap, neither shrinks and P_n <= Max+F |
| Retries.LoweredExactly | retry/mitigations.go:182-185 | exactly when a retry lowers a timeout |
| Retries.WithoutFinallySurvivesExactly | tekton/utils/pipeline.go:271-282 | without finally, the mitigated tasks timeout reaches the run if and only if it stays below the cap, or there is none, or one of 1ns |
| Retries.TaskTimeoutFits | controllers/release/adapter.go:1567-1587 | the new task timeout fits into the created run, which is covered, and neither run timeout shrinks |
| Retries.TaskTimeoutFitsExactly | tekton/utils/pipeline.go:271-282 | without finally, it fits if and only if it is below the failed run's pipeline timeout |
| Retries.TaskTimeoutRetries | retry/mitigations.go:81-104 | closed form after any number of task-timeout retries, each reading back what the one before merged in |
| Retries.MemoryRetries | controllers/release/adapter.go:1544-1565 | each out-of-memory retry starts from the resources the one before has written |
| Retries.MemoryGrows | retry/mitigations.go:34-77 | the limit never shrinks or exceeds the cap, and reaches L0+n, or the cap if there is one, after n retries with a multiplier above one; other quantities are kept |
| Retries.MemoryStaysSchedulable | retry/mitigations.go:34-77 | with caps in order, any number of retries keeps request <= limit |
| Retries.RetriesCover | retry/mitigations.go:202-221 | after any sequence of retries for any reasons, the created run obeys Tekton's rule, if the first run had a pipeline or tasks timeout |
| Retries.OtherTasksUntouched | controllers/release/adapter.go:1560-1587 | a retry for any reason leaves the overrides of the other tasks alone |
| Matching.GetMatchingReleasePlanAdmission | loader/loader.go:116-166 | the loop with a found variable gives the only candidate, or which error |
| Matching.GetMatchingReleasePlans | loader/loader.go:172-211 | the labelled plans or all, filtered |
| Matching.DeleteUnaccepted | loader/loader.go:196-208 | the backward in-place deletion loop is an order-preserving filter |
| Matching.FilterPlaces | loader/loader.go:196-208 | an element that is kept comes after exactly the kept ones before it |
| Matching.PlansInOrder | loader/loader.go:196-210 | listed plans are in the order of the cluster |
| Matching.ErrorsExactly | loader/loader.go:116-166 | which error is reported, over any cluster |
| Matching.AcceptsGroupExactly | api/v1alpha1/releaseplan_types.go:118-124 | application before component group, in one of the two lists |
| Matching.MatchedExactly | loader/loader.go:116-166 | when the search finds a given admission: by label alone, or as the only candidate |
| Matching.MultipleExactly | loader/loader.go:147-156 | the ambiguity error appears exactly for an undesignated plan with two candidates |
| Matching.ListsExactly | loader/loader.go:172-211 | which plans are listed for an admission |
| Matching.ListedPlanFindsAdmission | loader/loader.go:116-211 | a listed plan finds that admission or an ambiguity |
| Matching.ListedTwiceIsAmbiguous | loader/loader.go:116-211 | a plan listed for two admissions is unlabelled and ambiguous |
| Matching.FoundAdmissionListsExactly | api/v1alpha1/releaseplanadmission_types.go:163-167 | the converse holds exactly when the admission accepts the group, and the plan is labelled or nothing is |
| Matching.LabelledGroupIsNotListed | loader/loader.go:119-133 | a cluster in which a label brings in a group that the admission does not accept |
| Matching.EmptyLabelIsNotListed | loader/loader.go:203-207 | a cluster in which an empty label keeps the plan off the list |
| Matching.UnlabelledPlanIsNotListed | loader/loader.go:177-194 | a cluster in which another plan's label keeps this one off the list |
| Truncation.TruncateResultMessage | tracing/tracing.go:107-125 | a message that fits is returned as it is; for any longer bytes the result is a prefix and the suffix, at most 1024 bytes, and the prefix is the longest within the budget that is empty or ends with a whole rune |
| Truncation.DecodeLastBroken | tracing/tracing.go:116-123 | text cut inside a rune ends with an error of size one, whatever precedes it |
| Truncation.DecodeLastWhole | tracing/tracing.go:116-123 | text ending with a whole rune, a literal U+FFFD included, is not an error |
| Truncation.DecodeEncoded | tracing/tracing.go:116-118 | decoding undoes the encoding of RFC 3629 |
| Truncation.EncodeDecoded | tracing/tracing.go:116-118 | whatever decodes without an error is the encoding of its rune |
| Truncation.TruncationKeepsRunes | tracing/tracing.go:107-125 | an over-long valid text keeps the most whole runes that fit, gives away at most three bytes, and stays valid |

## Left out

- RoleBindings and Roles: their creation and lookup appear only as errors of the operation that makes them.
- Condition messages, reasons beyond the five values, timestamps, metrics and spans; messages of RetryInfo are one constructor each.
- Annotations, labels and expiration time of the Release: `EnsureApplicationMetadataIsSet`, `EnsureFinalizerIsAdded` and `EnsureReleaseExpirationTimeIsAdded` only continue or requeue here.
- Where an `Outcome` comes from: error classification, the validations, the failure reason of a run and the configuration of the phases are inputs of a step.
- Removal of the Release's own finalizer: a Release that was finalized may still be there, and stays being deleted.
- Stale caches and several workers.
- The four operations of the phases without retries are one method with the phase as a parameter; what differs between them is in `SkippedOnFailure` and `Registered`.
- Regular expressions: a set of matching pairs, of which nothing is known.
- JSON parsing: tags are taken from a JSON tree.
- Floating point: the memory multiplier is an exact fraction.
- 64-bit overflow of durations and quantities.
- Fractional quantities: memory is a whole number of bytes.
- The difference between a nil and an empty list of TaskRunSpecs, which the API server does not keep.
- The block-releases label, list errors, and label values that are not valid selectors.
- The timeout mitigations work on a copy of the timeouts, which is a value here; aliasing of the copied pointers is not captured.
- Webhooks, event filters, KubeArchive, log streaming, the other controllers: not modelled.
