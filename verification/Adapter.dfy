/** The adapter in the form in which it works: its methods mutate the in-memory Release, create and
 * loosen PipelineRuns, and patch the persisted status. Each method is proved against the
 * transition that `Reconciler` gives for the operation, whatever the API answers.
 */
module Adapters {
  import opened ReleaseStatus
  import opened RetryPolicy
  import opened Reconciler

  class Adapter {
    const release: Release            // the in-memory copy

    // the cluster
    var status: Status
    var runs: seq<Run>
    var deleting: bool
    var finalized: bool

    // the running reconcile
    var pc: nat
    var deletionSeen: bool
    ghost var validationPassed: bool
    ghost var watched: Option<nat>
    ghost var lateAdoption: bool

    ghost function View(): World
      reads this
    {
      World(status, runs, deleting, finalized, pc, deletionSeen, validationPassed, watched, lateAdoption)
    }

    ghost predicate Synced()
      reads this, release
    {
      release.View() == status
    }

    constructor ()
      ensures View() == INIT && Synced() && fresh(release)
    {
      release := new Release(EMPTY_STATUS);
      status, runs, deleting, finalized := EMPTY_STATUS, [], false, false;
      pc, deletionSeen, validationPassed, watched, lateAdoption := IDLE, false, false, None, false;
    }

    /** Status().Patch with MergeFrom(baseline): the server merges what the release changed since
        the baseline, and on success the response is decoded into the release. */
    method PatchStatus(baseline: Status, answer: PatchOutcome) returns (r: Result)
      modifies this`status, release
      ensures View() == old(View()).(st :=
                if answer.Applied? || answer.AppliedReplyLost?
                then MergePatch(old(status), baseline, old(release.View())) else old(status))
      ensures r == if answer.Applied? then Continue else Requeue
      ensures !r.Requeue? ==> Synced()
      ensures !r.Continue? ==> release.View() == old(release.View())
      ensures baseline == old(status) ==> Ret(View(), r) == Patch(old(View()), old(release.View()), answer)
    {
      if answer.Applied? || answer.AppliedReplyLost? {
        status := MergePatch(status, baseline, release.View());
      }
      if answer.Applied? {
        release.Load(status);
        return Continue;
      }
      return Requeue;
    }

    /** client.Create of a PipelineRun, which may have happened although the call fails. */
    method CreateRun(kind: Phase, attempt: nat, answer: CreateOutcome) returns (run: Option<nat>)
      modifies this`runs
      ensures View() == if answer.Created? || answer.CreatedReplyLost? then AddRun(old(View()), kind, attempt)
                        else old(View())
      ensures run == if answer.Created? then Some(|old(runs)|) else None
    {
      run := None;
      if answer.Created? {
        run := Some(|runs|);
      }
      if answer.Created? || answer.CreatedReplyLost? {
        runs := runs + [Run(kind, attempt, Running, false, true, true)];
      }
    }

    /** handlePipelineCreationError: a transient error ends the reconcile, a permanent one fails the
        phase and the Release; a phase that has finished keeps its outcome. */
    method HandleCreationError(p: Phase, permanent: bool, answer: PatchOutcome) returns (r: Result)
      modifies this`status, release
      ensures !permanent ==> r.Requeue? && View() == old(View()) && release.View() == old(release.View())
      ensures permanent ==>
                && r == (if answer.Applied? then Continue else Requeue)
                && View() == old(View()).(st :=
                     if answer.Applied? || answer.AppliedReplyLost?
                     then MergePatch(old(status), old(release.View()), FailedBy(old(release.View()), p))
                     else old(status))
      ensures permanent && old(release.View().conds == status.conds && !status.Finished(p)) ==>
                Ret(View(), r) == Patch(old(View()), old(status).FailPhase(p), answer)
      ensures !r.Requeue? ==> Synced()
    {
      if !permanent {
        return Requeue;
      }
      var baseline := release.View();
      release.MarkProcessing(p);
      release.MarkProcessingFailed(p);
      release.MarkReleaseFailed();
      assert release.View() == FailedBy(baseline, p);
      MergeOfFailure(status, baseline, p);
      r := PatchStatus(baseline, answer);
    }

    /** registerTenantCollectorsProcessingData and its three siblings. */
    method RegisterProcessingData(p: Phase, answer: PatchOutcome) returns (r: Result)
      requires Synced() && !release.View().Finished(p)
      modifies this`status, release
      ensures Ret(View(), r) == Patch(old(View()), old(status).Set(p, Progressing), answer)
      ensures !r.Requeue? ==> Synced()
    {
      var baseline := release.View();
      release.MarkProcessing(p);
      r := PatchStatus(baseline, answer);
    }

    method Skip(p: Phase, answer: PatchOutcome) returns (r: Result)
      requires Synced() && !release.View().Finished(p)
      modifies this`status, release
      ensures Ret(View(), r) == Patch(old(View()), old(status).Set(p, Skipped), answer)
      ensures !r.Requeue? ==> Synced()
    {
      var baseline := release.View();
      release.MarkSkipped(p);
      r := PatchStatus(baseline, answer);
    }

    /** EnsureTenantCollectorsPipelineIsProcessed and its siblings for the phases without retries. */
    method EnsurePipelineIsProcessed(p: Phase, o: Outcome) returns (r: Result)
      requires Synced() && !p.Managed?
      modifies this`status, this`runs, release
      ensures Ret(View(), r) == ProcessPhase(old(View()), p, o)
      ensures !r.Requeue? ==> Synced()
    {
      hide Patch, MergePatch;
      if release.View().Finished(p) || !release.View().PredecessorFinished(p) {
        return Continue;
      }
      if SkippedOnFailure(p) && release.View().IsFailed() {
        r := Skip(p, o.patch);
        return;
      }
      if o.readFails {
        return Requeue;
      }
      var run := Find(runs, p, 0);
      if run.None? || !Registered(release.View(), p) {
        r := StartPhase(p, run, o);
        return;
      }
      return Continue;
    }

    /** The same operation, once the lookup has not found a registered run. */
    method StartPhase(p: Phase, found: Option<nat>, o: Outcome) returns (r: Result)
      requires Synced() && !p.Managed? && !status.Finished(p) && status.PredecessorFinished(p)
      requires !(SkippedOnFailure(p) && status.IsFailed()) && !o.readFails
      requires found == Find(runs, p, 0) && (found.None? || !Registered(status, p))
      modifies this`status, this`runs, release
      ensures Ret(View(), r) == ProcessPhase(old(View()), p, o)
      ensures !r.Requeue? ==> Synced()
    {
      hide Patch, MergePatch, Find;
      if o.loadFails {
        return Requeue;
      }
      if !o.configured {
        r := Skip(p, o.patch);
        return;
      }
      if found.None? {
        var run := CreateRun(p, 0, o.create);
        if run.None? {
          r := HandleCreationError(p, o.create.CreateRejected?, o.patch);
          return;
        }
      }
      r := RegisterProcessingData(p, o.patch);
    }

    /** EnsureTenantPipelineProcessingIsTracked and its siblings. */
    method EnsurePipelineIsTracked(p: Phase, o: Outcome) returns (r: Result)
      requires Synced() && !p.Managed?
      modifies this`status, this`watched, release
      ensures Ret(View(), r) == TrackPhase(old(View()), p, o)
      ensures !r.Requeue? ==> Synced()
    {
      if !release.View().Get(p).Progressing? || release.View().Finished(p) {
        return Continue;
      }
      if o.readFails {
        return Requeue;
      }
      var run := Find(runs, p, 0);
      if run.None? {
        return Continue;
      }
      if !runs[run.value].Done() {
        watched := run;
        return Continue;
      }
      r := RegisterProcessingStatus(p, runs[run.value].state.RunSucceeded?, o.patch);
    }

    /** registerTenantProcessingStatus and its siblings, for a run that is done. */
    method RegisterProcessingStatus(p: Phase, succeeded: bool, answer: PatchOutcome) returns (r: Result)
      requires Synced() && status.Get(p).Progressing?
      modifies this`status, release
      ensures Ret(View(), r) ==
                Patch(old(View()), if succeeded then old(status).Set(p, Succeeded) else old(status).FailPhase(p), answer)
      ensures !r.Requeue? ==> Synced()
    {
      var baseline := release.View();
      if succeeded {
        release.MarkProcessed(p);
      } else {
        release.MarkProcessingFailed(p);
        release.MarkReleaseFailed();
      }
      r := PatchStatus(baseline, answer);
    }

    /** registerManagedProcessingData: whether it reports an error is up to the caller to handle. */
    method RegisterManagedProcessingData(run: nat, answer: PatchOutcome) returns (r: Result)
      requires Synced() && !status.Finished(Managed)
      modifies this`status, release
      ensures Ret(View(), r) == Patch(old(View()), old(status).StartAttempt(run), answer)
      ensures !r.Requeue? ==> Synced()
      ensures !r.Continue? ==> release.View() == old(status).StartAttempt(run)
    {
      var baseline := release.View();
      release.AppendAttempt(run);
      release.MarkCurrentAttemptProcessing();
      assert release.View() == baseline.StartAttempt(run);
      r := PatchStatus(baseline, answer);
    }

    method EnsureManagedPipelineIsProcessed(o: Outcome) returns (r: Result)
      requires Synced()
      modifies this`status, this`runs, release
      ensures Ret(View(), r) == ProcessManaged(old(View()), o)
      ensures !r.Requeue? ==> Synced()
    {
      if release.View().Finished(Managed) || !release.View().PredecessorFinished(Managed) {
        return Continue;
      }
      if release.View().IsFailed() {
        r := Skip(Managed, o.patch);
        return;
      }
      // let the completion operation handle retries when the current attempt has failed
      if release.View().CurrentAttemptFailed() {
        return Continue;
      }
      if o.readFails {
        return Requeue;
      }
      var run := Find(runs, Managed, release.View().RetryCount());
      if run.None? || !release.View().Get(Managed).Progressing? {
        if o.loadFails {
          return Requeue;
        }
        if !o.hasTarget {
          r := Skip(Managed, o.patch);
          return;
        }
        if run.None? {
          if !o.configured {
            r := Skip(Managed, o.patch);
            return;
          }
          run := CreateRun(Managed, |release.attempts|, o.create);
          if run.None? {
            r := HandleCreationError(Managed, o.create.CreateRejected?, o.patch);
            return;
          }
        }
        r := RegisterManagedProcessingData(run.value, o.patch);
        return;
      }
      return Continue;
    }

    /** EnsureManagedPipelineProcessingIsTracked with registerManagedProcessingStatus. */
    method EnsureManagedPipelineProcessingIsTracked(o: Outcome) returns (r: Result)
      requires Synced()
      modifies this`status, this`watched, release
      ensures Ret(View(), r) == TrackManaged(old(View()), o)
      ensures !r.Requeue? ==> Synced()
    {
      if !release.View().Get(Managed).Progressing? || release.View().Finished(Managed) {
        return Continue;
      }
      if o.readFails {
        return Requeue;
      }
      var run := Find(runs, Managed, release.View().RetryCount());
      if run.None? {
        return Continue;
      }
      if !runs[run.value].Done() {
        watched := run;
        return Continue;
      }
      if release.View().CurrentAttemptDone() {
        return Continue;
      }
      var baseline := release.View();
      if runs[run.value].state.RunSucceeded? {
        release.MarkCurrentAttemptProcessed();
      } else {
        release.MarkCurrentAttemptFailed(o.reason);
      }
      r := PatchStatus(baseline, o.patch);
    }

    /** retryManagedPipeline. On a permanent error the caller fails the phase in one more patch,
        to which the API gives answer `next`; the attempt just appended to the in-memory list is
        part of that patch's baseline, so it is not persisted. */
    method RetryManagedPipeline(o: Outcome) returns (error: CreationError, next: PatchOutcome)
      requires Synced() && status.conds.managed.Progressing?
      modifies this`status, this`runs, this`watched, this`lateAdoption, release
      ensures !error.Permanent? ==>
                Ret(View(), if error.NoError? then Continue else Requeue) == Retry(old(View()), o)
      ensures error.Permanent? ==>
                && status == old(status) && release.View().conds == status.conds
                && Retry(old(View()), o) == Patch(View(), status.FailPhase(Managed), next)
      ensures error.NoError? ==> Synced()
    {
      next := o.patch;
      if !o.retryRead.ReadOk? {
        error := if o.retryRead.ReadRejected? then Permanent else Transient;
        return;
      }
      // the run of the next attempt may exist without being registered
      var run := Find(runs, Managed, release.View().RetryCount() + 1);
      if run.None? {
        run := CreateRun(Managed, |release.attempts|, o.create);
        if run.None? {
          error := if o.create.CreateRejected? then Permanent else Transient;
          return;
        }
      }
      if !o.patch.PatchRejected? {
        if runs[run.value].Done() {
          lateAdoption := true;
        } else {
          watched := run;
        }
      }
      var r := RegisterManagedProcessingData(run.value, o.patch);
      next := o.secondPatch;
      error := if r.Continue? then NoError else if o.patch.PatchRejected? then Permanent else Transient;
    }

    method EnsureManagedPipelineProcessingIsCompleted(o: Outcome) returns (r: Result)
      requires Synced()
      modifies this`status, this`runs, this`watched, this`lateAdoption, release
      ensures Ret(View(), r) == CompleteManaged(old(View()), o)
      ensures !r.Requeue? ==> Synced()
    {
      if !release.View().Get(Managed).Progressing? || release.View().Finished(Managed) {
        return Continue;
      }
      if !release.View().CurrentAttemptFailed() {
        return Continue;
      }
      if o.loadFails {
        return Requeue;
      }
      var tags := if o.retryInfo.Some? then o.retryInfo.value.disablingTags else [];
      var matched, disabled := MatchDisablingTags(o.regex, o.releaseTags, tags);
      var canRetry := CanRetry(release.View(), o.retryInfo);
      if canRetry && !disabled {
        var error, next := RetryManagedPipeline(o);
        if !error.NoError? {
          r := HandleCreationError(Managed, error.Permanent?, next);
          return;
        }
        return Continue;
      }
      var baseline := release.View();
      if canRetry && disabled {
        release.MarkCurrentAttemptRetryDisabled();
      }
      release.MarkProcessingFailed(Managed);
      release.MarkReleaseFailed();
      r := PatchStatus(baseline, o.patch);
    }

    method EnsureConfigIsLoaded(o: Outcome) returns (r: Result)
      requires Synced()
      modifies this`status, release
      ensures Ret(View(), r) == LoadConfig(old(View()), o)
      ensures !r.Requeue? ==> Synced()
    {
      if !o.namespaceSet {
        var baseline := release.View();
        release.MarkValidationFailed();
        release.MarkReleaseFailed();
        r := PatchStatus(baseline, o.patch);
        return if r.Continue? then Stop else r;
      }
      return if o.loadFails then Requeue else Continue;
    }

    method EnsureReleaseIsRunning(o: Outcome) returns (r: Result)
      requires Synced()
      modifies this`status, release
      ensures Ret(View(), r) == RunRelease(old(View()), o)
      ensures !r.Requeue? ==> Synced()
    {
      if release.View().conds.released.Finished() {
        return if release.View().AllPhasesFinished() then Stop else Continue;
      }
      if !release.View().conds.released.Progressing? {
        var baseline := release.View();
        release.MarkReleasing();
        r := PatchStatus(baseline, o.patch);
        return;
      }
      return Continue;
    }

    method EnsureReleaseIsValid(o: Outcome) returns (r: Result)
      requires Synced()
      modifies this`status, this`validationPassed, release
      ensures Ret(View(), r) == Validate(old(View()), o)
      ensures !r.Requeue? ==> Synced()
    {
      var baseline := release.View();
      if o.validation.Undecided? {
        return Requeue;
      }
      if o.validation.Invalid? {
        release.MarkValidationFailed();
        release.MarkReleaseFailed();
      } else {
        validationPassed := true;
      }
      if release.View().conds.released.Progressing? {
        release.MarkValidated();
        r := PatchStatus(baseline, o.patch);
        return;
      }
      r := PatchStatus(baseline, o.patch);
      if r.Continue? && release.View().AllPhasesFinished() {
        return Stop;
      }
    }

    method EnsureReleaseIsCompleted(o: Outcome) returns (r: Result)
      requires Synced()
      modifies this`status, release
      ensures Ret(View(), r) == CompleteRelease(old(View()), o)
      ensures !r.Requeue? ==> Synced()
    {
      if release.View().conds.released.Finished() {
        return Continue;
      }
      if !release.View().conds.final.IsTrue() {
        return Continue;
      }
      var baseline := release.View();
      release.MarkReleased();
      r := PatchStatus(baseline, o.patch);
    }

    /** cleanupPipelineResources: the release finalizer is taken off a run. */
    method CleanUpRun(kind: Phase, attempt: nat)
      modifies this`runs
      ensures runs == Strip(old(runs), kind, attempt)
    {
      var run := Find(runs, kind, attempt);
      if run.Some? {
        runs := runs[run.value := runs[run.value].(finalizer := false)];
      }
    }

    /** cleanupManagedPipelineResources, which an error ends after `n` attempts. */
    method CleanUpManagedRuns(n: nat)
      modifies this`runs
      ensures runs == StripAttempts(old(runs), Min(n, |release.attempts|))
    {
      for i := 0 to |release.attempts|
        invariant runs == StripAttempts(old(runs), i) && i <= n
      {
        if i == n {
          return;
        }
        CleanUpRun(Managed, i);
      }
    }

    method EnsureCollectorsResourcesAreCleanedUp(o: Outcome) returns (r: Result)
      requires Synced()
      modifies this`runs
      ensures Ret(View(), r) == CleanUpCollectors(old(View()), o)
      ensures Synced()
    {
      if !release.View().Finished(TenantCollectors) || !release.View().Finished(ManagedCollectors) {
        return Continue;
      }
      if TenantCollectors in o.cleaned {
        CleanUpRun(TenantCollectors, 0);
      }
      if ManagedCollectors in o.cleaned {
        CleanUpRun(ManagedCollectors, 0);
      }
      return if o.cleanupRetriable then Requeue else Continue;
    }

    /** The errors collected are reported only when all three phases have finished. */
    method EnsureProcessingResourcesAreCleanedUp(o: Outcome) returns (r: Result)
      requires Synced()
      modifies this`runs
      ensures Ret(View(), r) == CleanUpProcessing(old(View()), o)
      ensures Synced()
    {
      if !release.View().Finished(Tenant) {
        return Continue;
      }
      if Tenant in o.cleaned {
        CleanUpRun(Tenant, 0);
      }
      if !release.View().Finished(Managed) {
        return Continue;
      }
      CleanUpManagedRuns(o.cleanedAttempts);
      if !release.View().Finished(Final) {
        return Continue;
      }
      if Final in o.cleaned {
        CleanUpRun(Final, 0);
      }
      return if o.cleanupRetriable then Requeue else Continue;
    }

    /** finalizeRelease, which an error ends after `progress` API calls. */
    method FinalizeRelease(progress: nat)
      requires Synced()
      modifies this`runs
      ensures runs == Finalize(old(runs), FinalizationOrder(|status.attempts|), progress)
    {
      hide Strip, MarkDeleted, FinalizationOrder;
      var order := FinalizationOrder(|release.attempts|);
      var left := progress;
      for i := 0 to |order|
        invariant left == 0 ==> runs == Finalize(old(runs), order, progress)
        invariant Finalize(runs, order[i..], left) == Finalize(old(runs), order, progress)
      {
        assert order[i..][0] == order[i] && order[i..][1..] == order[i + 1..];
        var (kind, attempt) := order[i];
        if left == 0 {
          return;
        }
        CleanUpRun(kind, attempt);
        left := left - 1;
        if left == 0 {
          return;
        }
        runs := MarkDeleted(runs, kind, attempt);
        left := left - 1;
      }
      assert order[|order|..] == [];
    }

    method EnsureFinalizersAreCalled(o: Outcome) returns (r: Result)
      requires Synced()
      modifies this`runs, this`finalized
      ensures Ret(View(), r) == CallFinalizers(old(View()), o)
      ensures Synced()
    {
      if !deletionSeen {
        return Continue;
      }
      FinalizeRelease(o.finalizations);
      finalized := true;
      return Requeue;
    }

    /** One operation of the list. */
    method Operation(op: Op, o: Outcome) returns (r: Result)
      requires Synced()
      modifies this`status, this`runs, this`finalized, this`validationPassed, this`watched, this`lateAdoption, release
      ensures Ret(View(), r) == Apply(op, old(View()), o)
      ensures !r.Requeue? ==> Synced()
    {
      hide Patch, ProcessPhase, ProcessManaged, TrackPhase, TrackManaged, CompleteManaged, Validate,
           LoadConfig, RunRelease, CompleteRelease, CleanUpCollectors, CleanUpProcessing, CallFinalizers;
      match op
      case FinalizersCalled => r := EnsureFinalizersAreCalled(o);
      case ConfigLoaded => r := EnsureConfigIsLoaded(o);
      case CollectorsCleanedUp => r := EnsureCollectorsResourcesAreCleanedUp(o);
      case ProcessingCleanedUp => r := EnsureProcessingResourcesAreCleanedUp(o);
      case ReleaseRunning => r := EnsureReleaseIsRunning(o);
      case ReleaseValid => r := EnsureReleaseIsValid(o);
      case MetadataSet => r := if o.loadFails then Requeue else Continue;
      case FinalizerAdded => r := if o.loadFails then Requeue else Continue;
      case ExpirationAdded => r := if o.loadFails then Requeue else Continue;
      case Process(p) =>
        if p.Managed? {
          r := EnsureManagedPipelineIsProcessed(o);
        } else {
          r := EnsurePipelineIsProcessed(p, o);
        }
      case Track(p) =>
        if p.Managed? {
          r := EnsureManagedPipelineProcessingIsTracked(o);
        } else {
          r := EnsurePipelineIsTracked(p, o);
        }
      case ManagedCompleted => r := EnsureManagedPipelineProcessingIsCompleted(o);
      case ReleaseCompleted => r := EnsureReleaseIsCompleted(o);
    }

    /** What the cluster does on its own. */
    method Environment(step: Step)
      requires step.RunFinishes? || step.RunIsDeleted? || step.RunVanishes? || step.ReleaseIsDeleted?
      modifies this`runs, this`deleting
      ensures View() == Next(old(View()), step)
    {
      match step
      case RunFinishes(i, succeeds) =>
        if i < |runs| && runs[i].present && runs[i].state.Running? {
          runs := runs[i := runs[i].(state := if succeeds then RunSucceeded else RunFailed)];
        }
      case RunIsDeleted(i) =>
        if i < |runs| && runs[i].present {
          runs := runs[i := runs[i].(deleting := true)];
        }
      case RunVanishes(i) =>
        if i < |runs| && runs[i].present && !runs[i].finalizer {
          runs := runs[i := runs[i].(present := false)];
        }
      case ReleaseIsDeleted => deleting := true;
    }

    /** The next operation of the running reconcile, a crash, or what the cluster does on its own. */
    method Perform(step: Step)
      requires !step.Begin? && pc <= IDLE && (pc < IDLE ==> Synced())
      modifies this, release
      ensures View() == Next(old(View()), step)
      ensures pc <= IDLE && (pc < IDLE ==> Synced())
    {
      hide Apply;
      if step.Operate? {
        if pc < IDLE {
          var r := Operation(OpAt(pc), step.o);
          pc := if r.Continue? then pc + 1 else IDLE;
        }
      } else if step.Crash? {
        pc := IDLE;
      } else {
        Environment(step);
      }
    }

    /** The reconcile gets the Release, and a new adapter starts with it. */
    method Start()
      requires pc == IDLE
      modifies this, release
      ensures View() == Next(old(View()), Begin)
      ensures pc <= IDLE && Synced()
    {
      pc, deletionSeen, validationPassed, watched, lateAdoption := 0, deleting, false, None, false;
      release.Load(status);
    }

    /** `Reconcile`: the Release is read, and the operations run in order until one ends the
        reconcile. The script tells what the API answers to each operation, and what the cluster
        does before, between and after them. */
    method Reconcile(script: seq<Step>)
      requires pc == IDLE && forall step <- script :: !step.Begin?
      modifies this, release
      ensures View() == Exec(old(View()), [Begin] + script)
    {
      hide Exec, Next, Adapter.View;
      ghost var start := View();
      ghost var trace := [Begin] + script;
      Exec0(start, trace[..0]);
      ExecOneMore(start, trace, 0);
      Start();
      for i := 0 to |script|
        invariant pc <= IDLE && (pc < IDLE ==> Synced())
        invariant View() == Exec(start, trace[..i + 1])
      {
        ExecOneMore(start, trace, i + 1);
        Perform(script[i]);
      }
      assert trace[..|script| + 1] == trace;
    }
  }

  /** The effect of MarkProcessing, MarkProcessingFailed and MarkReleaseFailed in a row. */
  function FailedBy(s: Status, p: Phase): Status {
    if s.Finished(p) then s.FailRelease() else s.FailPhase(p)
  }

  /** What has not been persisted before the failure is not persisted with it. */
  lemma MergeOfFailure(s: Status, inMemory: Status, p: Phase)
    ensures inMemory.conds == s.conds && !s.Finished(p) ==>
              MergePatch(s, inMemory, FailedBy(inMemory, p)) == s.FailPhase(p)
  {
  }

  lemma Exec0(w: World, steps: seq<Step>)
    requires steps == []
    ensures Exec(w, steps) == w
  {
  }

  lemma ExecOneMore(w: World, trace: seq<Step>, n: nat)
    requires n < |trace|
    ensures Exec(w, trace[..n + 1]) == Next(Exec(w, trace[..n]), trace[n])
  {
    assert trace[..n + 1][..n] == trace[..n];
  }

  datatype CreationError = NoError | Transient | Permanent
}
