/** When PipelineRuns are created. */
module Creation {
  import opened ReleaseStatus
  import opened RetryPolicy
  import opened Reconciler
  import opened Invariant
  import opened Safety

  /** What holds in the state `w` in which an operation creates `run`. */
  predicate Guarded(w: World, o: Outcome, run: Run) {
    && !w.finalized && !w.deletionSeen
    && !w.st.Finished(run.kind) && w.st.PredecessorFinished(run.kind)
    && run.attempt == (if run.kind.Managed? then |w.st.attempts| else 0)
    && (forall i | 0 <= i < |w.runs| :: w.runs[i].kind == run.kind ==> w.runs[i].attempt != run.attempt)
    && (SkippedOnFailure(run.kind) ==>
          w.st.conds.released.Progressing? && w.validationPassed && w.st.conds.validated.Succeeded?)
    && (run.kind.Managed? && run.attempt > 0 ==> CanRetry(w.st, o.retryInfo) && !DisabledByRelease(o))
  }

  /** An operation creates at most one run, and only if it is guarded. */
  predicate CreatesGuarded(w: World, o: Outcome, ret: Ret) {
    && (|ret.w.runs| == |w.runs| || |ret.w.runs| == |w.runs| + 1)
    && (|ret.w.runs| > |w.runs| ==> Guarded(w, o, ret.w.runs[|w.runs|]))
  }

  lemma NotFound(w: World, p: Phase, attempt: nat)
    requires Inv(w) && Past(w, 0) && !w.st.Finished(p) && Find(w.runs, p, attempt).None?
    ensures forall i | 0 <= i < |w.runs| :: w.runs[i].kind == p ==> w.runs[i].attempt != attempt
  {
  }

  lemma PatchKeepsRuns()
    ensures forall w: World, s: Status, patch: PatchOutcome :: Patch(w, s, patch).w.runs == w.runs
  {
  }

  lemma FreshIsGuarded(w: World, p: Phase, o: Outcome)
    requires Inv(w) && !p.Managed? && w.pc == ProcessIndex(p)
    requires !w.st.Finished(p) && w.st.PredecessorFinished(p) && Find(w.runs, p, 0).None?
    requires SkippedOnFailure(p) ==> !w.st.IsFailed()
    ensures Guarded(w, o, Run(p, 0, Running, false, true, true))
  {
    NotFound(w, p, 0);
    assert w.st.conds.released.Progressing? || w.st.conds.released.Failed?;
  }

  lemma ProcessPhaseGuarded(w: World, p: Phase, o: Outcome)
    requires Inv(w) && !p.Managed? && w.pc == ProcessIndex(p)
    ensures CreatesGuarded(w, o, ProcessPhase(w, p, o))
  {
    hide Inv, Guarded, Patch;
    PatchKeepsRuns();
    if w.st.Finished(p) || !w.st.PredecessorFinished(p) {
    } else if SkippedOnFailure(p) && w.st.IsFailed() {
    } else if Find(w.runs, p, 0).None? {
      FreshIsGuarded(w, p, o);
    }
  }

  lemma ProcessManagedGuarded(w: World, o: Outcome)
    requires Inv(w) && w.pc == 15
    ensures CreatesGuarded(w, o, ProcessManaged(w, o))
  {
    assert w.st.conds.released.Progressing? ==> w.validationPassed && w.st.conds.validated.Succeeded?;
    assert w.st.conds.released.Progressing? || w.st.conds.released.Failed?;
    assert !w.finalized && !w.deletionSeen;
    if !w.st.Finished(Managed) && w.st.PredecessorFinished(Managed) {
      CurrentRunFound(w);
      if Find(w.runs, Managed, w.st.RetryCount()).None? {
        NotFound(w, Managed, w.st.RetryCount());
      }
    }
    hide Inv;
  }

  lemma RetryRunIsGuarded(w: World, o: Outcome)
    requires Inv(w) && w.pc == 17 && w.st.conds.managed.Progressing?
    requires CanRetry(w.st, o.retryInfo) && !DisabledByRelease(o)
    requires Find(w.runs, Managed, |w.st.attempts|).None?
    ensures Guarded(w, o, Run(Managed, |w.st.attempts|, Running, false, true, true))
  {
    assert !w.finalized && !w.deletionSeen;
    ProgressingInOrder(w, Managed);
    assert w.validationPassed && w.st.conds.validated.Succeeded?;
    NotFound(w, Managed, |w.st.attempts|);
    hide Inv;
  }

  lemma RetryRuns(w: World, o: Outcome)
    requires w.st.attempts != []
    ensures Retry(w, o).w.runs == w.runs
            || (Find(w.runs, Managed, |w.st.attempts|).None?
                && Retry(w, o).w.runs == AddRun(w, Managed, |w.st.attempts|).runs)
  {
    PatchKeepsRuns();
    hide Patch, Find;
  }

  lemma CompleteManagedGuarded(w: World, o: Outcome)
    requires Inv(w) && w.pc == 17
    ensures CreatesGuarded(w, o, CompleteManaged(w, o))
  {
    hide Inv, Guarded, Patch, Retry, Find, DisabledByRelease;
    PatchKeepsRuns();
    if w.st.conds.managed.Progressing? && CanRetry(w.st, o.retryInfo) && !DisabledByRelease(o) {
      RetryRuns(w, o);
      if Find(w.runs, Managed, |w.st.attempts|).None? {
        RetryRunIsGuarded(w, o);
      }
    }
  }

  lemma CallFinalizersKeepsRuns(w: World, o: Outcome)
    ensures |CallFinalizers(w, o).w.runs| == |w.runs|
  {
    hide Finalize;
    var all := {TenantCollectors, ManagedCollectors, Tenant, Managed, Final};
    forall p: Phase
      ensures p in all
    {
      match p case TenantCollectors => case ManagedCollectors => case Tenant => case Managed => case Final =>
    }
    FinalizeLoosens(w.runs, FinalizationOrder(|w.st.attempts|), o.finalizations, all);
  }

  lemma CleanUpKeepsRuns(w: World, o: Outcome)
    ensures |CleanUpProcessing(w, o).w.runs| == |w.runs|
    ensures |CleanUpCollectors(w, o).w.runs| == |w.runs|
  {
    StripKeepsRuns();
    var n := Min(o.cleanedAttempts, |w.st.attempts|);
    StripAttemptsLoosens(StripIf(w.runs, Tenant, o.cleaned), n);
    hide StripIf, StripAttempts;
  }

  lemma StripKeepsRuns()
    ensures forall runs: seq<Run>, p: Phase, cleaned: set<Phase> :: |StripIf(runs, p, cleaned)| == |runs|
  {
  }

  lemma TrackKeepsRuns(w: World, p: Phase, o: Outcome)
    ensures p.Managed? ==> TrackManaged(w, o).w.runs == w.runs
    ensures !p.Managed? ==> TrackPhase(w, p, o).w.runs == w.runs
  {
    PatchKeepsRuns();
    hide Patch;
  }

  lemma JudgeKeepsRuns(w: World, o: Outcome)
    ensures LoadConfig(w, o).w.runs == w.runs
    ensures RunRelease(w, o).w.runs == w.runs
    ensures Validate(w, o).w.runs == w.runs
    ensures CompleteRelease(w, o).w.runs == w.runs
  {
    PatchKeepsRuns();
    hide Patch;
  }

  lemma OperationGuarded(w: World, o: Outcome)
    requires Inv(w) && w.pc < IDLE
    ensures CreatesGuarded(w, o, Apply(OpAt(w.pc), w, o))
  {
    hide Inv, Guarded, ProcessManaged, ProcessPhase, CompleteManaged, TrackManaged, TrackPhase,
         CallFinalizers, CleanUpProcessing, CleanUpCollectors, LoadConfig, RunRelease, Validate, CompleteRelease;
    match OpAt(w.pc)
    case FinalizersCalled => CallFinalizersKeepsRuns(w, o);
    case ConfigLoaded => JudgeKeepsRuns(w, o);
    case CollectorsCleanedUp => CleanUpKeepsRuns(w, o);
    case ProcessingCleanedUp => CleanUpKeepsRuns(w, o);
    case ReleaseRunning => JudgeKeepsRuns(w, o);
    case ReleaseValid => JudgeKeepsRuns(w, o);
    case MetadataSet =>
    case FinalizerAdded =>
    case ExpirationAdded =>
    case Process(p) =>
      if p.Managed? {
        ProcessManagedGuarded(w, o);
      } else {
        ProcessPhaseGuarded(w, p, o);
      }
    case Track(p) => TrackKeepsRuns(w, p, o);
    case ManagedCompleted => CompleteManagedGuarded(w, o);
    case ReleaseCompleted => JudgeKeepsRuns(w, o);
  }

  lemma NextGuarded(w: World, step: Step)
    requires Inv(w)
    ensures |Next(w, step).runs| == |w.runs| || |Next(w, step).runs| == |w.runs| + 1
    ensures |Next(w, step).runs| > |w.runs| ==>
              step.Operate? && w.pc < IDLE && Guarded(w, step.o, Next(w, step).runs[|w.runs|])
  {
    match step
    case Operate(o) =>
      if w.pc < IDLE {
        OperationGuarded(w, o);
      }
    case _ =>
  }

  lemma NoRunInFailedStep(w: World, step: Step)
    requires Inv(w) && w.st.IsFailed()
    ensures var runs := Next(w, step).runs;
            && |w.runs| <= |runs|
            && (forall i | 0 <= i < |w.runs| :: runs[i].kind == w.runs[i].kind)
            && (forall i | |w.runs| <= i < |runs| :: !SkippedOnFailure(runs[i].kind))
  {
    hide Inv, Next, StatusEvolves;
    NextGuarded(w, step);
    NextEvolves(w, step);
    assert w.st.IsFailed() ==> !w.st.conds.released.Progressing?;
  }

  /** Once the Release has failed, no managed collectors, tenant or managed run, retries included,
      is ever created. */
  lemma {:induction false} NoRunAfterFailure(steps: seq<Step>, more: seq<Step>)
    requires Exec(INIT, steps).st.IsFailed()
    ensures var before, after := Exec(INIT, steps).runs, Exec(INIT, steps + more).runs;
            && |before| <= |after|
            && forall i | |before| <= i < |after| :: !SkippedOnFailure(after[i].kind)
    decreases |more|
  {
    if more == [] {
      assert steps + more == steps;
    } else {
      var last := |more| - 1;
      var all := steps + more[..last];
      assert (steps + more)[..|steps + more| - 1] == all;
      assert Exec(INIT, steps + more) == Next(Exec(INIT, all), more[last]);
      hide Exec, Inv, Next;
      NoRunAfterFailure(steps, more[..last]);
      FailedForever(steps, more[..last]);
      ReachableOk(all);
      NoRunInFailedStep(Exec(INIT, all), more[last]);
    }
  }

  lemma FailedForever(steps: seq<Step>, more: seq<Step>)
    requires Exec(INIT, steps).st.IsFailed()
    ensures Exec(INIT, steps + more).st.IsFailed()
  {
    FinishedForever(steps, more);
    hide Exec;
  }

  /** Every run ever created was created by one step of a reconcile that was allowed to do so. */
  ghost predicate CreatedBy(steps: seq<Step>, k: nat, i: nat)
    requires k < |steps|
  {
    var w, w' := Exec(INIT, steps[..k]), Exec(INIT, steps);
    && steps[k].Operate? && |w.runs| == i && i < |w'.runs|
    && var run := w'.runs[i]; // kind and label never change
       Guarded(w, steps[k].o, run)
  }

  lemma {:induction false} EveryRunGuarded(steps: seq<Step>, i: nat)
    requires i < |Exec(INIT, steps).runs|
    ensures exists k | 0 <= k < |steps| :: CreatedBy(steps, k, i)
    decreases |steps|
  {
    var last := |steps| - 1;
    var before := steps[..last];
    var w := Exec(INIT, before);
    ReachableOk(before);
    NextGuarded(w, steps[last]);
    NextEvolves(w, steps[last]);
    if i == |w.runs| {
      assert CreatedBy(steps, last, i);
    } else {
      EveryRunGuarded(before, i);
      var k :| 0 <= k < |before| && CreatedBy(before, k, i);
      assert steps[..k] == before[..k];
      assert CreatedBy(steps, k, i);
    }
  }

  /** At most one PipelineRun of each type other than managed is ever created for a Release. */
  lemma AtMostOneRunPerType(steps: seq<Step>, i: nat, j: nat)
    requires i < |Exec(INIT, steps).runs| && j < |Exec(INIT, steps).runs|
    requires Exec(INIT, steps).runs[i].kind == Exec(INIT, steps).runs[j].kind
    requires !Exec(INIT, steps).runs[i].kind.Managed?
    ensures i == j
  {
    ReachableOk(steps);
  }

  /** A retry run needs a retriable failure, retries left, and no Release tag among the disabling
      tags; when the RetryInfo was computed from the admission and its plans, none of their tags
      is disabled either. */
  lemma RetryIsAllowed(w: World, step: Step, pipeline: Option<PipelineSpec>, rpaData: Option<Json>,
                       planData: seq<Option<Json>>, rsc: Option<seq<RetryablePipeline>>)
    requires Inv(w) && |Next(w, step).runs| > |w.runs|
    requires Next(w, step).runs[|w.runs|].kind.Managed? && Next(w, step).runs[|w.runs|].attempt > 0
    requires step.Operate? && step.o.retryInfo.Some? ==>
               DeterminedFrom(step.o.regex, pipeline, rpaData, planData, rsc, step.o.retryInfo.value)
    ensures step.Operate? && step.o.retryInfo.Some? && step.o.retryInfo.value.maxRetries.Some?
    ensures w.st.CurrentAttemptRetriable()
    ensures var o := step.o;
            var tags := o.retryInfo.value.disablingTags;
            && !Disables(o.regex, tags, o.releaseTags)
            && Clear(o.regex, tags, rpaData)
            && AllClear(o.regex, tags, planData)
            && w.st.RetryCount() < o.retryInfo.value.maxRetries.value
  {
    NextGuarded(w, step);
  }
}
