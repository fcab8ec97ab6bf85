/** Safety over whole runs of the reconcile machine. */
module Safety {
  import opened ReleaseStatus
  import opened RetryPolicy
  import opened Reconciler
  import opened Invariant

  /** What no step undoes, whatever the state it starts in. */
  predicate Evolves(w: World, w': World) {
    && StatusEvolves(w.st, w'.st)
    && RunsEvolve(w.runs, w'.runs)
    && (w.deleting ==> w'.deleting)
  }

  /** A finished phase and a finished Release keep their outcome, and an attempt its run. */
  predicate StatusEvolves(s: Status, s': Status) {
    && KeepsOutcome(s.conds.tenantCollectors, s'.conds.tenantCollectors)
    && KeepsOutcome(s.conds.managedCollectors, s'.conds.managedCollectors)
    && KeepsOutcome(s.conds.tenant, s'.conds.tenant)
    && KeepsOutcome(s.conds.managed, s'.conds.managed)
    && KeepsOutcome(s.conds.final, s'.conds.final)
    && KeepsOutcome(s.conds.released, s'.conds.released)
    && |s.attempts| <= |s'.attempts|
    && forall k | 0 <= k < |s.attempts| ::
         && s'.attempts[k].run == s.attempts[k].run
         && (s.attempts[k].Done() ==>
               s'.attempts[k].status == s.attempts[k].status && s'.attempts[k].reason == s.attempts[k].reason)
  }

  predicate KeepsOutcome(c: Cond, c': Cond) {
    c.Finished() ==> c' == c
  }

  predicate RunsEvolve(runs: seq<Run>, runs': seq<Run>) {
    && |runs| <= |runs'|
    && forall i | 0 <= i < |runs| ::
         && runs'[i].kind == runs[i].kind
         && runs'[i].attempt == runs[i].attempt
         && (runs[i].Done() ==> runs'[i].Done())
  }

  lemma EvolvesTransitive(w0: World, w1: World, w2: World)
    requires Evolves(w0, w1) && Evolves(w1, w2)
    ensures Evolves(w0, w2)
  {
  }

  lemma SetEvolves(s: Status, p: Phase, c: Cond)
    requires !s.Finished(p)
    ensures StatusEvolves(s, s.Set(p, c))
    ensures StatusEvolves(s, s.FailPhase(p))
  {
  }

  lemma AttemptEvolves(s: Status, run: nat, reason: FailureReason)
    requires !s.Finished(Managed)
    ensures StatusEvolves(s, s.StartAttempt(run))
    ensures s.attempts != [] ==> StatusEvolves(s, s.DisableRetry().FailPhase(Managed))
    ensures s.attempts != [] && !s.CurrentAttemptDone() ==>
              && StatusEvolves(s, s.FinishAttempt(AttemptFailed, reason))
              && StatusEvolves(s, s.FinishAttempt(AttemptSucceeded, reason).Set(Managed, Succeeded))
  {
  }

  /** What an operation does when it patches the status, creates a run, or does both. */
  lemma PatchEvolves(w: World, s: Status, patch: PatchOutcome)
    requires StatusEvolves(w.st, s) && w.pc < IDLE
    ensures Evolves(w, Advance(w, Patch(w, s, patch)))
  {
  }

  lemma AddRunEvolves(w: World, p: Phase, attempt: nat, s: Status, patch: PatchOutcome)
    requires StatusEvolves(w.st, s) && w.pc < IDLE
    ensures Evolves(w, AddRun(w, p, attempt))
    ensures Evolves(w, Advance(w, Ret(AddRun(w, p, attempt), Requeue)))
    ensures Evolves(w, Advance(w, Patch(AddRun(w, p, attempt), s, patch)))
  {
  }

  lemma StayEvolves(w: World, w': World, r: Result)
    requires w.pc < IDLE && w' == w.(watched := w'.watched, lateAdoption := w'.lateAdoption)
    ensures Evolves(w, Advance(w, Ret(w', r)))
  {
  }

  lemma ProcessPhaseEvolves(w: World, p: Phase, o: Outcome)
    requires w.pc < IDLE && !p.Managed?
    ensures Evolves(w, Advance(w, ProcessPhase(w, p, o)))
  {
    hide Evolves, StatusEvolves, Patch, Find, AddRun, Status.Set, Status.FailPhase;
    StayEvolves(w, w, Continue);
    StayEvolves(w, w, Requeue);
    if !w.st.Finished(p) {
      SetEvolves(w.st, p, Skipped);
      PatchEvolves(w, w.st.Set(p, Skipped), o.patch);
      PatchEvolves(w, w.st.FailPhase(p), o.patch);
      SetEvolves(w.st, p, Progressing);
      PatchEvolves(w, w.st.Set(p, Progressing), o.patch);
      AddRunEvolves(w, p, 0, w.st.Set(p, Progressing), o.patch);
    }
  }

  lemma ProcessManagedEvolves(w: World, o: Outcome)
    requires w.pc < IDLE
    ensures Evolves(w, Advance(w, ProcessManaged(w, o)))
  {
    hide Evolves, StatusEvolves, Patch;
    StayEvolves(w, w, Continue);
    StayEvolves(w, w, Requeue);
    if !w.st.Finished(Managed) {
      SetEvolves(w.st, Managed, Skipped);
      PatchEvolves(w, w.st.Set(Managed, Skipped), o.patch);
      PatchEvolves(w, w.st.FailPhase(Managed), o.patch);
      var run := Find(w.runs, Managed, w.st.RetryCount());
      if run.Some? {
        AttemptEvolves(w.st, run.value, o.reason);
        PatchEvolves(w, w.st.StartAttempt(run.value), o.patch);
      } else {
        AttemptEvolves(w.st, |w.runs|, o.reason);
        AddRunEvolves(w, Managed, |w.st.attempts|, w.st.StartAttempt(|w.runs|), o.patch);
      }
    }
  }

  lemma TrackPhaseEvolves(w: World, p: Phase, o: Outcome)
    requires w.pc < IDLE && !p.Managed?
    ensures Evolves(w, Advance(w, TrackPhase(w, p, o)))
  {
    hide Evolves, StatusEvolves, Patch, Find, Status.Set, Status.FailPhase;
    StayEvolves(w, w, Continue);
    StayEvolves(w, w, Requeue);
    StayEvolves(w, w.(watched := Find(w.runs, p, 0)), Continue);
    if w.st.Get(p).Progressing? {
      SetEvolves(w.st, p, Succeeded);
      PatchEvolves(w, w.st.Set(p, Succeeded), o.patch);
      PatchEvolves(w, w.st.FailPhase(p), o.patch);
    }
  }

  lemma TrackManagedEvolves(w: World, o: Outcome)
    requires w.pc < IDLE
    ensures Evolves(w, Advance(w, TrackManaged(w, o)))
  {
    hide Evolves, StatusEvolves, Patch, Find, Status.Set, Status.FailPhase;
    StayEvolves(w, w, Continue);
    StayEvolves(w, w, Requeue);
    StayEvolves(w, w.(watched := Find(w.runs, Managed, w.st.RetryCount())), Continue);
    SameStatusEvolves(w.st);
    PatchEvolves(w, w.st, o.patch);
    if w.st.conds.managed.Progressing? && w.st.attempts != [] && !w.st.CurrentAttemptDone() {
      var last := w.st.attempts[|w.st.attempts| - 1];
      AttemptEvolves(w.st, 0, o.reason);
      AttemptEvolves(w.st, 0, last.reason);
      PatchEvolves(w, w.st.FinishAttempt(AttemptFailed, o.reason), o.patch);
      PatchEvolves(w, w.st.FinishAttempt(AttemptSucceeded, last.reason).Set(Managed, Succeeded), o.patch);
    }
  }

  lemma SameStatusEvolves(s: Status)
    ensures StatusEvolves(s, s)
  {
  }

  lemma RegisterRetryEvolves(w: World, run: nat, o: Outcome)
    requires w.pc < IDLE && run < |w.runs| && w.st.conds.managed.Progressing?
    ensures Evolves(w, Advance(w, RegisterRetry(w, run, o)))
  {
    SetEvolves(w.st, Managed, Failed);
    PatchEvolves(w, w.st.FailPhase(Managed), o.secondPatch);
    AttemptEvolves(w.st, run, o.reason);
    var w' := if w.runs[run].Done() then w.(lateAdoption := true) else w.(watched := Some(run));
    PatchEvolves(w', w.st.StartAttempt(run), o.patch);
  }

  lemma RetryEvolves(w: World, o: Outcome)
    requires w.pc < IDLE && w.st.conds.managed.Progressing?
    ensures Evolves(w, Advance(w, Retry(w, o)))
  {
    hide Evolves, StatusEvolves, Patch, RegisterRetry;
    StayEvolves(w, w, Requeue);
    SetEvolves(w.st, Managed, Failed);
    PatchEvolves(w, w.st.FailPhase(Managed), o.patch);
    var run := Find(w.runs, Managed, w.st.RetryCount() + 1);
    if run.Some? {
      RegisterRetryEvolves(w, run.value, o);
    } else {
      var w' := AddRun(w, Managed, |w.st.attempts|);
      SameStatusEvolves(w.st);
      AddRunEvolves(w, Managed, |w.st.attempts|, w.st, o.patch);
      RegisterRetryEvolves(w', |w.runs|, o);
      EvolvesTransitive(w, w', Advance(w', RegisterRetry(w', |w.runs|, o)));
    }
  }

  /** MarkCurrentManagedPipelineAttemptProcessing alone would take a failed managed phase back to
      progressing; a retry is only reached while the phase is progressing. */
  lemma CompleteManagedEvolves(w: World, o: Outcome)
    requires w.pc < IDLE
    ensures Evolves(w, Advance(w, CompleteManaged(w, o)))
  {
    hide Evolves, StatusEvolves, Patch, Retry;
    StayEvolves(w, w, Continue);
    StayEvolves(w, w, Requeue);
    if w.st.conds.managed.Progressing? && w.st.CurrentAttemptFailed() {
      SetEvolves(w.st, Managed, Failed);
      PatchEvolves(w, w.st.FailPhase(Managed), o.patch);
      AttemptEvolves(w.st, 0, o.reason);
      PatchEvolves(w, w.st.DisableRetry().FailPhase(Managed), o.patch);
      RetryEvolves(w, o);
    }
  }

  lemma LoosenedEvolves(w: World, runs: seq<Run>, kinds: set<Phase>, finalized: bool, r: Result)
    requires w.pc < IDLE && Loosened(w.runs, runs, kinds)
    ensures Evolves(w, Advance(w, Ret(w.(runs := runs, finalized := finalized), r)))
  {
  }

  lemma StripLoosens(runs: seq<Run>, p: Phase, cleaned: set<Phase>, kinds: set<Phase>)
    requires p in kinds
    ensures Loosened(runs, StripIf(runs, p, cleaned), kinds)
  {
  }

  lemma CleanUpCollectorsEvolves(w: World, o: Outcome)
    requires w.pc < IDLE
    ensures Evolves(w, Advance(w, CleanUpCollectors(w, o)))
  {
    hide Evolves, StripIf, Loosened;
    StayEvolves(w, w, Continue);
    var kinds := {TenantCollectors, ManagedCollectors};
    var once := StripIf(w.runs, TenantCollectors, o.cleaned);
    var twice := StripIf(once, ManagedCollectors, o.cleaned);
    StripLoosens(w.runs, TenantCollectors, o.cleaned, kinds);
    StripLoosens(once, ManagedCollectors, o.cleaned, kinds);
    LoosenedTransitive(w.runs, once, twice, kinds);
    LoosenedEvolves(w, twice, kinds, w.finalized, Continue);
    LoosenedEvolves(w, twice, kinds, w.finalized, Requeue);
  }

  lemma CleanUpProcessingEvolves(w: World, o: Outcome)
    requires w.pc < IDLE
    ensures Evolves(w, Advance(w, CleanUpProcessing(w, o)))
  {
    hide Evolves, StripIf, StripAttempts, Loosened;
    StayEvolves(w, w, Continue);
    var kinds := {Tenant, Managed, Final};
    var t := StripIf(w.runs, Tenant, o.cleaned);
    var n := Min(o.cleanedAttempts, |w.st.attempts|);
    var m := StripAttempts(t, n);
    var f := StripIf(m, Final, o.cleaned);
    StripLoosens(w.runs, Tenant, o.cleaned, kinds);
    StripAttemptsLoosens(t, n);
    MoreKinds(t, m, {Managed}, kinds);
    StripLoosens(m, Final, o.cleaned, kinds);
    LoosenedTransitive(w.runs, t, m, kinds);
    LoosenedTransitive(w.runs, m, f, kinds);
    LoosenedEvolves(w, t, kinds, w.finalized, Continue);
    LoosenedEvolves(w, m, kinds, w.finalized, Continue);
    LoosenedEvolves(w, f, kinds, w.finalized, Continue);
    LoosenedEvolves(w, f, kinds, w.finalized, Requeue);
  }

  lemma MoreKinds(a: seq<Run>, b: seq<Run>, some: set<Phase>, more: set<Phase>)
    requires Loosened(a, b, some) && some <= more
    ensures Loosened(a, b, more)
  {
  }

  lemma CallFinalizersEvolves(w: World, o: Outcome)
    requires w.pc < IDLE
    ensures Evolves(w, Advance(w, CallFinalizers(w, o)))
  {
    hide Evolves, Finalize;
    StayEvolves(w, w, Continue);
    var all := {TenantCollectors, ManagedCollectors, Tenant, Managed, Final};
    forall p: Phase
      ensures p in all
    {
      match p case TenantCollectors => case ManagedCollectors => case Tenant => case Managed => case Final =>
    }
    var order := FinalizationOrder(|w.st.attempts|);
    FinalizeLoosens(w.runs, order, o.finalizations, all);
    LoosenedEvolves(w, Finalize(w.runs, order, o.finalizations), all, true, Requeue);
  }

  lemma JudgedEvolves(s: Status, released: Cond, validated: Cond)
    requires KeepsOutcome(s.conds.released, released)
    ensures StatusEvolves(s, Judged(s, released, validated))
  {
  }

  lemma LoadConfigEvolves(w: World, o: Outcome)
    requires w.pc < IDLE
    ensures Evolves(w, Advance(w, LoadConfig(w, o)))
  {
    var s := w.st.(conds := w.st.conds.(validated := Failed)).FailRelease();
    assert s == Judged(w.st, s.conds.released, Failed);
    JudgedEvolves(w.st, s.conds.released, Failed);
    hide Evolves, StatusEvolves, Patch;
    StayEvolves(w, w, Continue);
    StayEvolves(w, w, Requeue);
    PatchEvolves(w, s, o.patch);
    StopEvolves(w, Patch(w, s, o.patch));
  }

  /** How a reconcile ends makes no difference. */
  lemma StopEvolves(w: World, ret: Ret)
    requires w.pc < IDLE && Evolves(w, Advance(w, ret))
    ensures Evolves(w, Advance(w, ret.(r := Stop)))
  {
  }

  lemma JudgedPatchEvolves(w: World, s: Status, passed: bool, patch: PatchOutcome)
    requires w.pc < IDLE && StatusEvolves(w.st, s)
    ensures Evolves(w, Advance(w, Patch(w.(validationPassed := passed), s, patch)))
    ensures Evolves(w, Advance(w, StopWhenFinished(Patch(w.(validationPassed := passed), s, patch))))
  {
    SameStatusEvolves(w.st);
    hide StatusEvolves;
  }

  lemma ValidateEvolves(w: World, o: Outcome)
    requires w.pc < IDLE
    ensures Evolves(w, Advance(w, Validate(w, o)))
  {
    hide Evolves, StatusEvolves;
    SameStatusEvolves(w.st);
    match o.validation
    case Undecided =>
      StayEvolves(w, w, Requeue);
    case Passed =>
      JudgedEvolves(w.st, w.st.conds.released, Succeeded);
      JudgedPatchEvolves(w, Judged(w.st, w.st.conds.released, Succeeded), true, o.patch);
      JudgedPatchEvolves(w, w.st, true, o.patch);
    case Invalid =>
      var s := w.st.(conds := w.st.conds.(validated := Failed)).FailRelease();
      JudgedEvolves(w.st, s.conds.released, Failed);
      JudgedPatchEvolves(w, s, w.validationPassed, o.patch);
  }

  lemma JudgeReleaseEvolves(w: World, o: Outcome)
    requires w.pc < IDLE
    ensures Evolves(w, Advance(w, RunRelease(w, o)))
    ensures Evolves(w, Advance(w, CompleteRelease(w, o)))
  {
    if !w.st.conds.released.Finished() {
      JudgedEvolves(w.st, Progressing, w.st.conds.validated);
      JudgedEvolves(w.st, Succeeded, w.st.conds.validated);
    }
    hide Evolves, StatusEvolves, Patch;
    StayEvolves(w, w, Continue);
    StayEvolves(w, w, Stop);
    SameStatusEvolves(w.st);
    PatchEvolves(w, w.st, o.patch);
    if !w.st.conds.released.Finished() {
      PatchEvolves(w, Judged(w.st, Progressing, w.st.conds.validated), o.patch);
      PatchEvolves(w, Judged(w.st, Succeeded, w.st.conds.validated), o.patch);
    }
  }

  lemma RunChangeEvolves(w: World, i: nat, run: Run)
    requires i < |w.runs| && run.kind == w.runs[i].kind && run.attempt == w.runs[i].attempt
    requires w.runs[i].Done() ==> run.Done()
    ensures Evolves(w, w.(runs := w.runs[i := run]))
  {
  }

  lemma BookkeepingEvolves(w: World, w': World)
    requires w'.st == w.st && w'.runs == w.runs && (w.deleting ==> w'.deleting)
    ensures Evolves(w, w')
  {
  }

  lemma NextEvolves(w: World, step: Step)
    ensures Evolves(w, Next(w, step))
  {
    hide Evolves, Apply;
    BookkeepingEvolves(w, w);
    match step
    case Begin => BookkeepingEvolves(w, Next(w, step));
    case Operate(o) =>
      if w.pc < IDLE {
        OperationEvolves(w, o);
      }
    case Crash => BookkeepingEvolves(w, Next(w, step));
    case RunFinishes(i, succeeds) =>
      if i < |w.runs| {
        RunChangeEvolves(w, i, w.runs[i].(state := if succeeds then RunSucceeded else RunFailed));
      }
    case RunIsDeleted(i) =>
      if i < |w.runs| {
        RunChangeEvolves(w, i, w.runs[i].(deleting := true));
      }
    case RunVanishes(i) =>
      if i < |w.runs| {
        RunChangeEvolves(w, i, w.runs[i].(present := false));
      }
    case ReleaseIsDeleted => BookkeepingEvolves(w, Next(w, step));
  }

  lemma OperationEvolves(w: World, o: Outcome)
    requires w.pc < IDLE
    ensures Evolves(w, Advance(w, Apply(OpAt(w.pc), w, o)))
  {
    hide Evolves;
    match OpAt(w.pc)
    case FinalizersCalled => CallFinalizersEvolves(w, o);
    case ConfigLoaded => LoadConfigEvolves(w, o);
    case CollectorsCleanedUp => CleanUpCollectorsEvolves(w, o);
    case ProcessingCleanedUp => CleanUpProcessingEvolves(w, o);
    case ReleaseRunning => JudgeReleaseEvolves(w, o);
    case ReleaseValid => ValidateEvolves(w, o);
    case MetadataSet => StayEvolves(w, w, Continue); StayEvolves(w, w, Requeue);
    case FinalizerAdded => StayEvolves(w, w, Continue); StayEvolves(w, w, Requeue);
    case ExpirationAdded => StayEvolves(w, w, Continue); StayEvolves(w, w, Requeue);
    case Process(p) =>
      if p.Managed? {
        ProcessManagedEvolves(w, o);
      } else {
        ProcessPhaseEvolves(w, p, o);
      }
    case Track(p) =>
      if p.Managed? {
        TrackManagedEvolves(w, o);
      } else {
        TrackPhaseEvolves(w, p, o);
      }
    case ManagedCompleted => CompleteManagedEvolves(w, o);
    case ReleaseCompleted => JudgeReleaseEvolves(w, o);
  }

  /** Terminal stability over every run: once a phase or the Release has finished, no later step
      changes its outcome, and no run or attempt is ever relabelled or taken back. */
  lemma {:induction false} ExecEvolves(w: World, steps: seq<Step>)
    ensures Evolves(w, Exec(w, steps))
  {
    if steps != [] {
      var before := Exec(w, steps[..|steps| - 1]);
      ExecEvolves(w, steps[..|steps| - 1]);
      NextEvolves(before, steps[|steps| - 1]);
      EvolvesTransitive(w, before, Exec(w, steps));
    }
  }

  /** A run of the machine may be cut anywhere. */
  lemma {:induction false} ExecConcat(w: World, first: seq<Step>, rest: seq<Step>)
    ensures Exec(w, first + rest) == Exec(Exec(w, first), rest)
  {
    if rest == [] {
      assert first + rest == first;
    } else {
      var last := |rest| - 1;
      ExecConcat(w, first, rest[..last]);
      assert (first + rest)[..|first + rest| - 1] == first + rest[..last];
    }
  }

  lemma FinishedForever(steps: seq<Step>, more: seq<Step>)
    ensures StatusEvolves(Exec(INIT, steps).st, Exec(INIT, steps + more).st)
    ensures PhaseOrder(Exec(INIT, steps + more).st)
  {
    ExecConcat(INIT, steps, more);
    ExecEvolves(Exec(INIT, steps), more);
    ReachableOk(steps + more);
  }
}
