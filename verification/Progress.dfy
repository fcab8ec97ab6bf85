/** The number of attempts and of status changes is bounded. */
module Progress {
  import opened ReleaseStatus
  import opened RetryPolicy
  import opened Reconciler
  import opened Invariant
  import opened Safety

  /** MaxRetries, as read by the step, is at most `bound`. */
  predicate Bounded(step: Step, bound: nat) {
    step.Operate? && step.o.retryInfo.Some? && step.o.retryInfo.value.maxRetries.Some? ==>
      step.o.retryInfo.value.maxRetries.value <= bound
  }

  function Rank(c: Cond): nat {
    if c.Absent? then 2 else if c.Progressing? then 1 else 0
  }

  /** What is left to do: the phases, the attempts, and the current attempt. */
  function Measure(s: Status, bound: nat): nat
    requires |s.attempts| <= bound + 1
  {
    Rank(s.conds.tenantCollectors) + Rank(s.conds.managedCollectors) + Rank(s.conds.tenant)
    + Rank(s.conds.managed) + Rank(s.conds.final)
    + 2 * (bound + 1 - |s.attempts|)
    + if s.attempts != [] && !s.CurrentAttemptDone() then 1 else 0
  }

  /** Neither a phase condition nor the list of attempts changed. */
  predicate Unchanged(s: Status, s': Status) {
    && s'.attempts == s.attempts
    && s'.conds.tenantCollectors == s.conds.tenantCollectors
    && s'.conds.managedCollectors == s.conds.managedCollectors
    && s'.conds.tenant == s.conds.tenant
    && s'.conds.managed == s.conds.managed
    && s'.conds.final == s.conds.final
  }

  predicate Descends(s: Status, s': Status, bound: nat)
    requires |s.attempts| <= bound + 1
  {
    && |s'.attempts| <= bound + 1
    && (Unchanged(s, s') || Measure(s', bound) < Measure(s, bound))
  }

  lemma SetDescends(s: Status, p: Phase, c: Cond, bound: nat)
    requires |s.attempts| <= bound + 1 && !s.Finished(p)
    requires c.Finished() || c == s.Get(p) || s.Get(p).Absent?
    ensures Descends(s, s.Set(p, c), bound)
  {
    match p case TenantCollectors => case ManagedCollectors => case Tenant => case Managed => case Final =>
  }

  lemma FailDescends(s: Status, p: Phase, bound: nat)
    requires |s.attempts| <= bound + 1 && !s.Finished(p)
    ensures Descends(s, s.FailPhase(p), bound)
  {
    SetDescends(s, p, Failed, bound);
    var s' := s.Set(p, Failed);
    assert s.FailPhase(p) == Judged(s', s.FailPhase(p).conds.released, s'.conds.validated);
  }

  lemma FirstAttemptDescends(s: Status, run: nat, bound: nat)
    requires s.attempts == [] && s.conds.managed.Absent?
    ensures Descends(s, s.StartAttempt(run), bound)
  {
  }

  lemma NextAttemptDescends(s: Status, run: nat, bound: nat)
    requires |s.attempts| <= bound && s.CurrentAttemptFailed() && s.conds.managed.Progressing?
    ensures Descends(s, s.StartAttempt(run), bound)
  {
  }

  lemma FinishAttemptDescends(s: Status, reason: FailureReason, bound: nat)
    requires |s.attempts| <= bound + 1 && s.conds.managed.Progressing?
    requires s.attempts != [] && !s.CurrentAttemptDone()
    ensures Descends(s, s.FinishAttempt(AttemptFailed, reason), bound)
    ensures Descends(s, s.FinishAttempt(AttemptSucceeded, reason).Set(Managed, Succeeded), bound)
  {
  }

  lemma DisableRetryDescends(s: Status, bound: nat)
    requires |s.attempts| <= bound + 1 && s.conds.managed.Progressing? && s.CurrentAttemptFailed()
    ensures Descends(s, s.DisableRetry().FailPhase(Managed), bound)
  {
  }

  lemma PatchDescends(w: World, s: Status, patch: PatchOutcome, bound: nat)
    requires |w.st.attempts| <= bound + 1 && Descends(w.st, s, bound)
    ensures Descends(w.st, Patch(w, s, patch).w.st, bound)
  {
  }

  lemma PatchPersists()
    ensures forall w: World, s: Status, patch: PatchOutcome ::
              Patch(w, s, patch).w.st == w.st || Patch(w, s, patch).w.st == s
  {
  }

  /** The changes that the operation may persist. */
  lemma ProcessPhasePersists(w: World, p: Phase, o: Outcome)
    requires !p.Managed?
    ensures var s := ProcessPhase(w, p, o).w.st;
            || s == w.st
            || (!w.st.Finished(p)
                && (s == w.st.Set(p, Skipped) || s == w.st.Set(p, Progressing) || s == w.st.FailPhase(p)))
  {
    PatchPersists();
    hide Patch, Find, Status.Set, Status.FailPhase, Status.Get, Status.PredecessorFinished;
  }

  lemma ProcessPhaseDescends(w: World, p: Phase, o: Outcome, bound: nat)
    requires |w.st.attempts| <= bound + 1 && !p.Managed?
    ensures Descends(w.st, ProcessPhase(w, p, o).w.st, bound)
  {
    hide Descends, ProcessPhase;
    StayDescends(w.st, bound);
    ProcessPhasePersists(w, p, o);
    if !w.st.Finished(p) {
      SetDescends(w.st, p, Skipped, bound);
      FailDescends(w.st, p, bound);
      SetDescends(w.st, p, Progressing, bound);
    }
  }

  lemma StayDescends(s: Status, bound: nat)
    requires |s.attempts| <= bound + 1
    ensures Descends(s, s, bound)
  {
  }

  lemma ProcessManagedDescends(w: World, o: Outcome, bound: nat)
    requires Inv(w) && w.pc == 15 && |w.st.attempts| <= bound + 1
    ensures Descends(w.st, ProcessManaged(w, o).w.st, bound)
  {
    hide Inv, Descends, Patch;
    StayDescends(w.st, bound);
    if !w.st.Finished(Managed) {
      CurrentRunFound(w);
      SetDescends(w.st, Managed, Skipped, bound);
      FailDescends(w.st, Managed, bound);
      PatchDescends(w, w.st.Set(Managed, Skipped), o.patch, bound);
      PatchDescends(w, w.st.FailPhase(Managed), o.patch, bound);
      if w.st.conds.managed.Absent? {
        var run := Find(w.runs, Managed, w.st.RetryCount());
        if run.Some? {
          FirstAttemptDescends(w.st, run.value, bound);
          PatchDescends(w, w.st.StartAttempt(run.value), o.patch, bound);
        } else {
          FirstAttemptDescends(w.st, |w.runs|, bound);
          PatchDescends(AddRun(w, Managed, 0), w.st.StartAttempt(|w.runs|), o.patch, bound);
        }
      }
    }
  }

  lemma TrackPhasePersists(w: World, p: Phase, o: Outcome)
    requires !p.Managed?
    ensures var s := TrackPhase(w, p, o).w.st;
            || s == w.st
            || (w.st.Get(p).Progressing? && (s == w.st.Set(p, Succeeded) || s == w.st.FailPhase(p)))
  {
    PatchPersists();
    hide Patch, Find, Status.Set, Status.FailPhase, Status.Get;
  }

  lemma TrackPhaseDescends(w: World, p: Phase, o: Outcome, bound: nat)
    requires |w.st.attempts| <= bound + 1 && !p.Managed?
    ensures Descends(w.st, TrackPhase(w, p, o).w.st, bound)
  {
    hide Descends, TrackPhase;
    StayDescends(w.st, bound);
    TrackPhasePersists(w, p, o);
    if w.st.Get(p).Progressing? {
      SetDescends(w.st, p, Succeeded, bound);
      FailDescends(w.st, p, bound);
    }
  }

  lemma TrackManagedDescends(w: World, o: Outcome, bound: nat)
    requires |w.st.attempts| <= bound + 1
    ensures Descends(w.st, TrackManaged(w, o).w.st, bound)
  {
    hide Descends, Patch;
    StayDescends(w.st, bound);
    PatchDescends(w, w.st, o.patch, bound);
    if w.st.conds.managed.Progressing? && w.st.attempts != [] && !w.st.CurrentAttemptDone() {
      var last := w.st.attempts[|w.st.attempts| - 1];
      FinishAttemptDescends(w.st, o.reason, bound);
      FinishAttemptDescends(w.st, last.reason, bound);
      PatchDescends(w, w.st.FinishAttempt(AttemptFailed, o.reason), o.patch, bound);
      PatchDescends(w, w.st.FinishAttempt(AttemptSucceeded, last.reason).Set(Managed, Succeeded), o.patch, bound);
    }
  }

  lemma RegisterRetryDescends(w: World, run: nat, o: Outcome, bound: nat)
    requires |w.st.attempts| <= bound && run < |w.runs|
    requires w.st.conds.managed.Progressing? && w.st.CurrentAttemptFailed()
    ensures Descends(w.st, RegisterRetry(w, run, o).w.st, bound)
  {
    hide Descends, Patch;
    FailDescends(w.st, Managed, bound);
    PatchDescends(w, w.st.FailPhase(Managed), o.secondPatch, bound);
    NextAttemptDescends(w.st, run, bound);
    var w' := if w.runs[run].Done() then w.(lateAdoption := true) else w.(watched := Some(run));
    PatchDescends(w', w.st.StartAttempt(run), o.patch, bound);
  }

  lemma RetryDescends(w: World, o: Outcome, bound: nat)
    requires |w.st.attempts| <= bound
    requires w.st.conds.managed.Progressing? && w.st.CurrentAttemptFailed()
    ensures Descends(w.st, Retry(w, o).w.st, bound)
  {
    hide Descends, Patch, RegisterRetry;
    StayDescends(w.st, bound);
    FailDescends(w.st, Managed, bound);
    PatchDescends(w, w.st.FailPhase(Managed), o.patch, bound);
    var run := Find(w.runs, Managed, w.st.RetryCount() + 1);
    if run.Some? {
      RegisterRetryDescends(w, run.value, o, bound);
    } else {
      RegisterRetryDescends(AddRun(w, Managed, |w.st.attempts|), |w.runs|, o, bound);
    }
  }

  lemma CompleteManagedDescends(w: World, o: Outcome, bound: nat)
    requires |w.st.attempts| <= bound + 1 && Bounded(Operate(o), bound)
    ensures Descends(w.st, CompleteManaged(w, o).w.st, bound)
  {
    hide Descends, Patch, Retry;
    StayDescends(w.st, bound);
    if w.st.conds.managed.Progressing? && w.st.CurrentAttemptFailed() {
      FailDescends(w.st, Managed, bound);
      PatchDescends(w, w.st.FailPhase(Managed), o.patch, bound);
      DisableRetryDescends(w.st, bound);
      PatchDescends(w, w.st.DisableRetry().FailPhase(Managed), o.patch, bound);
      if CanRetry(w.st, o.retryInfo) {
        RetryDescends(w, o, bound);
      }
    }
  }

  lemma PatchUnchanged(w: World, s: Status, patch: PatchOutcome)
    requires Unchanged(w.st, s)
    ensures Unchanged(w.st, Patch(w, s, patch).w.st)
  {
  }

  lemma LoadConfigDescends(w: World, o: Outcome)
    ensures Unchanged(w.st, LoadConfig(w, o).w.st)
  {
    var s := w.st.(conds := w.st.conds.(validated := Failed)).FailRelease();
    PatchUnchanged(w, s, o.patch);
    hide Patch, Unchanged;
  }

  lemma RunReleaseDescends(w: World, o: Outcome)
    ensures Unchanged(w.st, RunRelease(w, o).w.st)
  {
    PatchUnchanged(w, w.st.(conds := w.st.conds.(released := Progressing)), o.patch);
    hide Patch, Unchanged;
  }

  lemma CompleteReleaseDescends(w: World, o: Outcome)
    ensures Unchanged(w.st, CompleteRelease(w, o).w.st)
  {
    PatchUnchanged(w, w.st, o.patch);
    PatchUnchanged(w, w.st.(conds := w.st.conds.(released := Succeeded)), o.patch);
    hide Patch, Unchanged;
  }

  lemma ValidateDescends(w: World, o: Outcome)
    ensures Unchanged(w.st, Validate(w, o).w.st)
  {
    var v := w.(validationPassed := true);
    var s := w.st.(conds := w.st.conds.(validated := Failed)).FailRelease();
    PatchUnchanged(w, s, o.patch);
    PatchUnchanged(v, w.st, o.patch);
    PatchUnchanged(v, w.st.(conds := w.st.conds.(validated := Succeeded)), o.patch);
    hide Patch, Unchanged;
  }

  lemma OperationDescends(w: World, o: Outcome, bound: nat)
    requires Inv(w) && w.pc < IDLE && |w.st.attempts| <= bound + 1 && Bounded(Operate(o), bound)
    ensures Descends(w.st, Apply(OpAt(w.pc), w, o).w.st, bound)
  {
    hide Inv, ProcessManaged, ProcessPhase, CompleteManaged, TrackManaged, TrackPhase,
         LoadConfig, RunRelease, Validate, CompleteRelease, Measure, Bounded;
    match OpAt(w.pc)
    case FinalizersCalled =>
    case ConfigLoaded => LoadConfigDescends(w, o);
    case CollectorsCleanedUp =>
    case ProcessingCleanedUp =>
    case ReleaseRunning => RunReleaseDescends(w, o);
    case ReleaseValid => ValidateDescends(w, o);
    case MetadataSet =>
    case FinalizerAdded =>
    case ExpirationAdded =>
    case Process(p) =>
      if p.Managed? {
        ProcessManagedDescends(w, o, bound);
      } else {
        ProcessPhaseDescends(w, p, o, bound);
      }
    case Track(p) =>
      if p.Managed? {
        TrackManagedDescends(w, o, bound);
      } else {
        TrackPhaseDescends(w, p, o, bound);
      }
    case ManagedCompleted => CompleteManagedDescends(w, o, bound);
    case ReleaseCompleted => CompleteReleaseDescends(w, o);
  }

  lemma NextDescends(w: World, step: Step, bound: nat)
    requires Inv(w) && |w.st.attempts| <= bound + 1 && Bounded(step, bound)
    ensures Descends(w.st, Next(w, step).st, bound)
  {
    hide Inv, Descends, Apply;
    StayDescends(w.st, bound);
    match step
    case Operate(o) =>
      if w.pc < IDLE {
        OperationDescends(w, o, bound);
      }
    case _ =>
  }

  /** How often a run of the machine changes a phase condition or the list of attempts. */
  function Changes(steps: seq<Step>): nat {
    if steps == [] then 0
    else
      var before := steps[..|steps| - 1];
      Changes(before) + if Unchanged(Exec(INIT, before).st, Exec(INIT, steps).st) then 0 else 1
  }

  /** A step pays for its change with the measure. */
  lemma StepPays(w: World, step: Step, bound: nat)
    requires Inv(w) && |w.st.attempts| <= bound + 1 && Bounded(step, bound)
    ensures |Next(w, step).st.attempts| <= bound + 1
    ensures (if Unchanged(w.st, Next(w, step).st) then 0 else 1) + Measure(Next(w, step).st, bound)
            <= Measure(w.st, bound)
  {
    NextDescends(w, step, bound);
    hide Inv, Next;
  }

  /** With at most M retries there are at most M + 1 attempts, and any run, however long and with
      whatever errors and crashes, persists at most 2M + 12 changes of phases and attempts. */
  lemma {:induction false} ChangesAreBounded(steps: seq<Step>, bound: nat)
    requires forall i | 0 <= i < |steps| :: Bounded(steps[i], bound)
    ensures |Exec(INIT, steps).st.attempts| <= bound + 1
    ensures Changes(steps) + Measure(Exec(INIT, steps).st, bound) <= 2 * bound + 12
  {
    if steps != [] {
      hide Inv, Next, Measure, Unchanged, Bounded;
      var before := steps[..|steps| - 1];
      ChangesAreBounded(before, bound);
      ReachableOk(before);
      StepPays(Exec(INIT, before), steps[|steps| - 1], bound);
    }
  }
}
