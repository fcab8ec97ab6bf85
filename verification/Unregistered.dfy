/** The run of a retry that is created but never registered: where it comes from, and that nothing
 * ever takes its finalizer off.
 */
module Unregistered {
  import opened ReleaseStatus
  import opened RetryPolicy
  import opened Reconciler
  import opened Invariant
  import opened Safety
  import opened Creation
  import opened Finalizers
  import opened Progress
  import opened LostWakeup

  /** A managed run that no attempt stands for. */
  predicate LeftBehind(w: World, i: nat) {
    i < |w.runs| && w.runs[i].kind.Managed? && !IsRegistered(w.st, i)
  }

  /** The operation persists the failure of the managed phase. */
  predicate PersistsFailure(w: World, o: Outcome) {
    w.st.conds.managed.Progressing? && CompleteManaged(w, o).w.st.conds.managed.Failed?
  }

  /** The run of the next attempt is there already, created by a reconcile that did not register it. */
  predicate NextRunIsThere(w: World) {
    Find(w.runs, Managed, |w.st.attempts|).Some?
  }

  /** The retry creates the run of the next attempt, and its registration is rejected. */
  predicate RegistrationRejected(w: World, o: Outcome) {
    && CanRetry(w.st, o.retryInfo) && !DisabledByRelease(o)
    && o.retryRead.ReadOk? && o.create.Created? && o.patch.PatchRejected?
  }

  lemma PatchChoices(v: World, s: Status, patch: PatchOutcome)
    ensures Patch(v, s, patch).w == v || Patch(v, s, patch).w == v.(st := s)
  {
  }

  lemma RegisterRetryFails(v: World, run: nat, o: Outcome)
    requires run < |v.runs| && v.st.conds.managed.Progressing?
    ensures var w' := RegisterRetry(v, run, o).w;
            w'.st.conds.managed.Failed? ==>
              o.patch.PatchRejected? && w'.runs == v.runs && w'.st == v.st.FailPhase(Managed)
  {
    PatchChoices(v, v.st.FailPhase(Managed), o.secondPatch);
    var v' := if v.runs[run].Done() then v.(lateAdoption := true) else v.(watched := Some(run));
    PatchChoices(v', v.st.StartAttempt(run), o.patch);
    hide Patch;
  }

  lemma AddRunAdds(w: World, p: Phase, attempt: nat)
    ensures AddRun(w, p, attempt).st == w.st && |AddRun(w, p, attempt).runs| == |w.runs| + 1
  {
  }

  lemma RetryFails(w: World, o: Outcome)
    requires w.st.conds.managed.Progressing? && w.st.attempts != []
    ensures var w' := Retry(w, o).w;
            w'.st.conds.managed.Failed? ==>
              && w'.st == w.st.FailPhase(Managed)
              && if !NextRunIsThere(w) && o.retryRead.ReadOk? && o.create.Created? && o.patch.PatchRejected?
                 then w'.runs == AddRun(w, Managed, |w.st.attempts|).runs
                 else w'.runs == w.runs
  {
    hide Patch, RegisterRetry, Find, AddRun;
    var run := Find(w.runs, Managed, |w.st.attempts|);
    assert w.st.RetryCount() + 1 == |w.st.attempts|;
    PatchChoices(w, w.st.FailPhase(Managed), o.patch);
    if run.Some? {
      RegisterRetryFails(w, run.value, o);
    } else {
      var w' := AddRun(w, Managed, |w.st.attempts|);
      assert |w'.runs| == |w.runs| + 1 && w'.st == w.st by {
        AddRunAdds(w, Managed, |w.st.attempts|);
      }
      RegisterRetryFails(w', |w.runs|, o);
    }
  }

  /** What the operation has done when it has persisted the failure. */
  lemma FailureKeepsAttempts(w: World, o: Outcome)
    requires PersistsFailure(w, o)
    ensures var w' := CompleteManaged(w, o).w;
            && (w'.st == w.st.FailPhase(Managed) || w'.st == w.st.DisableRetry().FailPhase(Managed))
            && w'.runs == if !NextRunIsThere(w) && RegistrationRejected(w, o)
                          then AddRun(w, Managed, |w.st.attempts|).runs else w.runs
  {
    PatchChoices(w, w.st.FailPhase(Managed), o.patch);
    if w.st.CurrentAttemptFailed() {
      PatchChoices(w, w.st.DisableRetry().FailPhase(Managed), o.patch);
      RetryFails(w, o);
    }
    hide Patch, Retry, DisabledByRelease, Find;
  }

  lemma SameRegistered(s: Status, i: nat)
    requires s.attempts != []
    ensures IsRegistered(s.FailPhase(Managed), i) <==> IsRegistered(s, i)
    ensures IsRegistered(s.DisableRetry().FailPhase(Managed), i) <==> IsRegistered(s, i)
  {
    var t := s.DisableRetry().FailPhase(Managed);
    assert |t.attempts| == |s.attempts|;
    assert forall k | 0 <= k < |s.attempts| :: t.attempts[k].run == s.attempts[k].run;
  }

  /** Before the operation, a managed run is unregistered exactly when it is the next one. */
  lemma LeftBehindBefore(w: World, i: nat)
    requires Inv(w) && Past(w, 0) && !w.st.Finished(Managed)
    ensures LeftBehind(w, i) <==> Find(w.runs, Managed, |w.st.attempts|) == Some(i)
  {
    if i < |w.runs| && w.runs[i].kind.Managed? {
      RegisteredExactly(w, i);
      FindsTheOnly(w, i);
    }
    var next := Find(w.runs, Managed, |w.st.attempts|);
    if next == Some(i) {
      RegisteredExactly(w, i);
    }
  }

  /** When the operation persists the failure of the managed phase, it leaves a run behind if and
      only if the run of the next attempt was there already, whatever then led to the failure, or
      the retry created it and its registration was rejected. */
  lemma LeavesBehindExactly(steps: seq<Step>, o: Outcome)
    requires Exec(INIT, steps).pc == 17 && PersistsFailure(Exec(INIT, steps), o)
    ensures var w := Exec(INIT, steps);
            (exists i: nat :: LeftBehind(CompleteManaged(w, o).w, i)) <==>
            NextRunIsThere(w) || RegistrationRejected(w, o)
  {
    var w := Exec(INIT, steps);
    ReachableOk(steps);
    hide Exec;
    LeavesBehind(w, o);
  }

  lemma LeavesBehind(w: World, o: Outcome)
    requires Inv(w) && w.pc == 17 && PersistsFailure(w, o)
    ensures (exists i: nat :: LeftBehind(CompleteManaged(w, o).w, i)) <==> NextRunIsThere(w) || RegistrationRejected(w, o)
  {
    var w' := CompleteManaged(w, o).w;
    FailureKeepsAttempts(w, o);
    forall i: nat
      ensures LeftBehind(w, i) <==> Find(w.runs, Managed, |w.st.attempts|) == Some(i)
      ensures IsRegistered(w'.st, i) <==> IsRegistered(w.st, i)
    {
      LeftBehindBefore(w, i);
      SameRegistered(w.st, i);
    }
    if NextRunIsThere(w) {
      assert LeftBehind(w', Find(w.runs, Managed, |w.st.attempts|).value);
    } else if RegistrationRejected(w, o) {
      NewRunIsUnregistered(w);
      assert LeftBehind(w', |w.runs|);
    } else {
      forall i: nat
        ensures !LeftBehind(w', i)
      {
        assert !LeftBehind(w, i);
      }
    }
  }

  /** The managed phase finishes between `w` and `w'`. */
  predicate Finishes(w: World, w': World) {
    !w.st.Finished(Managed) && w'.st.Finished(Managed)
  }

  predicate SameRuns(s: Status, s': Status) {
    |s'.attempts| == |s.attempts| && forall k | 0 <= k < |s.attempts| :: s'.attempts[k].run == s.attempts[k].run
  }

  lemma ProcessManagedPersists(w: World, o: Outcome)
    ensures var w' := ProcessManaged(w, o).w;
            var run := Find(w.runs, Managed, w.st.RetryCount());
            || w'.st == w.st
            || w'.st == w.st.StartAttempt(if run.Some? then run.value else |w.runs|)
            || (w'.runs == w.runs && (w'.st == w.st.Set(Managed, Skipped) || w'.st == w.st.FailPhase(Managed)))
  {
    PatchPersists();
    PatchKeepsRuns();
    assert AddRun(w, Managed, |w.st.attempts|).st == w.st;
    hide Patch, Find, AddRun, Status.Set, Status.FailPhase, Status.StartAttempt, Status.PredecessorFinished,
         Status.RetryCount, Status.CurrentAttemptFailed;
  }

  lemma MovesOfManaged(s: Status, run: nat, reason: FailureReason)
    ensures !s.StartAttempt(run).Finished(Managed)
    ensures SameRuns(s, s.Set(Managed, Skipped)) && SameRuns(s, s.FailPhase(Managed))
    ensures s.attempts != [] ==>
              && s.FinishAttempt(AttemptFailed, reason).conds == s.conds
              && SameRuns(s, s.FinishAttempt(AttemptSucceeded, reason).Set(Managed, Succeeded))
  {
  }

  lemma ProcessFinishes(w: World, o: Outcome)
    ensures var w' := ProcessManaged(w, o).w;
            Finishes(w, w') ==> w'.runs == w.runs && SameRuns(w.st, w'.st)
  {
    hide ProcessManaged, Find, SameRuns, Status.Set, Status.FailPhase, Status.StartAttempt;
    ProcessManagedPersists(w, o);
    var run := Find(w.runs, Managed, w.st.RetryCount());
    MovesOfManaged(w.st, if run.Some? then run.value else |w.runs|, NoFailure);
  }

  lemma TrackManagedPersists(w: World, o: Outcome)
    ensures var s := TrackManaged(w, o).w.st;
            || s == w.st
            || (&& w.st.attempts != []
                && (|| s == w.st.FinishAttempt(AttemptFailed, o.reason)
                    || s == w.st.FinishAttempt(AttemptSucceeded, w.st.attempts[|w.st.attempts| - 1].reason)
                                .Set(Managed, Succeeded)))
  {
    PatchPersists();
    hide Patch, Find, Status.Set, Status.FinishAttempt, Status.RetryCount, Status.CurrentAttemptDone;
  }

  lemma TrackFinishes(w: World, o: Outcome)
    ensures var w' := TrackManaged(w, o).w;
            Finishes(w, w') ==> w'.runs == w.runs && SameRuns(w.st, w'.st)
  {
    hide TrackManaged, SameRuns, Status.Set, Status.FinishAttempt;
    TrackKeepsRuns(w, Managed, o);
    TrackManagedPersists(w, o);
    MovesOfManaged(w.st, 0, o.reason);
    if w.st.attempts != [] {
      MovesOfManaged(w.st, 0, w.st.attempts[|w.st.attempts| - 1].reason);
    }
  }

  lemma RegisterRetryPersists(v: World, run: nat, o: Outcome)
    requires run < |v.runs|
    ensures var s := RegisterRetry(v, run, o).w.st;
            s == v.st || s == v.st.FailPhase(Managed) || s == v.st.StartAttempt(run)
  {
    PatchPersists();
    hide Patch, Status.FailPhase, Status.StartAttempt;
  }

  lemma RetryPersists(w: World, o: Outcome)
    ensures var s := Retry(w, o).w.st;
            var run := Find(w.runs, Managed, w.st.RetryCount() + 1);
            || s == w.st || s == w.st.FailPhase(Managed)
            || s == w.st.StartAttempt(if run.Some? then run.value else |w.runs|)
  {
    PatchPersists();
    var w' := AddRun(w, Managed, |w.st.attempts|);
    assert w'.st == w.st && |w'.runs| == |w.runs| + 1;
    RegisterRetryPersists(w', |w.runs|, o);
    var run := Find(w.runs, Managed, w.st.RetryCount() + 1);
    if run.Some? {
      RegisterRetryPersists(w, run.value, o);
    }
    hide Patch, RegisterRetry, Find, AddRun, Status.FailPhase, Status.StartAttempt, Status.RetryCount;
  }

  lemma CompleteManagedPersists(w: World, o: Outcome)
    ensures var s := CompleteManaged(w, o).w.st;
            var run := Find(w.runs, Managed, w.st.RetryCount() + 1);
            || s == w.st
            || (w.st.conds.managed.Progressing? && w.st.attempts != []
                && (|| s == w.st.FailPhase(Managed) || s == w.st.DisableRetry().FailPhase(Managed)
                    || s == w.st.StartAttempt(if run.Some? then run.value else |w.runs|)))
  {
    PatchPersists();
    RetryPersists(w, o);
    hide Patch, Retry, Find, DisabledByRelease, CanRetry, Status.FailPhase, Status.StartAttempt, Status.DisableRetry,
         Status.RetryCount;
  }

  lemma CompleteFinishes(w: World, o: Outcome)
    ensures Finishes(w, CompleteManaged(w, o).w) ==> PersistsFailure(w, o)
  {
    CompleteManagedPersists(w, o);
    var run := Find(w.runs, Managed, w.st.RetryCount() + 1);
    assert !w.st.StartAttempt(if run.Some? then run.value else |w.runs|).Finished(Managed);
    hide CompleteManaged, Find, Status.StartAttempt;
  }

  lemma OtherPhaseStays(w: World, p: Phase, o: Outcome)
    requires !p.Managed?
    ensures ProcessPhase(w, p, o).w.st.conds.managed == TrackPhase(w, p, o).w.st.conds.managed == w.st.conds.managed
  {
    ProcessPhasePersists(w, p, o);
    TrackPhasePersists(w, p, o);
    hide ProcessPhase, TrackPhase;
  }

  /** No other operation finishes the managed phase. */
  lemma OnlyManagedFinishes(w: World, step: Step)
    requires Finishes(w, Next(w, step))
    ensures step.Operate? && 15 <= w.pc <= 17
  {
    hide ProcessManaged, ProcessPhase, CompleteManaged, TrackManaged, TrackPhase, CallFinalizers,
         CleanUpProcessing, CleanUpCollectors, LoadConfig, RunRelease, Validate, CompleteRelease;
    assert step.Operate? && w.pc < IDLE;
    CleanUpKeepsStatus(w, step.o);
    LoadConfigDescends(w, step.o);
    RunReleaseDescends(w, step.o);
    ValidateDescends(w, step.o);
    CompleteReleaseDescends(w, step.o);
    match OpAt(w.pc)
    case Process(p) =>
      if !p.Managed? {
        OtherPhaseStays(w, p, step.o);
      }
    case Track(p) =>
      if !p.Managed? {
        OtherPhaseStays(w, p, step.o);
      }
    case _ =>
  }

  lemma CleanUpKeepsStatus(w: World, o: Outcome)
    ensures CallFinalizers(w, o).w.st == CleanUpCollectors(w, o).w.st == CleanUpProcessing(w, o).w.st == w.st
  {
    hide StripIf, StripAttempts, Finalize;
  }

  /** When runs and attempts stay, a run is left behind exactly when the next one was there. */
  lemma SameLeftBehind(w: World, w': World)
    requires Inv(w) && Past(w, 0) && !w.st.Finished(Managed)
    requires w'.runs == w.runs && SameRuns(w.st, w'.st)
    ensures (exists i: nat :: LeftBehind(w', i)) <==> NextRunIsThere(w)
  {
    forall i: nat
      ensures LeftBehind(w', i) <==> Find(w.runs, Managed, |w.st.attempts|) == Some(i)
    {
      LeftBehindBefore(w, i);
    }
    hide Inv, LeftBehind;
    if NextRunIsThere(w) {
      assert LeftBehind(w', Find(w.runs, Managed, |w.st.attempts|).value);
    }
  }

  /** In whatever way the managed phase finishes, it leaves a run behind if and only if the run of
      the next attempt was there already, or a retry created it and its registration was rejected. */
  lemma FinishLeavesBehindExactly(steps: seq<Step>, step: Step)
    ensures var w := Exec(INIT, steps);
            Finishes(w, Next(w, step)) ==>
              ((exists i: nat :: LeftBehind(Next(w, step), i)) <==>
               NextRunIsThere(w) || (step.Operate? && w.pc == 17 && RegistrationRejected(w, step.o)))
  {
    var w := Exec(INIT, steps);
    ReachableOk(steps);
    hide Exec, Inv, Next, Finishes, LeftBehind, NextRunIsThere, RegistrationRejected;
    if Finishes(w, Next(w, step)) {
      OnlyManagedFinishes(w, step);
      StepLeavesBehind(w, step.o);
    }
  }

  lemma StepLeavesBehind(w: World, o: Outcome)
    requires Inv(w) && 15 <= w.pc <= 17 && Finishes(w, Next(w, Operate(o)))
    ensures (exists i: nat :: LeftBehind(Next(w, Operate(o)), i)) <==>
            NextRunIsThere(w) || (w.pc == 17 && RegistrationRejected(w, o))
  {
    hide Inv, ProcessManaged, TrackManaged, CompleteManaged, NextRunIsThere, RegistrationRejected;
    var w' := Next(w, Operate(o));
    if w.pc == 17 {
      assert w' == Advance(w, CompleteManaged(w, o));
      CompleteFinishes(w, o);
      LeavesBehind(w, o);
      assert forall i: nat :: LeftBehind(w', i) <==> LeftBehind(CompleteManaged(w, o).w, i);
    } else {
      assert w' == Advance(w, if w.pc == 15 then ProcessManaged(w, o) else TrackManaged(w, o));
      ProcessFinishes(w, o);
      TrackFinishes(w, o);
      SameLeftBehind(w, w');
    }
  }

  lemma NewRunIsUnregistered(w: World)
    requires Inv(w)
    ensures !IsRegistered(w.st, |w.runs|)
  {
  }

  /** Once the managed phase has finished, the list of attempts is closed. */
  lemma AttemptsAreClosed(w: World, step: Step)
    requires w.st.Finished(Managed)
    ensures Next(w, step).st.attempts == w.st.attempts && Next(w, step).st.Finished(Managed)
  {
    NextEvolves(w, step);
    hide Apply, RunsEvolve;
    if step.Operate? && w.pc < IDLE {
      OperationKeepsAttempts(w, step.o);
    }
  }

  predicate SameAttempts(w: World, w': World) {
    w'.st.attempts == w.st.attempts
  }

  lemma PatchKeepsAttempts()
    ensures forall v: World, s: Status, patch: PatchOutcome | s.attempts == v.st.attempts ::
              SameAttempts(v, Patch(v, s, patch).w)
  {
  }

  lemma SetKeepsAttempts(s: Status, p: Phase, c: Cond)
    ensures s.Set(p, c).attempts == s.FailPhase(p).attempts == s.attempts
  {
  }

  lemma ProcessKeepsAttempts(w: World, p: Phase, o: Outcome)
    requires !p.Managed?
    ensures SameAttempts(w, ProcessPhase(w, p, o).w)
  {
    PatchKeepsAttempts();
    SetKeepsAttempts(w.st, p, Skipped);
    SetKeepsAttempts(w.st, p, Progressing);
    AddRunAdds(w, p, 0);
    hide Patch, Find, AddRun;
  }

  lemma TrackKeepsAttempts(w: World, p: Phase, o: Outcome)
    requires !p.Managed?
    ensures SameAttempts(w, TrackPhase(w, p, o).w)
  {
    PatchKeepsAttempts();
    SetKeepsAttempts(w.st, p, Succeeded);
    hide Patch, Find;
  }

  lemma JudgeKeepsAttempts(w: World, o: Outcome)
    ensures SameAttempts(w, LoadConfig(w, o).w)
    ensures SameAttempts(w, RunRelease(w, o).w)
    ensures SameAttempts(w, Validate(w, o).w)
    ensures SameAttempts(w, CompleteRelease(w, o).w)
  {
    PatchKeepsAttempts();
    hide Patch;
  }

  lemma CleanUpKeepsAttempts(w: World, o: Outcome)
    ensures SameAttempts(w, CleanUpProcessing(w, o).w)
    ensures SameAttempts(w, CleanUpCollectors(w, o).w)
    ensures SameAttempts(w, CallFinalizers(w, o).w)
  {
    hide StripIf, StripAttempts, Finalize;
  }

  lemma OperationKeepsAttempts(w: World, o: Outcome)
    requires w.pc < IDLE && w.st.Finished(Managed)
    ensures SameAttempts(w, Apply(OpAt(w.pc), w, o).w)
  {
    assert ProcessManaged(w, o) == TrackManaged(w, o) == CompleteManaged(w, o) == Ret(w, Continue);
    hide ProcessManaged, ProcessPhase, CompleteManaged, TrackManaged, TrackPhase,
         CallFinalizers, CleanUpProcessing, CleanUpCollectors, LoadConfig, RunRelease, Validate, CompleteRelease;
    JudgeKeepsAttempts(w, o);
    CleanUpKeepsAttempts(w, o);
    match OpAt(w.pc)
    case Process(p) =>
      if !p.Managed? {
        ProcessKeepsAttempts(w, p, o);
      }
    case Track(p) =>
      if !p.Managed? {
        TrackKeepsAttempts(w, p, o);
      }
    case _ =>
  }

  predicate Stuck(w: World, i: nat) {
    w.st.Finished(Managed) && LeftBehind(w, i) && w.runs[i].finalizer
  }

  /** A run that is left behind keeps the finalizer for ever: no later cleanup takes it off, and
      the finalization of the Release does not either, so the run never goes away. */
  lemma LeftBehindForever(steps: seq<Step>, more: seq<Step>, i: nat)
    requires Stuck(Exec(INIT, steps), i)
    ensures Stuck(Exec(INIT, steps + more), i) && Exec(INIT, steps + more).runs[i].present
  {
    StaysStuck(steps, more, i);
    ReachableHeld(steps + more);
    hide Exec;
  }

  lemma {:induction false} StaysStuck(steps: seq<Step>, more: seq<Step>, i: nat)
    requires Stuck(Exec(INIT, steps), i)
    ensures Stuck(Exec(INIT, steps + more), i)
    decreases |more|
  {
    hide Exec, Next, Stuck;
    if more == [] {
      assert steps + more == steps;
    } else {
      var last := |more| - 1;
      var all := steps + more[..last];
      assert (steps + more)[..|steps + more| - 1] == all;
      ExecOne(INIT, steps + more);
      StaysStuck(steps, more[..last], i);
      ReachableOk(all);
      StepStaysStuck(Exec(INIT, all), more[last], i);
    }
  }

  lemma ExecOne(w: World, steps: seq<Step>)
    requires steps != []
    ensures Exec(w, steps) == Next(Exec(w, steps[..|steps| - 1]), steps[|steps| - 1])
  {
  }

  lemma StepStaysStuck(w: World, step: Step, i: nat)
    requires Inv(w) && Stuck(w, i)
    ensures Stuck(Next(w, step), i)
  {
    AttemptsAreClosed(w, step);
    RegisteredExactly(w, i);
    FinalizerLostOnlyAt(w, step, i);
    NextEvolves(w, step);
    hide Inv, Next, StatusEvolves;
  }

  lemma {:induction false} StripAttemptsExactly(runs: seq<Run>, n: nat, i: nat)
    requires Unique(runs) && Held(runs) && i < |runs| && runs[i].kind.Managed?
    ensures |StripAttempts(runs, n)| == |runs|
    ensures StripAttempts(runs, n)[i] == runs[i].(finalizer := runs[i].finalizer && n <= runs[i].attempt)
  {
    if n > 0 {
      StripAttemptsExactly(runs, n - 1, i);
      var before := StripAttempts(runs, n - 1);
      var found := Find(before, Managed, n - 1);
      StripAttemptsLosesBelow(runs, n - 1, n - 1);
      if found.Some? && runs[i].attempt == n - 1 {
        assert before[found.value].kind == runs[found.value].kind;
        assert found.value == i;
      } else if runs[i].attempt == n - 1 {
        assert !Labelled(before[i], Managed, n - 1);
      }
    }
  }

  /** A cleanup that meets no error takes the finalizer off exactly the registered runs. */
  lemma CleanedUpExactly(steps: seq<Step>, o: Outcome, i: nat)
    requires var w := Exec(INIT, steps);
             && w.pc == 3 && w.st.Finished(Tenant) && w.st.Finished(Managed)
             && o.cleanedAttempts >= |w.st.attempts|
             && i < |w.runs| && w.runs[i].kind.Managed?
    ensures var w, w' := Exec(INIT, steps), CleanUpProcessing(Exec(INIT, steps), o).w;
            && i < |w'.runs|
            && (w'.runs[i].finalizer <==> w.runs[i].finalizer && !IsRegistered(w.st, i))
  {
    var w := Exec(INIT, steps);
    ReachableOk(steps);
    ReachableHeld(steps);
    hide Exec;
    CleansRegistered(w, o, i);
  }

  lemma CleanedUpRuns(w: World, o: Outcome)
    requires w.st.Finished(Tenant) && w.st.Finished(Managed)
    ensures var m := StripAttempts(StripIf(w.runs, Tenant, o.cleaned), Min(o.cleanedAttempts, |w.st.attempts|));
            CleanUpProcessing(w, o).w.runs == if w.st.Finished(Final) then StripIf(m, Final, o.cleaned) else m
  {
    hide StripIf, StripAttempts;
  }

  lemma CleansRegistered(w: World, o: Outcome, i: nat)
    requires Inv(w) && Held(w.runs) && w.st.Finished(Tenant) && w.st.Finished(Managed)
    requires o.cleanedAttempts >= |w.st.attempts| && i < |w.runs| && w.runs[i].kind.Managed?
    ensures var w' := CleanUpProcessing(w, o).w;
            i < |w'.runs| && (w'.runs[i].finalizer <==> w.runs[i].finalizer && !IsRegistered(w.st, i))
  {
    RegisteredExactly(w, i);
    var t := StripIf(w.runs, Tenant, o.cleaned);
    StripIfSpares(w.runs, Tenant, o.cleaned, i);
    StripAttemptsExactly(t, |w.st.attempts|, i);
    StripIfSpares(StripAttempts(t, |w.st.attempts|), Final, o.cleaned, i);
    hide Inv, StripIf, StripAttempts, CleanUpProcessing;
    CleanedUpRuns(w, o);
  }

  lemma StripIfSpares(runs: seq<Run>, kind: Phase, cleaned: set<Phase>, i: nat)
    requires i < |runs| && runs[i].kind.Managed? && !kind.Managed?
    ensures |StripIf(runs, kind, cleaned)| == |runs| && StripIf(runs, kind, cleaned)[i] == runs[i]
    ensures Unique(runs) ==> Unique(StripIf(runs, kind, cleaned))
    ensures Held(runs) ==> Held(StripIf(runs, kind, cleaned))
  {
    StripIfLoses(runs, kind, cleaned, 0);
  }

  /** The second reconcile of `LostWakeup` goes another way: the run of the retry is created, and
      the patch that would register it is rejected. */
  const REJECT := GOOD.(patch := PatchRejected)

  const ENDED := FAILED.FailPhase(Managed)

  lemma RejectsRegistration(w: World)
    requires w.pc == 17 && w.st == FAILED && w.runs == [FIRST]
    ensures Next(w, Operate(REJECT)) == w.(st := ENDED, runs := [FIRST, SECOND.(state := Running)], pc := 18)
  {
    assert OpAt(17) == ManagedCompleted;
    MayRetry(REJECT);
    assert w.runs[..0] == [];
    assert Find(w.runs, Managed, 1) == None;
    var w' := AddRun(w, Managed, 1);
    assert RegisterRetry(w', 1, REJECT) == Ret(w'.(st := ENDED), Continue);
    assert Retry(w, REJECT) == RegisterRetry(w', 1, REJECT);
    assert CompleteManaged(w, REJECT) == Retry(w, REJECT);
  }

  /** A reachable state in which the managed phase has failed and a run is left behind. */
  lemma RunCanBeLeftBehind() returns (steps: seq<Step>)
    ensures var w := Exec(INIT, steps);
            && w.st.conds.managed.Failed? && |w.st.attempts| == 1
            && Stuck(w, 1) && w.runs[1].present && w.runs[1].attempt == |w.st.attempts|
  {
    var w: World;
    steps, w := FirstReconcile();
    steps, w := Start(steps, w);
    steps, w := SkipPhases(steps, w);
    NothingToProcess(w);
    steps, w := Do(steps, w, Operate(GOOD));
    RecordsFailure(w);
    steps, w := Do(steps, w, Operate(GOOD));
    RejectsRegistration(w);
    steps, w := Do(steps, w, Operate(REJECT));
    hide Next, Exec;
    assert w.st == ENDED && ENDED.attempts == FAILED.attempts;
    assert w.runs == [FIRST, SECOND.(state := Running)];
  }
}
