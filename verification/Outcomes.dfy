/** What the reachable states say about attempts and the outcome of the Release. */
module Outcomes {
  import opened ReleaseStatus
  import opened RetryPolicy
  import opened Reconciler
  import opened Invariant

  /** All attempts but the last failed for a retriable reason. */
  predicate OnlyLastMayEnd(a: seq<Attempt>) {
    forall k | 0 <= k < |a| - 1 :: a[k].status.AttemptFailed? && a[k].reason.Retriable()
  }

  predicate AllDone(a: seq<Attempt>) {
    forall k | 0 <= k < |a| :: a[k].Done()
  }

  lemma ShapeOfAttempts(s: Status)
    requires AttemptShape(s)
    ensures OnlyLastMayEnd(s.attempts)
    ensures s.conds.managed.Succeeded? <==> s.attempts != [] && s.attempts[|s.attempts| - 1].status.AttemptSucceeded?
    ensures s.Finished(Managed) && !s.conds.managed.Skipped? ==> AllDone(s.attempts)
  {
  }

  lemma FinalRunsComeLast(s: Status, runs: seq<Run>)
    requires LabelsOk(s, runs)
    ensures forall i | 0 <= i < |runs| && runs[i].kind.Final? :: s.Finished(Managed)
  {
  }

  /** All attempts but the last failed for a retriable reason; the managed phase succeeds exactly
      with its last attempt; unless it is skipped, it finishes only when every attempt is done,
      and only then does a final run exist. */
  lemma AttemptsFollowTheShape(steps: seq<Step>)
    ensures var w := Exec(INIT, steps); var a := w.st.attempts;
            && OnlyLastMayEnd(a)
            && (w.st.conds.managed.Succeeded? <==> a != [] && a[|a| - 1].status.AttemptSucceeded?)
            && (w.st.Finished(Managed) && !w.st.conds.managed.Skipped? ==> AllDone(a))
            && (forall i | 0 <= i < |w.runs| && w.runs[i].kind.Final? :: w.st.Finished(Managed))
  {
    ReachableOk(steps);
    hide Exec, AttemptShape, LabelsOk, OnlyLastMayEnd, AllDone, PhaseOrder, OutcomeAgrees, PcOk, Unique, Kept, Backed,
         AttemptsRegistered;
    ShapeOfAttempts(Exec(INIT, steps).st);
    FinalRunsComeLast(Exec(INIT, steps).st, Exec(INIT, steps).runs);
  }

  /** An operation does not release. */
  predicate KeepsUnreleased(w: World, w': World) {
    w'.st.conds.released.Succeeded? ==> w.st.conds.released.Succeeded?
  }

  lemma PatchKeeps(w: World, s: Status, patch: PatchOutcome)
    requires s.conds.released.Succeeded? ==> w.st.conds.released.Succeeded?
    ensures KeepsUnreleased(w, Patch(w, s, patch).w)
  {
  }

  /** Moving a phase keeps the Release unreleased, whatever the world the patch is made in. */
  lemma MoveKeeps(w: World, v: World, p: Phase, c: Cond, run: nat, patch: PatchOutcome)
    requires v.st == w.st
    ensures KeepsUnreleased(w, Patch(v, w.st.Set(p, c), patch).w)
    ensures KeepsUnreleased(w, Patch(v, w.st.FailPhase(p), patch).w)
    ensures KeepsUnreleased(w, Patch(v, w.st.StartAttempt(run), patch).w)
  {
    PatchKeeps(v, w.st.Set(p, c), patch);
    PatchKeeps(v, w.st.FailPhase(p), patch);
    PatchKeeps(v, w.st.StartAttempt(run), patch);
    hide Patch;
  }

  lemma StayKeeps(w: World, v: World)
    requires v.st == w.st
    ensures KeepsUnreleased(w, v)
  {
  }

  lemma ProcessPhaseKeeps(w: World, p: Phase, o: Outcome)
    requires !p.Managed?
    ensures KeepsUnreleased(w, ProcessPhase(w, p, o).w)
  {
    hide KeepsUnreleased, Patch;
    StayKeeps(w, w);
    MoveKeeps(w, w, p, Skipped, 0, o.patch);
    MoveKeeps(w, w, p, Progressing, 0, o.patch);
    var w' := AddRun(w, p, 0);
    StayKeeps(w, w');
    MoveKeeps(w, w', p, Progressing, 0, o.patch);
  }

  lemma ProcessManagedKeeps(w: World, o: Outcome)
    ensures KeepsUnreleased(w, ProcessManaged(w, o).w)
  {
    hide KeepsUnreleased, Patch;
    StayKeeps(w, w);
    var run := Find(w.runs, Managed, w.st.RetryCount());
    MoveKeeps(w, w, Managed, Skipped, if run.Some? then run.value else 0, o.patch);
    var w' := AddRun(w, Managed, |w.st.attempts|);
    StayKeeps(w, w');
    MoveKeeps(w, w', Managed, Skipped, |w.runs|, o.patch);
  }

  lemma TrackPhaseKeeps(w: World, p: Phase, o: Outcome)
    requires !p.Managed?
    ensures KeepsUnreleased(w, TrackPhase(w, p, o).w)
  {
    hide KeepsUnreleased, Patch;
    StayKeeps(w, w);
    StayKeeps(w, w.(watched := Find(w.runs, p, 0)));
    MoveKeeps(w, w, p, Succeeded, 0, o.patch);
  }

  lemma TrackManagedKeeps(w: World, o: Outcome)
    ensures KeepsUnreleased(w, TrackManaged(w, o).w)
  {
    PatchKeeps(w, w.st, o.patch);
    if w.st.attempts != [] {
      var last := w.st.attempts[|w.st.attempts| - 1];
      PatchKeeps(w, w.st.FinishAttempt(AttemptFailed, o.reason), o.patch);
      PatchKeeps(w, w.st.FinishAttempt(AttemptSucceeded, last.reason).Set(Managed, Succeeded), o.patch);
    }
    hide KeepsUnreleased, Patch;
    StayKeeps(w, w);
    StayKeeps(w, w.(watched := Find(w.runs, Managed, w.st.RetryCount())));
  }

  lemma RegisterRetryKeeps(w: World, v: World, run: nat, o: Outcome)
    requires v.st == w.st && run < |v.runs|
    ensures KeepsUnreleased(w, RegisterRetry(v, run, o).w)
  {
    hide KeepsUnreleased, Patch;
    MoveKeeps(w, v, Managed, Failed, run, o.secondPatch);
    MoveKeeps(w, v.(lateAdoption := true), Managed, Failed, run, o.patch);
    MoveKeeps(w, v.(watched := Some(run)), Managed, Failed, run, o.patch);
  }

  lemma CompleteManagedKeeps(w: World, o: Outcome)
    ensures KeepsUnreleased(w, CompleteManaged(w, o).w)
  {
    if w.st.attempts != [] {
      PatchKeeps(w, w.st.DisableRetry().FailPhase(Managed), o.patch);
    }
    hide KeepsUnreleased, Patch, RegisterRetry, DisabledByRelease;
    StayKeeps(w, w);
    MoveKeeps(w, w, Managed, Failed, 0, o.patch);
    var run := Find(w.runs, Managed, w.st.RetryCount() + 1);
    if run.Some? {
      RegisterRetryKeeps(w, w, run.value, o);
    }
    var w' := AddRun(w, Managed, |w.st.attempts|);
    StayKeeps(w, w');
    RegisterRetryKeeps(w, w', |w.runs|, o);
  }

  lemma JudgeKeeps(w: World, o: Outcome)
    ensures KeepsUnreleased(w, LoadConfig(w, o).w)
    ensures KeepsUnreleased(w, RunRelease(w, o).w)
    ensures KeepsUnreleased(w, Validate(w, o).w)
  {
    var s := w.st.(conds := w.st.conds.(validated := Failed)).FailRelease();
    var v := w.(validationPassed := true);
    PatchKeeps(w, s, o.patch);
    PatchKeeps(v, w.st, o.patch);
    PatchKeeps(v, w.st.(conds := w.st.conds.(validated := Succeeded)), o.patch);
    PatchKeeps(w, w.st.(conds := w.st.conds.(released := Progressing)), o.patch);
    hide Patch;
  }

  lemma OperationKeeps(w: World, o: Outcome)
    requires w.pc < IDLE - 1
    ensures KeepsUnreleased(w, Apply(OpAt(w.pc), w, o).w)
  {
    hide ProcessManaged, ProcessPhase, CompleteManaged, TrackManaged, TrackPhase,
         LoadConfig, RunRelease, Validate;
    match OpAt(w.pc)
    case ConfigLoaded => JudgeKeeps(w, o);
    case ReleaseRunning => JudgeKeeps(w, o);
    case ReleaseValid => JudgeKeeps(w, o);
    case Process(p) =>
      if p.Managed? {
        ProcessManagedKeeps(w, o);
      } else {
        ProcessPhaseKeeps(w, p, o);
      }
    case Track(p) =>
      if p.Managed? {
        TrackManagedKeeps(w, o);
      } else {
        TrackPhaseKeeps(w, p, o);
      }
    case ManagedCompleted => CompleteManagedKeeps(w, o);
    case _ =>
  }

  /** The step from `w` to `w'` marks the Release as released. */
  predicate Releases(w: World, w': World) {
    !w.st.conds.released.Succeeded? && w'.st.conds.released.Succeeded?
  }

  /** Only the last operation releases. */
  lemma ReleasesLast(w: World, step: Step)
    ensures Releases(w, Next(w, step)) ==>
              step.Operate? && w.pc == IDLE - 1 && w.st.conds.released.Progressing?
  {
    hide Apply;
    if !step.Operate? || w.pc >= IDLE {
    } else if w.pc < IDLE - 1 {
      OperationKeeps(w, step.o);
    } else {
      assert Apply(OpAt(w.pc), w, step.o) == CompleteRelease(w, step.o) by {
        ApplyLast(w, step.o);
      }
    }
  }

  lemma ApplyLast(w: World, o: Outcome)
    ensures Apply(ReleaseCompleted, w, o) == CompleteRelease(w, o)
  {
  }

  lemma WhenReleased(w: World)
    requires Inv(w) && w.st.conds.released.Succeeded?
    ensures w.st.AllPhasesFinished() && !w.st.HasPhaseFailed()
  {
  }

  lemma BeforeRelease(w: World, o: Outcome)
    requires Inv(w) && w.pc == IDLE - 1 && w.st.conds.released.Progressing?
    ensures w.validationPassed && w.st.conds.validated.Succeeded?
    ensures CompleteRelease(w, o).w.st.conds.validated.Succeeded?
  {
  }

  lemma ReleasesWell(w: World, o: Outcome)
    requires Inv(w) && w.pc == IDLE - 1 && w.st.conds.released.Progressing?
    requires CompleteRelease(w, o).w.st.conds.released.Succeeded?
    ensures var s := CompleteRelease(w, o).w.st;
            && s.AllPhasesFinished() && !s.HasPhaseFailed()
            && s.conds.validated.Succeeded? && w.validationPassed
  {
    BeforeRelease(w, o);
    CompleteReleaseOk(w, o);
    WhenReleased(Advance(w, CompleteRelease(w, o)));
    hide Inv;
  }

  lemma ReleaseStep(w: World, o: Outcome)
    requires w.pc == IDLE - 1
    ensures Next(w, Operate(o)).st == CompleteRelease(w, o).w.st
  {
    ApplyLast(w, o);
    hide Apply, CompleteRelease;
  }

  /** Released becomes True only when every phase has finished and none has failed, in a reconcile
      whose validation passed, although the operation looks at the final phase alone. */
  lemma ReleasedMeansAllWell(steps: seq<Step>, step: Step)
    ensures var w, w' := Exec(INIT, steps), Next(Exec(INIT, steps), step);
            Releases(w, w') ==>
              && w'.st.AllPhasesFinished() && !w'.st.HasPhaseFailed()
              && w'.st.conds.validated.Succeeded? && w.validationPassed
  {
    var w := Exec(INIT, steps);
    hide Exec, Inv, Next, CompleteRelease;
    ReachableOk(steps);
    ReleasesLast(w, step);
    if Releases(w, Next(w, step)) {
      ReleaseStep(w, step.o);
      ReleasesWell(w, step.o);
    }
  }

  /** A failed phase takes the Release down in every reachable state. */
  lemma FailedPhaseFailsRelease(steps: seq<Step>)
    ensures var s := Exec(INIT, steps).st; s.HasPhaseFailed() ==> s.conds.released.Failed?
  {
    ReachableOk(steps);
  }
}
