/** The outcome of a phase or an attempt is that of its PipelineRun. */
module Verdicts {
  import opened ReleaseStatus
  import opened RetryPolicy
  import opened Reconciler
  import opened Invariant
  import opened Safety
  import opened Creation
  import opened Finalizers
  import opened Progress
  import opened Unregistered

  /** A run of kind `p` has succeeded. */
  predicate HasSucceeded(runs: seq<Run>, p: Phase) {
    exists i | 0 <= i < |runs| :: runs[i].kind == p && runs[i].state.RunSucceeded?
  }

  predicate AttemptEarned(a: Attempt, runs: seq<Run>) {
    a.status.AttemptSucceeded? ==> a.run < |runs| && runs[a.run].state.RunSucceeded?
  }

  /** A phase without retries has succeeded only if its run has, and an attempt only if its own run has. */
  predicate Earned(s: Status, runs: seq<Run>) {
    && (s.conds.tenantCollectors.Succeeded? ==> HasSucceeded(runs, TenantCollectors))
    && (s.conds.managedCollectors.Succeeded? ==> HasSucceeded(runs, ManagedCollectors))
    && (s.conds.tenant.Succeeded? ==> HasSucceeded(runs, Tenant))
    && (s.conds.final.Succeeded? ==> HasSucceeded(runs, Final))
    && forall k | 0 <= k < |s.attempts| :: AttemptEarned(s.attempts[k], runs)
  }

  /** Runs stay, and one that has succeeded stays so. */
  predicate SuccessStays(a: seq<Run>, b: seq<Run>) {
    && |a| <= |b|
    && forall i | 0 <= i < |a| ::
         b[i].kind == a[i].kind && (a[i].state.RunSucceeded? ==> b[i].state.RunSucceeded?)
  }

  lemma EarnedStays(s: Status, a: seq<Run>, b: seq<Run>)
    requires Earned(s, a) && SuccessStays(a, b)
    ensures Earned(s, b)
  {
    forall p | HasSucceeded(a, p)
      ensures HasSucceeded(b, p)
    {
      var i :| 0 <= i < |a| && a[i].kind == p && a[i].state.RunSucceeded?;
      assert b[i].kind == p && b[i].state.RunSucceeded?;
    }
  }

  lemma StepKeepsSuccess(w: World, step: Step)
    ensures SuccessStays(w.runs, Next(w, step).runs)
  {
    hide Apply;
    match step
    case Operate(o) =>
      if w.pc < IDLE {
        OperationLoses(w, o);
      }
    case _ =>
  }

  /** Completed without success, or marked for deletion while running. */
  predicate DoneBadly(run: Run) {
    run.state == RunFailed || (run.state == Running && run.deleting)
  }

  /** What the tracking of a phase may persist, by the state of the run that it finds. */
  lemma TrackPhaseVerdict(w: World, p: Phase, o: Outcome)
    requires !p.Managed?
    ensures var s := TrackPhase(w, p, o).w.st;
            var run := Find(w.runs, p, 0);
            || s == w.st
            || (&& w.st.Get(p).Progressing? && run.Some?
                && (|| (w.runs[run.value].state == RunSucceeded && s == w.st.Set(p, Succeeded))
                    || (DoneBadly(w.runs[run.value]) && s == w.st.FailPhase(p))))
  {
    PatchPersists();
    hide Patch, Find, Status.Set, Status.FailPhase, Status.Get;
  }

  lemma TrackPhaseEarns(w: World, p: Phase, o: Outcome)
    requires !p.Managed? && Earned(w.st, w.runs)
    ensures Earned(TrackPhase(w, p, o).w.st, w.runs)
  {
    TrackPhaseVerdict(w, p, o);
    var run := Find(w.runs, p, 0);
    FailureEarns(w.st, w.runs, p);
    if run.Some? && w.runs[run.value].state.RunSucceeded? {
      SuccessEarns(w.st, w.runs, p, run.value);
    }
    hide TrackPhase, Find, Earned, Status.Set, Status.FailPhase, Status.Get;
  }

  lemma FailureEarns(s: Status, runs: seq<Run>, p: Phase)
    requires Earned(s, runs)
    ensures Earned(s.FailPhase(p), runs)
  {
  }

  lemma SuccessEarns(s: Status, runs: seq<Run>, p: Phase, i: nat)
    requires Earned(s, runs) && i < |runs| && runs[i].kind == p && runs[i].state.RunSucceeded?
    ensures Earned(s.Set(p, Succeeded), runs)
  {
    assert HasSucceeded(runs, p);
  }

  lemma ProcessPhaseEarns(w: World, p: Phase, o: Outcome)
    requires !p.Managed? && Earned(w.st, w.runs)
    ensures Earned(ProcessPhase(w, p, o).w.st, w.runs)
  {
    ProcessPhasePersists(w, p, o);
    hide ProcessPhase;
  }

  lemma StartEarns(s: Status, runs: seq<Run>, run: nat)
    requires Earned(s, runs)
    ensures Earned(s.StartAttempt(run), runs)
    ensures Earned(s.Set(Managed, Skipped), runs) && Earned(s.FailPhase(Managed), runs)
    ensures s.attempts != [] ==> Earned(s.DisableRetry().FailPhase(Managed), runs)
  {
  }

  lemma ProcessManagedEarns(w: World, o: Outcome)
    requires Earned(w.st, w.runs)
    ensures Earned(ProcessManaged(w, o).w.st, w.runs)
  {
    ProcessManagedPersists(w, o);
    var run := Find(w.runs, Managed, w.st.RetryCount());
    StartEarns(w.st, w.runs, if run.Some? then run.value else |w.runs|);
    hide ProcessManaged, Find, Earned;
  }

  lemma CompleteManagedEarns(w: World, o: Outcome)
    requires Earned(w.st, w.runs)
    ensures Earned(CompleteManaged(w, o).w.st, w.runs)
  {
    CompleteManagedPersists(w, o);
    var run := Find(w.runs, Managed, w.st.RetryCount() + 1);
    StartEarns(w.st, w.runs, if run.Some? then run.value else |w.runs|);
    hide CompleteManaged, Find, Earned;
  }

  lemma FinishEarns(s: Status, runs: seq<Run>, reason: FailureReason)
    requires s.attempts != [] && Earned(s, runs)
    ensures Earned(s.FinishAttempt(AttemptFailed, reason), runs)
    ensures var i := s.attempts[|s.attempts| - 1].run;
            i < |runs| && runs[i].state.RunSucceeded? ==>
              Earned(s.FinishAttempt(AttemptSucceeded, reason).Set(Managed, Succeeded), runs)
  {
  }

  /** What the tracking of the managed phase may persist, by the state of the run that it finds. */
  lemma TrackManagedVerdict(w: World, o: Outcome)
    ensures var s := TrackManaged(w, o).w.st;
            var run := Find(w.runs, Managed, w.st.RetryCount());
            || s == w.st
            || (&& w.st.attempts != [] && run.Some?
                && s == if w.runs[run.value].state.RunSucceeded?
                        then w.st.FinishAttempt(AttemptSucceeded, w.st.attempts[|w.st.attempts| - 1].reason)
                                 .Set(Managed, Succeeded)
                        else w.st.FinishAttempt(AttemptFailed, o.reason))
  {
    PatchPersists();
    hide Patch, Find, Status.Set, Status.FinishAttempt, Status.RetryCount, Status.CurrentAttemptDone;
  }

  lemma TrackManagedEarns(w: World, o: Outcome)
    requires Inv(w) && Past(w, 0) && Earned(w.st, w.runs)
    ensures Earned(TrackManaged(w, o).w.st, w.runs)
  {
    if w.st.conds.managed.Progressing? {
      CurrentRunFound(w);
      TrackManagedVerdict(w, o);
      if w.st.attempts != [] {
        FinishEarns(w.st, w.runs, o.reason);
        FinishEarns(w.st, w.runs, w.st.attempts[|w.st.attempts| - 1].reason);
      }
      hide Inv, TrackManaged, Earned, Find;
    } else {
      assert TrackManaged(w, o) == Ret(w, Continue);
    }
  }

  lemma UnchangedEarns(s: Status, s': Status, runs: seq<Run>)
    requires Earned(s, runs) && Unchanged(s, s')
    ensures Earned(s', runs)
  {
  }

  lemma OperationEarns(w: World, o: Outcome)
    requires Inv(w) && w.pc < IDLE && Earned(w.st, w.runs)
    ensures Earned(Apply(OpAt(w.pc), w, o).w.st, w.runs)
  {
    hide Inv, Earned, ProcessManaged, ProcessPhase, CompleteManaged, TrackManaged, TrackPhase, CallFinalizers,
         CleanUpProcessing, CleanUpCollectors, LoadConfig, RunRelease, Validate, CompleteRelease, Unchanged;
    CleanUpKeepsStatus(w, o);
    match OpAt(w.pc)
    case ConfigLoaded => LoadConfigDescends(w, o); UnchangedEarns(w.st, LoadConfig(w, o).w.st, w.runs);
    case ReleaseRunning => RunReleaseDescends(w, o); UnchangedEarns(w.st, RunRelease(w, o).w.st, w.runs);
    case ReleaseValid => ValidateDescends(w, o); UnchangedEarns(w.st, Validate(w, o).w.st, w.runs);
    case ReleaseCompleted => CompleteReleaseDescends(w, o); UnchangedEarns(w.st, CompleteRelease(w, o).w.st, w.runs);
    case Process(p) =>
      if p.Managed? {
        ProcessManagedEarns(w, o);
      } else {
        ProcessPhaseEarns(w, p, o);
      }
    case Track(p) =>
      if p.Managed? {
        TrackManagedEarns(w, o);
      } else {
        TrackPhaseEarns(w, p, o);
      }
    case ManagedCompleted => CompleteManagedEarns(w, o);
    case _ =>
  }

  lemma NextEarns(w: World, step: Step)
    requires Inv(w) && Earned(w.st, w.runs)
    ensures Earned(Next(w, step).st, Next(w, step).runs)
  {
    hide Inv, Apply, Earned, SuccessStays;
    StepKeepsSuccess(w, step);
    if step.Operate? && w.pc < IDLE {
      OperationEarns(w, step.o);
    }
    EarnedStays(Next(w, step).st, w.runs, Next(w, step).runs);
  }

  /** In every reachable state, success is earned. */
  lemma {:induction false} ReachableEarned(steps: seq<Step>)
    ensures Earned(Exec(INIT, steps).st, Exec(INIT, steps).runs)
  {
    if steps != [] {
      var before := steps[..|steps| - 1];
      ReachableEarned(before);
      ReachableOk(before);
      hide Inv, Earned, Next;
      NextEarns(Exec(INIT, before), steps[|steps| - 1]);
    }
  }

  /** Phase `p` was skipped, or a run of its kind has succeeded. */
  predicate WentWell(w: World, p: Phase) {
    w.st.Get(p).Skipped? || HasSucceeded(w.runs, p)
  }

  /** A Release is released only if every phase was skipped or has a run that succeeded. */
  lemma ReleasedIsEarned(steps: seq<Step>, p: Phase)
    ensures var w := Exec(INIT, steps); w.st.conds.released.Succeeded? ==> WentWell(w, p)
  {
    var w := Exec(INIT, steps);
    ReachableOk(steps);
    ReachableEarned(steps);
    hide Exec;
    if w.st.conds.managed.Succeeded? {
      ManagedIsEarned(w);
    }
  }

  lemma ManagedIsEarned(w: World)
    requires Inv(w) && Earned(w.st, w.runs) && w.st.conds.managed.Succeeded?
    ensures HasSucceeded(w.runs, Managed)
  {
    var a := w.st.attempts[|w.st.attempts| - 1];
    assert AttemptEarned(a, w.runs);
    assert w.runs[a.run].kind == Managed && w.runs[a.run].state.RunSucceeded?;
  }

  /** The only run of kind `p` that was ever created. */
  predicate OnlyRun(runs: seq<Run>, p: Phase, i: nat) {
    && i < |runs| && runs[i].kind == p && runs[i].present
    && forall j | 0 <= j < |runs| && runs[j].kind == p :: j == i
  }

  /** Only phase `p` and the Released condition may differ. */
  predicate OnlyPhaseMoves(s: Status, s': Status, p: Phase) {
    && s'.attempts == s.attempts && s'.conds.validated == s.conds.validated
    && forall q: Phase | q != p :: s'.Get(q) == s.Get(q)
  }

  /** A tracking that meets no error: a run that is going on changes nothing, one that succeeded
      makes its phase succeed, and one that is done otherwise fails its phase and the Release. */
  predicate Decided(w: World, w': World, p: Phase, run: Run) {
    && w'.runs == w.runs && OnlyPhaseMoves(w.st, w'.st, p)
    && (run.state == Running && !run.deleting ==> w'.st == w.st)
    && (run.state == RunSucceeded ==>
          w'.st.Get(p) == Succeeded && w'.st.conds.released == w.st.conds.released)
    && (DoneBadly(run) ==> w'.st.Get(p) == Failed && w'.st.conds.released == Failed)
  }

  lemma ProgressingHasRun(w: World, p: Phase)
    requires Inv(w) && Past(w, 0) && !p.Managed? && w.st.Get(p).Progressing?
    ensures Find(w.runs, p, 0).Some? && OnlyRun(w.runs, p, Find(w.runs, p, 0).value)
  {
    assert HasRun(w.runs, p);
    var i :| 0 <= i < |w.runs| && w.runs[i].kind == p;
    FindsTheOnly(w, i);
  }

  lemma PhaseMoved(s: Status, p: Phase, c: Cond)
    ensures OnlyPhaseMoves(s, s.Set(p, c), p) && s.Set(p, c).Get(p) == c
    ensures s.Set(p, c).conds.released == s.conds.released
    ensures OnlyPhaseMoves(s, s.FailPhase(p), p) && s.FailPhase(p).Get(p) == Failed
    ensures s.conds.released.Progressing? || s.conds.released.Failed? ==> s.FailPhase(p).conds.released == Failed
    ensures OnlyPhaseMoves(s, s, p)
  {
  }

  lemma TrackPhasePatches(w: World, p: Phase, o: Outcome)
    requires !p.Managed? && w.st.Get(p).Progressing? && !o.readFails && o.patch.Applied? && Find(w.runs, p, 0).Some?
    ensures var w' := TrackPhase(w, p, o).w;
            var run := w.runs[Find(w.runs, p, 0).value];
            && w'.runs == w.runs
            && w'.st == if run.state == RunSucceeded then w.st.Set(p, Succeeded)
                        else if DoneBadly(run) then w.st.FailPhase(p)
                        else w.st
  {
    hide Find, Status.Set, Status.FailPhase, Status.Get;
  }

  lemma TrackPhaseDecides(w: World, p: Phase, o: Outcome)
    requires !p.Managed? && w.st.Get(p).Progressing? && !o.readFails && o.patch.Applied?
    requires Find(w.runs, p, 0).Some?
    requires w.st.conds.released.Progressing? || w.st.conds.released.Failed?
    ensures Decided(w, TrackPhase(w, p, o).w, p, w.runs[Find(w.runs, p, 0).value])
  {
    PhaseMoved(w.st, p, Succeeded);
    TrackPhasePatches(w, p, o);
    hide TrackPhase, Find, OnlyPhaseMoves, Status.Set, Status.FailPhase, Status.Get;
  }

  predicate AtTracking(pc: nat, p: Phase) {
    match p
    case TenantCollectors => pc == 10
    case ManagedCollectors => pc == 12
    case Tenant => pc == 14
    case Managed => pc == 16
    case Final => pc == 19
  }

  lemma TracksAt(w: World, p: Phase, o: Outcome)
    requires AtTracking(w.pc, p)
    ensures !p.Managed? ==> Next(w, Operate(o)) == Advance(w, TrackPhase(w, p, o))
    ensures p.Managed? ==> Next(w, Operate(o)) == Advance(w, TrackManaged(w, o))
  {
    hide TrackPhase, TrackManaged;
    assert OpAt(w.pc) == Track(p);
  }

  lemma TrackingDecides(steps: seq<Step>, p: Phase, o: Outcome)
    requires AtTracking(Exec(INIT, steps).pc, p) && !p.Managed?
    requires Exec(INIT, steps).st.Get(p).Progressing? && !o.readFails && o.patch.Applied?
    ensures var w := Exec(INIT, steps);
            exists i: nat :: OnlyRun(w.runs, p, i) && Decided(w, Next(w, Operate(o)), p, w.runs[i])
  {
    var w := Exec(INIT, steps);
    ReachableOk(steps);
    hide Exec, OnlyRun, Decided, Next, TrackPhase, Find;
    ProgressingHasRun(w, p);
    assert w.st.conds.released.Progressing? || w.st.conds.released.Failed?;
    TrackPhaseDecides(w, p, o);
    TracksAt(w, p, o);
    hide Inv;
    var run := w.runs[Find(w.runs, p, 0).value];
    SameDecision(w, TrackPhase(w, p, o).w, Next(w, Operate(o)), p, run);
  }

  lemma SameDecision(w: World, v: World, w': World, p: Phase, run: Run)
    requires Decided(w, v, p, run) && w'.st == v.st && w'.runs == v.runs
    ensures Decided(w, w', p, run)
  {
    hide OnlyPhaseMoves;
  }

  /** The same for the current attempt: success of its run makes attempt and phase succeed, failure
      only fails the attempt, with the reason read from the run. */
  predicate AttemptDecided(w: World, w': World, reason: FailureReason)
    requires w.st.attempts != [] && w.st.attempts[|w.st.attempts| - 1].run < |w.runs|
  {
    var last := |w.st.attempts| - 1;
    var a := w.st.attempts[last];
    var run := w.runs[a.run];
    && w'.runs == w.runs && w'.st.conds == w.st.conds.(managed := w'.st.conds.managed)
    && |w'.st.attempts| == last + 1 && w'.st.attempts[..last] == w.st.attempts[..last]
    && (a.status != AttemptProgressing || (run.state == Running && !run.deleting) ==> w'.st == w.st)
    && (a.status == AttemptProgressing && run.state == RunSucceeded ==>
          w'.st.conds.managed == Succeeded && w'.st.attempts[last] == a.(status := AttemptSucceeded))
    && (a.status == AttemptProgressing && DoneBadly(run) ==>
          && w'.st.conds.managed == Progressing
          && w'.st.attempts[last] == a.(status := AttemptFailed, reason := reason))
  }

  lemma TrackManagedPatches(w: World, o: Outcome)
    requires w.st.conds.managed.Progressing? && !o.readFails && o.patch.Applied?
    requires w.st.attempts != [] && Find(w.runs, Managed, |w.st.attempts| - 1).Some?
    ensures var w' := TrackManaged(w, o).w;
            var run := w.runs[Find(w.runs, Managed, |w.st.attempts| - 1).value];
            var last := w.st.attempts[|w.st.attempts| - 1];
            && w'.runs == w.runs
            && w'.st == if last.status != AttemptProgressing || (run.state == Running && !run.deleting) then w.st
                        else if run.state == RunSucceeded
                        then w.st.FinishAttempt(AttemptSucceeded, last.reason).Set(Managed, Succeeded)
                        else w.st.FinishAttempt(AttemptFailed, o.reason)
  {
    hide Find, Status.Set, Status.FinishAttempt;
  }

  lemma AttemptMoved(w: World, w': World, reason: FailureReason)
    requires w.st.attempts != [] && w.st.attempts[|w.st.attempts| - 1].run < |w.runs|
    requires w.st.conds.managed.Progressing? && w'.runs == w.runs
    requires var last := w.st.attempts[|w.st.attempts| - 1];
             var run := w.runs[last.run];
             w'.st == if last.status != AttemptProgressing || (run.state == Running && !run.deleting) then w.st
                      else if run.state == RunSucceeded
                      then w.st.FinishAttempt(AttemptSucceeded, last.reason).Set(Managed, Succeeded)
                      else w.st.FinishAttempt(AttemptFailed, reason)
    ensures AttemptDecided(w, w', reason)
  {
  }

  lemma AttemptTrackingDecides(steps: seq<Step>, o: Outcome)
    requires Exec(INIT, steps).pc == 16 && Exec(INIT, steps).st.conds.managed.Progressing?
    requires !o.readFails && o.patch.Applied?
    ensures var w := Exec(INIT, steps);
            && w.st.attempts != [] && w.st.attempts[|w.st.attempts| - 1].run < |w.runs|
            && AttemptDecided(w, Next(w, Operate(o)), o.reason)
  {
    var w := Exec(INIT, steps);
    ReachableOk(steps);
    hide Exec, Next, TrackManaged, Find, AttemptDecided;
    CurrentRunFound(w);
    assert w.st.attempts != [];
    TrackManagedPatches(w, o);
    TracksAt(w, Managed, o);
    hide Inv;
    AttemptMoved(w, Next(w, Operate(o)), o.reason);
  }

  /** Why a phase without retries may fail. */
  predicate HasCause(w: World, step: Step, p: Phase) {
    && step.Operate?
    && (|| (exists i | 0 <= i < |w.runs| :: w.runs[i].kind == p && w.runs[i].present && DoneBadly(w.runs[i]))
        || step.o.create.CreateRejected?)
  }

  lemma TrackingFailsFor(w: World, p: Phase, o: Outcome)
    requires !p.Managed? && !w.st.Finished(p)
    ensures TrackPhase(w, p, o).w.st.Get(p).Failed? ==> HasCause(w, Operate(o), p)
  {
    hide TrackPhase, Find, OnlyPhaseMoves, Status.Set, Status.FailPhase;
    TrackPhaseVerdict(w, p, o);
    PhaseMoved(w.st, p, Succeeded);
    var run := Find(w.runs, p, 0);
    if run.Some? && DoneBadly(w.runs[run.value]) {
      assert w.runs[run.value].kind == p && w.runs[run.value].present;
    }
  }

  lemma ProcessingFailsFor(w: World, p: Phase, o: Outcome)
    requires !p.Managed? && !w.st.Finished(p)
    ensures ProcessPhase(w, p, o).w.st.Get(p).Failed? ==> HasCause(w, Operate(o), p)
  {
    hide Patch, Find, OnlyPhaseMoves, AddRun, Status.Set, Status.FailPhase, Status.PredecessorFinished, Status.Get;
    PatchPersists();
    PhaseMoved(w.st, p, Skipped);
    PhaseMoved(w.st, p, Progressing);
    AddRunAdds(w, p, 0);
  }

  lemma PhaseUntouched(w: World, p: Phase, q: Phase, o: Outcome)
    requires !p.Managed? && q != p
    ensures ProcessPhase(w, p, o).w.st.Get(q) == TrackPhase(w, p, o).w.st.Get(q) == w.st.Get(q)
  {
    hide ProcessPhase, TrackPhase, OnlyPhaseMoves, Status.Set, Status.FailPhase;
    ProcessPhasePersists(w, p, o);
    TrackPhasePersists(w, p, o);
    PhaseMoved(w.st, p, Skipped);
    PhaseMoved(w.st, p, Progressing);
    PhaseMoved(w.st, p, Succeeded);
    hide Status.Get;
    MovedApart(w.st, w.st.Set(p, Skipped), p, q);
    MovedApart(w.st, w.st.Set(p, Progressing), p, q);
    MovedApart(w.st, w.st.Set(p, Succeeded), p, q);
    MovedApart(w.st, w.st.FailPhase(p), p, q);
  }

  lemma MovedApart(s: Status, s': Status, p: Phase, q: Phase)
    requires OnlyPhaseMoves(s, s', p) && q != p
    ensures s'.Get(q) == s.Get(q)
  {
  }

  lemma ManagedMovesKeep(s: Status, q: Phase, run: nat, reason: FailureReason)
    requires !q.Managed?
    ensures s.StartAttempt(run).Get(q) == s.Set(Managed, Skipped).Get(q) == s.FailPhase(Managed).Get(q) == s.Get(q)
    ensures s.attempts != [] ==>
              && s.DisableRetry().FailPhase(Managed).Get(q) == s.FinishAttempt(AttemptFailed, reason).Get(q)
              && s.FinishAttempt(AttemptSucceeded, reason).Set(Managed, Succeeded).Get(q)
                 == s.FinishAttempt(AttemptFailed, reason).Get(q) == s.Get(q)
  {
  }

  lemma ManagedTouchesNone(w: World, q: Phase, o: Outcome)
    requires !q.Managed?
    ensures ProcessManaged(w, o).w.st.Get(q) == TrackManaged(w, o).w.st.Get(q) == CompleteManaged(w, o).w.st.Get(q)
            == w.st.Get(q)
  {
    hide ProcessManaged, TrackManaged, CompleteManaged, Find, Status.Get, Status.Set, Status.FailPhase,
         Status.StartAttempt, Status.FinishAttempt, Status.DisableRetry;
    ProcessManagedPersists(w, o);
    TrackManagedPersists(w, o);
    CompleteManagedPersists(w, o);
    var run := Find(w.runs, Managed, w.st.RetryCount());
    ManagedMovesKeep(w.st, q, if run.Some? then run.value else |w.runs|, o.reason);
    var next := Find(w.runs, Managed, w.st.RetryCount() + 1);
    ManagedMovesKeep(w.st, q, if next.Some? then next.value else |w.runs|, o.reason);
    if w.st.attempts != [] {
      ManagedMovesKeep(w.st, q, 0, w.st.attempts[|w.st.attempts| - 1].reason);
    }
  }

  /** In any state, a phase without retries fails only in a step that sees its run done and not
      succeeded, or whose creation of the run is rejected. */
  lemma FailureHasCause(w: World, step: Step, p: Phase)
    requires !p.Managed?
    ensures !w.st.Finished(p) && Next(w, step).st.Get(p).Failed? ==> HasCause(w, step, p)
  {
    hide HasCause, ProcessManaged, ProcessPhase, CompleteManaged, TrackManaged, TrackPhase, CallFinalizers,
         CleanUpProcessing, CleanUpCollectors, LoadConfig, RunRelease, Validate, CompleteRelease;
    if step.Operate? && w.pc < IDLE && !w.st.Finished(p) {
      var o := step.o;
      CleanUpKeepsStatus(w, o);
      LoadConfigDescends(w, o);
      RunReleaseDescends(w, o);
      ValidateDescends(w, o);
      CompleteReleaseDescends(w, o);
      ManagedTouchesNone(w, p, o);
      match OpAt(w.pc)
      case Process(q) => OtherPhaseFails(w, q, p, o);
      case Track(q) => OtherPhaseFails(w, q, p, o);
      case _ =>
    }
  }

  lemma OtherPhaseFails(w: World, q: Phase, p: Phase, o: Outcome)
    requires !p.Managed? && !w.st.Finished(p)
    ensures !q.Managed? && ProcessPhase(w, q, o).w.st.Get(p).Failed? ==> HasCause(w, Operate(o), p)
    ensures !q.Managed? && TrackPhase(w, q, o).w.st.Get(p).Failed? ==> HasCause(w, Operate(o), p)
  {
    hide HasCause, ProcessPhase, TrackPhase;
    if q == p {
      TrackingFailsFor(w, p, o);
      ProcessingFailsFor(w, p, o);
    } else if !q.Managed? {
      PhaseUntouched(w, q, p, o);
    }
  }

  /** A managed attempt goes from progressing to failed only in a step that sees its run done and
      not succeeded. */
  lemma AttemptFailureHasCause(steps: seq<Step>, step: Step, k: nat)
    ensures var w, w' := Exec(INIT, steps), Next(Exec(INIT, steps), step);
            AttemptFails(w, w', k) ==>
              && w.st.attempts[k].run < |w.runs| && DoneBadly(w.runs[w.st.attempts[k].run])
              && step.Operate? && w'.st.attempts[k].reason == step.o.reason
  {
    var w := Exec(INIT, steps);
    ReachableOk(steps);
    hide Exec, Inv, Next, DoneBadly;
    AttemptFailsFor(w, step, k);
  }

  /** Attempt `k` goes from progressing to failed. */
  predicate AttemptFails(w: World, w': World, k: nat) {
    && k < |w.st.attempts| && w.st.attempts[k].status == AttemptProgressing
    && FailedAt(w'.st, k)
  }

  /** Attempt `k` is recorded as failed. */
  predicate FailedAt(s: Status, k: nat) {
    k < |s.attempts| && s.attempts[k].status == AttemptFailed
  }

  lemma MovesKeepAttempt(s: Status, k: nat, run: nat)
    requires k < |s.attempts|
    ensures FailedAt(s.StartAttempt(run), k) <==> FailedAt(s, k)
    ensures FailedAt(s.Set(Managed, Skipped), k) <==> FailedAt(s, k)
    ensures FailedAt(s.FailPhase(Managed), k) <==> FailedAt(s, k)
    ensures FailedAt(s.DisableRetry().FailPhase(Managed), k) <==> FailedAt(s, k)
  {
  }

  lemma ManagedKeepsAttempt(w: World, o: Outcome, k: nat)
    requires k < |w.st.attempts|
    ensures FailedAt(ProcessManaged(w, o).w.st, k) <==> FailedAt(w.st, k)
    ensures FailedAt(CompleteManaged(w, o).w.st, k) <==> FailedAt(w.st, k)
  {
    hide ProcessManaged, CompleteManaged, Find, FailedAt, Status.Set, Status.FailPhase, Status.StartAttempt,
         Status.DisableRetry;
    ProcessManagedPersists(w, o);
    CompleteManagedPersists(w, o);
    var run := Find(w.runs, Managed, w.st.RetryCount());
    MovesKeepAttempt(w.st, k, if run.Some? then run.value else |w.runs|);
    var next := Find(w.runs, Managed, w.st.RetryCount() + 1);
    MovesKeepAttempt(w.st, k, if next.Some? then next.value else |w.runs|);
  }

  lemma OnlyTrackingFailsAttempts(w: World, o: Outcome, k: nat)
    requires k < |w.st.attempts| && !FailedAt(w.st, k) && w.pc < IDLE
    ensures FailedAt(Apply(OpAt(w.pc), w, o).w.st, k) ==> w.pc == 16
  {
    hide ProcessManaged, ProcessPhase, CompleteManaged, TrackManaged, TrackPhase, CallFinalizers,
         CleanUpProcessing, CleanUpCollectors, LoadConfig, RunRelease, Validate, CompleteRelease;
    CleanUpKeepsAttempts(w, o);
    JudgeKeepsAttempts(w, o);
    ManagedKeepsAttempt(w, o, k);
    match OpAt(w.pc)
    case Process(q) =>
      if !q.Managed? {
        ProcessKeepsAttempts(w, q, o);
      }
    case Track(q) =>
      if !q.Managed? {
        TrackKeepsAttempts(w, q, o);
      }
    case _ =>
  }

  lemma AttemptFailsFor(w: World, step: Step, k: nat)
    requires Inv(w)
    ensures AttemptFails(w, Next(w, step), k) ==>
              && w.st.attempts[k].run < |w.runs| && DoneBadly(w.runs[w.st.attempts[k].run])
              && step.Operate? && Next(w, step).st.attempts[k].reason == step.o.reason
  {
    if AttemptFails(w, Next(w, step), k) {
      assert k == |w.st.attempts| - 1;
      hide Apply, TrackManaged;
      assert step.Operate? && w.pc < IDLE;
      OnlyTrackingFailsAttempts(w, step.o, k);
      TracksAt(w, Managed, step.o);
      AttemptFailsInTracking(w, step.o, k);
      hide Inv, Next;
    }
  }

  lemma AttemptFailsInTracking(w: World, o: Outcome, k: nat)
    requires Inv(w) && Past(w, 0)
    requires k + 1 == |w.st.attempts| && w.st.attempts[k].status == AttemptProgressing
    ensures var s := TrackManaged(w, o).w.st;
            k < |s.attempts| && s.attempts[k].status == AttemptFailed ==>
              && w.st.attempts[k].run < |w.runs| && DoneBadly(w.runs[w.st.attempts[k].run])
              && s.attempts[k].reason == o.reason
  {
    if w.st.conds.managed.Progressing? {
      CurrentRunFound(w);
    }
    hide Inv, Find;
  }
}
