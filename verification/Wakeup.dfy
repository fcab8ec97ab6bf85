/** What a reconcile leaves behind: finished work, or a run that will wake the controller up. */
module Wakeup {
  import opened ReleaseStatus
  import opened RetryPolicy
  import opened Reconciler
  import opened Invariant

  /** `p` is the first phase that has not finished. */
  predicate Frontier(s: Status, p: Phase) {
    !s.Finished(p) &&
    match p
    case TenantCollectors => true
    case ManagedCollectors => s.Finished(TenantCollectors)
    case Tenant => s.Finished(TenantCollectors) && s.Finished(ManagedCollectors)
    case Managed => s.Finished(TenantCollectors) && s.Finished(ManagedCollectors) && s.Finished(Tenant)
    case Final =>
      && s.Finished(TenantCollectors) && s.Finished(ManagedCollectors)
      && s.Finished(Tenant) && s.Finished(Managed)
  }

  /** The reconcile saw the current run of phase `p` before it was done. */
  predicate Watches(w: World, p: Phase) {
    && w.watched.Some? && w.watched.value < |w.runs|
    && w.runs[w.watched.value].kind == p
    && w.runs[w.watched.value].attempt == if p.Managed? then w.st.RetryCount() else 0
  }

  /** How far the operations before `pc` have taken the first unfinished phase. */
  predicate Driven(w: World, p: Phase) {
    && (Past(w, ProcessIndex(p)) ==> w.st.Get(p).Progressing?)
    && (Past(w, ProcessIndex(p) + 1) ==>
          if !p.Managed? then Watches(w, p)
          else if w.pc == 17 then w.st.CurrentAttemptFailed() || Watches(w, p)
          else w.lateAdoption != Watches(w, p))
  }

  ghost predicate AllDriven(w: World) {
    forall p | Frontier(w.st, p) :: Driven(w, p)
  }

  /** Until the retry, the watched run is registered or not managed. */
  predicate WatchedOk(w: World) {
    && (w.pc < 10 ==> w.watched.None?)
    && (w.lateAdoption ==> w.st.conds.managed.Progressing?)
    && (w.pc <= 17 ==>
          && !w.lateAdoption
          && (w.watched.Some? ==>
                && w.watched.value < |w.runs|
                && (w.runs[w.watched.value].kind.Managed? ==> w.runs[w.watched.value].attempt < |w.st.attempts|)))
  }

  ghost predicate WakeInv(w: World) {
    w.pc < IDLE ==> AllDriven(w) && WatchedOk(w)
  }

  lemma FrontierUnique(s: Status, p: Phase, q: Phase)
    requires Frontier(s, p) && Frontier(s, q)
    ensures p == q
  {
  }

  lemma FrontierInOrder(s: Status, p: Phase)
    requires Frontier(s, p)
    ensures !s.Finished(p) && s.PredecessorFinished(p)
  {
  }

  /** The operation of a phase that is not the first unfinished one does nothing. */
  lemma OffFrontier(w: World, p: Phase, o: Outcome)
    requires Inv(w) && !Frontier(w.st, p)
    ensures p.Managed? ==> ProcessManaged(w, o) == TrackManaged(w, o) == Ret(w, Continue)
    ensures !p.Managed? ==> ProcessPhase(w, p, o) == TrackPhase(w, p, o) == Ret(w, Continue)
  {
  }

  /** A step that leaves the status and the watched run alone keeps what has been driven so far. */
  lemma Undisturbed(w: World, w': World)
    requires WakeInv(w) && w.pc < IDLE
    requires w' == w.(pc := w.pc + 1)
    requires w.pc < 9 || (w.pc != 17 && forall p | Frontier(w.st, p) :: w.pc != ProcessIndex(p) && w.pc != ProcessIndex(p) + 1)
    ensures WakeInv(w')
  {
  }

  lemma EarlyKeepsWatch(w: World, o: Outcome)
    requires w.pc < 9
    ensures var w' := Apply(OpAt(w.pc), w, o).w; w'.watched == w.watched && w'.lateAdoption == w.lateAdoption
  {
    hide CallFinalizers, CleanUpCollectors, CleanUpProcessing, LoadConfig, RunRelease, Validate;
    EarlyCleanUpKeepsWatch(w, o);
    EarlyJudgeKeepsWatch(w, o);
  }

  lemma EarlyCleanUpKeepsWatch(w: World, o: Outcome)
    ensures CallFinalizers(w, o).w.watched == CleanUpCollectors(w, o).w.watched == w.watched
    ensures CallFinalizers(w, o).w.lateAdoption == CleanUpCollectors(w, o).w.lateAdoption == w.lateAdoption
    ensures CleanUpProcessing(w, o).w.watched == w.watched
    ensures CleanUpProcessing(w, o).w.lateAdoption == w.lateAdoption
  {
    hide StripIf, StripAttempts, Finalize;
  }

  lemma EarlyJudgeKeepsWatch(w: World, o: Outcome)
    ensures LoadConfig(w, o).w.watched == RunRelease(w, o).w.watched == Validate(w, o).w.watched == w.watched
    ensures LoadConfig(w, o).w.lateAdoption == RunRelease(w, o).w.lateAdoption == w.lateAdoption
    ensures Validate(w, o).w.lateAdoption == w.lateAdoption
  {
    assert forall v: World, s: Status, patch: PatchOutcome ::
      var v' := Patch(v, s, patch).w; v'.watched == v.watched && v'.lateAdoption == v.lateAdoption;
    hide Patch;
  }

  lemma EarlyWakes(w: World, o: Outcome)
    requires Inv(w) && WakeInv(w) && w.pc < 9
    ensures WakeInv(Advance(w, Apply(OpAt(w.pc), w, o)))
  {
    assert WatchedOk(w);
    EarlyKeepsWatch(w, o);
    hide Inv, Apply;
  }

  /** The phase `p` at the frontier finishes or starts to progress. */
  lemma MovedFrontier(w: World, w': World, p: Phase, s: Status)
    requires Inv(w) && WakeInv(w) && Frontier(w.st, p)
    requires w.pc == ProcessIndex(p) || (!p.Managed? && w.pc == ProcessIndex(p) + 1) || (p.Managed? && 15 <= w.pc <= 17)
    requires w' == w.(st := s, runs := w'.runs, pc := w.pc + 1)
    requires |w'.runs| >= |w.runs| && w'.runs[..|w.runs|] == w.runs
    requires |s.attempts| >= |w.st.attempts|
    requires forall q | q != p :: s.Get(q) == w.st.Get(q)
    requires s.Finished(p) || (w.pc == ProcessIndex(p) && s.Get(p).Progressing?)
    ensures WakeInv(w')
  {
    assert WatchedOk(w') by {
      if w.watched.Some? && w.watched.value < |w.runs| {
        assert w'.runs[w.watched.value] == w.runs[w.watched.value];
      }
    }
    forall q | Frontier(s, q)
      ensures Driven(w', q)
    {
      FrontierMoves(w.st, s, p, q);
    }
  }

  lemma FrontierMoves(s: Status, s': Status, p: Phase, q: Phase)
    requires Frontier(s, p) && Frontier(s', q)
    requires forall r | r != p :: s'.Get(r) == s.Get(r)
    ensures q == p || ProcessIndex(q) > ProcessIndex(p) + 1
    ensures q != p && p.Managed? ==> q.Final?
  {
    assert q != p ==> s'.Get(q) == s.Get(q);
  }

  /** What an operation for phase `p` that ends with Continue does to the world: no run is lost,
      only the condition of `p` may change. */
  predicate Moves(w: World, w': World, p: Phase) {
    && w' == w.(st := w'.st, runs := w'.runs, watched := w'.watched, lateAdoption := w'.lateAdoption)
    && |w'.runs| >= |w.runs| && w'.runs[..|w.runs|] == w.runs
    && |w'.st.attempts| >= |w.st.attempts|
    && OnlyMoves(w.st, w'.st, p)
  }

  predicate OnlyMoves(s: Status, s': Status, p: Phase) {
    forall q | q != p :: s'.Get(q) == s.Get(q)
  }

  lemma PatchMoves(w: World, s: Status, patch: PatchOutcome, p: Phase)
    requires OnlyMoves(w.st, s, p) && |s.attempts| >= |w.st.attempts|
    ensures Moves(w, Patch(w, s, patch).w, p)
    ensures Patch(w, s, patch).r.Continue? ==> Patch(w, s, patch).w == w.(st := s)
  {
  }

  lemma StayMoves(w: World, p: Phase)
    ensures Moves(w, w, p)
  {
  }

  lemma SetMoves(s: Status, p: Phase, c: Cond)
    ensures OnlyMoves(s, s.Set(p, c), p) && s.Set(p, c).Get(p) == c && s.Set(p, c).attempts == s.attempts
    ensures OnlyMoves(s, s.FailPhase(p), p) && s.FailPhase(p).Get(p).Failed?
    ensures s.FailPhase(p).attempts == s.attempts
  {
  }

  /** The condition of `p` is set, and nothing else changes but the list of runs. */
  predicate Sets(w: World, w': World, p: Phase) {
    && Moves(w, w', p)
    && w'.watched == w.watched && w'.lateAdoption == w.lateAdoption
    && (w'.st.Finished(p) || w'.st.Get(p).Progressing?)
  }

  lemma PatchSets(w: World, w1: World, s: Status, patch: PatchOutcome, p: Phase)
    requires w1 == w || w1 == AddRun(w, p, if p.Managed? then |w.st.attempts| else 0)
    requires OnlyMoves(w.st, s, p) && |s.attempts| >= |w.st.attempts|
    requires s.Finished(p) || s.Get(p).Progressing?
    ensures Patch(w1, s, patch).r.Continue? ==> Sets(w, Patch(w1, s, patch).w, p)
  {
  }

  lemma ProcessPhaseMoves(w: World, p: Phase, o: Outcome)
    requires !p.Managed? && !w.st.Finished(p) && w.st.PredecessorFinished(p)
    requires ProcessPhase(w, p, o).r.Continue?
    ensures Sets(w, ProcessPhase(w, p, o).w, p)
  {
    if w.st.Get(p).Progressing? {
      StayMoves(w, p);
      assert Sets(w, w, p);
    }
    hide Patch, OnlyMoves, Sets;
    SetMoves(w.st, p, Skipped);
    PatchSets(w, w, w.st.Set(p, Skipped), o.patch, p);
    PatchSets(w, w, w.st.FailPhase(p), o.patch, p);
    SetMoves(w.st, p, Progressing);
    PatchSets(w, w, w.st.Set(p, Progressing), o.patch, p);
    PatchSets(w, AddRun(w, p, 0), w.st.Set(p, Progressing), o.patch, p);
  }

  lemma ProcessPhaseWakes(w: World, p: Phase, o: Outcome)
    requires Inv(w) && WakeInv(w) && !p.Managed? && w.pc == ProcessIndex(p)
    ensures WakeInv(Advance(w, ProcessPhase(w, p, o)))
  {
    hide Inv, ProcessPhase, WakeInv;
    var ret := ProcessPhase(w, p, o);
    if !ret.r.Continue? {
      Asleep(Advance(w, ret));
    } else if Frontier(w.st, p) {
      FrontierInOrder(w.st, p);
      ProcessPhaseMoves(w, p, o);
      MovedFrontier(w, Advance(w, ret), p, ret.w.st);
    } else {
      OffFrontier(w, p, o);
      Undisturbed(w, Advance(w, ret));
    }
  }

  lemma Asleep(w: World)
    requires w.pc == IDLE
    ensures WakeInv(w)
  {
  }

  /** While the managed phase is at the frontier. */
  lemma ProcessManagedMoves(w: World, o: Outcome)
    requires Inv(w) && w.pc == 15 && Frontier(w.st, Managed)
    requires ProcessManaged(w, o).r.Continue?
    ensures Sets(w, ProcessManaged(w, o).w, Managed)
  {
    hide Inv, Patch, OnlyMoves, Sets, Moves;
    CurrentRunFound(w);
    if w.st.conds.managed.Progressing? {
      StaySets(w);
    }
    SetMoves(w.st, Managed, Skipped);
    PatchSets(w, w, w.st.Set(Managed, Skipped), o.patch, Managed);
    PatchSets(w, w, w.st.FailPhase(Managed), o.patch, Managed);
    var run := Find(w.runs, Managed, w.st.RetryCount());
    if run.Some? {
      StartMoves(w.st, run.value);
      PatchSets(w, w, w.st.StartAttempt(run.value), o.patch, Managed);
    } else {
      StartMoves(w.st, |w.runs|);
      PatchSets(w, AddRun(w, Managed, |w.st.attempts|), w.st.StartAttempt(|w.runs|), o.patch, Managed);
    }
  }

  lemma StaySets(w: World)
    requires w.st.conds.managed.Progressing?
    ensures Sets(w, w, Managed)
  {
  }

  lemma StartMoves(s: Status, run: nat)
    ensures OnlyMoves(s, s.StartAttempt(run), Managed) && s.StartAttempt(run).Get(Managed).Progressing?
    ensures |s.StartAttempt(run).attempts| == |s.attempts| + 1
  {
  }

  lemma ProcessManagedWakes(w: World, o: Outcome)
    requires Inv(w) && WakeInv(w) && w.pc == 15
    ensures WakeInv(Advance(w, ProcessManaged(w, o)))
  {
    hide Inv, ProcessManaged, WakeInv;
    var ret := ProcessManaged(w, o);
    if !ret.r.Continue? {
      Asleep(Advance(w, ret));
    } else if Frontier(w.st, Managed) {
      ProcessManagedMoves(w, o);
      MovedFrontier(w, Advance(w, ret), Managed, ret.w.st);
    } else {
      OffFrontier(w, Managed, o);
      Undisturbed(w, Advance(w, ret));
    }
  }

  /** The run of a progressing phase is found by the lookup of the tracking operation. */
  lemma TrackedRunFound(w: World, p: Phase)
    requires Inv(w) && Past(w, 0) && w.st.Get(p).Progressing?
    ensures Find(w.runs, p, if p.Managed? then w.st.RetryCount() else 0).Some?
  {
    if p.Managed? {
      CurrentRunFound(w);
    } else {
      assert HasRun(w.runs, p);
    }
  }

  lemma Watching(w: World, w': World, p: Phase, run: nat)
    requires Inv(w) && WakeInv(w) && Frontier(w.st, p) && w.st.Get(p).Progressing?
    requires w.pc == ProcessIndex(p) + 1
    requires Find(w.runs, p, if p.Managed? then w.st.RetryCount() else 0) == Some(run)
    requires w' == w.(watched := Some(run), pc := w.pc + 1)
    ensures WakeInv(w')
  {
    assert Watches(w', p);
    assert p.Managed? ==> w.st.attempts != [];
    forall q | Frontier(w.st, q)
      ensures Driven(w', q)
    {
      FrontierUnique(w.st, p, q);
    }
  }

  /** A run read as done finishes its phase. */
  lemma TrackPhaseMoves(w: World, p: Phase, run: nat, o: Outcome)
    requires !p.Managed? && w.st.Get(p).Progressing? && TrackPhase(w, p, o).r.Continue?
    requires Find(w.runs, p, 0) == Some(run)
    ensures !w.runs[run].Done() ==> TrackPhase(w, p, o).w == w.(watched := Some(run))
    ensures w.runs[run].Done() ==>
              && Moves(w, TrackPhase(w, p, o).w, p)
              && TrackPhase(w, p, o).w == w.(st := TrackPhase(w, p, o).w.st)
              && TrackPhase(w, p, o).w.st.Finished(p)
  {
    hide Patch, OnlyMoves, Moves;
    SetMoves(w.st, p, Succeeded);
    PatchMoves(w, w.st.Set(p, Succeeded), o.patch, p);
    PatchMoves(w, w.st.FailPhase(p), o.patch, p);
  }

  lemma TrackPhaseWakes(w: World, p: Phase, o: Outcome)
    requires Inv(w) && WakeInv(w) && !p.Managed? && w.pc == ProcessIndex(p) + 1
    ensures WakeInv(Advance(w, TrackPhase(w, p, o)))
  {
    var ret := TrackPhase(w, p, o);
    if !ret.r.Continue? {
      Asleep(Advance(w, ret));
    } else if Frontier(w.st, p) {
      assert Driven(w, p);
      TrackedRunFound(w, p);
      hide Inv, WakeInv, TrackPhase;
      var run := Find(w.runs, p, 0).value;
      TrackPhaseMoves(w, p, run, o);
      if w.runs[run].Done() {
        MovedFrontier(w, Advance(w, ret), p, ret.w.st);
      } else {
        Watching(w, Advance(w, ret), p, run);
      }
    } else {
      OffFrontier(w, p, o);
      hide Inv, WakeInv, TrackPhase;
      Undisturbed(w, Advance(w, ret));
    }
  }

  lemma FinishMoves(s: Status, reason: FailureReason)
    requires s.attempts != []
    ensures OnlyMoves(s, s.FinishAttempt(AttemptFailed, reason), Managed)
    ensures s.FinishAttempt(AttemptFailed, reason).conds == s.conds
    ensures s.FinishAttempt(AttemptFailed, reason).CurrentAttemptFailed()
    ensures var s' := s.FinishAttempt(AttemptSucceeded, reason).Set(Managed, Succeeded);
            OnlyMoves(s, s', Managed) && s'.Finished(Managed) && |s'.attempts| == |s.attempts|
  {
  }

  /** After tracking, the managed phase has finished, or its current attempt has failed, or its
      run was not done when it was read. */
  lemma TrackManagedMoves(w: World, run: nat, o: Outcome)
    requires w.st.conds.managed.Progressing? && w.st.attempts != [] && TrackManaged(w, o).r.Continue?
    requires Find(w.runs, Managed, w.st.RetryCount()) == Some(run)
    ensures !w.runs[run].Done() ==> TrackManaged(w, o).w == w.(watched := Some(run))
    ensures w.runs[run].Done() ==>
              && Moves(w, TrackManaged(w, o).w, Managed)
              && TrackManaged(w, o).w == w.(st := TrackManaged(w, o).w.st)
              && var s := TrackManaged(w, o).w.st;
                 || s.Finished(Managed)
                 || s == w.st
                 || (s.conds == w.st.conds && s.CurrentAttemptFailed())
    ensures w.runs[run].Done() && TrackManaged(w, o).w.st == w.st ==> w.st.CurrentAttemptDone()
  {
    hide Patch, OnlyMoves, Moves;
    StayMoves(w, Managed);
    if !w.st.CurrentAttemptDone() {
      var last := w.st.attempts[|w.st.attempts| - 1];
      FinishMoves(w.st, o.reason);
      FinishMoves(w.st, last.reason);
      PatchMoves(w, w.st.FinishAttempt(AttemptFailed, o.reason), o.patch, Managed);
      PatchMoves(w, w.st.FinishAttempt(AttemptSucceeded, last.reason).Set(Managed, Succeeded), o.patch, Managed);
    }
  }

  /** The managed phase stays at the frontier with a failed attempt. */
  lemma AttemptFailedWakes(w: World, w': World)
    requires Inv(w) && WakeInv(w) && w.pc == 16 && Frontier(w.st, Managed) && w.st.conds.managed.Progressing?
    requires w' == w.(st := w'.st, pc := 17)
    requires w'.st.conds == w.st.conds && w'.st.CurrentAttemptFailed() && |w'.st.attempts| >= |w.st.attempts|
    ensures WakeInv(w')
  {
    forall q | Frontier(w'.st, q)
      ensures Driven(w', q)
    {
      FrontierUnique(w'.st, Managed, q);
    }
  }

  lemma TrackManagedWakes(w: World, o: Outcome)
    requires Inv(w) && WakeInv(w) && w.pc == 16
    ensures WakeInv(Advance(w, TrackManaged(w, o)))
  {
    var ret := TrackManaged(w, o);
    if !ret.r.Continue? {
      Asleep(Advance(w, ret));
    } else if Frontier(w.st, Managed) {
      assert Driven(w, Managed);
      TrackedRunFound(w, Managed);
      ProgressingInOrder(w, Managed);
      assert w.st.CurrentAttemptDone() ==> w.st.CurrentAttemptFailed();
      hide Inv, WakeInv, TrackManaged;
      var run := Find(w.runs, Managed, w.st.RetryCount()).value;
      TrackManagedMoves(w, run, o);
      if !w.runs[run].Done() {
        Watching(w, Advance(w, ret), Managed, run);
      } else if ret.w.st.Finished(Managed) {
        MovedFrontier(w, Advance(w, ret), Managed, ret.w.st);
      } else {
        AttemptFailedWakes(w, Advance(w, ret));
      }
    } else {
      OffFrontier(w, Managed, o);
      hide Inv, WakeInv, TrackManaged;
      Undisturbed(w, Advance(w, ret));
    }
  }

  /** The condition under which a retry loses the wake-up: it finds the run of the next attempt
      already created, by a reconcile that did not get to register it, and already done. */
  predicate AdoptsDoneRun(w: World, o: Outcome) {
    && w.st.conds.managed.Progressing? && w.st.CurrentAttemptFailed()
    && !o.loadFails && CanRetry(w.st, o.retryInfo) && !DisabledByRelease(o)
    && RetryIsLate(w, o)
  }

  /** The managed phase ends here. */
  predicate Ends(w: World, w': World) {
    && Moves(w, w', Managed) && w'.st.Finished(Managed)
    && w'.watched == w.watched && w'.lateAdoption == w.lateAdoption
  }

  /** The next attempt is registered with PipelineRun `run`. */
  predicate Registers(w: World, w': World, run: nat, late: bool) {
    && Moves(w, w', Managed)
    && run < |w'.runs| && Labelled(w'.runs[run], Managed, |w.st.attempts|)
    && w'.st == w.st.StartAttempt(run)
    && w'.watched == (if late then w.watched else Some(run))
    && w'.lateAdoption == (w.lateAdoption || late)
  }

  lemma FailManagedEnds(w: World, patch: PatchOutcome)
    requires Patch(w, w.st.FailPhase(Managed), patch).r.Continue?
    ensures Ends(w, Patch(w, w.st.FailPhase(Managed), patch).w)
  {
    SetMoves(w.st, Managed, Failed);
  }

  lemma DisableRetryEnds(w: World, patch: PatchOutcome)
    requires w.st.attempts != []
    requires Patch(w, w.st.DisableRetry().FailPhase(Managed), patch).r.Continue?
    ensures Ends(w, Patch(w, w.st.DisableRetry().FailPhase(Managed), patch).w)
  {
    SetMoves(w.st.DisableRetry(), Managed, Failed);
    SetMoves(w.st, Managed, w.st.Get(Managed));
  }

  lemma RegisterRetryMoves(w: World, w1: World, run: nat, o: Outcome)
    requires w1 == w || w1 == AddRun(w, Managed, |w.st.attempts|)
    requires run < |w1.runs| && Labelled(w1.runs[run], Managed, |w.st.attempts|)
    requires RegisterRetry(w1, run, o).r.Continue?
    ensures var w' := RegisterRetry(w1, run, o).w;
            if o.patch.PatchRejected? then Ends(w, w')
            else o.patch.Applied? && Registers(w, w', run, w1.runs[run].Done())
  {
    if o.patch.PatchRejected? {
      FailManagedEnds(w1, o.secondPatch);
    } else {
      StartMoves(w.st, run);
    }
  }

  predicate RetryIsLate(w: World, o: Outcome) {
    && o.retryRead.ReadOk? && o.patch.Applied?
    && var run := Find(w.runs, Managed, |w.st.attempts|);
       run.Some? && w.runs[run.value].Done()
  }

  lemma RetryMoves(w: World, o: Outcome)
    requires w.st.CurrentAttemptFailed() && Retry(w, o).r.Continue?
    ensures || (Ends(w, Retry(w, o).w) && !RetryIsLate(w, o))
            || exists run: nat :: Registers(w, Retry(w, o).w, run, RetryIsLate(w, o))
  {
    var run := Find(w.runs, Managed, |w.st.attempts|);
    if o.retryRead.ReadRejected? {
      FailManagedEnds(w, o.patch);
    } else if run.Some? {
      hide RegisterRetry, Registers, Ends;
      RegisterRetryMoves(w, w, run.value, o);
      assert o.patch.Applied? ==> Registers(w, Retry(w, o).w, run.value, RetryIsLate(w, o));
    } else if o.create.CreateRejected? {
      FailManagedEnds(w, o.patch);
    } else {
      hide RegisterRetry, Registers, Ends;
      RegisterRetryMoves(w, AddRun(w, Managed, |w.st.attempts|), |w.runs|, o);
      assert o.patch.Applied? ==> Registers(w, Retry(w, o).w, |w.runs|, RetryIsLate(w, o));
    }
  }

  /** The outcomes of the completion operation that end with Continue. */
  lemma CompleteManagedMoves(w: World, o: Outcome)
    requires w.st.conds.managed.Progressing? && w.st.CurrentAttemptFailed()
    requires CompleteManaged(w, o).r.Continue?
    ensures var w' := CompleteManaged(w, o).w;
            || (Ends(w, w') && !AdoptsDoneRun(w, o))
            || exists run: nat :: Registers(w, w', run, AdoptsDoneRun(w, o))
  {
    hide Retry, Registers, Ends;
    if !CanRetry(w.st, o.retryInfo) {
      FailManagedEnds(w, o.patch);
    } else if DisabledByRelease(o) {
      DisableRetryEnds(w, o.patch);
    } else {
      RetryMoves(w, o);
      assert RetryIsLate(w, o) == AdoptsDoneRun(w, o);
    }
  }

  lemma RegisteredWakes(w: World, w': World, run: nat, late: bool)
    requires Inv(w) && WakeInv(w) && w.pc == 17 && Frontier(w.st, Managed) && w.st.attempts != []
    requires w'.pc == 18 && Registers(w, w'.(pc := 17), run, late)
    ensures WakeInv(w')
  {
    assert WatchedOk(w);
    if late && w.watched.Some? {
      var i := w.watched.value;
      assert w'.runs[i] == w.runs[i];
    }
    forall q | Frontier(w'.st, q)
      ensures Driven(w', q)
    {
      FrontierUnique(w'.st, Managed, q) by {
        assert forall r | r != Managed :: w'.st.Get(r) == w.st.Get(r);
      }
    }
  }

  /** No attempt has failed: the run of the current attempt is being watched. */
  lemma NothingToComplete(w: World, w': World)
    requires Inv(w) && WakeInv(w) && w.pc == 17 && w' == w.(pc := 18)
    requires !w.st.conds.managed.Progressing? || !w.st.CurrentAttemptFailed()
    ensures WakeInv(w')
  {
    assert WatchedOk(w);
    forall q | Frontier(w.st, q)
      ensures Driven(w', q)
    {
      assert Driven(w, q);
    }
  }

  lemma CompleteManagedWakes(w: World, o: Outcome)
    requires Inv(w) && WakeInv(w) && w.pc == 17
    ensures WakeInv(Advance(w, CompleteManaged(w, o)))
  {
    var ret := CompleteManaged(w, o);
    if !ret.r.Continue? {
      Asleep(Advance(w, ret));
    } else if w.st.conds.managed.Progressing? && w.st.CurrentAttemptFailed() {
      assert Frontier(w.st, Managed);
      hide Inv, WakeInv, CompleteManaged;
      CompleteManagedMoves(w, o);
      if Ends(w, ret.w) {
        MovedFrontier(w, Advance(w, ret), Managed, ret.w.st);
      } else {
        var run: nat :| Registers(w, ret.w, run, AdoptsDoneRun(w, o));
        RegisteredWakes(w, Advance(w, ret), run, AdoptsDoneRun(w, o));
      }
    } else {
      NothingToComplete(w, Advance(w, ret));
    }
  }

  lemma OperationWakes(w: World, o: Outcome)
    requires Inv(w) && WakeInv(w) && w.pc < IDLE
    ensures WakeInv(Advance(w, Apply(OpAt(w.pc), w, o)))
  {
    if w.pc < 9 {
      EarlyWakes(w, o);
    } else {
      hide Inv, WakeInv, ProcessManaged, ProcessPhase, CompleteManaged, TrackManaged, TrackPhase, CompleteRelease;
      match OpAt(w.pc)
      case Process(p) =>
        if p.Managed? {
          ProcessManagedWakes(w, o);
        } else {
          ProcessPhaseWakes(w, p, o);
        }
      case Track(p) =>
        if p.Managed? {
          TrackManagedWakes(w, o);
        } else {
          TrackPhaseWakes(w, p, o);
        }
      case ManagedCompleted => CompleteManagedWakes(w, o);
      case ReleaseCompleted => Asleep(Advance(w, CompleteRelease(w, o)));
    }
  }

  /** The cluster may act on the runs at any time. */
  lemma RunsChangeWakes(w: World, runs: seq<Run>, deleting: bool)
    requires WakeInv(w) && |runs| == |w.runs|
    requires forall i | 0 <= i < |runs| :: runs[i].kind == w.runs[i].kind && runs[i].attempt == w.runs[i].attempt
    ensures WakeInv(w.(runs := runs, deleting := deleting))
  {
    if w.pc < IDLE {
      forall q | Frontier(w.st, q)
        ensures Driven(w.(runs := runs, deleting := deleting), q)
      {
        assert Driven(w, q);
      }
    }
  }

  lemma BeginWakes(w: World)
    requires WakeInv(w)
    ensures WakeInv(Next(w, Begin))
  {
  }

  lemma ClusterWakes(w: World, step: Step)
    requires WakeInv(w) && !step.Begin? && !step.Operate? && !step.Crash?
    ensures WakeInv(Next(w, step))
  {
    hide WakeInv;
    RunsChangeWakes(w, Next(w, step).runs, Next(w, step).deleting);
  }

  lemma NextWakes(w: World, step: Step)
    requires Inv(w) && WakeInv(w)
    ensures WakeInv(Next(w, step))
  {
    hide Inv, Apply;
    match step
    case Begin => BeginWakes(w);
    case Operate(o) =>
      if w.pc < IDLE {
        OperationWakes(w, o);
      }
    case Crash => Asleep(Next(w, step));
    case RunFinishes(_, _) => ClusterWakes(w, step);
    case RunIsDeleted(_) => ClusterWakes(w, step);
    case RunVanishes(_) => ClusterWakes(w, step);
    case ReleaseIsDeleted => ClusterWakes(w, step);
  }

  lemma {:induction false} ReachableWakes(steps: seq<Step>)
    ensures WakeInv(Exec(INIT, steps))
  {
    if steps != [] {
      var before := steps[..|steps| - 1];
      ReachableWakes(before);
      ReachableOk(before);
      NextWakes(Exec(INIT, before), steps[|steps| - 1]);
    }
  }

  /** Nothing is left to do, or the first unfinished phase is progressing, no later one has
      started, and the reconcile saw its run, which exists, before it was done: its completion
      will start another reconcile. */
  ghost predicate Settled(w: World) {
    || (w.st.AllPhasesFinished() && w.st.conds.released.Finished())
    || exists p :: Frontier(w.st, p) && w.st.Get(p).Progressing? && LaterAbsent(w.st, p)
                   && Watches(w, p) && w.runs[w.watched.value].present
  }

  predicate LaterAbsent(s: Status, p: Phase) {
    forall q | ProcessIndex(q) > ProcessIndex(p) :: s.Get(q).Absent?
  }

  /** A reconcile that ends without an error: with Stop, or with the Continue of its last operation. */
  predicate EndsWell(w: World, o: Outcome) {
    w.pc < IDLE &&
    var ret := Apply(OpAt(w.pc), w, o);
    ret.r.Stop? || (ret.r.Continue? && w.pc == IDLE - 1)
  }

  lemma SomeFrontier(s: Status) returns (p: Phase)
    requires !s.AllPhasesFinished()
    ensures Frontier(s, p)
  {
    p := if !s.Finished(TenantCollectors) then TenantCollectors
         else if !s.Finished(ManagedCollectors) then ManagedCollectors
         else if !s.Finished(Tenant) then Tenant
         else if !s.Finished(Managed) then Managed
         else Final;
  }

  lemma FrontierSettles(w: World, p: Phase)
    requires Inv(w) && WakeInv(w) && w.pc == IDLE - 1 && Frontier(w.st, p)
    ensures Settled(w.(pc := IDLE)) <==> !w.lateAdoption
    ensures !w.st.conds.final.IsTrue()
  {
    assert Driven(w, p) && WatchedOk(w);
    var w' := w.(pc := IDLE);
    assert LaterAbsent(w.st, p) by {
      assert PhaseOrder(w.st);
    }
    if w.lateAdoption {
      assert p.Managed?;
      forall q | Frontier(w'.st, q)
        ensures !Watches(w', q)
      {
        FrontierUnique(w.st, p, q);
      }
    } else {
      assert Watches(w', p) && w'.runs[w'.watched.value].present;
    }
  }

  lemma LastOperationSettles(w: World, o: Outcome)
    requires Inv(w) && WakeInv(w) && w.pc == IDLE - 1 && CompleteRelease(w, o).r.Continue?
    ensures Settled(Advance(w, CompleteRelease(w, o))) <==> !w.lateAdoption
  {
    if w.st.AllPhasesFinished() {
      assert WatchedOk(w);
      assert w.st.conds.final.Failed? ==> w.st.conds.released.Failed?;
      assert w.st.conds.released.Progressing? || w.st.conds.released.Failed?;
      hide Inv, WakeInv;
    } else {
      var p := SomeFrontier(w.st);
      FrontierSettles(w, p);
      hide Inv, WakeInv, Settled;
      assert CompleteRelease(w, o) == Ret(w, Continue);
    }
  }

  lemma ConfigStopSettles(w: World, o: Outcome)
    requires Inv(w) && WakeInv(w) && w.pc == 1 && LoadConfig(w, o).r.Stop?
    ensures Settled(Advance(w, LoadConfig(w, o))) <==> w.st.AllPhasesFinished()
    ensures !w.lateAdoption
  {
    assert WatchedOk(w);
    assert w.st.AllPhasesFinished() ==> !w.st.conds.released.Absent? && !w.st.conds.released.Skipped?;
    hide Inv, WakeInv;
    var w' := Advance(w, LoadConfig(w, o));
    assert w'.watched.None?;
  }

  /** The operation neither stops the reconcile nor decides about a late adoption. */
  predicate Plain(w: World, ret: Ret) {
    !ret.r.Stop? && ret.w.lateAdoption == w.lateAdoption
  }

  lemma PatchIsPlain()
    ensures forall v: World, s: Status, patch: PatchOutcome ::
              !Patch(v, s, patch).r.Stop? && Patch(v, s, patch).w.lateAdoption == v.lateAdoption
  {
  }

  lemma ProcessIsPlain(w: World, p: Phase, o: Outcome)
    ensures p.Managed? ==> Plain(w, ProcessManaged(w, o))
    ensures !p.Managed? ==> Plain(w, ProcessPhase(w, p, o))
  {
    PatchIsPlain();
    hide Patch;
  }

  lemma TrackIsPlain(w: World, p: Phase, o: Outcome)
    ensures p.Managed? ==> Plain(w, TrackManaged(w, o))
    ensures !p.Managed? ==> Plain(w, TrackPhase(w, p, o))
  {
    PatchIsPlain();
    hide Patch;
  }

  lemma OthersArePlain(w: World, o: Outcome)
    ensures Plain(w, CallFinalizers(w, o))
    ensures Plain(w, CleanUpCollectors(w, o))
    ensures Plain(w, CleanUpProcessing(w, o))
    ensures Plain(w, CompleteRelease(w, o))
  {
    PatchIsPlain();
    hide StripIf, StripAttempts, Finalize, Patch;
  }

  lemma RetryNeverStops(w: World, o: Outcome)
    ensures !CompleteManaged(w, o).r.Stop?
  {
    PatchIsPlain();
    hide Patch;
  }

  lemma OnlyThreeStop(w: World, o: Outcome)
    requires 1 != w.pc < IDLE && Apply(OpAt(w.pc), w, o).r.Stop?
    ensures w.pc == 4 || w.pc == 5
  {
    hide ProcessPhase, ProcessManaged, TrackPhase, TrackManaged, CompleteManaged,
         CallFinalizers, CleanUpCollectors, CleanUpProcessing, CompleteRelease, RunRelease, Validate;
    OthersArePlain(w, o);
    RetryNeverStops(w, o);
    match OpAt(w.pc)
    case Process(p) => ProcessIsPlain(w, p, o);
    case Track(p) => TrackIsPlain(w, p, o);
    case _ =>
  }

  lemma StopSettles(w: World, o: Outcome)
    requires Inv(w) && WakeInv(w) && (w.pc == 4 || w.pc == 5) && Apply(OpAt(w.pc), w, o).r.Stop?
    ensures Settled(Advance(w, Apply(OpAt(w.pc), w, o)))
    ensures !w.lateAdoption
  {
    assert WatchedOk(w);
    assert w.pc == 5 ==> w.st.conds.released.Progressing? || w.st.conds.released.Failed?;
    hide Inv, WakeInv;
  }

  lemma EndSettles(w: World, o: Outcome)
    requires Inv(w) && WakeInv(w) && EndsWell(w, o)
    ensures Settled(Advance(w, Apply(OpAt(w.pc), w, o))) <==>
            (w.pc == 1 ==> w.st.AllPhasesFinished()) && !w.lateAdoption
  {
    assert !CompleteRelease(w, o).r.Stop?;
    hide Inv, WakeInv, Settled, LoadConfig, CompleteRelease;
    if w.pc == IDLE - 1 {
      LastOperationSettles(w, o);
    } else if w.pc == 1 {
      ConfigStopSettles(w, o);
    } else {
      hide Apply;
      OnlyThreeStop(w, o);
      StopSettles(w, o);
    }
  }

  /** No lost wake-up, exactly: a reconcile that ends without an error leaves the Release settled
      unless it stopped because SERVICE_NAMESPACE is not set while phases are unfinished, or its
      retry adopted a run that was already done. */
  lemma NoLostWakeup(steps: seq<Step>, o: Outcome)
    ensures var w := Exec(INIT, steps);
            EndsWell(w, o) ==>
              (Settled(Next(w, Operate(o))) <==>
               (w.pc == 1 ==> w.st.AllPhasesFinished()) && !w.lateAdoption)
  {
    ReachableOk(steps);
    ReachableWakes(steps);
    hide Exec, Inv, WakeInv, Settled, Apply;
    if EndsWell(Exec(INIT, steps), o) {
      EndSettles(Exec(INIT, steps), o);
    }
  }

  /** When the retry of a reconcile goes through, it is a late adoption exactly when the run of the
      next attempt was there and done. */
  lemma LateAdoption(steps: seq<Step>, o: Outcome)
    requires var w := Exec(INIT, steps); w.pc == 17 && CompleteManaged(w, o).r.Continue?
    ensures Next(Exec(INIT, steps), Operate(o)).lateAdoption <==> AdoptsDoneRun(Exec(INIT, steps), o)
  {
    var w := Exec(INIT, steps);
    ReachableWakes(steps);
    assert WatchedOk(w);
    if w.st.conds.managed.Progressing? && w.st.CurrentAttemptFailed() {
      hide WakeInv, CompleteManaged;
      CompleteManagedMoves(w, o);
    }
  }

  /** Nothing but a retry decides about a late adoption, until the next reconcile begins. */
  lemma OnlyRetriesAdopt(w: World, step: Step)
    requires !step.Begin? && !(step.Operate? && w.pc == 17)
    ensures Next(w, step).lateAdoption == w.lateAdoption
  {
    hide ProcessPhase, ProcessManaged, TrackPhase, TrackManaged, CompleteManaged,
         CallFinalizers, CleanUpCollectors, CleanUpProcessing, CompleteRelease, LoadConfig, RunRelease, Validate;
    if step.Operate? && w.pc < IDLE {
      OthersArePlain(w, step.o);
      EarlyJudgeKeepsWatch(w, step.o);
      match OpAt(w.pc)
      case Process(p) => ProcessIsPlain(w, p, step.o);
      case Track(p) => TrackIsPlain(w, p, step.o);
      case _ =>
    }
  }
}
