/** What every step of the reconcile machine keeps. */
module Invariant {
  import opened ReleaseStatus
  import opened RetryPolicy
  import opened Reconciler

  /** A phase has a condition only if its predecessor has finished. */
  predicate PhaseOrder(s: Status) {
    && (s.conds.managedCollectors != Absent ==> s.conds.tenantCollectors.Finished())
    && (s.conds.tenant != Absent ==> s.conds.managedCollectors.Finished())
    && (s.conds.managed != Absent ==> s.conds.tenant.Finished())
    && (s.conds.final != Absent ==> s.conds.managed.Finished())
  }

  /** The outcome of the Release agrees with the outcomes of its phases. */
  predicate OutcomeAgrees(s: Status) {
    && (s.HasPhaseFailed() ==> s.conds.released.Failed?)
    && (s.conds.released.Succeeded? ==> s.AllPhasesFinished())
    && !s.conds.released.Skipped?
    && (s.conds.tenantCollectors != Absent ==> s.conds.released != Absent)
  }

  /** All attempts but the last failed for a retriable reason, and the managed phase follows the last one. */
  predicate AttemptShape(s: Status) {
    && (forall i | 0 <= i < |s.attempts| - 1 ::
          s.attempts[i].status.AttemptFailed? && s.attempts[i].reason.Retriable())
    && (s.attempts != [] ==> s.conds.managed != Absent)
    && (s.conds.managed.Progressing? ==> s.attempts != [])
    && (s.conds.managed.Succeeded? <==>
        s.attempts != [] && s.attempts[|s.attempts| - 1].status.AttemptSucceeded?)
    && (s.conds.managed.Failed? && s.attempts != [] ==> s.attempts[|s.attempts| - 1].status.AttemptFailed?)
  }

  predicate StatusOk(s: Status) {
    PhaseOrder(s) && OutcomeAgrees(s) && AttemptShape(s)
  }

  /** No two runs ever created share kind and attempt label, and the labels have no gaps:
      at most one managed run, labelled with the number of attempts, is not registered. */
  predicate Unique(runs: seq<Run>) {
    forall i, j | 0 <= i < |runs| && 0 <= j < |runs| ::
      runs[i].kind == runs[j].kind && runs[i].attempt == runs[j].attempt ==> i == j
  }

  predicate LabelsOk(s: Status, runs: seq<Run>) {
    forall i | 0 <= i < |runs| ::
      && (runs[i].kind.Managed? ==> runs[i].attempt <= |s.attempts|)
      && (!runs[i].kind.Managed? ==> runs[i].attempt == 0)
      && s.PredecessorFinished(runs[i].kind)
  }

  /** The run of attempt k carries label k. */
  predicate AttemptsRegistered(s: Status, runs: seq<Run>) {
    forall k | 0 <= k < |s.attempts| ::
      && s.attempts[k].run < |runs|
      && runs[s.attempts[k].run].kind == Managed
      && runs[s.attempts[k].run].attempt == k
  }

  /** The runs of an unfinished phase are all there, kept by the release finalizer. */
  predicate Kept(s: Status, runs: seq<Run>) {
    forall i | 0 <= i < |runs| :: !s.Finished(runs[i].kind) ==> runs[i].present && runs[i].finalizer
  }

  /** A run that has the release finalizer is there; this holds even when runs are being cleaned up. */
  predicate Held(runs: seq<Run>) {
    forall i | 0 <= i < |runs| :: runs[i].finalizer ==> runs[i].present
  }

  predicate HasRun(runs: seq<Run>, p: Phase) {
    exists i | 0 <= i < |runs| :: runs[i].kind == p
  }

  /** A progressing phase has a run. */
  predicate Backed(s: Status, runs: seq<Run>) {
    && (s.conds.tenantCollectors.Progressing? ==> HasRun(runs, TenantCollectors))
    && (s.conds.managedCollectors.Progressing? ==> HasRun(runs, ManagedCollectors))
    && (s.conds.tenant.Progressing? ==> HasRun(runs, Tenant))
    && (s.conds.final.Progressing? ==> HasRun(runs, Final))
  }

  predicate RunsOk(w: World) {
    && Unique(w.runs)
    && LabelsOk(w.st, w.runs)
    && AttemptsRegistered(w.st, w.runs)
    && Backed(w.st, w.runs)
    && (!w.finalized ==> Kept(w.st, w.runs))
  }

  /** The reconcile has executed operation `k` and is still going on. */
  predicate Past(w: World, k: nat) {
    k < w.pc < IDLE
  }

  function ProcessIndex(p: Phase): nat {
    match p
    case TenantCollectors => 9
    case ManagedCollectors => 11
    case Tenant => 13
    case Managed => 15
    case Final => 18
  }

  /** What the operations executed so far guarantee to the later ones. */
  predicate PcOk(w: World) {
    && w.pc <= IDLE
    && (w.finalized ==> w.deleting)
    && (w.pc < IDLE && w.deletionSeen ==> w.pc == 0 && w.deleting)
    && (w.pc < IDLE && !w.deletionSeen ==> !w.finalized)
    && (Past(w, 4) ==> w.st.conds.released.Progressing? || w.st.conds.released.Failed?)
    && (Past(w, 5) && w.st.conds.released.Progressing? ==> w.validationPassed && w.st.conds.validated.Succeeded?)
    && (Past(w, 15) && w.st.conds.managed.Progressing? ==> w.st.conds.released.Progressing?)
  }

  predicate Inv(w: World) {
    StatusOk(w.st) && RunsOk(w) && PcOk(w)
  }

  lemma InitOk()
    ensures Inv(INIT)
  {
  }


  /** `s` is a status that an operation after the validation may persist in world `w`. */
  predicate Persistable(w: World, s: Status) {
    && StatusOk(s)
    && RunsOk(w.(st := s))
    && (s.conds.released == w.st.conds.released || s.conds.released.Failed?)
    && s.conds.validated == w.st.conds.validated
    && (w.pc >= 15 && s.conds.managed.Progressing? ==> s.conds.released.Progressing?)
  }

  lemma PatchOk(w: World, s: Status, patch: PatchOutcome)
    requires Inv(w) && Past(w, 5) && Persistable(w, s)
    ensures Inv(Advance(w, Patch(w, s, patch)))
  {
  }

  lemma StayOk(w: World, r: Result)
    requires Inv(w) && Past(w, 5)
    requires w.pc == 15 && r.Continue? && w.st.conds.managed.Progressing? ==> w.st.conds.released.Progressing?
    ensures Inv(Advance(w, Ret(w, r)))
  {
  }
  /** An unfinished phase other than managed moves on, without a failure. */
  lemma SetPhaseOk(w: World, p: Phase, c: Cond)
    requires Inv(w) && Past(w, 4) && !p.Managed? && (w.pc < 15 || p.Final?)
    requires !w.st.Finished(p) && w.st.PredecessorFinished(p)
    requires c.Skipped? || c.Succeeded? || (c.Progressing? && HasRun(w.runs, p))
    ensures Persistable(w, w.st.Set(p, c))
  {
  }

  lemma FailedStatusOk(s: Status, p: Phase)
    requires StatusOk(s) && !s.Finished(p) && s.PredecessorFinished(p)
    requires s.conds.released.Progressing? || s.conds.released.Failed?
    requires p.Managed? ==> s.attempts == [] || s.CurrentAttemptFailed()
    ensures StatusOk(s.FailPhase(p))
  {
  }

  lemma FailedRunsOk(w: World, p: Phase)
    requires RunsOk(w) && !w.st.Finished(p)
    ensures RunsOk(w.(st := w.st.FailPhase(p)))
  {
  }

  lemma FailPhaseOk(w: World, p: Phase)
    requires Inv(w) && Past(w, 4) && (w.pc < 15 || p.Final? || p.Managed?)
    requires !w.st.Finished(p) && w.st.PredecessorFinished(p)
    requires p.Managed? ==> w.st.attempts == [] || w.st.CurrentAttemptFailed()
    ensures Persistable(w, w.st.FailPhase(p))
  {
    FailedStatusOk(w.st, p);
    FailedRunsOk(w, p);
    hide StatusOk, RunsOk;
  }

  lemma SkipManagedOk(w: World)
    requires Inv(w)
    requires !w.st.Finished(Managed) && w.st.PredecessorFinished(Managed)
    ensures Persistable(w, w.st.Set(Managed, Skipped))
  {
  }

  lemma StartAttemptOk(w: World, run: nat)
    requires Inv(w) && w.st.conds.released.Progressing?
    requires !w.st.Finished(Managed) && w.st.PredecessorFinished(Managed)
    requires w.st.attempts == [] || w.st.CurrentAttemptRetriable()
    requires run < |w.runs| && w.runs[run].kind.Managed? && w.runs[run].attempt == |w.st.attempts|
    ensures Persistable(w, w.st.StartAttempt(run))
  {
  }

  /** A lookup that finds nothing for an unfinished phase means that no such run was ever created. */
  lemma AddRunOk(w: World, p: Phase, attempt: nat)
    requires Inv(w) && !w.finalized
    requires !w.st.Finished(p) && w.st.PredecessorFinished(p)
    requires Find(w.runs, p, attempt).None?
    requires attempt == if p.Managed? then |w.st.attempts| else 0
    ensures Inv(AddRun(w, p, attempt))
    ensures HasRun(AddRun(w, p, attempt).runs, p)
  {
    var w' := AddRun(w, p, attempt);
    assert w'.runs[|w.runs|].kind == p;
    assert Unique(w'.runs) by {
      forall i | 0 <= i < |w.runs|
        ensures !(w.runs[i].kind == p && w.runs[i].attempt == attempt)
      {
        assert !Labelled(w.runs[i], p, attempt);
      }
    }
    MoreRunsOk(w, w'.runs[|w.runs|]);
  }

  lemma MoreRunsOk(w: World, run: Run)
    requires Inv(w) && !w.finalized && w.st.PredecessorFinished(run.kind) && run.present && run.finalizer
    requires run.attempt == if run.kind.Managed? then |w.st.attempts| else 0
    requires Unique(w.runs + [run])
    ensures Inv(w.(runs := w.runs + [run]))
  {
    var runs := w.runs + [run];
    forall q | HasRun(w.runs, q)
      ensures HasRun(runs, q)
    {
      var i :| 0 <= i < |w.runs| && w.runs[i].kind == q;
      assert runs[i].kind == q;
    }
  }

  lemma ProcessPhaseOk(w: World, p: Phase, o: Outcome)
    requires Inv(w) && !p.Managed? && w.pc == ProcessIndex(p)
    ensures Inv(Advance(w, ProcessPhase(w, p, o)))
  {
    hide Inv, Persistable, Patch;
    assert Past(w, 5);
    if w.st.Finished(p) || !w.st.PredecessorFinished(p) {
      StayOk(w, Continue);
    } else if Find(w.runs, p, 0).Some? {
      StayOk(w, Continue);
      StayOk(w, Requeue);
      SetPhaseOk(w, p, Skipped);
      PatchOk(w, w.st.Set(p, Skipped), o.patch);
      SetPhaseOk(w, p, Progressing);
      PatchOk(w, w.st.Set(p, Progressing), o.patch);
    } else {
      StayOk(w, Requeue);
      SetPhaseOk(w, p, Skipped);
      PatchOk(w, w.st.Set(p, Skipped), o.patch);
      CreatePhaseRunOk(w, p, o);
    }
  }

  lemma CreatePhaseRunOk(w: World, p: Phase, o: Outcome)
    requires Inv(w) && !p.Managed? && w.pc == ProcessIndex(p)
    requires !w.st.Finished(p) && w.st.PredecessorFinished(p)
    requires Find(w.runs, p, 0).None?
    ensures Inv(Advance(w, Patch(w, w.st.FailPhase(p), o.patch)))
    ensures Inv(Advance(w, Ret(AddRun(w, p, 0), Requeue)))
    ensures Inv(Advance(w, Patch(AddRun(w, p, 0), w.st.Set(p, Progressing), o.patch)))
  {
    hide Inv, Persistable, Patch;
    FailPhaseOk(w, p);
    PatchOk(w, w.st.FailPhase(p), o.patch);
    EarlyFlags(w);
    AddRunOk(w, p, 0);
    var w' := AddRun(w, p, 0);
    StayOk(w', Requeue);
    SetPhaseOk(w', p, Progressing);
    PatchOk(w', w.st.Set(p, Progressing), o.patch);
  }

  /** A managed run found under the label of the current attempt, before any attempt is
      registered, is the unregistered run of the first attempt. */
  lemma ProcessManagedOk(w: World, o: Outcome)
    requires Inv(w) && w.pc == 15
    ensures Inv(Advance(w, ProcessManaged(w, o)))
  {
    hide Inv, Persistable, Patch;
    assert Past(w, 5);
    StayOk(w, Requeue);
    if w.st.Finished(Managed) || !w.st.PredecessorFinished(Managed) {
      ProgressingNotFailed(w);
      StayOk(w, Continue);
    } else {
      SkipManagedOk(w);
      PatchOk(w, w.st.Set(Managed, Skipped), o.patch);
      if w.st.IsFailed() {
      } else {
        ReleasedNotFailed(w);
        StayOk(w, Continue);
        var run := Find(w.runs, Managed, w.st.RetryCount());
        CurrentRunFound(w);
        if w.st.conds.managed.Progressing? {
        } else if run.Some? {
          StartAttemptOk(w, run.value);
          PatchOk(w, w.st.StartAttempt(run.value), o.patch);
        } else {
          CreateManagedRunOk(w, o);
        }
      }
    }
  }

  lemma ProgressingNotFailed(w: World)
    requires Inv(w) && Past(w, 5) && (w.st.Finished(Managed) || !w.st.PredecessorFinished(Managed))
    ensures !w.st.conds.managed.Progressing?
  {
  }

  lemma ReleasedNotFailed(w: World)
    requires Inv(w) && Past(w, 5) && !w.st.IsFailed()
    ensures w.st.conds.released.Progressing?
  {
  }

  /** While the managed phase is progressing, the lookup of the current attempt finds its run;
      before that there is no attempt. */
  lemma CurrentRunFound(w: World)
    requires Inv(w) && Past(w, 0) && !w.st.Finished(Managed)
    ensures w.st.conds.managed.Progressing? ==>
              Find(w.runs, Managed, w.st.RetryCount()) == Some(w.st.attempts[|w.st.attempts| - 1].run)
    ensures !w.st.conds.managed.Progressing? ==> w.st.attempts == []
  {
    if w.st.conds.managed.Progressing? {
      var last := |w.st.attempts| - 1;
      var i := w.st.attempts[last].run;
      assert Labelled(w.runs[i], Managed, last);
      var found := Find(w.runs, Managed, last);
      assert w.runs[found.value].kind == w.runs[i].kind;
    }
  }

  /** The first managed run, or the run of a retry, is created under the next free label. */
  lemma CreateManagedRunOk(w: World, o: Outcome)
    requires Inv(w) && w.pc >= 15 && w.pc < IDLE && w.st.conds.released.Progressing?
    requires !w.st.Finished(Managed) && w.st.PredecessorFinished(Managed)
    requires w.st.attempts == [] || w.st.CurrentAttemptRetriable()
    requires Find(w.runs, Managed, |w.st.attempts|).None?
    ensures Inv(Advance(w, Patch(w, w.st.FailPhase(Managed), o.patch)))
    ensures Inv(AddRun(w, Managed, |w.st.attempts|))
    ensures Inv(Advance(w, Ret(AddRun(w, Managed, |w.st.attempts|), Requeue)))
    ensures Inv(Advance(w, Patch(AddRun(w, Managed, |w.st.attempts|), w.st.StartAttempt(|w.runs|), o.patch)))
  {
    FailPhaseOk(w, Managed);
    PatchOk(w, w.st.FailPhase(Managed), o.patch);
    AddRunOk(w, Managed, |w.st.attempts|);
    var w' := AddRun(w, Managed, |w.st.attempts|);
    StayOk(w', Requeue);
    StartAttemptOk(w', |w.runs|);
    PatchOk(w', w.st.StartAttempt(|w.runs|), o.patch);
  }

  /** The fields about the watched run are free. */
  lemma WatchOk(w: World, w': World)
    requires Inv(w) && w' == w.(watched := w'.watched, lateAdoption := w'.lateAdoption)
    ensures Inv(w')
  {
  }

  lemma ProgressingInOrder(w: World, p: Phase)
    requires Inv(w) && w.st.Get(p).Progressing?
    ensures w.st.PredecessorFinished(p)
    ensures p.Managed? ==> w.st.attempts != []
    ensures p.Managed? && Past(w, 15) ==> w.st.conds.released.Progressing?
  {
  }

  lemma TrackPhaseOk(w: World, p: Phase, o: Outcome)
    requires Inv(w) && !p.Managed? && w.pc == ProcessIndex(p) + 1
    ensures Inv(Advance(w, TrackPhase(w, p, o)))
  {
    hide Inv, Persistable, Patch;
    assert Past(w, 5);
    StayOk(w, Continue);
    StayOk(w, Requeue);
    var watching := w.(watched := Find(w.runs, p, 0));
    WatchOk(w, watching);
    StayOk(watching, Continue);
    if w.st.Get(p).Progressing? {
      ProgressingInOrder(w, p);
      SetPhaseOk(w, p, Succeeded);
      PatchOk(w, w.st.Set(p, Succeeded), o.patch);
      FailPhaseOk(w, p);
      PatchOk(w, w.st.FailPhase(p), o.patch);
    }
  }

  lemma FinishAttemptOk(w: World, reason: FailureReason)
    requires Inv(w) && w.pc == 16 && w.st.conds.managed.Progressing? && !w.st.CurrentAttemptDone()
    ensures Persistable(w, w.st.FinishAttempt(AttemptFailed, reason))
  {
  }

  lemma SucceedAttemptOk(w: World, reason: FailureReason)
    requires Inv(w) && w.pc == 16 && w.st.conds.managed.Progressing? && !w.st.CurrentAttemptDone()
    ensures Persistable(w, w.st.FinishAttempt(AttemptSucceeded, reason).Set(Managed, Succeeded))
  {
  }

  lemma TrackManagedOk(w: World, o: Outcome)
    requires Inv(w) && w.pc == 16
    ensures Inv(Advance(w, TrackManaged(w, o)))
  {
    hide Inv, Persistable, Patch;
    assert Past(w, 5);
    StayOk(w, Continue);
    StayOk(w, Requeue);
    var watching := w.(watched := Find(w.runs, Managed, w.st.RetryCount()));
    WatchOk(w, watching);
    StayOk(watching, Continue);
    if w.st.conds.managed.Progressing? && !w.st.CurrentAttemptDone() {
      ProgressingInOrder(w, Managed);
      var last := w.st.attempts[|w.st.attempts| - 1];
      FinishAttemptOk(w, o.reason);
      SucceedAttemptOk(w, last.reason);
      PatchOk(w, w.st.FinishAttempt(AttemptFailed, o.reason), o.patch);
      PatchOk(w, w.st.FinishAttempt(AttemptSucceeded, last.reason).Set(Managed, Succeeded), o.patch);
    }
  }

  lemma RegisterRetryOk(w: World, run: nat, o: Outcome)
    requires Inv(w) && w.pc == 17
    requires w.st.conds.managed.Progressing? && w.st.CurrentAttemptRetriable()
    requires run < |w.runs| && w.runs[run].kind.Managed? && w.runs[run].attempt == |w.st.attempts|
    ensures Inv(Advance(w, RegisterRetry(w, run, o)))
  {
    ProgressingInOrder(w, Managed);
    hide Inv, Persistable, Patch;
    FailPhaseOk(w, Managed);
    PatchOk(w, w.st.FailPhase(Managed), o.secondPatch);
    var w' := if w.runs[run].Done() then w.(lateAdoption := true) else w.(watched := Some(run));
    WatchOk(w, w');
    StartAttemptOk(w', run);
    PatchOk(w', w'.st.StartAttempt(run), o.patch);
  }

  lemma RetryOk(w: World, o: Outcome)
    requires Inv(w) && w.pc == 17
    requires w.st.conds.managed.Progressing? && w.st.CurrentAttemptRetriable()
    ensures Inv(Advance(w, Retry(w, o)))
  {
    hide Inv, Persistable, Patch, RegisterRetry;
    ProgressingInOrder(w, Managed);
    StayOk(w, Requeue);
    FailPhaseOk(w, Managed);
    PatchOk(w, w.st.FailPhase(Managed), o.patch);
    var run := Find(w.runs, Managed, |w.st.attempts|);
    if run.Some? {
      RegisterRetryOk(w, run.value, o);
    } else {
      CreateManagedRunOk(w, o);
      RegisterRetryOk(AddRun(w, Managed, |w.st.attempts|), |w.runs|, o);
    }
  }

  lemma DisableRetryOk(w: World)
    requires Inv(w) && w.pc == 17
    requires w.st.conds.managed.Progressing? && w.st.CurrentAttemptFailed()
    ensures Persistable(w, w.st.DisableRetry().FailPhase(Managed))
  {
  }

  lemma CompleteManagedOk(w: World, o: Outcome)
    requires Inv(w) && w.pc == 17
    ensures Inv(Advance(w, CompleteManaged(w, o)))
  {
    hide Inv, Persistable, Patch, Retry;
    assert Past(w, 5);
    StayOk(w, Continue);
    StayOk(w, Requeue);
    if w.st.conds.managed.Progressing? && w.st.CurrentAttemptFailed() {
      ProgressingInOrder(w, Managed);
      FailPhaseOk(w, Managed);
      PatchOk(w, w.st.FailPhase(Managed), o.patch);
      DisableRetryOk(w);
      PatchOk(w, w.st.DisableRetry().FailPhase(Managed), o.patch);
      if CanRetry(w.st, o.retryInfo) {
        RetryOk(w, o);
      }
    }
  }

  /** The same runs, of which only some of the given kinds lost their finalizer or were deleted. */
  predicate Loosened(a: seq<Run>, b: seq<Run>, kinds: set<Phase>) {
    && |a| == |b|
    && forall i | 0 <= i < |a| ::
         && b[i] == a[i].(finalizer := b[i].finalizer, deleting := b[i].deleting)
         && (a[i].deleting ==> b[i].deleting)
         && (a[i].kind !in kinds ==> b[i] == a[i])
  }

  lemma LoosenedTransitive(a: seq<Run>, b: seq<Run>, c: seq<Run>, kinds: set<Phase>)
    requires Loosened(a, b, kinds) && Loosened(b, c, kinds)
    ensures Loosened(a, c, kinds)
  {
    forall i | 0 <= i < |a|
      ensures c[i] == a[i].(finalizer := c[i].finalizer, deleting := c[i].deleting)
      ensures a[i].deleting ==> c[i].deleting
      ensures a[i].kind !in kinds ==> c[i] == a[i]
    {
      assert b[i] == a[i].(finalizer := b[i].finalizer, deleting := b[i].deleting);
    }
  }

  lemma {:induction false} StripAttemptsLoosens(runs: seq<Run>, n: nat)
    ensures Loosened(runs, StripAttempts(runs, n), {Managed})
  {
    if n > 0 {
      StripAttemptsLoosens(runs, n - 1);
      LoosenedTransitive(runs, StripAttempts(runs, n - 1), StripAttempts(runs, n), {Managed});
    }
  }

  lemma {:induction false} FinalizeLoosens(runs: seq<Run>, order: seq<(Phase, nat)>, progress: nat, kinds: set<Phase>)
    requires forall p: Phase :: p in kinds
    ensures Loosened(runs, Finalize(runs, order, progress), kinds)
    decreases order
  {
    if order != [] && progress > 0 {
      var (kind, attempt) := order[0];
      var stripped := Strip(runs, kind, attempt);
      if progress > 1 {
        var deleted := MarkDeleted(stripped, kind, attempt);
        FinalizeLoosens(deleted, order[1..], progress - 2, kinds);
        LoosenedTransitive(runs, stripped, deleted, kinds);
        LoosenedTransitive(runs, deleted, Finalize(runs, order, progress), kinds);
      }
    }
  }

  /** Cleaning up the runs of finished phases keeps the invariant. */
  lemma LoosenedOk(w: World, runs: seq<Run>, kinds: set<Phase>)
    requires Inv(w) && Loosened(w.runs, runs, kinds)
    requires forall p | p in kinds :: w.st.Finished(p)
    ensures Inv(w.(runs := runs))
  {
    BackedKept(w, runs, kinds);
  }

  lemma BackedKept(w: World, runs: seq<Run>, kinds: set<Phase>)
    requires Backed(w.st, w.runs) && Loosened(w.runs, runs, kinds)
    ensures Backed(w.st, runs)
  {
    forall p | HasRun(w.runs, p)
      ensures HasRun(runs, p)
    {
      var i :| 0 <= i < |w.runs| && w.runs[i].kind == p;
      assert runs[i].kind == p;
    }
  }

  /** Before the validation, an operation that changes no status keeps the invariant. */
  lemma EarlyOk(w: World, r: Result)
    requires Inv(w) && !w.deletionSeen
    requires w.pc < 4
    ensures Inv(Advance(w, Ret(w, r)))
  {
  }

  lemma CleanUpCollectorsOk(w: World, o: Outcome)
    requires Inv(w) && w.pc == 2
    ensures Inv(Advance(w, CleanUpCollectors(w, o)))
  {
    var kinds := {TenantCollectors, ManagedCollectors};
    var once := StripIf(w.runs, TenantCollectors, o.cleaned);
    var twice := StripIf(once, ManagedCollectors, o.cleaned);
    if w.st.Finished(TenantCollectors) && w.st.Finished(ManagedCollectors) {
      LoosenedTransitive(w.runs, once, twice, kinds);
      LoosenedOk(w, twice, kinds);
    }
  }

  lemma CleanUpProcessingOk(w: World, o: Outcome)
    requires Inv(w) && w.pc == 3
    ensures Inv(Advance(w, CleanUpProcessing(w, o)))
  {
    hide Inv, StripAttempts;
    EarlyFlags(w);
    EarlyOk(w, Continue);
    if w.st.Finished(Tenant) {
      var w1 := w.(runs := StripIf(w.runs, Tenant, o.cleaned));
      LoosenedOk(w, w1.runs, {Tenant});
      EarlyOk(w1, Continue);
      if w.st.Finished(Managed) {
        var n := Min(o.cleanedAttempts, |w.st.attempts|);
        var w2 := w1.(runs := StripAttempts(w1.runs, n));
        StripAttemptsLoosens(w1.runs, n);
        LoosenedOk(w1, w2.runs, {Managed});
        EarlyOk(w2, Continue);
        if w.st.Finished(Final) {
          var w3 := w2.(runs := StripIf(w2.runs, Final, o.cleaned));
          LoosenedOk(w2, w3.runs, {Final});
          EarlyOk(w3, Continue);
          EarlyOk(w3, Requeue);
        }
      }
    }
  }

  lemma EarlyFlags(w: World)
    requires Inv(w) && Past(w, 0)
    ensures !w.deletionSeen && !w.finalized
  {
  }

  lemma CallFinalizersOk(w: World, o: Outcome)
    requires Inv(w) && w.pc == 0
    ensures Inv(Advance(w, CallFinalizers(w, o)))
  {
    if w.deletionSeen {
      var all := {TenantCollectors, ManagedCollectors, Tenant, Managed, Final};
      var runs := Finalize(w.runs, FinalizationOrder(|w.st.attempts|), o.finalizations);
      forall p: Phase
        ensures p in all
      {
        match p case TenantCollectors => case ManagedCollectors => case Tenant => case Managed => case Final =>
      }
      FinalizeLoosens(w.runs, FinalizationOrder(|w.st.attempts|), o.finalizations, all);
      BackedKept(w, runs, all);
    }
  }

  /** The status with other values for Released and Validated. */
  function Judged(s: Status, released: Cond, validated: Cond): Status {
    s.(conds := s.conds.(released := released, validated := validated))
  }

  lemma JudgedOk(w: World, released: Cond, validated: Cond)
    requires Inv(w) && OutcomeAgrees(Judged(w.st, released, validated))
    ensures StatusOk(Judged(w.st, released, validated))
    ensures RunsOk(w.(st := Judged(w.st, released, validated)))
  {
  }

  lemma LoadConfigOk(w: World, o: Outcome)
    requires Inv(w) && w.pc == 1
    ensures Inv(Advance(w, LoadConfig(w, o)))
  {
    var s := w.st.(conds := w.st.conds.(validated := Failed)).FailRelease();
    assert s == Judged(w.st, s.conds.released, Failed);
    JudgedOk(w, s.conds.released, Failed);
    hide StatusOk, RunsOk;
  }

  lemma RunReleaseOk(w: World, o: Outcome)
    requires Inv(w) && w.pc == 4
    ensures Inv(Advance(w, RunRelease(w, o)))
  {
    if w.st.conds.released.Absent? {
      JudgedOk(w, Progressing, w.st.conds.validated);
    }
    assert !w.st.conds.released.Skipped?;
    assert w.st.conds.released.Succeeded? ==> w.st.AllPhasesFinished();
    hide StatusOk, RunsOk;
  }

  lemma PassedFlagOk(w: World)
    requires Inv(w) && w.pc == 5
    ensures Inv(w.(validationPassed := true))
  {
  }

  /** Where the validation leaves the Release, whether the reconcile goes on or not. */
  lemma ValidatedOk(w: World, s: Status, pc: nat)
    requires Inv(w) && w.pc == 5
    requires s == Judged(w.st, s.conds.released, s.conds.validated) && OutcomeAgrees(s)
    requires s.conds.released == w.st.conds.released || s.conds.released.Failed?
    requires pc == IDLE || (pc == 6 && (s.conds.released.Progressing? ==> w.validationPassed && s.conds.validated.Succeeded?))
    ensures Inv(w.(st := s, pc := pc))
  {
    JudgedOk(w, s.conds.released, s.conds.validated);
    var w' := w.(st := s);
    assert StatusOk(s) && RunsOk(w');
    var w'' := w'.(pc := pc);
    assert RunsOk(w'');
    hide StatusOk, RunsOk;
  }

  lemma ValidateOk(w: World, o: Outcome)
    requires Inv(w) && w.pc == 5
    ensures Inv(Advance(w, Validate(w, o)))
  {
    match o.validation
    case Undecided =>
      ValidatedOk(w, w.st, IDLE);
    case Passed =>
      PassedFlagOk(w);
      var v := w.(validationPassed := true);
      var s := if w.st.conds.released.Progressing? then Judged(w.st, Progressing, Succeeded) else w.st;
      PatchedValidationOk(v, s, o.patch);
    case Invalid =>
      PatchedValidationOk(w, w.st.(conds := w.st.conds.(validated := Failed)).FailRelease(), o.patch);
  }

  lemma PatchedValidationOk(w: World, s: Status, patch: PatchOutcome)
    requires Inv(w) && w.pc == 5
    requires s == Judged(w.st, s.conds.released, s.conds.validated) && OutcomeAgrees(s)
    requires s.conds.released == w.st.conds.released || s.conds.released.Failed?
    requires s.conds.released.Progressing? ==> w.validationPassed && s.conds.validated.Succeeded?
    ensures Inv(Advance(w, Patch(w, s, patch)))
    ensures Inv(Advance(w, StopWhenFinished(Patch(w, s, patch))))
  {
    assert w.st == Judged(w.st, w.st.conds.released, w.st.conds.validated);
    ValidatedOk(w, w.st, IDLE);
    ValidatedOk(w, s, IDLE);
    ValidatedOk(w, s, 6);
    hide Inv;
  }

  /** A final phase that is True means that every phase has finished, and none failed
      while the Release is still progressing. */
  lemma CompleteReleaseOk(w: World, o: Outcome)
    requires Inv(w) && w.pc == 20
    ensures Inv(Advance(w, CompleteRelease(w, o)))
  {
    if w.st.conds.final.IsTrue() && w.st.conds.released.Progressing? {
      JudgedOk(w, Succeeded, w.st.conds.validated);
    }
    hide StatusOk, RunsOk;
  }

  lemma ApplyOk(w: World, o: Outcome)
    requires Inv(w) && w.pc < IDLE
    ensures Inv(Advance(w, Apply(OpAt(w.pc), w, o)))
  {
    hide Inv;
    match OpAt(w.pc)
    case FinalizersCalled => CallFinalizersOk(w, o);
    case ConfigLoaded => LoadConfigOk(w, o);
    case CollectorsCleanedUp => CleanUpCollectorsOk(w, o);
    case ProcessingCleanedUp => CleanUpProcessingOk(w, o);
    case ReleaseRunning => RunReleaseOk(w, o);
    case ReleaseValid => ValidateOk(w, o);
    case MetadataSet => StayOk(w, Continue); StayOk(w, Requeue);
    case FinalizerAdded => StayOk(w, Continue); StayOk(w, Requeue);
    case ExpirationAdded => StayOk(w, Continue); StayOk(w, Requeue);
    case Process(p) =>
      if p.Managed? {
        ProcessManagedOk(w, o);
      } else {
        ProcessPhaseOk(w, p, o);
      }
    case Track(p) =>
      if p.Managed? {
        TrackManagedOk(w, o);
      } else {
        TrackPhaseOk(w, p, o);
      }
    case ManagedCompleted => CompleteManagedOk(w, o);
    case ReleaseCompleted => CompleteReleaseOk(w, o);
  }

  /** Runs only finish, get marked for deletion, or vanish once their finalizer is gone. */
  lemma RunChangeOk(w: World, i: nat, run: Run)
    requires Inv(w) && i < |w.runs|
    requires run.kind == w.runs[i].kind && run.attempt == w.runs[i].attempt
    requires run.finalizer == w.runs[i].finalizer
    requires w.runs[i].finalizer ==> run.present == w.runs[i].present
    ensures Inv(w.(runs := w.runs[i := run]))
  {
    var runs := w.runs[i := run];
    forall p | HasRun(w.runs, p)
      ensures HasRun(runs, p)
    {
      var j :| 0 <= j < |w.runs| && w.runs[j].kind == p;
      assert runs[j].kind == p;
    }
  }

  lemma NextOk(w: World, step: Step)
    requires Inv(w)
    ensures Inv(Next(w, step))
  {
    match step
    case Begin =>
    case Operate(o) =>
      if w.pc < IDLE {
        ApplyOk(w, o);
      }
    case Crash =>
    case RunFinishes(i, succeeds) =>
      if i < |w.runs| {
        RunChangeOk(w, i, w.runs[i].(state := if succeeds then RunSucceeded else RunFailed));
      }
    case RunIsDeleted(i) =>
      if i < |w.runs| {
        RunChangeOk(w, i, w.runs[i].(deleting := true));
      }
    case RunVanishes(i) =>
      if i < |w.runs| && !w.runs[i].finalizer {
        RunChangeOk(w, i, w.runs[i].(present := false));
      }
    case ReleaseIsDeleted =>
  }

  /** The invariant holds in every reachable state: whatever the API answers, wherever the
      controller crashes, and whatever happens to the PipelineRuns in between. */
  lemma {:induction false} ReachableOk(steps: seq<Step>)
    ensures Inv(Exec(INIT, steps))
  {
    if steps == [] {
      InitOk();
    } else {
      ReachableOk(steps[..|steps| - 1]);
      NextOk(Exec(INIT, steps[..|steps| - 1]), steps[|steps| - 1]);
    }
  }
}
