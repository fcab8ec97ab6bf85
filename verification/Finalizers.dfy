/** Which runs keep the release finalizer, and for how long. */
module Finalizers {
  import opened ReleaseStatus
  import opened RetryPolicy
  import opened Reconciler
  import opened Invariant
  import opened Safety
  import opened Creation

  predicate IsRegistered(s: Status, i: nat) {
    exists k | 0 <= k < |s.attempts| :: s.attempts[k].run == i
  }

  lemma RegisteredExactly(w: World, i: nat)
    requires Inv(w) && i < |w.runs| && w.runs[i].kind.Managed?
    ensures IsRegistered(w.st, i) <==> w.runs[i].attempt < |w.st.attempts|
    ensures w.runs[i].attempt <= |w.st.attempts|
  {
    var k := w.runs[i].attempt;
    if k < |w.st.attempts| {
      assert w.runs[w.st.attempts[k].run].kind == w.runs[i].kind;
    }
  }

  lemma FindsTheOnly(w: World, i: nat)
    requires Unique(w.runs) && i < |w.runs| && w.runs[i].present
    ensures Find(w.runs, w.runs[i].kind, w.runs[i].attempt) == Some(i)
  {
    assert Labelled(w.runs[i], w.runs[i].kind, w.runs[i].attempt);
  }

  /** At most one run is appended; it is there and has the finalizer. */
  predicate Appends(a: seq<Run>, b: seq<Run>) {
    || b == a
    || (|b| == |a| + 1 && b[..|a|] == a && b[|a|].finalizer && b[|a|].present)
  }

  /** No run gains the finalizer or changes its labels or state, and among the managed runs only those with
      a label below `n` lose it. */
  predicate LosesBelow(a: seq<Run>, b: seq<Run>, n: nat) {
    && |b| == |a|
    && forall i | 0 <= i < |a| ::
         && b[i].kind == a[i].kind && b[i].attempt == a[i].attempt && b[i].present == a[i].present
         && b[i].state == a[i].state
         && (b[i].finalizer ==> a[i].finalizer)
         && (a[i].kind.Managed? && n <= a[i].attempt ==> b[i].finalizer == a[i].finalizer)
  }

  lemma LosesBelowTransitive(a: seq<Run>, b: seq<Run>, c: seq<Run>, n: nat)
    requires LosesBelow(a, b, n) && LosesBelow(b, c, n)
    ensures LosesBelow(a, c, n)
  {
  }

  lemma StripLosesBelow(runs: seq<Run>, kind: Phase, attempt: nat, n: nat)
    requires kind.Managed? ==> attempt < n
    ensures LosesBelow(runs, Strip(runs, kind, attempt), n)
    ensures LosesBelow(runs, MarkDeleted(runs, kind, attempt), n)
  {
  }

  lemma {:induction false} StripAttemptsLosesBelow(runs: seq<Run>, m: nat, n: nat)
    requires m <= n
    ensures LosesBelow(runs, StripAttempts(runs, m), n)
  {
    if m > 0 {
      StripAttemptsLosesBelow(runs, m - 1, n);
      var before := StripAttempts(runs, m - 1);
      StripLosesBelow(before, Managed, m - 1, n);
      LosesBelowTransitive(runs, before, StripAttempts(runs, m), n);
    }
  }

  lemma {:induction false} FinalizeLosesBelow(runs: seq<Run>, order: seq<(Phase, nat)>, progress: nat, n: nat)
    requires forall k | 0 <= k < |order| :: order[k].0.Managed? ==> order[k].1 < n
    ensures LosesBelow(runs, Finalize(runs, order, progress), n)
    decreases order
  {
    if order != [] && progress > 0 {
      var (kind, attempt) := order[0];
      var stripped := Strip(runs, kind, attempt);
      StripLosesBelow(runs, kind, attempt, n);
      if progress > 1 {
        var deleted := MarkDeleted(stripped, kind, attempt);
        StripLosesBelow(stripped, kind, attempt, n);
        FinalizeLosesBelow(deleted, order[1..], progress - 2, n);
        hide LosesBelow, Strip, MarkDeleted;
        LosesBelowTransitive(runs, stripped, deleted, n);
        LosesBelowTransitive(runs, deleted, Finalize(runs, order, progress), n);
      }
    }
  }

  lemma CleanUpCollectorsLoses(w: World, o: Outcome)
    ensures LosesBelow(w.runs, CleanUpCollectors(w, o).w.runs, 0)
  {
    var once := StripIf(w.runs, TenantCollectors, o.cleaned);
    StripIfLoses(w.runs, TenantCollectors, o.cleaned, 0);
    StripIfLoses(once, ManagedCollectors, o.cleaned, 0);
    hide StripIf, LosesBelow;
    SameLoses(w.runs, 0);
    LosesBelowTransitive(w.runs, once, StripIf(once, ManagedCollectors, o.cleaned), 0);
  }

  lemma SameLoses(runs: seq<Run>, n: nat)
    ensures LosesBelow(runs, runs, n)
  {
  }

  lemma StripIfLoses(runs: seq<Run>, kind: Phase, cleaned: set<Phase>, n: nat)
    requires !kind.Managed?
    ensures LosesBelow(runs, StripIf(runs, kind, cleaned), n)
  {
  }

  /** Managed runs lose the finalizer only after the managed phase, and only up to the last attempt. */
  lemma CleanUpProcessingLoses(w: World, o: Outcome)
    ensures LosesBelow(w.runs, CleanUpProcessing(w, o).w.runs, if w.st.Finished(Managed) then |w.st.attempts| else 0)
  {
    var n := if w.st.Finished(Managed) then |w.st.attempts| else 0;
    var t := StripIf(w.runs, Tenant, o.cleaned);
    StripIfLoses(w.runs, Tenant, o.cleaned, n);
    SameLoses(w.runs, n);
    if w.st.Finished(Managed) {
      var m := StripAttempts(t, Min(o.cleanedAttempts, n));
      StripAttemptsLosesBelow(t, Min(o.cleanedAttempts, n), n);
      StripIfLoses(m, Final, o.cleaned, n);
      hide StripIf, StripAttempts, LosesBelow;
      LosesBelowTransitive(w.runs, t, m, n);
      LosesBelowTransitive(w.runs, m, StripIf(m, Final, o.cleaned), n);
    }
  }

  lemma CallFinalizersLoses(w: World, o: Outcome)
    ensures LosesBelow(w.runs, CallFinalizers(w, o).w.runs, if w.deletionSeen then |w.st.attempts| else 0)
  {
    var order := FinalizationOrder(|w.st.attempts|);
    SameLoses(w.runs, 0);
    FinalizeLosesBelow(w.runs, order, o.finalizations, |w.st.attempts|);
    hide Finalize, LosesBelow;
  }

  lemma AddRunAppends(w: World, p: Phase, attempt: nat)
    ensures Appends(w.runs, w.runs) && Appends(w.runs, AddRun(w, p, attempt).runs)
  {
  }

  lemma ProcessPhaseAppends(w: World, p: Phase, o: Outcome)
    requires !p.Managed?
    ensures Appends(w.runs, ProcessPhase(w, p, o).w.runs)
  {
    AddRunAppends(w, p, 0);
    PatchKeepsRuns();
    hide Patch, Appends, AddRun, Find;
  }

  lemma ProcessManagedAppends(w: World, o: Outcome)
    ensures Appends(w.runs, ProcessManaged(w, o).w.runs)
  {
    AddRunAppends(w, Managed, |w.st.attempts|);
    PatchKeepsRuns();
    hide Patch, Appends, AddRun, Find;
  }

  lemma CompleteManagedAppends(w: World, o: Outcome)
    ensures Appends(w.runs, CompleteManaged(w, o).w.runs)
  {
    hide Patch, Retry, Appends, AddRun, Find, DisabledByRelease;
    AddRunAppends(w, Managed, |w.st.attempts|);
    PatchKeepsRuns();
    if w.st.attempts != [] {
      RetryRuns(w, o);
    }
  }

  /** The managed labels below which an operation may take the finalizer off. */
  function LosingBelow(w: World): nat {
    if (w.pc == 0 && w.deletionSeen) || (w.pc == 3 && w.st.Finished(Managed)) then |w.st.attempts| else 0
  }

  lemma OperationLoses(w: World, o: Outcome)
    requires w.pc < IDLE
    ensures var runs := Apply(OpAt(w.pc), w, o).w.runs;
            Appends(w.runs, runs) || LosesBelow(w.runs, runs, LosingBelow(w))
  {
    hide ProcessManaged, ProcessPhase, CompleteManaged, TrackManaged, TrackPhase, LosesBelow, Appends,
         CallFinalizers, CleanUpProcessing, CleanUpCollectors, LoadConfig, RunRelease, Validate, CompleteRelease;
    SameLoses(w.runs, LosingBelow(w));
    match OpAt(w.pc)
    case FinalizersCalled => CallFinalizersLoses(w, o);
    case ConfigLoaded => JudgeKeepsRuns(w, o);
    case CollectorsCleanedUp => CleanUpCollectorsLoses(w, o);
    case ProcessingCleanedUp => CleanUpProcessingLoses(w, o);
    case ReleaseRunning => JudgeKeepsRuns(w, o);
    case ReleaseValid => JudgeKeepsRuns(w, o);
    case MetadataSet =>
    case FinalizerAdded =>
    case ExpirationAdded =>
    case Process(p) =>
      if p.Managed? {
        ProcessManagedAppends(w, o);
      } else {
        ProcessPhaseAppends(w, p, o);
      }
    case Track(p) => TrackKeepsRuns(w, p, o);
    case ManagedCompleted => CompleteManagedAppends(w, o);
    case ReleaseCompleted => JudgeKeepsRuns(w, o);
  }

  /** The step from `w` takes the finalizer off run `i`. */
  predicate Unlocks(w: World, step: Step, i: nat) {
    && i < |w.runs| && w.runs[i].finalizer
    && i < |Next(w, step).runs| && !Next(w, step).runs[i].finalizer
  }

  /** A managed run loses its finalizer in two ways only: the cleanup of a finished managed phase, or
      the finalization of a deleted Release; and only a run that is registered as an attempt does. */
  lemma FinalizerLostOnlyAt(w: World, step: Step, i: nat)
    requires i < |w.runs| && w.runs[i].kind.Managed?
    ensures Unlocks(w, step, i) ==>
              && step.Operate? && w.runs[i].attempt < |w.st.attempts|
              && ((w.pc == 3 && w.st.Finished(Managed)) || (w.pc == 0 && w.deletionSeen))
  {
    hide Apply;
    match step
    case Operate(o) =>
      if w.pc < IDLE {
        OperationLoses(w, o);
      }
    case _ =>
  }

  lemma HeldNext(w: World, step: Step)
    requires Held(w.runs)
    ensures Held(Next(w, step).runs)
  {
    hide Apply;
    match step
    case Operate(o) =>
      if w.pc < IDLE {
        OperationLoses(w, o);
      }
    case _ =>
  }

  /** In every reachable state, cleanup and finalization included, a run with the finalizer is there. */
  lemma {:induction false} ReachableHeld(steps: seq<Step>)
    ensures Held(Exec(INIT, steps).runs)
  {
    if steps != [] {
      ReachableHeld(steps[..|steps| - 1]);
      HeldNext(Exec(INIT, steps[..|steps| - 1]), steps[|steps| - 1]);
    }
  }

  /** Attempt labels survive crashes between the creation and the registration of a run. */
  predicate LabelsSurvive(w: World) {
    // no two managed runs share a label
    && (forall i, j | 0 <= i < j < |w.runs| && w.runs[i].kind.Managed? && w.runs[j].kind.Managed? ::
          w.runs[i].attempt != w.runs[j].attempt)
    // as long as the run of attempt k has its finalizer, it is there under label k
    && (forall k | 0 <= k < |w.st.attempts| ::
          && w.st.attempts[k].run < |w.runs|
          && (w.runs[w.st.attempts[k].run].finalizer ==>
                Find(w.runs, Managed, k) == Some(w.st.attempts[k].run)))
    // a managed run that is not registered carries the next label, under which the lookup finds it
    && (forall i | 0 <= i < |w.runs| && w.runs[i].kind.Managed? && !IsRegistered(w.st, i) ::
          && w.runs[i].attempt == |w.st.attempts|
          && (w.runs[i].finalizer ==> Find(w.runs, Managed, |w.st.attempts|) == Some(i)))
    // until the managed phase finishes or the Release is finalized, all of them have it
    && (!w.st.Finished(Managed) && !w.finalized ==>
          forall i | 0 <= i < |w.runs| && w.runs[i].kind.Managed? :: w.runs[i].finalizer)
  }

  /** Attempt labels survive in every reachable state; `FinalizerLostOnlyAt` says when a run of an
      attempt loses its finalizer. */
  lemma AttemptLabels(steps: seq<Step>)
    ensures LabelsSurvive(Exec(INIT, steps))
  {
    var w := Exec(INIT, steps);
    ReachableOk(steps);
    ReachableHeld(steps);
    hide Exec;
    forall k | 0 <= k < |w.st.attempts|
      ensures w.st.attempts[k].run < |w.runs|
      ensures w.runs[w.st.attempts[k].run].finalizer ==> Find(w.runs, Managed, k) == Some(w.st.attempts[k].run)
    {
      if w.runs[w.st.attempts[k].run].finalizer {
        FindsTheOnly(w, w.st.attempts[k].run);
      }
    }
    forall i | 0 <= i < |w.runs| && w.runs[i].kind.Managed? && !IsRegistered(w.st, i)
      ensures w.runs[i].attempt == |w.st.attempts|
      ensures w.runs[i].finalizer ==> Find(w.runs, Managed, |w.st.attempts|) == Some(i)
    {
      RegisteredExactly(w, i);
      if w.runs[i].finalizer {
        FindsTheOnly(w, i);
      }
    }
  }

  /** The step cleans up the managed runs, or finalizes a deleted Release. */
  predicate CleansUp(w: World, step: Step) {
    step.Operate? && ((w.pc == 3 && w.st.Finished(Managed)) || (w.pc == 0 && w.deletionSeen))
  }

  predicate NotCleanedUp(steps: seq<Step>) {
    forall k | 0 <= k < |steps| :: !CleansUp(Exec(INIT, steps[..k]), steps[k])
  }

  predicate AllLocked(runs: seq<Run>) {
    forall i | 0 <= i < |runs| && runs[i].kind.Managed? :: runs[i].finalizer
  }

  lemma StepKeepsLocks(w: World, step: Step)
    requires !CleansUp(w, step) && AllLocked(w.runs)
    ensures AllLocked(Next(w, step).runs)
  {
    hide Apply;
    match step
    case Operate(o) =>
      if w.pc < IDLE {
        OperationLoses(w, o);
      }
    case _ =>
  }

  lemma {:induction false} LockedUntilCleanup(steps: seq<Step>)
    requires NotCleanedUp(steps)
    ensures AllLocked(Exec(INIT, steps).runs)
  {
    if steps != [] {
      var last := |steps| - 1;
      var before := steps[..last];
      assert forall k | 0 <= k < last :: steps[..k] == before[..k] && steps[k] == before[k];
      assert !CleansUp(Exec(INIT, before), steps[last]);
      hide CleansUp, AllLocked, Next;
      LockedUntilCleanup(before);
      StepKeepsLocks(Exec(INIT, before), steps[last]);
    }
  }

  /** Until managed cleanup starts, also after the managed phase has finished, the run of attempt k
      is found under label k, and the next lookup adopts the run that is not registered. */
  lemma LabelsUntilCleanup(steps: seq<Step>)
    requires NotCleanedUp(steps)
    ensures var w := Exec(INIT, steps);
            && (forall k | 0 <= k < |w.st.attempts| :: Find(w.runs, Managed, k) == Some(w.st.attempts[k].run))
            && (forall i | 0 <= i < |w.runs| && w.runs[i].kind.Managed? && !IsRegistered(w.st, i) ::
                  w.runs[i].attempt == |w.st.attempts| && Find(w.runs, Managed, |w.st.attempts|) == Some(i))
  {
    LockedUntilCleanup(steps);
    AttemptLabels(steps);
    ReachableOk(steps);
    hide Exec, Find;
  }
}
