/** Which runs are freed and deleted by cleanup and by finalization. */
module Freed {
  import opened ReleaseStatus
  import opened RetryPolicy
  import opened Reconciler
  import opened Invariant
  import opened Safety
  import opened Finalizers
  import opened Unregistered

  predicate HasLabel(run: Run, kind: Phase, attempt: nat) {
    run.present && run.kind == kind && run.attempt == attempt
  }

  lemma StripExactly(runs: seq<Run>, kind: Phase, attempt: nat, i: nat)
    requires Unique(runs) && i < |runs|
    ensures |Strip(runs, kind, attempt)| == |runs| && Unique(Strip(runs, kind, attempt))
    ensures Strip(runs, kind, attempt)[i] ==
            if HasLabel(runs[i], kind, attempt) then runs[i].(finalizer := false) else runs[i]
  {
    var found := Find(runs, kind, attempt);
    if HasLabel(runs[i], kind, attempt) {
      assert Labelled(runs[i], kind, attempt);
      assert found == Some(i);
    }
    hide Find;
  }

  lemma MarkDeletedExactly(runs: seq<Run>, kind: Phase, attempt: nat, i: nat)
    requires Unique(runs) && i < |runs|
    ensures |MarkDeleted(runs, kind, attempt)| == |runs| && Unique(MarkDeleted(runs, kind, attempt))
    ensures MarkDeleted(runs, kind, attempt)[i] ==
            if HasLabel(runs[i], kind, attempt) then runs[i].(deleting := true) else runs[i]
  {
    var found := Find(runs, kind, attempt);
    if HasLabel(runs[i], kind, attempt) {
      assert Labelled(runs[i], kind, attempt);
      assert found == Some(i);
    }
    hide Find;
  }

  /** The run after it was freed and deleted, if it is there with one of the given labels. */
  function Deleted(run: Run, labels: seq<(Phase, nat)>): Run {
    if run.present && (run.kind, run.attempt) in labels then run.(finalizer := false, deleting := true) else run
  }

  lemma {:induction false} FinalizeExactly(runs: seq<Run>, order: seq<(Phase, nat)>, progress: nat, i: nat)
    requires Unique(runs) && i < |runs| && progress >= 2 * |order|
    ensures |Finalize(runs, order, progress)| == |runs|
    ensures Finalize(runs, order, progress)[i] == Deleted(runs[i], order)
    decreases order
  {
    if order != [] {
      var (kind, attempt) := order[0];
      var stripped := Strip(runs, kind, attempt);
      var deleted := MarkDeleted(stripped, kind, attempt);
      StripExactly(runs, kind, attempt, i);
      MarkDeletedExactly(stripped, kind, attempt, i);
      FinalizeExactly(deleted, order[1..], progress - 2, i);
      assert Finalize(runs, order, progress) == Finalize(deleted, order[1..], progress - 2);
      hide Strip, MarkDeleted, Finalize, Unique;
      assert order == [(kind, attempt)] + order[1..];
    }
  }

  lemma OrderedLabels(n: nat, kind: Phase, attempt: nat)
    ensures (kind, attempt) in FinalizationOrder(n) <==> if kind == Managed then attempt < n else attempt == 0
  {
    var managed := seq(n, i => (Managed, i));
    assert attempt < n ==> managed[attempt] == (Managed, attempt);
    var order := FinalizationOrder(n);
    assert order == [(ManagedCollectors, 0), (TenantCollectors, 0), (Tenant, 0)] + managed + [(Final, 0)];
    assert (kind, attempt) in order <==>
           (kind, attempt) in [(ManagedCollectors, 0), (TenantCollectors, 0), (Tenant, 0)]
           || (kind, attempt) in managed || (kind, attempt) == (Final, 0);
  }

  lemma OrderLength(n: nat)
    ensures |FinalizationOrder(n)| == n + 4
  {
  }

  lemma Finalizes(w: World, o: Outcome, i: nat)
    requires Inv(w) && w.deletionSeen && o.finalizations >= 2 * (|w.st.attempts| + 4) && i < |w.runs|
    ensures var runs := CallFinalizers(w, o).w.runs;
            && |runs| == |w.runs|
            && runs[i] == if w.runs[i].present && (w.runs[i].kind != Managed || w.runs[i].attempt < |w.st.attempts|)
                          then w.runs[i].(finalizer := false, deleting := true)
                          else w.runs[i]
  {
    var order := FinalizationOrder(|w.st.attempts|);
    OrderLength(|w.st.attempts|);
    OrderedLabels(|w.st.attempts|, w.runs[i].kind, w.runs[i].attempt);
    FinalizeExactly(w.runs, order, o.finalizations, i);
    assert LabelsOk(w.st, w.runs);
    hide Inv, FinalizationOrder, Finalize;
  }

  /** A finalization that meets no error frees and deletes every run that is there, except a managed
      run that was left behind; it changes no other run, and nothing else happens in the reconcile. */
  lemma FinalizedExactly(steps: seq<Step>, o: Outcome, i: nat)
    requires Exec(INIT, steps).pc == 0 && Exec(INIT, steps).deletionSeen
    requires o.finalizations >= 2 * (|Exec(INIT, steps).st.attempts| + 4) && i < |Exec(INIT, steps).runs|
    ensures var w, w' := Exec(INIT, steps), Next(Exec(INIT, steps), Operate(o));
            && |w'.runs| == |w.runs| && w'.st == w.st && w'.pc == IDLE
            && (w.runs[i].present && (w.runs[i].kind != Managed || w.runs[i].attempt < |w.st.attempts|) ==>
                  w'.runs[i] == w.runs[i].(finalizer := false, deleting := true))
            && (!(w.runs[i].present && (w.runs[i].kind != Managed || w.runs[i].attempt < |w.st.attempts|)) ==>
                  w'.runs[i] == w.runs[i])
  {
    var w := Exec(INIT, steps);
    ReachableOk(steps);
    hide Exec;
    Finalizes(w, o, i);
    hide Inv;
    assert OpAt(0) == FinalizersCalled;
    assert Next(w, Operate(o)) == Advance(w, CallFinalizers(w, o));
    hide Next, Finalize;
  }

  lemma StripIfExactly(runs: seq<Run>, kind: Phase, cleaned: set<Phase>, i: nat)
    requires Unique(runs) && i < |runs|
    ensures |StripIf(runs, kind, cleaned)| == |runs| && Unique(StripIf(runs, kind, cleaned))
    ensures StripIf(runs, kind, cleaned)[i] ==
            if kind in cleaned && HasLabel(runs[i], kind, 0) then runs[i].(finalizer := false) else runs[i]
  {
    StripExactly(runs, kind, 0, i);
    hide Strip;
  }

  /** The run after it was freed, if it is there and `frees` holds. */
  function FreedIf(run: Run, frees: bool): Run {
    if run.present && frees then run.(finalizer := false) else run
  }

  lemma CollectorsCleaned(w: World, o: Outcome)
    ensures var w' := CleanUpCollectors(w, o).w;
            && w'.st == w.st
            && w'.runs == if w.st.conds.tenantCollectors.Finished() && w.st.conds.managedCollectors.Finished()
                          then StripIf(StripIf(w.runs, TenantCollectors, o.cleaned), ManagedCollectors, o.cleaned)
                          else w.runs
  {
    hide StripIf;
  }

  lemma NoLabelElsewhere(w: World, i: nat)
    requires Inv(w) && i < |w.runs|
    ensures w.runs[i].kind != Managed ==> w.runs[i].attempt == 0
    ensures Unique(w.runs)
    ensures w.st.Finished(Managed) ==> w.st.Finished(Tenant)
    ensures w.st.Finished(Final) ==> w.st.Finished(Managed)
  {
  }

  lemma CleansCollectors(w: World, o: Outcome, i: nat)
    requires Inv(w) && i < |w.runs|
    ensures var w' := CleanUpCollectors(w, o).w;
            var run := w.runs[i];
            var both := w.st.conds.tenantCollectors.Finished() && w.st.conds.managedCollectors.Finished();
            && |w'.runs| == |w.runs| && w'.st == w.st
            && w'.runs[i] == FreedIf(run, && both && run.kind in o.cleaned
                                          && (run.kind == TenantCollectors || run.kind == ManagedCollectors))
  {
    hide Inv, StripIf, CleanUpCollectors, Unique;
    NoLabelElsewhere(w, i);
    CollectorsCleaned(w, o);
    var once := StripIf(w.runs, TenantCollectors, o.cleaned);
    StripIfExactly(w.runs, TenantCollectors, o.cleaned, i);
    StripIfExactly(once, ManagedCollectors, o.cleaned, i);
  }

  lemma {:induction false} StripsAttempts(runs: seq<Run>, n: nat, i: nat)
    requires Unique(runs) && i < |runs|
    ensures |StripAttempts(runs, n)| == |runs| && Unique(StripAttempts(runs, n))
    ensures StripAttempts(runs, n)[i] == FreedIf(runs[i], runs[i].kind == Managed && runs[i].attempt < n)
  {
    if n > 0 {
      StripsAttempts(runs, n - 1, i);
      StripExactly(StripAttempts(runs, n - 1), Managed, n - 1, i);
    }
    hide Strip, Unique;
  }

  lemma ProcessingCleaned(w: World, o: Outcome)
    requires o.cleanedAttempts >= |w.st.attempts|
    ensures var w' := CleanUpProcessing(w, o).w;
            var t := StripIf(w.runs, Tenant, o.cleaned);
            var m := StripAttempts(t, |w.st.attempts|);
            && w'.st == w.st
            && w'.runs == if !w.st.Finished(Tenant) then w.runs
                          else if !w.st.Finished(Managed) then t
                          else if !w.st.Finished(Final) then m
                          else StripIf(m, Final, o.cleaned)
  {
    hide StripIf, StripAttempts;
  }

  lemma CleansProcessing(w: World, o: Outcome, i: nat)
    requires Inv(w) && i < |w.runs| && o.cleanedAttempts >= |w.st.attempts|
    ensures var w' := CleanUpProcessing(w, o).w;
            var run := w.runs[i];
            && |w'.runs| == |w.runs| && w'.st == w.st
            && w'.runs[i] == FreedIf(run,
                                     && (run.kind == Tenant || run.kind == Managed || run.kind == Final)
                                     && w.st.Finished(run.kind)
                                     && (run.kind == Managed || run.kind in o.cleaned)
                                     && (run.kind == Managed ==> run.attempt < |w.st.attempts|))
  {
    hide Inv, StripIf, StripAttempts, CleanUpProcessing, Unique;
    NoLabelElsewhere(w, i);
    ProcessingCleaned(w, o);
    var t := StripIf(w.runs, Tenant, o.cleaned);
    StripIfExactly(w.runs, Tenant, o.cleaned, i);
    var m := StripAttempts(t, |w.st.attempts|);
    StripsAttempts(t, |w.st.attempts|, i);
    StripIfExactly(m, Final, o.cleaned, i);
  }

  /** Cleanup frees exactly the runs of the phases that have finished: both collectors together once
      both have finished, then tenant, registered managed and final runs. A run whose cleanup fails
      is one that is not in `cleaned`. Nothing is deleted, and the status stays. */
  lemma CleanUpFreesExactly(steps: seq<Step>, o: Outcome, i: nat)
    requires Exec(INIT, steps).pc == 2 || Exec(INIT, steps).pc == 3
    requires o.cleanedAttempts >= |Exec(INIT, steps).st.attempts| && i < |Exec(INIT, steps).runs|
    ensures var w, w' := Exec(INIT, steps), Next(Exec(INIT, steps), Operate(o));
            var run := w.runs[i];
            && |w'.runs| == |w.runs| && w'.st == w.st
            && (w.pc == 2 ==>
                  w'.runs[i] ==
                  if run.present && w.st.Finished(TenantCollectors) && w.st.Finished(ManagedCollectors)
                     && run.kind in o.cleaned && (run.kind == TenantCollectors || run.kind == ManagedCollectors)
                  then run.(finalizer := false) else run)
            && (w.pc == 3 ==>
                  w'.runs[i] ==
                  if run.present && w.st.Finished(run.kind)
                     && (|| (run.kind == Managed && run.attempt < |w.st.attempts|)
                         || ((run.kind == Tenant || run.kind == Final) && run.kind in o.cleaned))
                  then run.(finalizer := false) else run)
  {
    var w := Exec(INIT, steps);
    ReachableOk(steps);
    hide Exec;
    CleansAt(w, o, i);
    hide Inv, Next;
  }

  lemma CleansAt(w: World, o: Outcome, i: nat)
    requires Inv(w) && (w.pc == 2 || w.pc == 3) && o.cleanedAttempts >= |w.st.attempts| && i < |w.runs|
    ensures var w' := Next(w, Operate(o));
            var run := w.runs[i];
            && |w'.runs| == |w.runs| && w'.st == w.st
            && (w.pc == 2 ==>
                  w'.runs[i] ==
                  FreedIf(run, && w.st.Finished(TenantCollectors) && w.st.Finished(ManagedCollectors)
                               && run.kind in o.cleaned
                               && (run.kind == TenantCollectors || run.kind == ManagedCollectors)))
            && (w.pc == 3 ==>
                  w'.runs[i] ==
                  FreedIf(run, && w.st.Finished(run.kind)
                               && (|| (run.kind == Managed && run.attempt < |w.st.attempts|)
                                   || ((run.kind == Tenant || run.kind == Final) && run.kind in o.cleaned))))
  {
    hide CleanUpCollectors, CleanUpProcessing;
    CleansCollectors(w, o, i);
    CleansProcessing(w, o, i);
    hide Inv;
    assert OpAt(2) == CollectorsCleanedUp && OpAt(3) == ProcessingCleanedUp;
  }

  /** Wherever a finalization stops, it has deleted only runs that have lost the finalizer. */
  lemma {:induction false} DeletesOnlyFreed(runs: seq<Run>, order: seq<(Phase, nat)>, progress: nat, i: nat)
    requires Unique(runs) && i < |runs|
    ensures |Finalize(runs, order, progress)| == |runs|
    ensures var run := Finalize(runs, order, progress)[i];
            && (run.finalizer ==> runs[i].finalizer)
            && (run.deleting && !runs[i].deleting ==> !run.finalizer)
    decreases order
  {
    if order != [] && progress > 0 {
      var (kind, attempt) := order[0];
      var stripped := Strip(runs, kind, attempt);
      StripExactly(runs, kind, attempt, i);
      if progress > 1 {
        var deleted := MarkDeleted(stripped, kind, attempt);
        MarkDeletedExactly(stripped, kind, attempt, i);
        DeletesOnlyFreed(deleted, order[1..], progress - 2, i);
        assert Finalize(runs, order, progress) == Finalize(deleted, order[1..], progress - 2);
      } else {
        assert Finalize(runs, order, progress) == stripped;
      }
      hide Strip, MarkDeleted, Finalize, Unique;
    }
  }
}
