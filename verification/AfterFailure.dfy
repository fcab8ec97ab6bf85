/** Which runs are created for a Release that has failed. */
module AfterFailure {
  import opened ReleaseStatus
  import opened RetryPolicy
  import opened Reconciler
  import opened Invariant
  import opened Creation
  import opened LostWakeup

  /** The step creates a run of kind `p` although the Release has failed. */
  predicate Creates(w: World, step: Step, p: Phase) {
    && w.st.IsFailed()
    && |w.runs| < |Next(w, step).runs| && Next(w, step).runs[|w.runs|].kind == p
  }

  const INVALID := GOOD.(validation := Invalid)

  lemma FailsValidation(w: World)
    requires w.pc == 5 && w.st == Judged(EMPTY_STATUS, Progressing, Absent)
    ensures Next(w, Operate(INVALID)) == w.(st := Judged(EMPTY_STATUS, Failed, Failed), pc := 6)
  {
    assert OpAt(5) == ReleaseValid;
    assert w.st.(conds := w.st.conds.(validated := Failed)).FailRelease() == Judged(EMPTY_STATUS, Failed, Failed);
    assert Validate(w, INVALID) == Ret(w.(st := Judged(EMPTY_STATUS, Failed, Failed)), Continue);
  }

  /** The first reconcile of a Release that is not valid gets to its phases. */
  lemma FailedStart() returns (steps: seq<Step>, w: World)
    ensures Exec(INIT, steps) == w
    ensures w == INIT.(st := Judged(EMPTY_STATUS, Failed, Failed), pc := 9)
  {
    steps, w := Do([], INIT, Begin);
    assert w == INIT.(pc := 0);
    hide Next;
    for pc := 0 to 4
      invariant Exec(INIT, steps) == w && w == INIT.(pc := pc)
    {
      Quiet(w);
      steps, w := Do(steps, w, Operate(GOOD));
    }
    MarksReleasing(w);
    steps, w := Do(steps, w, Operate(GOOD));
    FailsValidation(w);
    steps, w := Do(steps, w, Operate(INVALID));
    for pc := 6 to 9
      invariant Exec(INIT, steps) == w && w == INIT.(st := Judged(EMPTY_STATUS, Failed, Failed), pc := pc)
    {
      Quiet(w);
      steps, w := Do(steps, w, Operate(GOOD));
    }
  }

  lemma CreatesRun(w: World, p: Phase)
    requires (p.TenantCollectors? || p.Final?) && w.pc == ProcessIndex(p)
    requires w.st.IsFailed() && w.st.Get(p).Absent? && w.st.PredecessorFinished(p) && w.runs == []
    ensures Creates(w, Operate(CREATE), p)
  {
    assert OpAt(w.pc) == Process(p);
    assert Find(w.runs, p, 0) == None;
    assert ProcessPhase(w, p, CREATE) == Ret(AddRun(w, p, 0).(st := w.st.Set(p, Progressing)), Continue);
    assert Next(w, Operate(CREATE)).runs == AddRun(w, p, 0).runs;
  }

  lemma TenantCollectorsRunIsCreated() returns (steps: seq<Step>)
    ensures Creates(Exec(INIT, steps), Operate(CREATE), TenantCollectors)
  {
    var w: World;
    steps, w := FailedStart();
    CreatesRun(w, TenantCollectors);
  }

  lemma SkipsFailed(w: World, p: Phase)
    requires SkippedOnFailure(p) && !p.Managed? && w.st.IsFailed() && w.st.Get(p).Absent? && w.st.PredecessorFinished(p)
    ensures ProcessPhase(w, p, GOOD) == Ret(w.(st := w.st.Set(p, Skipped)), Continue)
  {
    hide Find, Status.Set, Status.PredecessorFinished;
  }

  lemma SkipsTenantCollectors(w: World)
    requires w.st.conds.tenantCollectors.Absent? && w.runs == []
    ensures ProcessPhase(w, TenantCollectors, GOOD) == Ret(w.(st := w.st.Set(TenantCollectors, Skipped)), Continue)
  {
    assert Find(w.runs, TenantCollectors, 0) == None;
    hide Find, Status.Set;
  }

  /** The phases before the final one are skipped. */
  lemma SkipsPhase(w: World, p: Phase)
    requires !p.Final? && !p.Managed? && w.pc == ProcessIndex(p) && w.runs == []
    requires w.st.IsFailed() && w.st.Get(p).Absent? && w.st.PredecessorFinished(p)
    ensures Good(w) == w.(st := w.st.Set(p, Skipped), pc := w.pc + 1)
  {
    if p.TenantCollectors? {
      SkipsTenantCollectors(w);
    } else {
      SkipsFailed(w, p);
    }
    ProcessingStep(w, p);
    hide ProcessPhase, Next, Status.Set;
  }

  lemma SkipsManaged(w: World)
    requires w.pc == 15 && w.st.IsFailed() && w.st.conds.managed.Absent? && w.st.conds.tenant.Finished()
    ensures Good(w) == w.(st := w.st.Set(Managed, Skipped), pc := 16)
  {
    assert OpAt(15) == Process(Managed);
    assert ProcessManaged(w, GOOD) == Ret(w.(st := w.st.Set(Managed, Skipped)), Continue);
  }

  lemma NothingManaged(w: World)
    requires (w.pc == 16 || w.pc == 17) && w.st.conds.managed.Skipped?
    ensures Good(w) == w.(pc := w.pc + 1)
  {
    assert OpAt(16) == Track(Managed) && OpAt(17) == ManagedCompleted;
    assert TrackManaged(w, GOOD) == CompleteManaged(w, GOOD) == Ret(w, Continue);
  }

  lemma FinalRunIsCreated() returns (steps: seq<Step>)
    ensures Creates(Exec(INIT, steps), Operate(CREATE), Final)
  {
    hide Next;
    var w: World;
    steps, w := FailedStart();
    SkipsPhase(w, TenantCollectors);
    steps, w := Do(steps, w, Operate(GOOD));
    NothingTracked(w, TenantCollectors);
    steps, w := Do(steps, w, Operate(GOOD));
    SkipsPhase(w, ManagedCollectors);
    steps, w := Do(steps, w, Operate(GOOD));
    NothingTracked(w, ManagedCollectors);
    steps, w := Do(steps, w, Operate(GOOD));
    SkipsPhase(w, Tenant);
    steps, w := Do(steps, w, Operate(GOOD));
    NothingTracked(w, Tenant);
    steps, w := Do(steps, w, Operate(GOOD));
    SkipsManaged(w);
    steps, w := Do(steps, w, Operate(GOOD));
    NothingManaged(w);
    steps, w := Do(steps, w, Operate(GOOD));
    NothingManaged(w);
    steps, w := Do(steps, w, Operate(GOOD));
    CreatesRun(w, Final);
  }

  lemma NeverCreated(steps: seq<Step>, step: Step, p: Phase)
    requires SkippedOnFailure(p)
    ensures !Creates(Exec(INIT, steps), step, p)
  {
    ReachableOk(steps);
    hide Exec, Inv, Next;
    if Exec(INIT, steps).st.IsFailed() {
      NoRunInFailedStep(Exec(INIT, steps), step);
    }
  }

  /** The kinds of runs that can be created after the Release has failed are exactly the tenant
      collectors and the final one. */
  lemma CreatedAfterFailureExactly(p: Phase)
    ensures (exists steps: seq<Step>, step: Step :: Creates(Exec(INIT, steps), step, p)) <==> !SkippedOnFailure(p)
  {
    hide Exec, Creates;
    if SkippedOnFailure(p) {
      forall steps: seq<Step>, step: Step
        ensures !Creates(Exec(INIT, steps), step, p)
      {
        NeverCreated(steps, step, p);
      }
    } else if p.Final? {
      var steps := FinalRunIsCreated();
      assert Creates(Exec(INIT, steps), Operate(CREATE), p);
    } else {
      var steps := TenantCollectorsRunIsCreated();
      assert Creates(Exec(INIT, steps), Operate(CREATE), p);
    }
  }
}
