/** A run of the machine in which the wake-up is lost. */
module LostWakeup {
  import opened ReleaseStatus
  import opened RetryPolicy
  import opened Reconciler
  import opened Invariant
  import opened Wakeup

  /** Every call succeeds; only the managed pipeline is configured, with up to three retries. */
  const GOOD := Outcome(
    false, false, true, true, false, Passed, Created, Applied, Applied, ReadOk, OOMKill,
    Some(RetryInfo(true, Some(3), None, [], OnByPolicy)), [], iset{}, {}, 0, false, 0)

  /** The managed pipeline is created. */
  const CREATE := GOOD.(configured := true)

  /** The run of the retry is created, but the answer is lost. */
  const LOSE_REPLY := GOOD.(create := CreatedReplyLost)

  function Good(w: World): World {
    Next(w, Operate(GOOD))
  }

  lemma Do(steps: seq<Step>, w: World, step: Step) returns (steps': seq<Step>, w': World)
    requires Exec(INIT, steps) == w
    ensures w' == Next(w, step) && Exec(INIT, steps') == w'
  {
    steps' := steps + [step];
    w' := Next(w, step);
    assert steps'[..|steps'| - 1] == steps;
  }

  /** The operations before the phases that only load and clean up. */
  lemma Quiet(w: World)
    requires (w.pc < 4 || 6 <= w.pc < 9) && !w.deletionSeen
    ensures Good(w) == w.(pc := w.pc + 1)
  {
    match w.pc
    case 0 => assert Apply(OpAt(0), w, GOOD) == Ret(w, Continue);
    case 1 => assert Apply(OpAt(1), w, GOOD) == Ret(w, Continue);
    case 2 => assert CleanUpCollectors(w, GOOD) == Ret(w, Continue);
    case 3 => assert CleanUpProcessing(w, GOOD) == Ret(w, Continue);
    case _ => assert Apply(OpAt(w.pc), w, GOOD) == Ret(w, Continue);
  }

  lemma MarksReleasing(w: World)
    requires w.pc == 4 && (w.st.conds.released.Absent? || w.st.conds.released.Progressing?)
    ensures Good(w) == w.(st := Judged(w.st, Progressing, w.st.conds.validated), pc := 5)
  {
    assert OpAt(4) == ReleaseRunning;
    var s := Judged(w.st, Progressing, w.st.conds.validated);
    assert RunRelease(w, GOOD) == Ret(w.(st := s), Continue);
  }

  lemma MarksValidated(w: World)
    requires w.pc == 5 && w.st.conds.released.Progressing?
    ensures Good(w) == w.(st := Judged(w.st, Progressing, Succeeded), validationPassed := true, pc := 6)
  {
    assert OpAt(5) == ReleaseValid;
    var s := Judged(w.st, Progressing, Succeeded);
    assert Validate(w, GOOD) == Ret(w.(st := s, validationPassed := true), Continue);
  }

  /** The reconcile starts, validates the Release and gets to its phases. */
  lemma Start(steps: seq<Step>, w: World) returns (steps': seq<Step>, w': World)
    requires Exec(INIT, steps) == w && w.pc == IDLE && !w.deleting
    requires w.st.conds.released.Absent? || w.st.conds.released.Progressing?
    ensures Exec(INIT, steps') == w'
    ensures w' == w.(st := Judged(w.st, Progressing, Succeeded), pc := 9, deletionSeen := false,
                     validationPassed := true, watched := None, lateAdoption := false)
  {
    steps', w' := Do(steps, w, Begin);
    var begun := w.(deletionSeen := false, validationPassed := false, watched := None, lateAdoption := false);
    assert w' == begun.(pc := 0);
    hide Next;
    for pc := 0 to 4
      invariant Exec(INIT, steps') == w' && w' == begun.(pc := pc)
    {
      Quiet(w');
      steps', w' := Do(steps', w', Operate(GOOD));
    }
    MarksReleasing(w');
    steps', w' := Do(steps', w', Operate(GOOD));
    MarksValidated(w');
    steps', w' := Do(steps', w', Operate(GOOD));
    var valid := begun.(st := Judged(w.st, Progressing, Succeeded), validationPassed := true);
    for pc := 6 to 9
      invariant Exec(INIT, steps') == w' && w' == valid.(pc := pc)
    {
      Quiet(w');
      steps', w' := Do(steps', w', Operate(GOOD));
    }
  }

  /** The status in which only the managed phase has not been skipped. */
  function OnlyManaged(managed: Cond, attempts: seq<Attempt>): Status {
    Status(Conditions(Skipped, Skipped, Skipped, managed, Absent, Progressing, Succeeded), attempts)
  }

  lemma SkipsProcessing(w: World, p: Phase)
    requires !p.Managed? && !p.Final? && !w.st.Finished(p) && w.st.PredecessorFinished(p)
    requires w.runs == [] && w.st.conds.released.Progressing?
    ensures ProcessPhase(w, p, GOOD) == Ret(w.(st := w.st.Set(p, Skipped)), Continue)
  {
    assert Find(w.runs, p, 0) == None;
    assert Patch(w, w.st.Set(p, Skipped), GOOD.patch) == Ret(w.(st := w.st.Set(p, Skipped)), Continue);
    hide Patch;
  }

  lemma SetSkipped(s: Status, p: Phase)
    ensures s.Set(p, Skipped).Get(p).Skipped?
    ensures s.Get(p).Skipped? ==> s.Set(p, Skipped) == s
  {
  }

  /** A phase that is not configured is skipped. */
  lemma Skips(w: World, p: Phase)
    requires !p.Managed? && !p.Final? && w.pc == ProcessIndex(p)
    requires w.st.PredecessorFinished(p) && (w.st.Get(p).Skipped? || (w.st.Get(p).Absent? && w.runs == []))
    requires w.st.conds.released.Progressing?
    ensures Good(w) == w.(st := w.st.Set(p, Skipped), pc := w.pc + 1)
  {
    SetSkipped(w.st, p);
    if w.st.Get(p).Skipped? {
      StaysSkipped(w, p);
    } else {
      SkipsProcessing(w, p);
    }
    ProcessingStep(w, p);
    hide ProcessPhase, Next;
  }

  lemma StaysSkipped(w: World, p: Phase)
    requires !p.Managed? && w.st.Get(p).Skipped?
    ensures ProcessPhase(w, p, GOOD) == Ret(w, Continue)
  {
  }

  lemma ProcessingStep(w: World, p: Phase)
    requires !p.Managed? && w.pc == ProcessIndex(p)
    ensures Good(w) == Advance(w, ProcessPhase(w, p, GOOD))
  {
    hide ProcessPhase;
    assert OpAt(w.pc) == Process(p);
  }

  lemma NothingTracked(w: World, p: Phase)
    requires !p.Managed? && !p.Final? && w.pc == ProcessIndex(p) + 1 && w.st.Get(p).Skipped?
    ensures Good(w) == w.(pc := w.pc + 1)
  {
    assert TrackPhase(w, p, GOOD) == Ret(w, Continue);
    assert OpAt(w.pc) == Track(p);
    hide TrackPhase;
  }

  /** The operations of the phases before managed. */
  lemma SkipPhases(steps: seq<Step>, w: World) returns (steps': seq<Step>, w': World)
    requires Exec(INIT, steps) == w && w.pc == 9
    requires || w.st == OnlyManaged(w.st.conds.managed, w.st.attempts)
             || (w.st == Judged(EMPTY_STATUS, Progressing, Succeeded) && w.runs == [])
    ensures Exec(INIT, steps') == w'
    ensures w' == w.(st := OnlyManaged(w.st.conds.managed, w.st.attempts), pc := 15)
  {
    hide Next;
    Skips(w, TenantCollectors);
    steps', w' := Do(steps, w, Operate(GOOD));
    NothingTracked(w', TenantCollectors);
    steps', w' := Do(steps', w', Operate(GOOD));
    Skips(w', ManagedCollectors);
    steps', w' := Do(steps', w', Operate(GOOD));
    NothingTracked(w', ManagedCollectors);
    steps', w' := Do(steps', w', Operate(GOOD));
    Skips(w', Tenant);
    steps', w' := Do(steps', w', Operate(GOOD));
    NothingTracked(w', Tenant);
    steps', w' := Do(steps', w', Operate(GOOD));
  }

  const FIRST := Run(Managed, 0, RunFailed, false, true, true)
  const SECOND := Run(Managed, 1, RunFailed, false, true, true)
  const STARTED := OnlyManaged(Progressing, [Attempt(0, AttemptProgressing, NoFailure, false)])
  const FAILED := OnlyManaged(Progressing, [Attempt(0, AttemptFailed, OOMKill, false)])
  const RETRIED := OnlyManaged(Progressing, FAILED.attempts + [Attempt(1, AttemptProgressing, NoFailure, false)])

  lemma CreatesFirst(w: World)
    requires w.pc == 15 && w.st == OnlyManaged(Absent, []) && w.runs == []
    ensures Next(w, Operate(CREATE)) == w.(st := STARTED, runs := [FIRST.(state := Running)], pc := 16)
  {
    assert OpAt(15) == Process(Managed);
    assert w.st.StartAttempt(0) == STARTED;
    assert ProcessManaged(w, CREATE) == Ret(w.(st := STARTED, runs := [FIRST.(state := Running)]), Continue);
  }

  lemma NothingToProcess(w: World)
    requires w.pc == 15 && w.runs != [] && w.runs[0] == FIRST
    requires w.st == FAILED || (w.st == STARTED && w.runs == [FIRST])
    ensures Good(w) == w.(pc := 16)
  {
    assert OpAt(15) == Process(Managed);
    assert w.st == STARTED ==> Find(w.runs, Managed, 0) == Some(0);
    assert ProcessManaged(w, GOOD) == Ret(w, Continue);
  }

  lemma RecordsFailure(w: World)
    requires w.pc == 16 && w.st == STARTED && w.runs == [FIRST]
    ensures Good(w) == w.(st := FAILED, pc := 17)
  {
    assert OpAt(16) == Track(Managed);
    assert Find(w.runs, Managed, 0) == Some(0);
    assert STARTED.FinishAttempt(AttemptFailed, OOMKill) == FAILED;
    assert TrackManaged(w, GOOD) == Ret(w.(st := FAILED), Continue);
  }

  lemma NothingToTrack(w: World)
    requires w.pc == 16 && w.st == FAILED && w.runs == [FIRST, SECOND]
    ensures Good(w) == w.(pc := 17)
  {
    assert OpAt(16) == Track(Managed);
    assert w.runs[..1] == [FIRST];
    assert Find(w.runs[..1], Managed, 0) == Some(0);
    assert Find(w.runs, Managed, 0) == Some(0);
    assert TrackManaged(w, GOOD) == Ret(w, Continue);
  }

  lemma MayRetry(o: Outcome)
    requires o.retryInfo == GOOD.retryInfo && o.releaseTags == []
    ensures CanRetry(FAILED, o.retryInfo) && !DisabledByRelease(o)
  {
  }

  lemma LosesReply(w: World)
    requires w.pc == 17 && w.st == FAILED && w.runs == [FIRST]
    ensures Next(w, Operate(LOSE_REPLY)) == w.(runs := [FIRST, SECOND.(state := Running)], pc := IDLE)
  {
    assert OpAt(17) == ManagedCompleted;
    MayRetry(LOSE_REPLY);
    assert w.runs[..0] == [];
    assert Find(w.runs, Managed, 1) == None;
    assert Retry(w, LOSE_REPLY) == Ret(AddRun(w, Managed, 1), Requeue);
    assert CompleteManaged(w, LOSE_REPLY) == Retry(w, LOSE_REPLY);
  }

  lemma AdoptsLate(w: World)
    requires w.pc == 17 && w.st == FAILED && w.runs == [FIRST, SECOND]
    ensures Good(w) == w.(st := RETRIED, lateAdoption := true, pc := 18)
  {
    assert OpAt(17) == ManagedCompleted;
    MayRetry(GOOD);
    assert Find(w.runs, Managed, 1) == Some(1);
    assert FAILED.StartAttempt(1) == RETRIED;
    assert RegisterRetry(w, 1, GOOD) == Ret(w.(st := RETRIED, lateAdoption := true), Continue);
    assert CompleteManaged(w, GOOD) == Retry(w, GOOD);
  }

  lemma NothingFinal(w: World)
    requires (w.pc == 18 || w.pc == 19) && w.st == RETRIED
    ensures Good(w) == w.(pc := w.pc + 1)
  {
    assert OpAt(18) == Process(Final) && OpAt(19) == Track(Final);
    assert ProcessPhase(w, Final, GOOD) == TrackPhase(w, Final, GOOD) == Ret(w, Continue);
  }

  /** The first managed run is created and fails. */
  lemma FirstReconcile() returns (steps: seq<Step>, w: World)
    ensures Exec(INIT, steps) == w && w.pc == IDLE && !w.deleting
    ensures w.st == STARTED && w.runs == [FIRST]
  {
    steps, w := Start([], INIT);
    steps, w := SkipPhases(steps, w);
    CreatesFirst(w);
    steps, w := Do(steps, w, Operate(CREATE));
    steps, w := Do(steps, w, Crash);
    steps, w := Do(steps, w, RunFinishes(0, false));
    hide ProcessManaged;
  }

  /** Its failure is recorded, and the run of the retry is created but not registered; it fails too. */
  lemma SecondReconcile() returns (steps: seq<Step>, w: World)
    ensures Exec(INIT, steps) == w && w.pc == IDLE && !w.deleting
    ensures w.st == FAILED && w.runs == [FIRST, SECOND]
  {
    steps, w := FirstReconcile();
    steps, w := Start(steps, w);
    steps, w := SkipPhases(steps, w);
    NothingToProcess(w);
    steps, w := Do(steps, w, Operate(GOOD));
    RecordsFailure(w);
    steps, w := Do(steps, w, Operate(GOOD));
    LosesReply(w);
    steps, w := Do(steps, w, Operate(LOSE_REPLY));
    assert w.runs == [FIRST, SECOND.(state := Running)];
    steps, w := Do(steps, w, RunFinishes(1, false));
    hide Apply;
  }

  /** The retry of the third reconcile adopts the run: the reconcile ends without an error, the
      managed phase is progressing, and its run has already produced its last event. */
  lemma WakeupCanBeLost() returns (steps: seq<Step>, o: Outcome)
    ensures EndsWell(Exec(INIT, steps), o)
    ensures !Settled(Next(Exec(INIT, steps), Operate(o)))
  {
    hide Settled, Next;
    var w: World;
    steps, w := SecondReconcile();
    steps, w := Start(steps, w);
    steps, w := SkipPhases(steps, w);
    NothingToProcess(w);
    steps, w := Do(steps, w, Operate(GOOD));
    NothingToTrack(w);
    steps, w := Do(steps, w, Operate(GOOD));
    AdoptsLate(w);
    steps, w := Do(steps, w, Operate(GOOD));
    NothingFinal(w);
    steps, w := Do(steps, w, Operate(GOOD));
    NothingFinal(w);
    steps, w := Do(steps, w, Operate(GOOD));
    o := GOOD;
    EndsWithContinue(w);
    NoLostWakeup(steps, o);
  }

  lemma EndsWithContinue(w: World)
    requires w.pc == 20 && w.st == RETRIED
    ensures EndsWell(w, GOOD)
  {
    assert OpAt(20) == ReleaseCompleted;
    assert CompleteRelease(w, GOOD) == Ret(w, Continue);
  }

  /** Without a namespace, the very first reconcile stops without an error, and nothing will start
      another one. */
  lemma NamespaceStopLosesWakeup() returns (steps: seq<Step>, o: Outcome)
    ensures EndsWell(Exec(INIT, steps), o) && !o.namespaceSet
    ensures !Settled(Next(Exec(INIT, steps), Operate(o)))
  {
    var w: World;
    steps, w := Do([], INIT, Begin);
    steps, w := Do(steps, w, Operate(GOOD));
    o := GOOD.(namespaceSet := false);
    assert w.pc == 1 && EndsWell(w, o);
    hide Settled, Exec;
    NoLostWakeup(steps, o);
  }
}
