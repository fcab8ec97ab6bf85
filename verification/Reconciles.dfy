/** The wake-up theorem over a whole reconcile, without the fields that record its history. */
module Reconciles {
  import opened ReleaseStatus
  import opened RetryPolicy
  import opened Reconciler
  import opened Invariant
  import opened Safety
  import opened Wakeup

  /** The state before step `k` of a reconcile that begins in `start`. */
  function Before(start: World, script: seq<Step>, k: nat): World
    requires k <= |script|
  {
    Exec(start, [Begin] + script[..k])
  }

  lemma OneStepMore(start: World, script: seq<Step>, k: nat)
    requires k < |script|
    ensures Before(start, script, k + 1) == Next(Before(start, script, k), script[k])
  {
    var steps := [Begin] + script[..k + 1];
    assert steps[..|steps| - 1] == [Begin] + script[..k];
  }

  lemma AfterBegin(start: World, script: seq<Step>)
    ensures Before(start, script, 0) == Next(start, Begin)
  {
    var steps := [Begin] + script[..0];
    assert steps == [Begin] && steps[..0] == [];
    assert Exec(start, []) == start;
  }

  lemma BeforeReachable(steps: seq<Step>, script: seq<Step>, k: nat)
    requires k <= |script|
    ensures Before(Exec(INIT, steps), script, k) == Exec(INIT, steps + ([Begin] + script[..k]))
  {
    ExecConcat(INIT, steps, [Begin] + script[..k]);
  }

  /** Step `k` is a retry that adopts a run which is already done. */
  predicate AdoptsAt(start: World, script: seq<Step>, k: nat)
    requires k < |script|
  {
    && script[k].Operate? && Before(start, script, k).pc == 17
    && AdoptsDoneRun(Before(start, script, k), script[k].o)
  }

  /** One of the first `n` steps does. */
  predicate Adopts(start: World, script: seq<Step>, n: nat)
    requires n <= |script|
  {
    exists k | 0 <= k < n :: AdoptsAt(start, script, k)
  }

  lemma AdoptsOneMore(start: World, script: seq<Step>, n: nat)
    requires n < |script|
    ensures Adopts(start, script, n + 1) <==> Adopts(start, script, n) || AdoptsAt(start, script, n)
  {
    hide AdoptsAt;
  }

  /** A step in the middle of a reconcile that goes on. */
  lemma LateAfter(steps: seq<Step>, step: Step)
    requires !step.Begin? && Next(Exec(INIT, steps), step).pc < IDLE
    ensures var w := Exec(INIT, steps);
            && w.pc < IDLE
            && (Next(w, step).lateAdoption <==>
                  w.lateAdoption || (step.Operate? && w.pc == 17 && AdoptsDoneRun(w, step.o)))
  {
    var w := Exec(INIT, steps);
    if step.Operate? && w.pc == 17 {
      ReachableWakes(steps);
      assert WatchedOk(w);
      LateAdoption(steps, step.o);
      assert Apply(OpAt(17), w, step.o) == CompleteManaged(w, step.o);
    } else {
      OnlyRetriesAdopt(w, step);
    }
  }

  lemma {:induction false} LateExactly(steps: seq<Step>, script: seq<Step>, n: nat)
    requires Exec(INIT, steps).pc == IDLE && n <= |script| && forall step <- script :: !step.Begin?
    ensures var w := Before(Exec(INIT, steps), script, n);
            w.pc < IDLE ==> (w.lateAdoption <==> Adopts(Exec(INIT, steps), script, n))
  {
    var start := Exec(INIT, steps);
    if n == 0 {
      AfterBegin(start, script);
    } else {
      OneStepMore(start, script, n - 1);
      BeforeReachable(steps, script, n - 1);
      LateExactly(steps, script, n - 1);
      AdoptsOneMore(start, script, n - 1);
      hide Exec, Before, Next, Adopts, AdoptsDoneRun;
      if Before(start, script, n).pc < IDLE {
        LateAfter(steps + ([Begin] + script[..n - 1]), script[n - 1]);
      }
    }
  }

  /** Wake-ups over a whole reconcile: one that ends without an error leaves the Release settled if
      and only if it did not stop for the missing namespace with phases left, and no step of it was
      a retry that adopted a run already done. */
  lemma ReconcileWakes(steps: seq<Step>, script: seq<Step>, o: Outcome)
    requires Exec(INIT, steps).pc == IDLE && forall step <- script :: !step.Begin?
    requires EndsWell(Before(Exec(INIT, steps), script, |script|), o)
    ensures var start := Exec(INIT, steps);
            var w := Before(start, script, |script|);
            Settled(Next(w, Operate(o))) <==>
            && (w.pc == 1 ==> w.st.AllPhasesFinished())
            && !Adopts(start, script, |script|)
  {
    BeforeReachable(steps, script, |script|);
    LateExactly(steps, script, |script|);
    NoLostWakeup(steps + ([Begin] + script[..|script|]), o);
    hide Exec, Before, Next, Settled, Adopts;
  }

  /** Run `i` is there and not done in `w`, or the step from `w` creates it. */
  predicate SeenAlive(w: World, w': World, i: nat) {
    if i < |w.runs| then w.runs[i].present && !w.runs[i].Done() else i == |w.runs| < |w'.runs|
  }

  /** A step watches what was watched before, or a run that it sees alive. */
  predicate WatchesAlive(w: World, w': World) {
    w'.watched == w.watched || (w'.watched.Some? && SeenAlive(w, w', w'.watched.value))
  }

  lemma PatchWatches()
    ensures forall v: World, s: Status, patch: PatchOutcome ::
              Patch(v, s, patch).w.watched == v.watched && Patch(v, s, patch).w.runs == v.runs
  {
  }

  lemma ProcessWatches(w: World, p: Phase, o: Outcome)
    ensures p.Managed? ==> ProcessManaged(w, o).w.watched == w.watched
    ensures !p.Managed? ==> ProcessPhase(w, p, o).w.watched == w.watched
  {
    PatchWatches();
    hide Patch, Find;
  }

  lemma TrackWatches(w: World, p: Phase, o: Outcome)
    ensures p.Managed? ==> WatchesAlive(w, TrackManaged(w, o).w)
    ensures !p.Managed? ==> WatchesAlive(w, TrackPhase(w, p, o).w)
  {
    PatchWatches();
    hide Patch, Find;
  }

  lemma RetryWatches(w: World, o: Outcome)
    requires w.st.attempts != []
    ensures WatchesAlive(w, Retry(w, o).w)
  {
    PatchWatches();
    hide Patch, Find;
  }

  lemma CompleteManagedWatches(w: World, o: Outcome)
    ensures WatchesAlive(w, CompleteManaged(w, o).w)
  {
    PatchWatches();
    if w.st.attempts != [] {
      RetryWatches(w, o);
    }
    hide Patch, Retry, DisabledByRelease;
  }

  lemma CompleteReleaseWatches(w: World, o: Outcome)
    ensures CompleteRelease(w, o).w.watched == w.watched
  {
  }

  lemma StepWatches(w: World, step: Step)
    requires !step.Begin?
    ensures WatchesAlive(w, Next(w, step))
    ensures Next(w, step).watched != w.watched ==> step.Operate?
  {
    hide WatchesAlive, ProcessPhase, ProcessManaged, TrackPhase, TrackManaged, CompleteManaged, CompleteRelease,
         CallFinalizers, CleanUpCollectors, CleanUpProcessing, LoadConfig, RunRelease, Validate;
    if step.Operate? && w.pc < IDLE {
      if w.pc < 9 {
        EarlyKeepsWatch(w, step.o);
        SameWatches(w, Next(w, step));
      } else {
        LateStepWatches(w, step.o);
      }
    } else {
      SameWatches(w, Next(w, step));
    }
  }

  lemma SameWatches(w: World, w': World)
    requires w'.watched == w.watched
    ensures WatchesAlive(w, w')
  {
  }

  lemma LateStepWatches(w: World, o: Outcome)
    requires 9 <= w.pc < IDLE
    ensures WatchesAlive(w, Next(w, Operate(o)))
  {
    hide ProcessPhase, ProcessManaged, TrackPhase, TrackManaged, CompleteManaged, CompleteRelease;
    match OpAt(w.pc)
    case Process(p) => ProcessWatches(w, p, o);
    case Track(p) => TrackWatches(w, p, o);
    case ManagedCompleted => CompleteManagedWatches(w, o);
    case ReleaseCompleted => CompleteReleaseWatches(w, o);
  }

  /** One of the first `n` steps sees the run alive. */
  predicate SeenBefore(start: World, script: seq<Step>, n: nat, i: nat)
    requires n <= |script|
  {
    exists k | 0 <= k < n :: SeenAlive(Before(start, script, k), Before(start, script, k + 1), i)
  }

  lemma SeenOneMore(start: World, script: seq<Step>, n: nat, i: nat)
    requires n < |script|
    ensures SeenBefore(start, script, n, i) ==> SeenBefore(start, script, n + 1, i)
    ensures SeenAlive(Before(start, script, n), Before(start, script, n + 1), i) ==> SeenBefore(start, script, n + 1, i)
  {
    hide Before, SeenAlive;
  }

  /** The run that a reconcile watches was there and not done, or was created, at one of its steps:
      when that run finishes, it does so after the reconcile has begun. */
  lemma {:induction false} WatchedWasAlive(start: World, script: seq<Step>, n: nat)
    requires start.pc == IDLE && n <= |script| && forall step <- script :: !step.Begin?
    ensures var watched := Before(start, script, n).watched;
            watched.Some? ==> SeenBefore(start, script, n, watched.value)
  {
    hide Exec, SeenAlive, SeenBefore;
    if n == 0 {
      AfterBegin(start, script);
    } else {
      hide Before, Next;
      OneStepMore(start, script, n - 1);
      WatchedWasAlive(start, script, n - 1);
      StepWatches(Before(start, script, n - 1), script[n - 1]);
      var watched := Before(start, script, n).watched;
      if watched.Some? {
        SeenOneMore(start, script, n - 1, watched.value);
      }
    }
  }
}
