/** What each operation does in every reachable state, said in terms of the status and the runs. */
module Effects {
  import opened ReleaseStatus
  import opened RetryPolicy
  import opened Reconciler
  import opened Invariant
  import opened Finalizers
  import opened Unregistered
  import opened Verdicts

  /** A managed run without an error in sight is retried for these reasons. */
  predicate RetriableReason(reason: FailureReason) {
    reason == OOMKill || reason == TaskRunTimeout || reason == PipelineRunTimeout
  }

  /** Retries are enabled, and after `attempts` attempts at least one is left. */
  predicate RetryLeft(info: Option<RetryInfo>, attempts: nat) {
    && info.Some? && info.value.enabled && info.value.maxRetries.Some?
    && attempts <= info.value.maxRetries.value
  }

  /** A tag of the Release equals a disabling tag or is matched by it. */
  predicate TagHit(o: Outcome) {
    o.retryInfo.Some? &&
    exists t, d | t in o.releaseTags && d in o.retryInfo.value.disablingTags :: t == d || (d, t) in o.regex
  }

  predicate NoErrors(o: Outcome) {
    !o.readFails && !o.loadFails && o.retryRead.ReadOk? && o.create.Created? && o.patch.Applied?
  }

  /** The next attempt is appended, and its run is the one labelled so, which is created if it is not there. */
  predicate RetryStarted(w: World, w': World) {
    var n := |w.st.attempts|;
    && w'.st.conds == w.st.conds
    && |w'.st.attempts| == n + 1 && w'.st.attempts[..n] == w.st.attempts
    && w'.st.attempts[n] == Attempt(w'.st.attempts[n].run, AttemptProgressing, NoFailure, false)
    && w'.st.attempts[n].run < |w'.runs|
    && HasLabel(w'.runs[w'.st.attempts[n].run], n)
    && (w'.runs == w.runs || (w'.runs == w.runs + [Run(Managed, n, Running, false, true, true)] && !HasManaged(w.runs, n)))
  }

  predicate HasLabel(run: Run, n: nat) {
    run.kind == Managed && run.attempt == n && run.present
  }

  predicate HasManaged(runs: seq<Run>, n: nat) {
    exists i | 0 <= i < |runs| :: HasLabel(runs[i], n)
  }

  /** Phase and Release have failed; the last attempt remembers whether a tag has prevented its retry. */
  predicate RetryRefused(w: World, w': World, tagged: bool)
    requires w.st.attempts != []
  {
    var last := |w.st.attempts| - 1;
    && w'.runs == w.runs
    && w'.st.conds == w.st.conds.(managed := Failed, released := Failed)
    && |w'.st.attempts| == last + 1 && w'.st.attempts[..last] == w.st.attempts[..last]
    && w'.st.attempts[last] ==
       w.st.attempts[last].(retryDisabled := tagged || w.st.attempts[last].retryDisabled)
  }

  lemma CanRetryExactly(s: Status, o: Outcome)
    requires s.attempts != [] && s.attempts[|s.attempts| - 1].status == AttemptFailed
    ensures CanRetry(s, o.retryInfo) <==>
            RetriableReason(s.attempts[|s.attempts| - 1].reason) && RetryLeft(o.retryInfo, |s.attempts|)
    ensures DisabledByRelease(o) <==> TagHit(o)
  {
  }

  lemma Starts(w: World, v: World, run: nat, o: Outcome)
    requires w.st.conds.managed.Progressing? && o.patch.Applied? && v.st == w.st
    requires run < |v.runs| && HasLabel(v.runs[run], |w.st.attempts|)
    requires v.runs == w.runs
             || (v.runs == w.runs + [Run(Managed, |w.st.attempts|, Running, false, true, true)]
                 && !HasManaged(w.runs, |w.st.attempts|))
    ensures RetryStarted(w, RegisterRetry(v, run, o).w) && RegisterRetry(v, run, o).r.Continue?
  {
  }

  lemma RetryEffect(w: World, o: Outcome)
    requires w.st.conds.managed.Progressing? && w.st.attempts != [] && NoErrors(o)
    ensures RetryStarted(w, Retry(w, o).w) && Retry(w, o).r.Continue?
  {
    var n := |w.st.attempts|;
    assert w.st.RetryCount() + 1 == n;
    var run := Find(w.runs, Managed, n);
    if run.Some? {
      Starts(w, w, run.value, o);
    } else {
      assert forall i | 0 <= i < |w.runs| :: !Labelled(w.runs[i], Managed, n);
      var v := AddRun(w, Managed, n);
      Starts(w, v, |w.runs|, o);
    }
    hide RegisterRetry, Find, RetryStarted;
  }

  lemma RefusalEffect(w: World, v: World, tagged: bool, patch: PatchOutcome)
    requires w.st.attempts != [] && w.st.conds.released.Progressing? && patch.Applied?
    requires v == Patch(w, (if tagged then w.st.DisableRetry() else w.st).FailPhase(Managed), patch).w
    ensures RetryRefused(w, v, tagged)
  {
  }

  lemma CompletionEffect(w: World, o: Outcome)
    requires w.st.conds.managed.Progressing? && w.st.conds.released.Progressing? && NoErrors(o)
    requires w.st.attempts != [] && w.st.attempts[|w.st.attempts| - 1].status == AttemptFailed
    ensures var w' := CompleteManaged(w, o).w;
            var left := RetriableReason(w.st.attempts[|w.st.attempts| - 1].reason)
                        && RetryLeft(o.retryInfo, |w.st.attempts|);
            && (left && !TagHit(o) ==> RetryStarted(w, w'))
            && (!(left && !TagHit(o)) ==> RetryRefused(w, w', left))
            && CompleteManaged(w, o).r.Continue?
  {
    CanRetryExactly(w.st, o);
    RetryEffect(w, o);
    RefusalEffect(w, Patch(w, w.st.FailPhase(Managed), o.patch).w, false, o.patch);
    RefusalEffect(w, Patch(w, w.st.DisableRetry().FailPhase(Managed), o.patch).w, true, o.patch);
    hide Retry, CanRetry, DisabledByRelease, RetryStarted, RetryRefused, RetryLeft, TagHit, RetriableReason,
         Status.FailPhase, Status.DisableRetry;
  }

  lemma SameEffect(w: World, v: World, w': World, tagged: bool)
    requires w.st.attempts != [] && w'.st == v.st && w'.runs == v.runs
    ensures RetryStarted(w, v) <==> RetryStarted(w, w')
    ensures RetryRefused(w, v, tagged) <==> RetryRefused(w, w', tagged)
  {
  }

  /** When no call fails, a failed attempt is followed by exactly one more if and only if it failed
      for one of the three retriable reasons, retries are enabled and one is left, and no tag of the
      Release is hit by a disabling tag. Otherwise phase and Release fail. */
  lemma RetriesExactly(steps: seq<Step>, o: Outcome)
    requires var w := Exec(INIT, steps);
             && w.pc == 17 && w.st.conds.managed == Progressing
             && w.st.attempts != [] && w.st.attempts[|w.st.attempts| - 1].status == AttemptFailed
             && NoErrors(o)
    ensures var w, w' := Exec(INIT, steps), Next(Exec(INIT, steps), Operate(o));
            var left := RetriableReason(w.st.attempts[|w.st.attempts| - 1].reason)
                        && RetryLeft(o.retryInfo, |w.st.attempts|);
            if left && !TagHit(o) then RetryStarted(w, w') else RetryRefused(w, w', left)
  {
    var w := Exec(INIT, steps);
    ReachableOk(steps);
    hide Exec;
    assert w.st.conds.released.Progressing?;
    hide Inv;
    CompletionEffect(w, o);
    assert OpAt(17) == ManagedCompleted;
    var w' := Next(w, Operate(o));
    assert w' == Advance(w, CompleteManaged(w, o));
    hide CompleteManaged, Next, RetryLeft, TagHit, RetriableReason;
    SameEffect(w, CompleteManaged(w, o).w, w', true);
    SameEffect(w, CompleteManaged(w, o).w, w', false);
  }

  /** What goes wrong in a retry that is due: a transient error leaves everything as it is and ends
      the reconcile; a permanent one fails phase and Release and records no attempt. */
  lemma RetryErrors(steps: seq<Step>, o: Outcome)
    requires var w := Exec(INIT, steps);
             && w.pc == 17 && w.st.conds.managed == Progressing && !o.loadFails && o.patch.Applied?
             && w.st.attempts != [] && w.st.attempts[|w.st.attempts| - 1].status == AttemptFailed
             && RetriableReason(w.st.attempts[|w.st.attempts| - 1].reason)
             && RetryLeft(o.retryInfo, |w.st.attempts|) && !TagHit(o)
    ensures var w, w' := Exec(INIT, steps), Next(Exec(INIT, steps), Operate(o));
            var creates := o.retryRead.ReadOk? && !HasManaged(w.runs, |w.st.attempts|);
            && (o.retryRead.ReadTransient? || (creates && o.create.CreateTransient?) ==>
                  w'.st == w.st && w'.runs == w.runs && w'.pc == IDLE)
            && (o.retryRead.ReadRejected? || (creates && o.create.CreateRejected?) ==>
                  && w'.st == w.st.(conds := w.st.conds.(managed := Failed, released := Failed))
                  && w'.runs == w.runs && w'.pc == 18)
            && (creates && o.create.CreatedReplyLost? ==>
                  && w'.st == w.st && w'.pc == IDLE
                  && w'.runs == w.runs + [Run(Managed, |w.st.attempts|, Running, false, true, true)])
  {
    var w := Exec(INIT, steps);
    ReachableOk(steps);
    hide Exec;
    assert w.st.conds.released.Progressing?;
    hide Inv;
    CanRetryExactly(w.st, o);
    FoundExactly(w, |w.st.attempts|);
    RetryErrorEffect(w, o);
    assert OpAt(17) == ManagedCompleted;
    assert Next(w, Operate(o)) == Advance(w, CompleteManaged(w, o));
    assert CompleteManaged(w, o) == Retry(w, o) by {
      hide Retry, CanRetry, DisabledByRelease;
    }
    hide CompleteManaged, Retry, Next, Find, RetryLeft, TagHit, RetriableReason, CanRetry;
  }

  lemma FoundExactly(w: World, n: nat)
    ensures Find(w.runs, Managed, n).Some? <==> HasManaged(w.runs, n)
  {
    var run := Find(w.runs, Managed, n);
    if run.Some? {
      assert HasLabel(w.runs[run.value], n);
    } else {
      assert forall i | 0 <= i < |w.runs| :: !Labelled(w.runs[i], Managed, n);
    }
  }

  lemma RetryErrorEffect(w: World, o: Outcome)
    requires w.st.conds.released.Progressing? && w.st.attempts != [] && o.patch.Applied?
    ensures var ret := Retry(w, o);
            var creates := o.retryRead.ReadOk? && Find(w.runs, Managed, |w.st.attempts|).None?;
            && (o.retryRead.ReadTransient? || (creates && o.create.CreateTransient?) ==> ret == Ret(w, Requeue))
            && (o.retryRead.ReadRejected? || (creates && o.create.CreateRejected?) ==>
                  ret == Ret(w.(st := w.st.(conds := w.st.conds.(managed := Failed, released := Failed))), Continue))
            && (creates && o.create.CreatedReplyLost? ==> ret == Ret(AddRun(w, Managed, |w.st.attempts|), Requeue))
  {
    hide Find, RegisterRetry;
  }

  predicate AtProcessing(pc: nat, p: Phase) {
    match p
    case TenantCollectors => pc == 9
    case ManagedCollectors => pc == 11
    case Tenant => pc == 13
    case Managed => pc == 15
    case Final => pc == 18
  }

  /** It is the turn of phase `p`. */
  predicate Due(s: Status, p: Phase) {
    !s.Finished(p) && s.PredecessorFinished(p)
  }

  /** The collectors of the managed side and the tenant pipeline are skipped once the Release has failed. */
  predicate Dropped(s: Status, p: Phase) {
    s.conds.released == Failed && (p == ManagedCollectors || p == Tenant)
  }

  /** The operation gets to look at the configuration of the phase. */
  predicate Asked(w: World, p: Phase, o: Outcome) {
    && Due(w.st, p) && !Dropped(w.st, p) && !o.readFails && !o.loadFails
    && (w.st.Get(p) == Progressing ==> p == TenantCollectors)
  }

  predicate HasRunOf(runs: seq<Run>, p: Phase) {
    exists i | 0 <= i < |runs| :: runs[i].kind == p
  }

  /** The operation asks for a new run. */
  predicate Orders(w: World, p: Phase, o: Outcome) {
    Asked(w, p, o) && o.configured && !HasRunOf(w.runs, p)
  }

  /** When status patches succeed: when a run is created, when the phase is skipped, fails or is in
      progress, and when the reconcile ends. */
  predicate Processed(w: World, w': World, p: Phase, o: Outcome) {
    && OnlyPhaseMoves(w.st, w'.st, p)
    && w'.runs == (if Orders(w, p, o) && (o.create.Created? || o.create.CreatedReplyLost?)
                   then w.runs + [Run(p, 0, Running, false, true, true)] else w.runs)
    && (w'.st.Get(p) == Skipped <==>
          || w.st.Get(p) == Skipped || (Due(w.st, p) && Dropped(w.st, p)) || (Asked(w, p, o) && !o.configured))
    && (w'.st.Get(p) == Failed <==>
          w.st.Get(p) == Failed || (Orders(w, p, o) && o.create.CreateRejected?))
    && (w'.st.Get(p) == Progressing <==>
          || (Asked(w, p, o) && o.configured && (HasRunOf(w.runs, p) || o.create.Created?))
          || (w.st.Get(p) == Progressing && w'.st.Get(p) == w.st.Get(p)))
    && w'.st.conds.released ==
       (if Orders(w, p, o) && o.create.CreateRejected? then Failed else w.st.conds.released)
    && w'.pc == (if Due(w.st, p) && !Dropped(w.st, p)
                    && (|| o.readFails
                        || (o.loadFails && (w.st.Get(p) == Progressing ==> p == TenantCollectors))
                        || (Orders(w, p, o) && (o.create.CreateTransient? || o.create.CreatedReplyLost?)))
                 then IDLE else w.pc + 1)
  }

  lemma PhaseRunFound(w: World, p: Phase)
    requires Inv(w) && Past(w, 0) && !p.Managed? && !w.st.Finished(p)
    ensures Find(w.runs, p, 0).Some? <==> HasRunOf(w.runs, p)
    ensures w.st.Get(p) == Progressing ==> HasRunOf(w.runs, p)
  {
    if HasRunOf(w.runs, p) {
      var i :| 0 <= i < |w.runs| && w.runs[i].kind == p;
      FindsTheOnly(w, i);
    }
    assert w.st.Get(p) == Progressing ==> HasRun(w.runs, p);
  }

  /** The operation before it gets to look at the configuration. */
  lemma NotAsked(w: World, p: Phase, o: Outcome)
    requires !p.Managed? && o.patch.Applied? && !Asked(w, p, o)
    requires Due(w.st, p) && w.st.Get(p) == Progressing ==> Find(w.runs, p, 0).Some?
    ensures ProcessPhase(w, p, o) ==
            if Due(w.st, p) && Dropped(w.st, p) then Ret(w.(st := w.st.Set(p, Skipped)), Continue)
            else if Due(w.st, p) && (o.readFails || (w.st.Get(p) == Progressing ==> p == TenantCollectors))
            then Ret(w, Requeue)
            else Ret(w, Continue)
  {
    hide Find, Status.Set, Status.FailPhase, Status.PredecessorFinished;
  }

  /** And with it. */
  lemma AskedFor(w: World, p: Phase, o: Outcome)
    requires !p.Managed? && o.patch.Applied? && Asked(w, p, o)
    ensures ProcessPhase(w, p, o) ==
            if !o.configured then Ret(w.(st := w.st.Set(p, Skipped)), Continue)
            else if Find(w.runs, p, 0).Some? then Ret(w.(st := w.st.Set(p, Progressing)), Continue)
            else match o.create
                 case Created => Ret(AddRun(w, p, 0).(st := w.st.Set(p, Progressing)), Continue)
                 case CreatedReplyLost => Ret(AddRun(w, p, 0), Requeue)
                 case CreateTransient => Ret(w, Requeue)
                 case CreateRejected => Ret(w.(st := w.st.FailPhase(p)), Continue)
  {
    hide Find, Status.Set, Status.FailPhase, Status.PredecessorFinished;
  }

  /** The status after the operation, given what the lookup finds. */
  lemma ProcessPatches(w: World, p: Phase, o: Outcome)
    requires !p.Managed? && o.patch.Applied?
    requires Due(w.st, p) ==> (Find(w.runs, p, 0).Some? <==> HasRunOf(w.runs, p))
    requires Due(w.st, p) && w.st.Get(p) == Progressing ==> HasRunOf(w.runs, p)
    ensures var ret := ProcessPhase(w, p, o);
            && ret.w.st == (if Due(w.st, p) && Dropped(w.st, p) then w.st.Set(p, Skipped)
                            else if !Asked(w, p, o) then w.st
                            else if !o.configured then w.st.Set(p, Skipped)
                            else if HasRunOf(w.runs, p) || o.create.Created? then w.st.Set(p, Progressing)
                            else if o.create.CreateRejected? then w.st.FailPhase(p)
                            else w.st)
            && ret.w.runs == (if Orders(w, p, o) && (o.create.Created? || o.create.CreatedReplyLost?)
                              then w.runs + [Run(p, 0, Running, false, true, true)] else w.runs)
            && ret.r == (if Due(w.st, p) && !Dropped(w.st, p)
                            && (|| o.readFails
                                || (o.loadFails && (w.st.Get(p) == Progressing ==> p == TenantCollectors))
                                || (Orders(w, p, o) && (o.create.CreateTransient? || o.create.CreatedReplyLost?)))
                         then Requeue else Continue)
  {
    if Asked(w, p, o) {
      AskedFor(w, p, o);
    } else {
      NotAsked(w, p, o);
    }
    hide ProcessPhase, Find, HasRunOf, Status.Set, Status.FailPhase, Status.PredecessorFinished, Status.Get;
  }

  lemma ProcessingAt(w: World, p: Phase, o: Outcome)
    requires AtProcessing(w.pc, p)
    ensures !p.Managed? ==> Next(w, Operate(o)) == Advance(w, ProcessPhase(w, p, o))
    ensures p.Managed? ==> Next(w, Operate(o)) == Advance(w, ProcessManaged(w, o))
  {
    hide ProcessPhase, ProcessManaged;
    assert OpAt(w.pc) == Process(p);
  }

  lemma ProcessedAs(w: World, w': World, p: Phase, o: Outcome)
    requires !p.Managed? && (w.st.conds.released.Progressing? || w.st.conds.released.Failed?)
    requires w'.st == (if Due(w.st, p) && Dropped(w.st, p) then w.st.Set(p, Skipped)
                       else if !Asked(w, p, o) then w.st
                       else if !o.configured then w.st.Set(p, Skipped)
                       else if HasRunOf(w.runs, p) || o.create.Created? then w.st.Set(p, Progressing)
                       else if o.create.CreateRejected? then w.st.FailPhase(p)
                       else w.st)
    ensures OnlyPhaseMoves(w.st, w'.st, p)
    ensures w'.st.Get(p) == Skipped <==>
            w.st.Get(p) == Skipped || (Due(w.st, p) && Dropped(w.st, p)) || (Asked(w, p, o) && !o.configured)
    ensures w'.st.Get(p) == Failed <==> w.st.Get(p) == Failed || (Orders(w, p, o) && o.create.CreateRejected?)
    ensures w'.st.Get(p) == Progressing <==>
            || (Asked(w, p, o) && o.configured && (HasRunOf(w.runs, p) || o.create.Created?))
            || (w.st.Get(p) == Progressing && w'.st.Get(p) == w.st.Get(p))
    ensures w'.st.conds.released ==
            if Orders(w, p, o) && o.create.CreateRejected? then Failed else w.st.conds.released
  {
    PhaseMoved(w.st, p, Skipped);
    PhaseMoved(w.st, p, Progressing);
    hide OnlyPhaseMoves, HasRunOf, Status.Set, Status.FailPhase, Status.PredecessorFinished, Status.Get;
  }

  /** What the lookups of the operation find in a reachable state. */
  predicate Ready(w: World, p: Phase) {
    && (Due(w.st, p) ==> (Find(w.runs, p, 0).Some? <==> HasRunOf(w.runs, p)))
    && (Due(w.st, p) && w.st.Get(p) == Progressing ==> HasRunOf(w.runs, p))
    && (w.st.conds.released.Progressing? || w.st.conds.released.Failed?)
  }

  lemma ReadyToProcess(w: World, p: Phase)
    requires Inv(w) && AtProcessing(w.pc, p) && !p.Managed?
    ensures Ready(w, p)
  {
    if Due(w.st, p) {
      PhaseRunFound(w, p);
    }
    hide HasRunOf, Find, RunsOk;
  }

  lemma ProcessedBy(w: World, p: Phase, o: Outcome)
    requires Ready(w, p) && AtProcessing(w.pc, p) && !p.Managed? && o.patch.Applied?
    ensures Processed(w, Advance(w, ProcessPhase(w, p, o)), p, o)
  {
    hide ProcessPhase, Find, HasRunOf, Due, Dropped, Asked, Orders, OnlyPhaseMoves, Status.Set, Status.FailPhase,
         Status.Get;
    ProcessPatches(w, p, o);
    ProcessedAs(w, Advance(w, ProcessPhase(w, p, o)), p, o);
  }

  /** The Ensure...PipelineIsProcessed operations of the four phases without retries. */
  lemma ProcessingExactly(steps: seq<Step>, p: Phase, o: Outcome)
    requires AtProcessing(Exec(INIT, steps).pc, p) && !p.Managed? && o.patch.Applied?
    ensures Processed(Exec(INIT, steps), Next(Exec(INIT, steps), Operate(o)), p, o)
  {
    var w := Exec(INIT, steps);
    hide Exec, Next, Inv, ProcessPhase, Ready, Processed;
    ReachableOk(steps);
    ReadyToProcess(w, p);
    ProcessedBy(w, p, o);
    ProcessingAt(w, p, o);
  }

  /** The managed phase waits for its first attempt, and the lookups have gone well. */
  predicate AskedManaged(w: World, o: Outcome) {
    && Due(w.st, Managed) && w.st.conds.released != Failed && w.st.attempts == []
    && !o.readFails && !o.loadFails
  }

  predicate OrdersManaged(w: World, o: Outcome) {
    AskedManaged(w, o) && o.hasTarget && o.configured && !HasManaged(w.runs, 0)
  }

  /** The first attempt is recorded, with a run that carries label 0. */
  predicate FirstAttempt(w: World, w': World) {
    && |w'.st.attempts| == 1
    && w'.st.attempts[0] == Attempt(w'.st.attempts[0].run, AttemptProgressing, NoFailure, false)
    && w'.st.attempts[0].run < |w'.runs| && HasLabel(w'.runs[w'.st.attempts[0].run], 0)
  }

  /** The same for the managed phase: an attempt is recorded exactly when its run is found or created. */
  predicate ProcessedManaged(w: World, w': World, o: Outcome) {
    && w'.st.conds == w.st.conds.(managed := w'.st.conds.managed, released := w'.st.conds.released)
    && w'.runs == (if OrdersManaged(w, o) && (o.create.Created? || o.create.CreatedReplyLost?)
                   then w.runs + [Run(Managed, 0, Running, false, true, true)] else w.runs)
    && (if AskedManaged(w, o) && o.hasTarget && (HasManaged(w.runs, 0) || (o.configured && o.create.Created?))
        then FirstAttempt(w, w') && w'.st.conds.managed == Progressing
        else w'.st.attempts == w.st.attempts)
    && (w'.st.conds.managed == Skipped <==>
          || w.st.conds.managed == Skipped || (Due(w.st, Managed) && w.st.conds.released == Failed)
          || (AskedManaged(w, o) && (!o.hasTarget || (!o.configured && !HasManaged(w.runs, 0)))))
    && (w'.st.conds.managed == Failed <==>
          w.st.conds.managed == Failed || (OrdersManaged(w, o) && o.create.CreateRejected?))
    && w'.st.conds.released ==
       (if OrdersManaged(w, o) && o.create.CreateRejected? then Failed else w.st.conds.released)
    && w'.pc == (if Due(w.st, Managed) && w.st.conds.released != Failed && !w.st.CurrentAttemptFailed()
                    && (|| o.readFails || (w.st.attempts == [] && o.loadFails)
                        || (OrdersManaged(w, o) && (o.create.CreateTransient? || o.create.CreatedReplyLost?)))
                 then IDLE else 16)
  }

  /** What the operation finds in a reachable state. */
  predicate ReadyManaged(w: World) {
    && (w.st.conds.released == Progressing || w.st.conds.released == Failed)
    && (Due(w.st, Managed) ==>
          if w.st.attempts == [] then w.st.conds.managed == Absent
          else w.st.conds.managed == Progressing && Find(w.runs, Managed, |w.st.attempts| - 1).Some?)
  }

  lemma ReadyToProcessManaged(w: World)
    requires Inv(w) && w.pc == 15
    ensures ReadyManaged(w)
  {
    if !w.st.Finished(Managed) {
      CurrentRunFound(w);
    }
    hide Find, RunsOk;
  }

  lemma NotAskedManaged(w: World, o: Outcome)
    requires ReadyManaged(w) && o.patch.Applied? && !AskedManaged(w, o)
    ensures ProcessManaged(w, o) ==
            if Due(w.st, Managed) && w.st.conds.released == Failed then Ret(w.(st := w.st.Set(Managed, Skipped)), Continue)
            else if Due(w.st, Managed) && !w.st.CurrentAttemptFailed() && (o.readFails || w.st.attempts == [])
            then Ret(w, Requeue)
            else Ret(w, Continue)
  {
    hide Find, Status.Set, Status.FailPhase, Status.StartAttempt, Status.PredecessorFinished;
  }

  lemma AskedForManaged(w: World, o: Outcome)
    requires ReadyManaged(w) && o.patch.Applied? && AskedManaged(w, o)
    ensures var found := Find(w.runs, Managed, 0);
            ProcessManaged(w, o) ==
            if !o.hasTarget then Ret(w.(st := w.st.Set(Managed, Skipped)), Continue)
            else if found.Some? then Ret(w.(st := w.st.StartAttempt(found.value)), Continue)
            else if !o.configured then Ret(w.(st := w.st.Set(Managed, Skipped)), Continue)
            else match o.create
                 case Created => Ret(AddRun(w, Managed, 0).(st := w.st.StartAttempt(|w.runs|)), Continue)
                 case CreatedReplyLost => Ret(AddRun(w, Managed, 0), Requeue)
                 case CreateTransient => Ret(w, Requeue)
                 case CreateRejected => Ret(w.(st := w.st.FailPhase(Managed)), Continue)
  {
    hide Find, Status.Set, Status.FailPhase, Status.StartAttempt, Status.PredecessorFinished;
  }

  lemma ManagedPatches(w: World, o: Outcome)
    requires ReadyManaged(w) && o.patch.Applied?
    ensures var ret := ProcessManaged(w, o);
            var found := Find(w.runs, Managed, 0);
            && ret.w.st == (if Due(w.st, Managed) && w.st.conds.released == Failed then w.st.Set(Managed, Skipped)
                            else if !AskedManaged(w, o) then w.st
                            else if !o.hasTarget then w.st.Set(Managed, Skipped)
                            else if found.Some? then w.st.StartAttempt(found.value)
                            else if !o.configured then w.st.Set(Managed, Skipped)
                            else if o.create.Created? then w.st.StartAttempt(|w.runs|)
                            else if o.create.CreateRejected? then w.st.FailPhase(Managed)
                            else w.st)
            && ret.w.runs == (if OrdersManaged(w, o) && (o.create.Created? || o.create.CreatedReplyLost?)
                              then w.runs + [Run(Managed, 0, Running, false, true, true)] else w.runs)
            && ret.r == (if Due(w.st, Managed) && w.st.conds.released != Failed && !w.st.CurrentAttemptFailed()
                            && (|| o.readFails || (w.st.attempts == [] && o.loadFails)
                                || (OrdersManaged(w, o) && (o.create.CreateTransient? || o.create.CreatedReplyLost?)))
                         then Requeue else Continue)
  {
    FoundExactly(w, 0);
    if AskedManaged(w, o) {
      AskedForManaged(w, o);
    } else {
      NotAskedManaged(w, o);
    }
    hide ProcessManaged, Find, HasManaged, Status.Set, Status.FailPhase, Status.StartAttempt,
         Status.PredecessorFinished, Status.CurrentAttemptFailed;
  }

  lemma ProcessedManagedAs(w: World, w': World, o: Outcome)
    requires ReadyManaged(w)
    requires w'.st == (if Due(w.st, Managed) && w.st.conds.released == Failed then w.st.Set(Managed, Skipped)
                       else if !AskedManaged(w, o) then w.st
                       else if !o.hasTarget then w.st.Set(Managed, Skipped)
                       else if Find(w.runs, Managed, 0).Some? then w.st.StartAttempt(Find(w.runs, Managed, 0).value)
                       else if !o.configured then w.st.Set(Managed, Skipped)
                       else if o.create.Created? then w.st.StartAttempt(|w.runs|)
                       else if o.create.CreateRejected? then w.st.FailPhase(Managed)
                       else w.st)
    requires w'.runs == (if OrdersManaged(w, o) && (o.create.Created? || o.create.CreatedReplyLost?)
                         then w.runs + [Run(Managed, 0, Running, false, true, true)] else w.runs)
    requires w'.pc == (if Due(w.st, Managed) && w.st.conds.released != Failed && !w.st.CurrentAttemptFailed()
                          && (|| o.readFails || (w.st.attempts == [] && o.loadFails)
                              || (OrdersManaged(w, o) && (o.create.CreateTransient? || o.create.CreatedReplyLost?)))
                       then IDLE else 16)
    ensures ProcessedManaged(w, w', o)
  {
    FoundExactly(w, 0);
    hide Find, HasManaged;
  }

  lemma ManagedProcessingExactly(steps: seq<Step>, o: Outcome)
    requires Exec(INIT, steps).pc == 15 && o.patch.Applied?
    ensures ProcessedManaged(Exec(INIT, steps), Next(Exec(INIT, steps), Operate(o)), o)
  {
    var w := Exec(INIT, steps);
    hide Exec, Next, Inv, ProcessManaged, ReadyManaged, ProcessedManaged, Find, AskedManaged, OrdersManaged, Due,
         Status.Set, Status.FailPhase, Status.StartAttempt;
    ReachableOk(steps);
    ReadyToProcessManaged(w);
    ManagedPatches(w, o);
    ProcessingAt(w, Managed, o);
    ProcessedManagedAs(w, Next(w, Operate(o)), o);
  }

  /** Some phase has not finished. */
  predicate WorkLeft(s: Status) {
    exists p: Phase :: !s.Finished(p)
  }

  lemma WorkLeftExactly(s: Status)
    ensures WorkLeft(s) <==> !s.AllPhasesFinished()
  {
    if !s.AllPhasesFinished() {
      var p := if !s.Finished(TenantCollectors) then TenantCollectors
               else if !s.Finished(ManagedCollectors) then ManagedCollectors
               else if !s.Finished(Tenant) then Tenant
               else if !s.Finished(Managed) then Managed
               else Final;
      assert !s.Finished(p);
    }
  }

  /** A Release that is not valid: Validated is False, and a releasing Release fails. */
  predicate Rejected(s: Status, s': Status) {
    s' == s.(conds := s.conds.(validated := Failed,
                               released := if s.conds.released == Progressing then Failed else s.conds.released))
  }

  /** The operations that decide about the Release as a whole, when status patches succeed, in any
      state: configuration, start, validation and completion. */
  predicate JudgedExactly(w: World, w': World, o: Outcome) {
    && w'.runs == w.runs
    && (w.pc == 1 ==>
          if !o.namespaceSet then Rejected(w.st, w'.st) && w'.pc == IDLE
          else w'.st == w.st && w'.pc == if o.loadFails then IDLE else 2)
    && (w.pc == 4 ==>
          && w'.st == w.st.(conds := w.st.conds.(released :=
               if w.st.conds.released.Finished() then w.st.conds.released else Progressing))
          && w'.pc == if w.st.conds.released.Finished() && !WorkLeft(w.st) then IDLE else 5)
    && (w.pc == 5 ==>
          match o.validation
          case Undecided => w'.st == w.st && w'.pc == IDLE
          case Invalid => Rejected(w.st, w'.st) && w'.pc == if WorkLeft(w.st) then 6 else IDLE
          case Passed =>
            && w'.st == w.st.(conds := w.st.conds.(validated :=
                 if w.st.conds.released == Progressing then Succeeded else w.st.conds.validated))
            && w'.pc == if w.st.conds.released == Progressing || WorkLeft(w.st) then 6 else IDLE)
    && (w.pc == 20 ==>
          && w'.st == w.st.(conds := w.st.conds.(released :=
               if w.st.conds.released == Progressing
                  && (w.st.conds.final == Succeeded || w.st.conds.final == Skipped)
               then Succeeded else w.st.conds.released))
          && w'.pc == 21)
  }

  lemma LoadEffect(w: World, o: Outcome)
    requires w.pc == 1 && o.patch.Applied?
    ensures JudgedExactly(w, Advance(w, LoadConfig(w, o)), o)
  {
    hide WorkLeft;
  }

  lemma RunEffect(w: World, o: Outcome)
    requires w.pc == 4 && o.patch.Applied?
    ensures JudgedExactly(w, Advance(w, RunRelease(w, o)), o)
  {
    WorkLeftExactly(w.st);
    hide WorkLeft;
  }

  lemma ValidateEffect(w: World, o: Outcome)
    requires w.pc == 5 && o.patch.Applied?
    ensures JudgedExactly(w, Advance(w, Validate(w, o)), o)
  {
    WorkLeftExactly(w.st);
    hide WorkLeft;
    match o.validation
    case Undecided =>
    case Invalid =>
    case Passed =>
  }

  lemma CompleteEffect(w: World, o: Outcome)
    requires w.pc == 20 && o.patch.Applied?
    ensures JudgedExactly(w, Advance(w, CompleteRelease(w, o)), o)
  {
    hide WorkLeft;
  }

  lemma JudgesAt(w: World, o: Outcome)
    ensures w.pc == 1 ==> Next(w, Operate(o)) == Advance(w, LoadConfig(w, o))
    ensures w.pc == 4 ==> Next(w, Operate(o)) == Advance(w, RunRelease(w, o))
    ensures w.pc == 5 ==> Next(w, Operate(o)) == Advance(w, Validate(w, o))
    ensures w.pc == 20 ==> Next(w, Operate(o)) == Advance(w, CompleteRelease(w, o))
  {
    hide LoadConfig, RunRelease, Validate, CompleteRelease;
    assert OpAt(1) == ConfigLoaded && OpAt(4) == ReleaseRunning && OpAt(5) == ReleaseValid
           && OpAt(20) == ReleaseCompleted;
  }

  lemma JudgementExactly(w: World, o: Outcome)
    requires (w.pc == 1 || w.pc == 4 || w.pc == 5 || w.pc == 20) && o.patch.Applied?
    ensures JudgedExactly(w, Next(w, Operate(o)), o)
  {
    hide Next, JudgedExactly, LoadConfig, RunRelease, Validate, CompleteRelease;
    JudgesAt(w, o);
    if w.pc == 1 {
      LoadEffect(w, o);
    } else if w.pc == 4 {
      RunEffect(w, o);
    } else if w.pc == 5 {
      ValidateEffect(w, o);
    } else {
      CompleteEffect(w, o);
    }
  }

  /** The patch takes effect, whether or not its reply arrives. */
  predicate Lands(patch: PatchOutcome) {
    patch == Applied || patch == AppliedReplyLost
  }

  /** Changes of the status are those of a patch that takes effect; only when its reply arrives does
      the reconcile go on with them. */
  predicate Atomic(w: World, ret: Ret, patch: PatchOutcome) {
    ret.w.st != w.st ==> Lands(patch) && (ret.r != Requeue ==> patch == Applied)
  }

  lemma PatchIsAtomic()
    ensures forall v: World, s: Status, patch: PatchOutcome :: Atomic(v, Patch(v, s, patch), patch)
    ensures forall v: World, s: Status, patch: PatchOutcome :: Patch(v, s, patch).w.st == v.st || Lands(patch)
    ensures forall v: World, s: Status, patch: PatchOutcome :: Patch(v, s, patch).r != Requeue ==> patch == Applied
  {
  }

  lemma PhasesAreAtomic(w: World, p: Phase, o: Outcome)
    requires !p.Managed?
    ensures Atomic(w, ProcessPhase(w, p, o), o.patch)
    ensures Atomic(w, TrackPhase(w, p, o), o.patch)
  {
    PatchIsAtomic();
    AddRunAdds(w, p, 0);
    ProcessIsAtomic(w, p, o);
    hide ProcessPhase, Patch, Find, Lands, Status.Set, Status.FailPhase, Status.Get;
  }

  lemma ProcessIsAtomic(w: World, p: Phase, o: Outcome)
    requires !p.Managed?
    ensures Atomic(w, ProcessPhase(w, p, o), o.patch)
  {
    PatchIsAtomic();
    AddRunAdds(w, p, 0);
    hide Patch, Find, AddRun, Lands, Status.Set, Status.FailPhase, Status.Get, Status.PredecessorFinished;
  }

  lemma ManagedIsAtomic(w: World, o: Outcome)
    ensures Atomic(w, ProcessManaged(w, o), o.patch)
  {
    PatchIsAtomic();
    AddRunAdds(w, Managed, |w.st.attempts|);
    hide Patch, Find, AddRun, Lands, Status.Set, Status.FailPhase, Status.StartAttempt, Status.PredecessorFinished;
  }

  lemma ManagedTrackingIsAtomic(w: World, o: Outcome)
    ensures Atomic(w, TrackManaged(w, o), o.patch)
  {
    PatchIsAtomic();
    hide Patch, Find, Lands, Status.Set, Status.FinishAttempt;
  }

  lemma RetryIsAtomic(w: World, o: Outcome)
    ensures Atomic(w, Retry(w, o), o.patch) || (o.patch == PatchRejected && Atomic(w, Retry(w, o), o.secondPatch))
  {
    PatchIsAtomic();
    AddRunAdds(w, Managed, |w.st.attempts|);
    hide Patch, Find, Lands, AddRun, Status.FailPhase, Status.StartAttempt;
  }

  lemma CompletionIsAtomic(w: World, o: Outcome)
    ensures Atomic(w, CompleteManaged(w, o), o.patch)
            || (o.patch == PatchRejected && Atomic(w, CompleteManaged(w, o), o.secondPatch))
  {
    PatchIsAtomic();
    RetryIsAtomic(w, o);
    hide Patch, Retry, Lands, DisabledByRelease, CanRetry, Status.FailPhase, Status.DisableRetry;
  }

  lemma JudgementIsAtomic(w: World, o: Outcome)
    ensures Atomic(w, LoadConfig(w, o), o.patch) && Atomic(w, RunRelease(w, o), o.patch)
    ensures Atomic(w, Validate(w, o), o.patch) && Atomic(w, CompleteRelease(w, o), o.patch)
  {
    PatchIsAtomic();
    hide Patch, Lands;
  }

  /** Whatever the step, the status changes only by a patch that takes effect, and the reconcile goes
      on with the change only if the reply arrives. */
  lemma StatusChangesAtomically(w: World, o: Outcome)
    requires w.pc < IDLE
    ensures var patch := if w.pc == 17 && o.patch == PatchRejected then o.secondPatch else o.patch;
            Next(w, Operate(o)).st != w.st ==>
              Lands(patch) && (Next(w, Operate(o)).pc < IDLE ==> patch == Applied)
  {
    hide ProcessManaged, ProcessPhase, CompleteManaged, TrackManaged, TrackPhase, CallFinalizers,
         CleanUpProcessing, CleanUpCollectors, LoadConfig, RunRelease, Validate, CompleteRelease;
    CleanUpKeepsStatus(w, o);
    match OpAt(w.pc)
    case Process(p) =>
      if p.Managed? {
        ManagedIsAtomic(w, o);
      } else {
        PhasesAreAtomic(w, p, o);
      }
    case Track(p) =>
      if p.Managed? {
        ManagedTrackingIsAtomic(w, o);
      } else {
        PhasesAreAtomic(w, p, o);
      }
    case ManagedCompleted => CompletionIsAtomic(w, o);
    case _ => JudgementIsAtomic(w, o);
  }
}
