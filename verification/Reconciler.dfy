/** The Release reconcile loop as a state machine.
 *
 * A step is one operation of a reconcile, the start or the crash of a reconcile, or a change
 * the cluster makes on its own; the cluster may act between any two operations. What the API
 * answers to an operation is an `Outcome`. An operation that ends with Continue or Stop leaves
 * the in-memory Release equal to the persisted one (proved in module `Adapters`), so between
 * two operations one status stands for both.
 */
module Reconciler {
  import opened ReleaseStatus
  import opened RetryPolicy

  datatype RunState = Running | RunSucceeded | RunFailed

  /** A PipelineRun of the Release. `attempt` is the attempt label of a managed run, 0 for the others; `finalizer`
      tells whether the release finalizer is still on the run. */
  datatype Run = Run(kind: Phase, attempt: nat, state: RunState, deleting: bool, finalizer: bool, present: bool) {
    /** IsPipelineRunDone: completed, or marked for deletion. */
    predicate Done() {
      state != Running || deleting
    }
  }

  datatype ReadOutcome = ReadOk | ReadTransient | ReadRejected

  datatype CreateOutcome = Created | CreatedReplyLost | CreateTransient | CreateRejected

  datatype PatchOutcome = Applied | AppliedReplyLost | PatchTransient | PatchRejected

  datatype Verdict = Passed | Invalid | Undecided

  /** What the environment answers while an operation runs. */
  datatype Outcome = Outcome(
    readFails: bool,              // a lookup of PipelineRuns or RoleBindings fails
    loadFails: bool,              // loading a plan, an admission or a snapshot fails
    namespaceSet: bool,           // SERVICE_NAMESPACE is set
    hasTarget: bool,              // the plan has a target, so an admission can be looked for
    configured: bool,             // the pipeline or collectors of the phase are configured
    validation: Verdict,
    create: CreateOutcome,
    patch: PatchOutcome,
    secondPatch: PatchOutcome,    // the failure patch after a rejected registration
    retryRead: ReadOutcome,       // the lookups of retryManagedPipeline
    reason: FailureReason,        // why the PipelineRun read as failed did fail
    retryInfo: Option<RetryInfo>, // status.retryInfo of the active admission
    releaseTags: seq<string>,     // the tags of the Release data
    regex: Regex,
    cleaned: set<Phase>,          // the runs whose finalizer removal succeeds
    cleanedAttempts: nat,         // the managed runs cleaned before an error
    cleanupRetriable: bool,       // a cleanup error is transient
    finalizations: nat)           // the calls of finalizeRelease that succeed

  /** `runs` lists every PipelineRun ever created, oldest first; one that is gone is not `present`.
      `pc` is the next operation of the running reconcile, IDLE when none runs. The last four
      fields belong to the running reconcile: whether it read the Release as being deleted,
      whether its validation passed, the run it knows will still produce a completion event, and
      whether a retry adopted a run that was already done. */
  datatype World = World(
    st: Status,
    runs: seq<Run>,
    deleting: bool,
    finalized: bool,
    pc: nat,
    deletionSeen: bool,
    validationPassed: bool,
    watched: Option<nat>,
    lateAdoption: bool)

  const IDLE: nat := 21

  const INIT := World(EMPTY_STATUS, [], false, false, IDLE, false, false, None, false)

  datatype Op =
    | FinalizersCalled | ConfigLoaded | CollectorsCleanedUp | ProcessingCleanedUp
    | ReleaseRunning | ReleaseValid | MetadataSet | FinalizerAdded | ExpirationAdded
    | Process(phase: Phase) | Track(tracked: Phase) | ManagedCompleted | ReleaseCompleted

  /** The operation order of `Reconcile`. */
  function OpAt(pc: nat): Op
    requires pc < IDLE
  {
    match pc
    case 0 => FinalizersCalled
    case 1 => ConfigLoaded
    case 2 => CollectorsCleanedUp
    case 3 => ProcessingCleanedUp
    case 4 => ReleaseRunning
    case 5 => ReleaseValid
    case 6 => MetadataSet
    case 7 => FinalizerAdded
    case 8 => ExpirationAdded
    case 9 => Process(TenantCollectors)
    case 10 => Track(TenantCollectors)
    case 11 => Process(ManagedCollectors)
    case 12 => Track(ManagedCollectors)
    case 13 => Process(Tenant)
    case 14 => Track(Tenant)
    case 15 => Process(Managed)
    case 16 => Track(Managed)
    case 17 => ManagedCompleted
    case 18 => Process(Final)
    case 19 => Track(Final)
    case _ => ReleaseCompleted
  }

  datatype Result = Continue | Stop | Requeue

  datatype Ret = Ret(w: World, r: Result)

  /** GetReleasePipelineRun and GetReleasePipelineRunAttempt: a run that is there with the labels. */
  function Find(runs: seq<Run>, kind: Phase, attempt: nat): (r: Option<nat>)
    ensures r.Some? ==> r.value < |runs| && Labelled(runs[r.value], kind, attempt)
    ensures r.None? ==> forall i | 0 <= i < |runs| :: !Labelled(runs[i], kind, attempt)
  {
    if runs == [] then None
    else
      var last := |runs| - 1;
      if Labelled(runs[last], kind, attempt) then Some(last)
      else Find(runs[..last], kind, attempt)
  }

  predicate Labelled(run: Run, kind: Phase, attempt: nat) {
    run.present && run.kind == kind && run.attempt == attempt
  }

  /** A status patch and the result of RequeueOnErrorOrContinue. */
  function Patch(w: World, s: Status, patch: PatchOutcome): Ret {
    match patch
    case Applied => Ret(w.(st := s), Continue)
    case AppliedReplyLost => Ret(w.(st := s), Requeue)
    case PatchTransient => Ret(w, Requeue)
    case PatchRejected => Ret(w, Requeue)
  }

  function AddRun(w: World, kind: Phase, attempt: nat): World {
    w.(runs := w.runs + [Run(kind, attempt, Running, false, true, true)])
  }

  /** Phases that are skipped once the Release has failed; the first and the last one run anyway. */
  predicate SkippedOnFailure(p: Phase) {
    p.ManagedCollectors? || p.Tenant? || p.Managed?
  }

  /** The tenant collectors look at the configuration again in every reconcile. */
  predicate Registered(s: Status, p: Phase) {
    !p.TenantCollectors? && s.Get(p).Progressing?
  }

  /** The Ensure...PipelineIsProcessed operations of the four phases without retries. */
  function ProcessPhase(w: World, p: Phase, o: Outcome): Ret
    requires !p.Managed?
  {
    if w.st.Finished(p) || !w.st.PredecessorFinished(p) then Ret(w, Continue)
    else if SkippedOnFailure(p) && w.st.IsFailed() then Patch(w, w.st.Set(p, Skipped), o.patch)
    else if o.readFails then Ret(w, Requeue)
    else
      var run := Find(w.runs, p, 0);
      if run.Some? && Registered(w.st, p) then Ret(w, Continue)
      else if o.loadFails then Ret(w, Requeue)
      else if !o.configured then Patch(w, w.st.Set(p, Skipped), o.patch)
      else if run.Some? then Patch(w, w.st.Set(p, Progressing), o.patch)
      else
        match o.create
        case CreateTransient => Ret(w, Requeue)
        case CreateRejected => Patch(w, w.st.FailPhase(p), o.patch)
        case CreatedReplyLost => Ret(AddRun(w, p, 0), Requeue)
        case Created => Patch(AddRun(w, p, 0), w.st.Set(p, Progressing), o.patch)
  }

  /** EnsureManagedPipelineIsProcessed. */
  function ProcessManaged(w: World, o: Outcome): Ret {
    if w.st.Finished(Managed) || !w.st.PredecessorFinished(Managed) then Ret(w, Continue)
    else if w.st.IsFailed() then Patch(w, w.st.Set(Managed, Skipped), o.patch)
    else if w.st.CurrentAttemptFailed() then Ret(w, Continue)
    else if o.readFails then Ret(w, Requeue)
    else
      var run := Find(w.runs, Managed, w.st.RetryCount());
      if run.Some? && w.st.conds.managed.Progressing? then Ret(w, Continue)
      else if o.loadFails then Ret(w, Requeue)
      else if !o.hasTarget then Patch(w, w.st.Set(Managed, Skipped), o.patch)
      else if run.Some? then Patch(w, w.st.StartAttempt(run.value), o.patch)
      else if !o.configured then Patch(w, w.st.Set(Managed, Skipped), o.patch)
      else
        var w' := AddRun(w, Managed, |w.st.attempts|);
        match o.create
        case CreateTransient => Ret(w, Requeue)
        case CreateRejected => Patch(w, w.st.FailPhase(Managed), o.patch)
        case CreatedReplyLost => Ret(w', Requeue)
        case Created => Patch(w', w.st.StartAttempt(|w.runs|), o.patch)
  }

  /** The tracking operations of the four phases without retries. */
  function TrackPhase(w: World, p: Phase, o: Outcome): Ret
    requires !p.Managed?
  {
    if !w.st.Get(p).Progressing? then Ret(w, Continue)
    else if o.readFails then Ret(w, Requeue)
    else
      var run := Find(w.runs, p, 0);
      if run.None? then Ret(w, Continue)
      else if !w.runs[run.value].Done() then Ret(w.(watched := run), Continue)
      else if w.runs[run.value].state.RunSucceeded? then Patch(w, w.st.Set(p, Succeeded), o.patch)
      else Patch(w, w.st.FailPhase(p), o.patch)
  }

  /** EnsureManagedPipelineProcessingIsTracked. */
  function TrackManaged(w: World, o: Outcome): Ret {
    if !w.st.conds.managed.Progressing? then Ret(w, Continue)
    else if o.readFails then Ret(w, Requeue)
    else
      var run := Find(w.runs, Managed, w.st.RetryCount());
      if run.None? then Ret(w, Continue)
      else if !w.runs[run.value].Done() then Ret(w.(watched := run), Continue)
      else if w.st.CurrentAttemptDone() then Ret(w, Continue)
      else if w.st.attempts == [] then Patch(w, w.st, o.patch)
      else if w.runs[run.value].state.RunSucceeded? then
        var last := w.st.attempts[|w.st.attempts| - 1];
        Patch(w, w.st.FinishAttempt(AttemptSucceeded, last.reason).Set(Managed, Succeeded), o.patch)
      else Patch(w, w.st.FinishAttempt(AttemptFailed, o.reason), o.patch)
  }

  /** canRetryManagedPipeline: a retriable failure, retries enabled, and retries left. */
  predicate CanRetry(s: Status, info: Option<RetryInfo>) {
    && s.CurrentAttemptRetriable()
    && info.Some? && info.value.enabled && info.value.maxRetries.Some?
    && s.RetryCount() < info.value.maxRetries.value
  }

  predicate DisabledByRelease(o: Outcome) {
    Disables(o.regex, if o.retryInfo.Some? then o.retryInfo.value.disablingTags else [], o.releaseTags)
  }

  /** Registration of the run of a retry. A rejected patch is treated as a creation error: the
      phase fails, and the new attempt is not recorded. */
  function RegisterRetry(w: World, run: nat, o: Outcome): Ret
    requires run < |w.runs|
  {
    if o.patch.PatchRejected? then Patch(w, w.st.FailPhase(Managed), o.secondPatch)
    else
      var w' := if w.runs[run].Done() then w.(lateAdoption := true) else w.(watched := Some(run));
      Patch(w', w.st.StartAttempt(run), o.patch)
  }

  /** retryManagedPipeline, with the handling of its errors by the caller. */
  function Retry(w: World, o: Outcome): Ret {
    match o.retryRead
    case ReadTransient => Ret(w, Requeue)
    case ReadRejected => Patch(w, w.st.FailPhase(Managed), o.patch)
    case ReadOk =>
      var run := Find(w.runs, Managed, w.st.RetryCount() + 1);
      if run.Some? then RegisterRetry(w, run.value, o)
      else
        var w' := AddRun(w, Managed, |w.st.attempts|);
        match o.create
        case CreateTransient => Ret(w, Requeue)
        case CreateRejected => Patch(w, w.st.FailPhase(Managed), o.patch)
        case CreatedReplyLost => Ret(w', Requeue)
        case Created => RegisterRetry(w', |w.runs|, o)
  }

  /** EnsureManagedPipelineProcessingIsCompleted. */
  function CompleteManaged(w: World, o: Outcome): Ret {
    if !w.st.conds.managed.Progressing? || !w.st.CurrentAttemptFailed() then Ret(w, Continue)
    else if o.loadFails then Ret(w, Requeue)
    else if CanRetry(w.st, o.retryInfo) then
      if DisabledByRelease(o) then Patch(w, w.st.DisableRetry().FailPhase(Managed), o.patch)
      else Retry(w, o)
    else Patch(w, w.st.FailPhase(Managed), o.patch)
  }

  /** The release finalizer is taken off the run with the given labels, if it is there. */
  function Strip(runs: seq<Run>, kind: Phase, attempt: nat): (r: seq<Run>) {
    var run := Find(runs, kind, attempt);
    if run.None? then runs else runs[run.value := runs[run.value].(finalizer := false)]
  }

  /** cleanupManagedPipelineResources, stopped by an error after `n` attempts. */
  function StripAttempts(runs: seq<Run>, n: nat): seq<Run> {
    if n == 0 then runs else Strip(StripAttempts(runs, n - 1), Managed, n - 1)
  }

  function StripIf(runs: seq<Run>, kind: Phase, cleaned: set<Phase>): seq<Run> {
    if kind in cleaned then Strip(runs, kind, 0) else runs
  }

  function Min(a: nat, b: nat): nat {
    if a < b then a else b
  }

  function CleanUpCollectors(w: World, o: Outcome): Ret {
    if !w.st.Finished(TenantCollectors) || !w.st.Finished(ManagedCollectors) then Ret(w, Continue)
    else
      var runs := StripIf(StripIf(w.runs, TenantCollectors, o.cleaned), ManagedCollectors, o.cleaned);
      Ret(w.(runs := runs), if o.cleanupRetriable then Requeue else Continue)
  }

  function CleanUpProcessing(w: World, o: Outcome): Ret {
    if !w.st.Finished(Tenant) then Ret(w, Continue)
    else
      var w := w.(runs := StripIf(w.runs, Tenant, o.cleaned));
      if !w.st.Finished(Managed) then Ret(w, Continue)
      else
        var w := w.(runs := StripAttempts(w.runs, Min(o.cleanedAttempts, |w.st.attempts|)));
        if !w.st.Finished(Final) then Ret(w, Continue)
        else
          Ret(w.(runs := StripIf(w.runs, Final, o.cleaned)), if o.cleanupRetriable then Requeue else Continue)
  }

  function MarkDeleted(runs: seq<Run>, kind: Phase, attempt: nat): seq<Run> {
    var run := Find(runs, kind, attempt);
    if run.None? then runs else runs[run.value := runs[run.value].(deleting := true)]
  }

  /** The order in which finalizeRelease visits the PipelineRuns of a Release with `n` attempts. */
  function FinalizationOrder(n: nat): seq<(Phase, nat)> {
    [(ManagedCollectors, 0), (TenantCollectors, 0), (Tenant, 0)] + seq(n, i => (Managed, i)) + [(Final, 0)]
  }

  /** finalizeRelease, stopped by an error after `progress` API calls: each run first loses its
      finalizer and is then deleted. */
  function Finalize(runs: seq<Run>, order: seq<(Phase, nat)>, progress: nat): seq<Run>
    decreases order
  {
    if order == [] || progress == 0 then runs
    else
      var (kind, attempt) := order[0];
      var runs := Strip(runs, kind, attempt);
      if progress == 1 then runs
      else Finalize(MarkDeleted(runs, kind, attempt), order[1..], progress - 2)
  }

  /** EnsureFinalizersAreCalled: a Release being deleted is finalized, as far as the API lets it,
      and none of the later operations runs. */
  function CallFinalizers(w: World, o: Outcome): Ret {
    if !w.deletionSeen then Ret(w, Continue)
    else
      var runs := Finalize(w.runs, FinalizationOrder(|w.st.attempts|), o.finalizations);
      Ret(w.(runs := runs, finalized := true), Requeue)
  }

  function LoadConfig(w: World, o: Outcome): Ret {
    if !o.namespaceSet then
      var ret := Patch(w, w.st.(conds := w.st.conds.(validated := Failed)).FailRelease(), o.patch);
      if ret.r.Continue? then ret.(r := Stop) else ret
    else if o.loadFails then Ret(w, Requeue)
    else Ret(w, Continue)
  }

  function RunRelease(w: World, o: Outcome): Ret {
    if w.st.conds.released.Finished() then Ret(w, if w.st.AllPhasesFinished() then Stop else Continue)
    else if w.st.conds.released.Progressing? then Ret(w, Continue)
    else Patch(w, w.st.(conds := w.st.conds.(released := Progressing)), o.patch)
  }

  function Validate(w: World, o: Outcome): Ret {
    match o.validation
    case Undecided => Ret(w, Requeue)
    case Passed =>
      if w.st.conds.released.Progressing? then
        Patch(w.(validationPassed := true), w.st.(conds := w.st.conds.(validated := Succeeded)), o.patch)
      else StopWhenFinished(Patch(w.(validationPassed := true), w.st, o.patch))
    case Invalid =>
      StopWhenFinished(Patch(w, w.st.(conds := w.st.conds.(validated := Failed)).FailRelease(), o.patch))
  }

  function StopWhenFinished(ret: Ret): Ret {
    if ret.r.Continue? && ret.w.st.AllPhasesFinished() then ret.(r := Stop) else ret
  }

  function CompleteRelease(w: World, o: Outcome): Ret {
    if w.st.conds.released.Finished() || !w.st.conds.final.IsTrue() then Ret(w, Continue)
    else if !w.st.conds.released.Progressing? then Patch(w, w.st, o.patch)
    else Patch(w, w.st.(conds := w.st.conds.(released := Succeeded)), o.patch)
  }

  function Apply(op: Op, w: World, o: Outcome): Ret {
    match op
    case FinalizersCalled => CallFinalizers(w, o)
    case ConfigLoaded => LoadConfig(w, o)
    case CollectorsCleanedUp => CleanUpCollectors(w, o)
    case ProcessingCleanedUp => CleanUpProcessing(w, o)
    case ReleaseRunning => RunRelease(w, o)
    case ReleaseValid => Validate(w, o)
    case MetadataSet => Ret(w, if o.loadFails then Requeue else Continue)
    case FinalizerAdded => Ret(w, if o.loadFails then Requeue else Continue)
    case ExpirationAdded => Ret(w, if o.loadFails then Requeue else Continue)
    case Process(p) => if p.Managed? then ProcessManaged(w, o) else ProcessPhase(w, p, o)
    case Track(p) => if p.Managed? then TrackManaged(w, o) else TrackPhase(w, p, o)
    case ManagedCompleted => CompleteManaged(w, o)
    case ReleaseCompleted => CompleteRelease(w, o)
  }

  datatype Step =
    | Begin                                  // a reconcile reads the Release and starts
    | Operate(o: Outcome)                    // the running reconcile executes its next operation
    | Crash                                  // the controller restarts
    | RunFinishes(run: nat, succeeds: bool)
    | RunIsDeleted(run: nat)                 // somebody marks a PipelineRun for deletion
    | RunVanishes(run: nat)                  // a PipelineRun without the release finalizer disappears
    | ReleaseIsDeleted                       // somebody marks the Release for deletion

  /** ReconcileHandler: Continue runs the next operation, Stop and Requeue end the reconcile. */
  function Advance(w: World, ret: Ret): World
    requires w.pc < IDLE
  {
    ret.w.(pc := if ret.r.Continue? then w.pc + 1 else IDLE)
  }

  /** A step that cannot happen leaves the world as it is. */
  function Next(w: World, step: Step): World {
    match step
    case Begin =>
      if w.pc < IDLE then w
      else w.(pc := 0, deletionSeen := w.deleting, validationPassed := false, watched := None, lateAdoption := false)
    case Operate(o) => if w.pc < IDLE then Advance(w, Apply(OpAt(w.pc), w, o)) else w
    case Crash => w.(pc := IDLE)
    case RunFinishes(i, succeeds) =>
      if i < |w.runs| && w.runs[i].present && w.runs[i].state.Running? then
        w.(runs := w.runs[i := w.runs[i].(state := if succeeds then RunSucceeded else RunFailed)])
      else w
    case RunIsDeleted(i) =>
      if i < |w.runs| && w.runs[i].present then w.(runs := w.runs[i := w.runs[i].(deleting := true)]) else w
    case RunVanishes(i) =>
      if i < |w.runs| && w.runs[i].present && !w.runs[i].finalizer then
        w.(runs := w.runs[i := w.runs[i].(present := false)])
      else w
    case ReleaseIsDeleted => w.(deleting := true)
  }

  /** The state after a run of the machine. */
  function Exec(w: World, steps: seq<Step>): World {
    if steps == [] then w else Next(Exec(w, steps[..|steps| - 1]), steps[|steps| - 1])
  }
}
