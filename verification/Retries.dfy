/** The specification of a retry run, and what many retries in a row make of it.
 *
 * The failed run is mitigated, its task entries are merged, the timeouts are adjusted, and the
 * result is the specification of the next run, which the next retry starts from.
 */
module Retries {
  import opened ReleaseStatus
  import opened Timeouts
  import opened Mitigations

  /** What the admission and the service configuration say about managed runs. */
  datatype Plan = Plan(
    specs: seq<TaskRunSpec>,
    timeouts: TimeoutFields,
    mitigations: Option<MitigationConfig>,
    defaults: TimeoutFields)

  datatype RunSpec = RunSpec(specs: seq<TaskRunSpec>, timeouts: Option<TimeoutFields>)

  /** What is recorded about the failed attempt. */
  datatype Failure = Failure(reason: FailureReason, lastTask: string, lastStep: string)

  /** What is recorded about the mitigation of a retry. */
  datatype AppliedMitigation = AppliedMitigation(
    memoryLimit: Option<nat>,
    memoryRequest: Option<nat>,
    taskTimeout: Option<int>,
    pipelineTimeout: Option<int>,
    tasksTimeout: Option<int>)

  const NOTHING := AppliedMitigation(None, None, None, None, None)

  datatype Overrides = Overrides(
    specs: seq<TaskRunSpec>,
    timeouts: TimeoutFields,
    applied: Option<AppliedMitigation>)

  function MemoryOf(q: Quantities): Option<nat> {
    if MEMORY in q then Some(q[MEMORY]) else None
  }

  function FindTaskRun(taskRuns: seq<TaskRun>, task: string): Option<TaskRun> {
    if taskRuns == [] then None
    else if taskRuns[0].task == task then Some(taskRuns[0])
    else FindTaskRun(taskRuns[1..], task)
  }

  /** The specification of the failed run; a part that it lacks comes from the plan. */
  function Base(plan: Plan, run: RunSpec): Overrides {
    Overrides(if run.specs == [] then plan.specs else run.specs,
              if run.timeouts.Some? then run.timeouts.value else plan.timeouts,
              None)
  }

  /** copyTimeoutFields. */
  function CopyOf(t: Option<TimeoutFields>): TimeoutFields {
    if t.Some? then t.value else UNSET
  }

  function StepSpecOf(failure: Failure, resources: Resources): TaskRunSpec {
    TaskRunSpec(failure.lastTask, [StepSpec(failure.lastStep, resources)], None, None, "")
  }

  function TimeoutOf(failure: Failure, timeout: int): TaskRunSpec {
    TaskRunSpec(failure.lastTask, [], None, Some(timeout), "")
  }

  /** The mitigated specification, per reason of the failure. */
  function Mitigated(plan: Plan, config: MitigationConfig, failure: Failure, run: RunSpec, taskRun: Option<TaskRun>)
    : Overrides
  {
    var base := Base(plan, run);
    match failure.reason
    case OOMKill =>
      if config.oomKill.None? then base
      else
        var current := StepResources(run.specs, taskRun, failure.lastTask, failure.lastStep);
        var resources := ApplyMemory(current, config.oomKill.value);
        if resources.None? then base
        else
          base.(specs := MergeAll(base.specs, [StepSpecOf(failure, resources.value)]),
                applied := Some(NOTHING.(memoryLimit := MemoryOf(resources.value.limits),
                                         memoryRequest := MemoryOf(resources.value.requests))))
    case TaskRunTimeout =>
      if config.task.None? then base
      else
        var current := TaskTimeout(run.specs, taskRun, failure.lastTask);
        if current.None? then base
        else
          var timeout := AddCapped(current.value, config.task.value);
          Overrides(MergeAll(base.specs, [TimeoutOf(failure, timeout)]),
                    RaiseForTask(timeout, CopyOf(run.timeouts)),
                    Some(NOTHING.(taskTimeout := Some(timeout))))
    case PipelineRunTimeout =>
      if config.pipeline.None? then base
      else
        var timeouts := RaisePipeline(CopyOf(run.timeouts), config.pipeline.value);
        if timeouts.pipeline.None? && timeouts.tasks.None? then base
        else
          base.(timeouts := timeouts,
                applied := Some(NOTHING.(pipelineTimeout := timeouts.pipeline, tasksTimeout := timeouts.tasks)))
    case _ => base
  }

  function RetryOverrides(plan: Plan, failure: Option<Failure>, run: Option<RunSpec>, taskRuns: seq<TaskRun>)
    : Overrides
  {
    if failure.None? || plan.mitigations.None? || run.None? then Overrides(plan.specs, plan.timeouts, None)
    else Mitigated(plan, plan.mitigations.value, failure.value, run.value, FailedTaskRun(failure.value, taskRuns))
  }

  function FailedTaskRun(failure: Failure, taskRuns: seq<TaskRun>): Option<TaskRun> {
    if failure.lastTask == "" then None else FindTaskRun(taskRuns, failure.lastTask)
  }

  /** enforcePipelineCeiling. */
  method EnforcePipelineCeiling(timeouts: TimeoutFields) returns (r: TimeoutFields)
    ensures r == Raised(timeouts)
  {
    r := timeouts;
    if r.pipeline.None? {
      return;
    }
    var tasks, finally := 0, 0;
    if r.tasks.Some? {
      tasks := r.tasks.value;
    }
    if r.finally.Some? {
      finally := r.finally.value;
    }
    if r.pipeline.value < tasks + finally {
      r := r.(pipeline := Some(tasks + finally));
    }
  }

  /** ApplyPipelineTimeoutMitigation: the timeouts that are there grow; none is made up. */
  method ApplyPipelineTimeoutMitigation(current: Option<TimeoutFields>, mitigation: Option<TimeoutIncrement>)
    returns (r: Option<TimeoutFields>)
    ensures mitigation.None? ==> r == current
    ensures mitigation.Some? ==> r == Some(RaisePipeline(CopyOf(current), mitigation.value))
  {
    if mitigation.None? {
      return current;
    }
    var fields := CopyOf(current);
    if fields.pipeline.Some? {
      fields := fields.(pipeline := Some(AddCapped(fields.pipeline.value, mitigation.value)));
    }
    if fields.tasks.Some? {
      fields := fields.(tasks := Some(AddCapped(fields.tasks.value, mitigation.value)));
    }
    fields := EnforcePipelineCeiling(fields);
    return Some(fields);
  }

  /** ApplyTaskTimeoutMitigation: no timeout is made up for a task that had none. */
  method ApplyTaskTimeoutMitigation(current: Option<int>, timeouts: Option<TimeoutFields>, mitigation: Option<TimeoutIncrement>)
    returns (timeout: Option<int>, adjusted: Option<TimeoutFields>)
    ensures mitigation.None? || current.None? ==> timeout == current && adjusted == timeouts
    ensures mitigation.Some? && current.Some? ==>
              && timeout == Some(AddCapped(current.value, mitigation.value))
              && adjusted == Some(RaiseForTask(timeout.value, CopyOf(timeouts)))
  {
    if mitigation.None? || current.None? {
      return current, timeouts;
    }
    var newTimeout := AddCapped(current.value, mitigation.value);
    var fields := CopyOf(timeouts);
    if fields.tasks.Some? && newTimeout > fields.tasks.value {
      fields := fields.(tasks := Some(newTimeout));
    }
    fields := EnforcePipelineCeiling(fields);
    return Some(newTimeout), Some(fields);
  }

  /** computeRetryOverrides. */
  method ComputeRetryOverrides(plan: Plan, failure: Option<Failure>, run: Option<RunSpec>, taskRuns: seq<TaskRun>)
    returns (specs: seq<TaskRunSpec>, timeouts: TimeoutFields, applied: Option<AppliedMitigation>)
    ensures Overrides(specs, timeouts, applied) == RetryOverrides(plan, failure, run, taskRuns)
    ensures failure.None? || plan.mitigations.None? || run.None? ==>
              specs == plan.specs && timeouts == plan.timeouts && applied.None?
  {
    if failure.None? || plan.mitigations.None? || run.None? {
      return plan.specs, plan.timeouts, None;
    }
    var mitigations, failedRun := plan.mitigations.value, run.value;
    specs := if failedRun.specs == [] then plan.specs else failedRun.specs;
    timeouts := if failedRun.timeouts.Some? then failedRun.timeouts.value else plan.timeouts;
    applied := None;

    var taskRun: Option<TaskRun> := None;
    var task, step := failure.value.lastTask, failure.value.lastStep;
    if task != "" {
      for i := 0 to |taskRuns|
        invariant taskRun.None? && FindTaskRun(taskRuns, task) == FindTaskRun(taskRuns[i..], task)
      {
        if taskRuns[i].task == task {
          taskRun := Some(taskRuns[i]);
          break;
        }
      }
    }

    match failure.value.reason
    case OOMKill =>
      var current := GetStepComputeResources(failedRun.specs, taskRun, task, step);
      var resources := ApplyMemoryMitigation(current, mitigations.oomKill);
      if resources.Some? {
        specs := MergeTaskRunSpecs(specs, [StepSpecOf(failure.value, resources.value)]);
        applied := Some(NOTHING.(memoryLimit := MemoryOf(resources.value.limits),
                                 memoryRequest := MemoryOf(resources.value.requests)));
      }
    case TaskRunTimeout =>
      if mitigations.task.Some? {
        var current := GetTaskRunTimeout(failedRun.specs, taskRun, task);
        var timeout, adjusted := ApplyTaskTimeoutMitigation(current, failedRun.timeouts, mitigations.task);
        if timeout.Some? {
          timeouts := if adjusted.Some? then adjusted.value else timeouts;
          specs := MergeTaskRunSpecs(specs, [TimeoutOf(failure.value, timeout.value)]);
          applied := Some(NOTHING.(taskTimeout := timeout));
        }
      }
    case PipelineRunTimeout =>
      if mitigations.pipeline.Some? {
        var raised := ApplyPipelineTimeoutMitigation(failedRun.timeouts, mitigations.pipeline);
        if raised.value.pipeline.Some? || raised.value.tasks.Some? {
          timeouts := raised.value;
          applied := Some(NOTHING.(pipelineTimeout := timeouts.pipeline, tasksTimeout := timeouts.tasks));
        }
      }
    case _ =>
  }

  /** createManagedPipelineRun: what becomes of the overrides in the created run. */
  function Created(o: Overrides, plan: Plan): RunSpec {
    RunSpec(o.specs, Some(WithTimeouts(Some(Adjusted(o.timeouts)), plan.defaults)))
  }

  /** The part of PipelineRunBuilder that sets task specifications and timeouts. */
  class PipelineRunBuilder {
    var spec: RunSpec

    constructor ()
      ensures spec == RunSpec([], None)
    {
      spec := RunSpec([], None);
    }

    method SetTaskRunSpecs(specs: seq<TaskRunSpec>)
      modifies this
      ensures spec == old(spec).(specs := specs)
    {
      spec := spec.(specs := specs);
    }

    method SetTimeouts(timeouts: Option<TimeoutFields>, defaults: TimeoutFields)
      modifies this
      ensures spec == old(spec).(timeouts := Some(WithTimeouts(timeouts, defaults)))
    {
      if timeouts.None? || timeouts.value == UNSET {
        spec := spec.(timeouts := Some(defaults));
      } else {
        spec := spec.(timeouts := timeouts);
      }
    }
  }

  /** A retry from the failed run to the specification of the run it creates. */
  method CreateRetryRun(plan: Plan, failure: Failure, run: RunSpec, taskRuns: seq<TaskRun>) returns (r: RunSpec)
    ensures r == NextRun(plan, failure, run, taskRuns)
  {
    var specs, timeouts, _ := ComputeRetryOverrides(plan, Some(failure), Some(run), taskRuns);
    var adjusted := AdjustTimeouts(Some(timeouts));
    var builder := new PipelineRunBuilder();
    builder.SetTaskRunSpecs(specs);
    builder.SetTimeouts(adjusted, plan.defaults);
    return builder.spec;
  }

  /** The run created for a retry of `run`. */
  function NextRun(plan: Plan, failure: Failure, run: RunSpec, taskRuns: seq<TaskRun>): RunSpec {
    Created(RetryOverrides(plan, Some(failure), Some(run), taskRuns), plan)
  }

  /** The run after as many retries as there are rounds, each failing in the same way; a round
      gives the TaskRuns of the failed run. */
  function Rerun(plan: Plan, failure: Failure, run: RunSpec, rounds: seq<seq<TaskRun>>): RunSpec {
    if rounds == [] then run
    else
      var last := |rounds| - 1;
      NextRun(plan, failure, Rerun(plan, failure, run, rounds[..last]), rounds[last])
  }

  function AllFields(pipeline: int, tasks: int, finally: int): Option<TimeoutFields> {
    Some(TimeoutFields(Some(pipeline), Some(tasks), Some(finally)))
  }

  /** The given base after `n` increments, under the cap if there is one. */
  function CappedSum(base: int, n: nat, m: TimeoutIncrement): int {
    var sum := base + n * m.increment;
    if m.maxTimeout.Some? then Shorter(sum, m.maxTimeout.value) else sum
  }

  /** The increment does not shorten, and a cap leaves some time. */
  predicate Increases(m: TimeoutIncrement) {
    m.increment >= 0 && (m.maxTimeout.Some? ==> m.maxTimeout.value > 0)
  }

  predicate WithinCap(d: int, m: TimeoutIncrement) {
    m.maxTimeout.Some? ==> d <= m.maxTimeout.value
  }

  /** One retry after a pipeline timeout: AdjustTimeouts changes nothing. */
  lemma PipelineTimeoutStep(plan: Plan, failure: Failure, run: RunSpec, taskRuns: seq<TaskRun>, m: TimeoutIncrement, f: int)
    requires failure.reason.PipelineRunTimeout?
    requires plan.mitigations.Some? && plan.mitigations.value.pipeline == Some(m)
    requires run.timeouts.Some? && run.timeouts.value.finally == Some(f) && f > 0
    requires run.timeouts.value.pipeline.Some? && run.timeouts.value.tasks.Some?
    requires run.timeouts.value.pipeline.value > 0 && run.timeouts.value.tasks.value > 0
    requires Increases(m)
    ensures var raised := RaisePipeline(run.timeouts.value, m);
            && Adjusted(raised) == raised
            && NextRun(plan, failure, run, taskRuns) == RunSpec(Base(plan, run).specs, Some(raised))
            && raised == TimeoutFields(
                 Some(Longer(AddCapped(run.timeouts.value.pipeline.value, m), AddCapped(run.timeouts.value.tasks.value, m) + f)),
                 Some(AddCapped(run.timeouts.value.tasks.value, m)), Some(f))
  {
  }

  /** The run after `n` pipeline-timeout retries in closed form: the tasks timeout grows by the
      increment up to the cap, and so does the pipeline timeout, which always covers tasks and
      finally. */
  predicate AfterPipelineTimeouts(plan: Plan, run: RunSpec, m: TimeoutIncrement, p: int, t: int, f: int, n: nat, after: RunSpec)
  {
    if n == 0 then after == run
    else
      var tasks := CappedSum(t, n, m);
      && after.timeouts == AllFields(Longer(CappedSum(p, n, m), tasks + f), tasks, f)
      && after.specs == Base(plan, run).specs
  }

  lemma OnePipelineTimeoutMore(
    plan: Plan, failure: Failure, run: RunSpec, before: RunSpec, taskRuns: seq<TaskRun>,
    m: TimeoutIncrement, p: int, t: int, f: int, n: nat)
    requires failure.reason.PipelineRunTimeout?
    requires plan.mitigations.Some? && plan.mitigations.value.pipeline == Some(m)
    requires Increases(m)
    requires run.timeouts == AllFields(p, t, f) && p > 0 && t > 0 && f > 0
    requires AfterPipelineTimeouts(plan, run, m, p, t, f, n, before)
    ensures AfterPipelineTimeouts(plan, run, m, p, t, f, n + 1, NextRun(plan, failure, before, taskRuns))
  {
    hide CappedSum, AddCapped, NextRun, RaisePipeline, Adjusted;
    SumOneMore(p, n, m);
    SumOneMore(t, n, m);
    PipelineTimeoutStep(plan, failure, before, taskRuns, m, f);
    if n > 0 {
      MaxAbsorbs(m, CappedSum(p, n, m), CappedSum(t, n, m), f);
    }
  }

  /** Any number of pipeline-timeout retries in a row follow the closed form. */
  lemma {:induction false} PipelineTimeoutRetries(
    plan: Plan, failure: Failure, run: RunSpec, rounds: seq<seq<TaskRun>>,
    m: TimeoutIncrement, p: int, t: int, f: int)
    requires failure.reason.PipelineRunTimeout?
    requires plan.mitigations.Some? && plan.mitigations.value.pipeline == Some(m)
    requires Increases(m)
    requires run.timeouts == AllFields(p, t, f) && p > 0 && t > 0 && f > 0
    ensures AfterPipelineTimeouts(plan, run, m, p, t, f, |rounds|, Rerun(plan, failure, run, rounds))
  {
    if rounds != [] {
      var last := |rounds| - 1;
      PipelineTimeoutRetries(plan, failure, run, rounds[..last], m, p, t, f);
      OnePipelineTimeoutMore(plan, failure, run, Rerun(plan, failure, run, rounds[..last]), rounds[last], m, p, t, f, last);
    }
  }

  /** A pipeline timeout that was raised to cover tasks and finally needs no more than they do. */
  lemma MaxAbsorbs(m: TimeoutIncrement, p: int, t: int, f: int)
    requires f > 0
    ensures Longer(AddCapped(Longer(p, t + f), m), AddCapped(t, m) + f) == Longer(AddCapped(p, m), AddCapped(t, m) + f)
  {
  }

  /** One more increment on a capped sum. */
  lemma SumOneMore(base: int, n: nat, m: TimeoutIncrement)
    requires m.increment >= 0
    ensures n > 0 ==> AddCapped(CappedSum(base, n, m), m) == CappedSum(base, n + 1, m)
    ensures AddCapped(base, m) == CappedSum(base, 1, m)
    ensures n > 0 ==> CappedSum(base, n, m) <= CappedSum(base, n + 1, m)
    ensures base > 0 && Increases(m) ==> CappedSum(base, n, m) > 0
  {
    OneIncrementMore(n, m.increment);
  }

  lemma OneIncrementMore(n: nat, increment: int)
    requires increment >= 0
    ensures (n + 1) * increment == n * increment + increment && n * increment >= 0
  {
  }

  /** From timeouts within the cap, no retry shrinks them, and the pipeline timeout stays within
      cap plus finally. */
  lemma PipelineTimeoutRetriesGrow(
    plan: Plan, failure: Failure, run: RunSpec, rounds: seq<seq<TaskRun>>, next: seq<TaskRun>,
    m: TimeoutIncrement, p: int, t: int, f: int)
    requires failure.reason.PipelineRunTimeout?
    requires plan.mitigations.Some? && plan.mitigations.value.pipeline == Some(m)
    requires Increases(m)
    requires run.timeouts == AllFields(p, t, f) && p > 0 && t > 0 && f > 0
    requires WithinCap(p, m) && WithinCap(t, m)
    ensures var before := Rerun(plan, failure, run, rounds).timeouts;
            var after := Rerun(plan, failure, run, rounds + [next]).timeouts;
            && before.Some? && before.value.pipeline.Some? && before.value.tasks.Some?
            && after.Some? && after.value.pipeline.Some? && after.value.tasks.Some?
            && before.value.pipeline.value <= after.value.pipeline.value
            && before.value.tasks.value <= after.value.tasks.value
            && WithinCap(after.value.pipeline.value - f, m) && WithinCap(after.value.tasks.value, m)
  {
    PipelineTimeoutRetries(plan, failure, run, rounds, m, p, t, f);
    PipelineTimeoutRetries(plan, failure, run, rounds + [next], m, p, t, f);
    OneIncrementMore(|rounds|, m.increment);
  }

  /** A timeout above the cap is lowered: one retry shrinks the tasks timeout exactly when it is
      above the cap, and the pipeline timeout exactly when it is above the cap and above what the
      new tasks timeout and finally need. */
  lemma LoweredExactly(plan: Plan, failure: Failure, run: RunSpec, taskRuns: seq<TaskRun>,
                       m: TimeoutIncrement, p: int, t: int, f: int)
    requires failure.reason.PipelineRunTimeout?
    requires plan.mitigations.Some? && plan.mitigations.value.pipeline == Some(m)
    requires Increases(m)
    requires run.timeouts == AllFields(p, t, f) && p > 0 && t > 0 && f > 0
    ensures var next := NextRun(plan, failure, run, taskRuns).timeouts.value;
            && (next.tasks.value < t <==> !WithinCap(t, m))
            && (next.pipeline.value < p <==> !WithinCap(p, m) && p > AddCapped(t, m) + f)
  {
    PipelineTimeoutStep(plan, failure, run, taskRuns, m, f);
  }

  /** Without a finally timeout the mitigated tasks timeout reaches the created run exactly when it
      stays below the cap, or there is no cap, or one that cannot be split; otherwise AdjustTimeouts
      trims it below the pipeline timeout. */
  lemma WithoutFinallySurvivesExactly(plan: Plan, failure: Failure, run: RunSpec, taskRuns: seq<TaskRun>,
                                      m: TimeoutIncrement, p: int, t: int)
    requires failure.reason.PipelineRunTimeout?
    requires plan.mitigations.Some? && plan.mitigations.value.pipeline == Some(m)
    requires Increases(m)
    requires run.timeouts == Some(TimeoutFields(Some(p), Some(t), None)) && 0 < t < p
    ensures var next := NextRun(plan, failure, run, taskRuns).timeouts.value;
            var survives := m.maxTimeout.None? || t + m.increment < m.maxTimeout.value || m.maxTimeout.value == 1;
            && next.pipeline == Some(AddCapped(p, m))
            && (next.tasks == Some(AddCapped(t, m)) <==> survives)
            && (!survives ==> next.tasks == Some(m.maxTimeout.value - Buffer(m.maxTimeout.value)))
  {
    assert m.maxTimeout.Some? && m.maxTimeout.value > 1 ==> 0 < Buffer(m.maxTimeout.value) < m.maxTimeout.value;
    assert Buffer(1) == 0;
    hide Buffer;
  }

  /** What one task-timeout retry does to the timeouts of the run and of the task. */
  lemma TaskTimeoutStep(plan: Plan, failure: Failure, run: RunSpec, taskRuns: seq<TaskRun>,
                        m: TimeoutIncrement, c: int)
    requires failure.reason.TaskRunTimeout? && failure.lastTask != ""
    requires plan.mitigations.Some? && plan.mitigations.value.task == Some(m)
    requires TaskTimeout(run.specs, FailedTaskRun(failure, taskRuns), failure.lastTask) == Some(c)
    ensures var next := NextRun(plan, failure, run, taskRuns); var n := AddCapped(c, m);
            && TimeoutOverride(next.specs, failure.lastTask) == Some(n)
            && next.timeouts == Some(WithTimeouts(Some(Adjusted(RaiseForTask(n, CopyOf(run.timeouts)))), plan.defaults))
  {
    var n := AddCapped(c, m);
    var o := TimeoutOf(failure, n);
    var specs := Base(plan, run).specs;
    assert MergeAll(specs, [o]) == Merge(specs, o) by {
      assert [o][..0] == [];
    }
    MergeReads(specs, o, failure.lastTask, "");
  }

  /** A task-timeout retry fits: with tasks and finally covered by the pipeline timeout, the new
      task timeout is within the tasks timeout of the created run, which is covered again, and
      neither timeout shrinks. */
  lemma TaskTimeoutFits(plan: Plan, failure: Failure, run: RunSpec, taskRuns: seq<TaskRun>,
                        m: TimeoutIncrement, c: int, p: int, t: int, f: int)
    requires failure.reason.TaskRunTimeout? && failure.lastTask != ""
    requires plan.mitigations.Some? && plan.mitigations.value.task == Some(m)
    requires TaskTimeout(run.specs, FailedTaskRun(failure, taskRuns), failure.lastTask) == Some(c)
    requires run.timeouts == AllFields(p, t, f) && t > 0 && f > 0 && p >= t + f
    ensures var next := NextRun(plan, failure, run, taskRuns); var n := AddCapped(c, m);
            && TimeoutOverride(next.specs, failure.lastTask) == Some(n)
            && next.timeouts == AllFields(Longer(p, Longer(t, n) + f), Longer(t, n), f)
  {
    TaskTimeoutStep(plan, failure, run, taskRuns, m, c);
  }

  /** Without a finally timeout, it fits exactly when the new task timeout is below the pipeline
      timeout of the failed run. */
  lemma TaskTimeoutFitsExactly(plan: Plan, failure: Failure, run: RunSpec, taskRuns: seq<TaskRun>,
                               m: TimeoutIncrement, c: int, p: int, t: int)
    requires failure.reason.TaskRunTimeout? && failure.lastTask != ""
    requires plan.mitigations.Some? && plan.mitigations.value.task == Some(m)
    requires TaskTimeout(run.specs, FailedTaskRun(failure, taskRuns), failure.lastTask) == Some(c)
    requires run.timeouts == Some(TimeoutFields(Some(p), Some(t), None)) && 0 < t < p
    ensures var next := NextRun(plan, failure, run, taskRuns); var n := AddCapped(c, m);
            && TimeoutOverride(next.specs, failure.lastTask) == Some(n)
            && next.timeouts.value.tasks.Some?
            && (n <= next.timeouts.value.tasks.value <==> n < p)
  {
    TaskTimeoutStep(plan, failure, run, taskRuns, m, c);
  }

  /** The run after `n` task-timeout retries in closed form: the task timeout is the one that the
      last retry has merged in, and the timeouts of the run have grown with it as far as needed. */
  predicate AfterTaskTimeouts(run: RunSpec, task: string, m: TimeoutIncrement, c: int, p: int, t: int, f: int, n: nat, after: RunSpec)
  {
    if n == 0 then after == run
    else
      var timeout := CappedSum(c, n, m);
      && TimeoutOverride(after.specs, task) == Some(timeout)
      && after.timeouts == AllFields(Longer(p, Longer(t, timeout) + f), Longer(t, timeout), f)
  }

  lemma OneTaskTimeoutMore(
    plan: Plan, failure: Failure, run: RunSpec, before: RunSpec, taskRuns: seq<TaskRun>,
    m: TimeoutIncrement, c: int, p: int, t: int, f: int, n: nat)
    requires failure.reason.TaskRunTimeout? && failure.lastTask != ""
    requires plan.mitigations.Some? && plan.mitigations.value.task == Some(m)
    requires m.increment >= 0
    requires n == 0 ==> TaskTimeout(run.specs, FailedTaskRun(failure, taskRuns), failure.lastTask) == Some(c)
    requires run.timeouts == AllFields(p, t, f) && t > 0 && f > 0 && p >= t + f
    requires AfterTaskTimeouts(run, failure.lastTask, m, c, p, t, f, n, before)
    ensures AfterTaskTimeouts(run, failure.lastTask, m, c, p, t, f, n + 1, NextRun(plan, failure, before, taskRuns))
  {
    hide CappedSum, AddCapped, NextRun, FailedTaskRun, TimeoutOverride;
    SumOneMore(c, n, m);
    if n == 0 {
      TaskTimeoutFits(plan, failure, before, taskRuns, m, c, p, t, f);
    } else {
      var timeout := CappedSum(c, n, m);
      TaskTimeoutFits(plan, failure, before, taskRuns, m, timeout, Longer(p, Longer(t, timeout) + f), Longer(t, timeout), f);
    }
  }

  /** Any number of task-timeout retries in a row follow the closed form. */
  lemma {:induction false} TaskTimeoutRetries(
    plan: Plan, failure: Failure, run: RunSpec, rounds: seq<seq<TaskRun>>,
    m: TimeoutIncrement, c: int, p: int, t: int, f: int)
    requires failure.reason.TaskRunTimeout? && failure.lastTask != ""
    requires plan.mitigations.Some? && plan.mitigations.value.task == Some(m)
    requires m.increment >= 0
    requires rounds != [] ==> TaskTimeout(run.specs, FailedTaskRun(failure, rounds[0]), failure.lastTask) == Some(c)
    requires run.timeouts == AllFields(p, t, f) && t > 0 && f > 0 && p >= t + f
    ensures AfterTaskTimeouts(run, failure.lastTask, m, c, p, t, f, |rounds|, Rerun(plan, failure, run, rounds))
  {
    if rounds != [] {
      var last := |rounds| - 1;
      assert last > 0 ==> rounds[..last][0] == rounds[0];
      TaskTimeoutRetries(plan, failure, run, rounds[..last], m, c, p, t, f);
      OneTaskTimeoutMore(plan, failure, run, Rerun(plan, failure, run, rounds[..last]), rounds[last], m, c, p, t, f, last);
    }
  }

  /** The resources after `n` applications of a memory mitigation. */
  function Grown(r: Resources, mitigation: MemoryMitigation, n: nat): Resources {
    if n == 0 then r
    else
      var before := Grown(r, mitigation, n - 1);
      var after := ApplyMemory(Some(before), mitigation);
      if after.Some? then after.value else before
  }

  predicate HasMemory(r: Resources) {
    MEMORY in r.limits || MEMORY in r.requests
  }

  /** Each out-of-memory retry starts from the resources that the retry before has written. */
  lemma {:induction false} MemoryRetries(
    plan: Plan, failure: Failure, run: RunSpec, rounds: seq<seq<TaskRun>>, m: MemoryMitigation, r: Resources)
    requires failure.reason.OOMKill? && failure.lastTask != ""
    requires plan.mitigations.Some? && plan.mitigations.value.oomKill == Some(m) && Usable(m)
    requires rounds != [] && HasMemory(r)
    requires StepResources(run.specs, FailedTaskRun(failure, rounds[0]), failure.lastTask, failure.lastStep) == Some(r)
    ensures StepOverride(Rerun(plan, failure, run, rounds).specs, failure.lastTask, failure.lastStep) ==
            Some(Grown(r, m, |rounds|))
    ensures HasMemory(Grown(r, m, |rounds|))
  {
    var last := |rounds| - 1;
    var before := Rerun(plan, failure, run, rounds[..last]);
    if last > 0 {
      MemoryRetries(plan, failure, run, rounds[..last], m, r);
    }
    MemoryStep(plan, failure, before, rounds[last], m, Grown(r, m, last));
  }

  lemma MemoryStep(plan: Plan, failure: Failure, run: RunSpec, taskRuns: seq<TaskRun>, m: MemoryMitigation, r: Resources)
    requires failure.reason.OOMKill? && failure.lastTask != ""
    requires plan.mitigations.Some? && plan.mitigations.value.oomKill == Some(m) && Usable(m) && HasMemory(r)
    requires StepResources(run.specs, FailedTaskRun(failure, taskRuns), failure.lastTask, failure.lastStep) == Some(r)
    ensures var r' := ApplyMemory(Some(r), m);
            && r'.Some? && HasMemory(r'.value)
            && StepOverride(NextRun(plan, failure, run, taskRuns).specs, failure.lastTask, failure.lastStep) == r'
  {
    var r' := ApplyMemory(Some(r), m).value;
    var o := StepSpecOf(failure, r');
    var specs := Base(plan, run).specs;
    assert MergeAll(specs, [o]) == Merge(specs, o) by {
      assert [o][..0] == [];
    }
    MergeReads(specs, o, failure.lastTask, failure.lastStep);
  }

  /** The quantity is within the cap on the memory limit, if there is one. */
  predicate WithinMemoryCap(q: nat, m: MemoryMitigation) {
    m.caps.Some? && MEMORY in m.caps.value.limits ==> q <= m.caps.value.limits[MEMORY]
  }

  predicate AtMemoryCap(q: nat, m: MemoryMitigation) {
    m.caps.Some? && MEMORY in m.caps.value.limits && q == m.caps.value.limits[MEMORY]
  }

  /** The memory limit over any number of retries with a multiplier of at least one: from within
      the cap it never shrinks and never exceeds the cap, and with a multiplier above one it gains
      at least a byte per retry until the cap is reached. The other quantities stay as they are. */
  lemma {:induction false} MemoryGrows(r: Resources, m: MemoryMitigation, n: nat)
    requires Usable(m) && m.multiplier.value.num >= m.multiplier.value.den
    requires MEMORY in r.limits && WithinMemoryCap(r.limits[MEMORY], m)
    ensures var before, after := Grown(r, m, n).limits, Grown(r, m, n + 1).limits;
            && MEMORY in before && MEMORY in after
            && r.limits[MEMORY] <= before[MEMORY] <= after[MEMORY]
            && WithinMemoryCap(after[MEMORY], m)
            && (m.multiplier.value.num > m.multiplier.value.den && r.limits[MEMORY] > 0 ==>
                  before[MEMORY] >= r.limits[MEMORY] + n || AtMemoryCap(before[MEMORY], m))
            && after - {MEMORY} == r.limits - {MEMORY}
  {
    if n > 0 {
      MemoryGrows(r, m, n - 1);
    }
    var before := Grown(r, m, n);
    MultiplyGrows(before.limits[MEMORY], m.multiplier.value);
  }

  /** With caps in order, or no limit cap at all, no retry asks for more memory than the limit. */
  lemma {:induction false} MemoryStaysSchedulable(r: Resources, m: MemoryMitigation, n: nat)
    requires Usable(m) && CapsInOrder(m.caps) && Schedulable(r)
    ensures Schedulable(Grown(r, m, n))
  {
    if n > 0 {
      MemoryStaysSchedulable(r, m, n - 1);
      SchedulableExactly(m);
    }
  }

  /** A retry leaves the other tasks alone, whatever the reason of the failure. */
  lemma OtherTasksUntouched(plan: Plan, failure: Failure, run: RunSpec, taskRuns: seq<TaskRun>, task: string, step: string)
    requires task != failure.lastTask
    ensures var next, base := NextRun(plan, failure, run, taskRuns).specs, if plan.mitigations.None? then plan.specs else Base(plan, run).specs;
            && TimeoutOverride(next, task) == TimeoutOverride(base, task)
            && StepOverride(next, task, step) == StepOverride(base, task, step)
  {
    if plan.mitigations.Some? {
      var base := Base(plan, run).specs;
      forall o: TaskRunSpec | o.task == failure.lastTask
        ensures TimeoutOverride(MergeAll(base, [o]), task) == TimeoutOverride(base, task)
        ensures StepOverride(MergeAll(base, [o]), task, step) == StepOverride(base, task, step)
      {
        MergeAllFrame(base, [o], task, step);
      }
    }
  }

  /** The pipeline or the tasks timeout is set. */
  predicate Limited(t: TimeoutFields) {
    Positive(t.pipeline).Some? || Positive(t.tasks).Some?
  }

  predicate AllIncrease(plan: Plan) {
    && (plan.mitigations.None? ==> Limited(plan.timeouts))
    && (plan.mitigations.Some? && plan.mitigations.value.pipeline.Some? ==>
          Increases(plan.mitigations.value.pipeline.value))
  }

  /** The run after any sequence of retries, whatever the reasons of the failures. */
  function RerunAny(plan: Plan, run: RunSpec, rounds: seq<(Failure, seq<TaskRun>)>): RunSpec {
    if rounds == [] then run
    else
      var last := |rounds| - 1;
      NextRun(plan, rounds[last].0, RerunAny(plan, run, rounds[..last]), rounds[last].1)
  }

  lemma RetryCovers(plan: Plan, failure: Failure, run: RunSpec, taskRuns: seq<TaskRun>)
    requires AllIncrease(plan) && run.timeouts.Some? && Limited(run.timeouts.value)
    ensures var next := NextRun(plan, failure, run, taskRuns).timeouts;
            next.Some? && Covers(next.value) && Limited(next.value)
  {
    var o := RetryOverrides(plan, Some(failure), Some(run), taskRuns);
    StaysLimited(plan, failure, run, taskRuns);
    hide RetryOverrides;
    CreatedCovers(o.timeouts, plan.defaults);
    AdjustedCovers(o.timeouts);
  }

  lemma StaysLimited(plan: Plan, failure: Failure, run: RunSpec, taskRuns: seq<TaskRun>)
    requires AllIncrease(plan) && run.timeouts.Some? && Limited(run.timeouts.value)
    ensures Limited(RetryOverrides(plan, Some(failure), Some(run), taskRuns).timeouts)
  {
    hide MergeAll, StepResources, TaskTimeout;
  }

  /** Every created run obeys Tekton's rule, after any sequence of failures and mitigations, as long
      as the first failed run had a pipeline or tasks timeout. */
  lemma {:induction false} RetriesCover(plan: Plan, run: RunSpec, rounds: seq<(Failure, seq<TaskRun>)>)
    requires AllIncrease(plan) && run.timeouts.Some? && Limited(run.timeouts.value)
    ensures var after := RerunAny(plan, run, rounds).timeouts;
            after.Some? && Limited(after.value) && (rounds != [] ==> Covers(after.value))
  {
    if rounds != [] {
      hide NextRun, Limited, Covers, AllIncrease;
      var last := |rounds| - 1;
      RetriesCover(plan, run, rounds[..last]);
      RetryCovers(plan, rounds[last].0, RerunAny(plan, run, rounds[..last]), rounds[last].1);
    }
  }

  /** The step resources and task timeout that are recorded for a retry are those that are read
      from the run it creates. Recorded run timeouts may be trimmed, see
      `WithoutFinallySurvivesExactly`. */
  lemma RecordedIsRead(plan: Plan, failure: Failure, run: RunSpec, taskRuns: seq<TaskRun>)
    requires failure.lastTask != ""
    ensures var applied := RetryOverrides(plan, Some(failure), Some(run), taskRuns).applied;
            var specs := NextRun(plan, failure, run, taskRuns).specs;
            applied.Some? ==>
              && (failure.reason.TaskRunTimeout? ==>
                    TimeoutOverride(specs, failure.lastTask) == applied.value.taskTimeout)
              && (failure.reason.OOMKill? ==>
                    var r := StepOverride(specs, failure.lastTask, failure.lastStep);
                    && r.Some?
                    && MemoryOf(r.value.limits) == applied.value.memoryLimit
                    && MemoryOf(r.value.requests) == applied.value.memoryRequest)
  {
    var base := Base(plan, run).specs;
    forall o: TaskRunSpec | o.task != ""
      ensures MergeAll(base, [o]) == Merge(base, o)
    {
      assert [o][..0] == [];
    }
    forall o: TaskRunSpec
      ensures o.timeout.Some? ==> TimeoutOverride(Merge(base, o), o.task) == o.timeout
      ensures o.compute.None? && FindStep(o.steps, failure.lastStep).Some? ==>
                StepOverride(Merge(base, o), o.task, failure.lastStep) == FindStep(o.steps, failure.lastStep)
    {
      MergeReads(base, o, o.task, failure.lastStep);
    }
    hide MergeAll, Merge, TimeoutOverride, StepOverride;
  }

  predicate OfTask(taskRun: TaskRun, task: string) {
    taskRun.task == task
  }

  /** The TaskRun that is looked at is the first one of the failed task. */
  lemma {:induction false} FindTaskRunExactly(taskRuns: seq<TaskRun>, task: string, i: nat)
    requires i <= |taskRuns| && forall k | 0 <= k < i :: !OfTask(taskRuns[k], task)
    ensures i < |taskRuns| && OfTask(taskRuns[i], task) ==> FindTaskRun(taskRuns, task) == Some(taskRuns[i])
    ensures i == |taskRuns| ==> FindTaskRun(taskRuns, task).None?
  {
    if i > 0 {
      assert !OfTask(taskRuns[0], task);
      assert forall k | 0 <= k < i - 1 :: taskRuns[1..][k] == taskRuns[k + 1];
      FindTaskRunExactly(taskRuns[1..], task, i - 1);
    }
  }

  /** The entries that a retry starts from: those of the failed run, which have the mitigations of
      earlier retries, or those of the plan if the run has none. */
  function Inherited(plan: Plan, run: RunSpec): seq<TaskRunSpec> {
    if run.specs != [] then run.specs else plan.specs
  }

  /** A retry with mitigations reads for every task but the failed one what the failed run had. */
  lemma OtherTasksInherited(plan: Plan, failure: Failure, run: RunSpec, taskRuns: seq<TaskRun>, task: string, step: string)
    requires plan.mitigations.Some? && task != failure.lastTask
    ensures var next := NextRun(plan, failure, run, taskRuns).specs;
            && TimeoutOverride(next, task) == TimeoutOverride(Inherited(plan, run), task)
            && StepOverride(next, task, step) == StepOverride(Inherited(plan, run), task, step)
  {
    OtherTasksUntouched(plan, failure, run, taskRuns, task, step);
    hide NextRun, TimeoutOverride, StepOverride;
  }

  /** And for the failed task, a timeout mitigation leaves the resources and a memory mitigation the
      timeout; for any other reason no entry changes. */
  lemma FailedTaskInherited(plan: Plan, failure: Failure, run: RunSpec, taskRuns: seq<TaskRun>, step: string)
    requires plan.mitigations.Some?
    ensures var next := NextRun(plan, failure, run, taskRuns).specs;
            && (failure.reason != OOMKill ==>
                  StepOverride(next, failure.lastTask, step) == StepOverride(Inherited(plan, run), failure.lastTask, step))
            && (failure.reason != TaskRunTimeout ==>
                  TimeoutOverride(next, failure.lastTask) == TimeoutOverride(Inherited(plan, run), failure.lastTask))
            && (failure.reason != OOMKill && failure.reason != TaskRunTimeout ==> next == Inherited(plan, run))
  {
    var base := Base(plan, run).specs;
    assert base == Inherited(plan, run);
    forall o: TaskRunSpec
      ensures o.timeout.None? ==> TimeoutOverride(MergeAll(base, [o]), o.task) == TimeoutOverride(base, o.task)
      ensures o.steps == [] && o.compute.None? ==>
                StepOverride(MergeAll(base, [o]), o.task, step) == StepOverride(base, o.task, step)
    {
      MergesOne(base, o);
      MergeReads(base, o, o.task, step);
    }
    hide MergeAll, Merge, TimeoutOverride, StepOverride, Adjusted, RaisePipeline, RaiseForTask, TaskTimeout, StepResources;
  }

  lemma MergesOne(specs: seq<TaskRunSpec>, o: TaskRunSpec)
    ensures MergeAll(specs, [o]) == if o.task == "" then specs else Merge(specs, o)
  {
    assert [o][..0] == [];
  }

  /** The timeouts of the failed run are those that a retry without a timeout mitigation creates its
      run with; those of the plan if the run has none. */
  lemma TimeoutsInherited(plan: Plan, failure: Failure, run: RunSpec, taskRuns: seq<TaskRun>)
    requires plan.mitigations.Some? && failure.reason != TaskRunTimeout && failure.reason != PipelineRunTimeout
    ensures NextRun(plan, failure, run, taskRuns).timeouts ==
            Some(WithTimeouts(Some(Adjusted(if run.timeouts.Some? then run.timeouts.value else plan.timeouts)),
                              plan.defaults))
  {
    hide MergeAll, Adjusted, StepResources, ApplyMemory;
  }

  /** Without mitigations every retry is created like the first run. */
  lemma WithoutMitigations(plan: Plan, failure: Failure, run: RunSpec, taskRuns: seq<TaskRun>)
    requires plan.mitigations.None?
    ensures NextRun(plan, failure, run, taskRuns) ==
            RunSpec(plan.specs, Some(WithTimeouts(Some(Adjusted(plan.timeouts)), plan.defaults)))
  {
  }

  /** A duration after the mitigation. */
  function Later(d: int, m: TimeoutIncrement): int {
    if m.maxTimeout.Some? && d + m.increment > m.maxTimeout.value then m.maxTimeout.value else d + m.increment
  }

  function LaterIfSet(d: Option<int>, m: TimeoutIncrement): Option<int> {
    if d.Some? then Some(Later(d.value, m)) else None
  }

  /** The pipeline timeout is raised if it does not cover the other two. */
  predicate IsRaised(t: TimeoutFields, r: TimeoutFields) {
    && r.tasks == t.tasks && r.finally == t.finally
    && (t.pipeline.None? ==> r.pipeline.None?)
    && (t.pipeline.Some? ==>
          && r.pipeline.Some?
          && var needed := OrZero(t.tasks) + OrZero(t.finally);
             r.pipeline.value == if t.pipeline.value < needed then needed else t.pipeline.value)
  }

  /** The timeouts that are created after a pipeline timeout, whichever of them are set. */
  lemma PipelineRetryExactly(plan: Plan, failure: Failure, run: RunSpec, taskRuns: seq<TaskRun>, m: TimeoutIncrement, t: TimeoutFields)
    requires failure.reason.PipelineRunTimeout? && run.timeouts == Some(t)
    requires plan.mitigations.Some? && plan.mitigations.value.pipeline == Some(m)
    ensures exists r: TimeoutFields ::
              && NextRun(plan, failure, run, taskRuns).timeouts == Some(WithTimeouts(Some(Adjusted(r)), plan.defaults))
              && if t.pipeline.None? && t.tasks.None? then r == t
                 else IsRaised(TimeoutFields(LaterIfSet(t.pipeline, m), LaterIfSet(t.tasks, m), t.finally), r)
  {
    var r := if t.pipeline.None? && t.tasks.None? then t else RaisePipeline(t, m);
    assert NextRun(plan, failure, run, taskRuns).timeouts == Some(WithTimeouts(Some(Adjusted(r)), plan.defaults)) by {
      hide Adjusted, AddCapped, Raised;
    }
  }

  /** And after the timeout of a task that has one. */
  lemma TaskRetryExactly(plan: Plan, failure: Failure, run: RunSpec, taskRuns: seq<TaskRun>, m: TimeoutIncrement, c: int, t: TimeoutFields)
    requires failure.reason.TaskRunTimeout? && failure.lastTask != "" && run.timeouts == Some(t)
    requires plan.mitigations.Some? && plan.mitigations.value.task == Some(m)
    requires TaskTimeout(run.specs, FindTaskRun(taskRuns, failure.lastTask), failure.lastTask) == Some(c)
    ensures TimeoutOverride(NextRun(plan, failure, run, taskRuns).specs, failure.lastTask) == Some(Later(c, m))
    ensures exists r: TimeoutFields ::
              && NextRun(plan, failure, run, taskRuns).timeouts == Some(WithTimeouts(Some(Adjusted(r)), plan.defaults))
              && IsRaised(t.(tasks := if t.tasks.Some? && t.tasks.value < Later(c, m) then Some(Later(c, m)) else t.tasks), r)
  {
    TaskTimeoutStep(plan, failure, run, taskRuns, m, c);
    var r := RaiseForTask(Later(c, m), t);
    hide NextRun, Adjusted;
    assert NextRun(plan, failure, run, taskRuns).timeouts == Some(WithTimeouts(Some(Adjusted(r)), plan.defaults));
  }

  /** A retry whose mitigation is not configured, or has nothing to work on, inherits everything. */
  lemma NothingToMitigate(plan: Plan, failure: Failure, run: RunSpec, taskRuns: seq<TaskRun>)
    requires plan.mitigations.Some?
    requires match failure.reason
             case OOMKill =>
               || plan.mitigations.value.oomKill.None?
               || StepResources(run.specs, FailedTaskRun(failure, taskRuns), failure.lastTask, failure.lastStep).None?
             case TaskRunTimeout =>
               || plan.mitigations.value.task.None?
               || TaskTimeout(run.specs, FailedTaskRun(failure, taskRuns), failure.lastTask).None?
             case PipelineRunTimeout => plan.mitigations.value.pipeline.None?
             case _ => true
    ensures NextRun(plan, failure, run, taskRuns) ==
            RunSpec(Inherited(plan, run),
                    Some(WithTimeouts(Some(Adjusted(if run.timeouts.Some? then run.timeouts.value else plan.timeouts)),
                                      plan.defaults)))
  {
    hide MergeAll, Adjusted, StepResources, TaskTimeout;
  }

  lemma StaysNonEmpty(plan: Plan, failure: Failure, run: RunSpec, taskRuns: seq<TaskRun>)
    requires plan.mitigations.Some? && run.specs != []
    ensures NextRun(plan, failure, run, taskRuns).specs != []
  {
    var base := Base(plan, run).specs;
    forall o: TaskRunSpec
      ensures MergeAll(base, [o]) != []
    {
      MergesOne(base, o);
    }
    hide MergeAll, Adjusted, StepResources, TaskTimeout;
  }

  /** Mitigations accumulate: what was written for one task is still read after any number of later
      retries for other tasks, whatever their reasons. */
  lemma {:induction false} MitigationsAccumulate(plan: Plan, run: RunSpec, rounds: seq<(Failure, seq<TaskRun>)>, task: string, step: string)
    requires plan.mitigations.Some? && run.specs != []
    requires forall k | 0 <= k < |rounds| :: rounds[k].0.lastTask != task
    ensures var after := RerunAny(plan, run, rounds).specs;
            && after != []
            && TimeoutOverride(after, task) == TimeoutOverride(run.specs, task)
            && StepOverride(after, task, step) == StepOverride(run.specs, task, step)
  {
    if rounds != [] {
      var last := |rounds| - 1;
      var before := RerunAny(plan, run, rounds[..last]);
      MitigationsAccumulate(plan, run, rounds[..last], task, step);
      hide NextRun, TimeoutOverride, StepOverride;
      StaysNonEmpty(plan, rounds[last].0, before, rounds[last].1);
      OtherTasksInherited(plan, rounds[last].0, before, rounds[last].1, task, step);
    }
  }

  /** A failure without a task has no TaskRun to look at. */
  lemma TaskRunOfFailure(failure: Failure, taskRuns: seq<TaskRun>)
    ensures failure.lastTask == "" ==> FailedTaskRun(failure, taskRuns).None?
    ensures failure.lastTask != "" ==> FailedTaskRun(failure, taskRuns) == FindTaskRun(taskRuns, failure.lastTask)
  {
  }
}
