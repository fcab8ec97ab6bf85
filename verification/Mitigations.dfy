/** What a retry changes in the specification of the failed run: memory, timeouts, and the merge of
 * the changed task into the TaskRunSpecs.
 *
 * Quantities are bytes and durations nanoseconds, both unbounded. The multiplier, a decimal string
 * in the source, is an exact fraction, None when it does not parse.
 */
module Mitigations {
  import opened ReleaseStatus
  import opened Timeouts

  const MEMORY := "memory"

  type Quantities = map<string, nat>

  datatype Resources = Resources(limits: Quantities, requests: Quantities)

  datatype StepSpec = StepSpec(name: string, resources: Resources)

  /** A PipelineTaskRunSpec; `rest` stands for the fields that no mitigation touches. */
  datatype TaskRunSpec = TaskRunSpec(
    task: string,
    steps: seq<StepSpec>,
    compute: Option<Resources>,
    timeout: Option<int>,
    rest: string)

  /** What the retries look at in the TaskRun of the failed task. */
  datatype TaskRun = TaskRun(task: string, timeout: Option<int>, steps: seq<StepSpec>)

  datatype Fraction = Fraction(num: int, den: nat)

  datatype MemoryMitigation = MemoryMitigation(multiplier: Option<Fraction>, caps: Option<Resources>)

  datatype TimeoutIncrement = TimeoutIncrement(increment: int, maxTimeout: Option<int>)

  /** The mitigations of the admission; the two timeout increments are optional parts of one entry. */
  datatype MitigationConfig = MitigationConfig(
    oomKill: Option<MemoryMitigation>,
    task: Option<TimeoutIncrement>,
    pipeline: Option<TimeoutIncrement>)

  predicate HasName(s: TaskRunSpec, task: string) {
    s.task == task
  }

  /** multiplyQuantity: the least number of bytes that is not below the exact product. */
  function Multiply(q: nat, m: Fraction): (r: nat)
    requires m.num > 0 && m.den > 0
    ensures r * m.den >= q * m.num && (r > 0 ==> (r - 1) * m.den < q * m.num)
  {
    ProductsAreNatural(q, m.num);
    CeilingDivision(q * m.num, m.den);
    (q * m.num + m.den - 1) / m.den
  }

  lemma ProductsAreNatural(a: nat, b: nat)
    ensures a * b >= 0
  {
  }

  lemma CeilingDivision(a: nat, b: nat)
    requires b > 0
    ensures var r := (a + b - 1) / b; r >= 0 && r * b >= a && (r > 0 ==> (r - 1) * b < a)
  {
    var r := (a + b - 1) / b;
    assert a + b - 1 == r * b + (a + b - 1) % b;
    assert (r - 1) * b == r * b - b;
  }

  lemma LessProduct(a: int, b: int, c: nat)
    requires a <= b
    ensures a * c <= b * c
  {
    assert (b - a) * c >= 0;
    assert b * c - a * c == (b - a) * c;
  }

  lemma Cancel(a: int, b: int, c: nat)
    requires a * c < b * c
    ensures a < b
  {
    if a >= b {
      LessProduct(b, a, c);
    }
  }

  lemma MultiplyIsMonotone(q: nat, q': nat, m: Fraction)
    requires m.num > 0 && m.den > 0 && q <= q'
    ensures Multiply(q, m) <= Multiply(q', m)
  {
    var r, r' := Multiply(q, m), Multiply(q', m);
    hide Multiply;
    LessProduct(q, q', m.num);
    if r > 0 {
      Cancel(r - 1, r', m.den);
    }
  }

  /** Multiplying does not shrink a quantity by a multiplier of at least one, and a positive
      quantity grows by a byte or more when the multiplier is above one. */
  lemma MultiplyGrows(q: nat, m: Fraction)
    requires m.num >= m.den > 0
    ensures Multiply(q, m) >= q
    ensures m.num > m.den && q > 0 ==> Multiply(q, m) > q
  {
    var r := Multiply(q, m);
    hide Multiply;
    if q > 0 {
      LessProduct(m.den, m.num, q);
      assert (q - 1) * m.den == q * m.den - m.den;
      Cancel(q - 1, r, m.den);
      if m.num > m.den {
        LessProduct(m.den + 1, m.num, q);
        assert (m.den + 1) * q == q * m.den + q;
        Cancel(q, r, m.den);
      }
    }
  }

  function Cap(q: nat, caps: Option<Resources>, ofLimits: bool): nat {
    if caps.None? then q
    else
      var m := if ofLimits then caps.value.limits else caps.value.requests;
      if MEMORY in m && q > m[MEMORY] then m[MEMORY] else q
  }

  function Scaled(q: Quantities, m: Fraction, caps: Option<Resources>, ofLimits: bool): Quantities
    requires m.num > 0 && m.den > 0
  {
    if MEMORY in q then q[MEMORY := Cap(Multiply(q[MEMORY], m), caps, ofLimits)] else q
  }

  predicate Usable(mitigation: MemoryMitigation) {
    mitigation.multiplier.Some? && mitigation.multiplier.value.num > 0 && mitigation.multiplier.value.den > 0
  }

  /** ApplyMemoryMitigation. */
  function ApplyMemory(current: Option<Resources>, mitigation: MemoryMitigation): Option<Resources> {
    if current.None? || !Usable(mitigation) then None
    else
      var c, m := current.value, mitigation.multiplier.value;
      if MEMORY !in c.limits && MEMORY !in c.requests then None
      else Some(Resources(Scaled(c.limits, m, mitigation.caps, true), Scaled(c.requests, m, mitigation.caps, false)))
  }

  method ApplyMemoryMitigation(current: Option<Resources>, mitigation: Option<MemoryMitigation>)
    returns (r: Option<Resources>)
    ensures mitigation.None? ==> r.None?
    ensures mitigation.Some? ==> r == ApplyMemory(current, mitigation.value)
  {
    if current.None? || mitigation.None? || !Usable(mitigation.value) {
      return None;
    }
    var m, caps := mitigation.value.multiplier.value, mitigation.value.caps;
    var result := current.value;
    var hasMemory := false;
    if MEMORY in result.limits {
      var newLimit := Multiply(result.limits[MEMORY], m);
      if caps.Some? && MEMORY in caps.value.limits && newLimit > caps.value.limits[MEMORY] {
        newLimit := caps.value.limits[MEMORY];
      }
      result := result.(limits := result.limits[MEMORY := newLimit]);
      hasMemory := true;
    }
    if MEMORY in result.requests {
      var newRequest := Multiply(result.requests[MEMORY], m);
      if caps.Some? && MEMORY in caps.value.requests && newRequest > caps.value.requests[MEMORY] {
        newRequest := caps.value.requests[MEMORY];
      }
      result := result.(requests := result.requests[MEMORY := newRequest]);
      hasMemory := true;
    }
    return if hasMemory then Some(result) else None;
  }

  /** A scheduler accepts the resources: the memory request is not above the memory limit. */
  predicate Schedulable(r: Resources) {
    MEMORY in r.limits && MEMORY in r.requests ==> r.requests[MEMORY] <= r.limits[MEMORY]
  }

  /** The caps keep request and limit in order. */
  predicate CapsInOrder(caps: Option<Resources>) {
    caps.Some? && MEMORY in caps.value.limits ==>
      MEMORY in caps.value.requests && caps.value.requests[MEMORY] <= caps.value.limits[MEMORY]
  }

  ghost predicate KeepsSchedulable(mitigation: MemoryMitigation) {
    forall r: Resources | Schedulable(r) ::
      var r' := ApplyMemory(Some(r), mitigation); r'.Some? ==> Schedulable(r'.value)
  }

  /** A usable mitigation keeps every request at or below its limit exactly when there is no limit
      cap, or a request cap that is not above the limit cap. */
  lemma SchedulableExactly(mitigation: MemoryMitigation)
    requires Usable(mitigation)
    ensures KeepsSchedulable(mitigation) <==> CapsInOrder(mitigation.caps)
  {
    var m, caps := mitigation.multiplier.value, mitigation.caps;
    if CapsInOrder(caps) {
      forall r: Resources | Schedulable(r)
        ensures var r' := ApplyMemory(Some(r), mitigation); r'.Some? ==> Schedulable(r'.value)
      {
        if MEMORY in r.limits && MEMORY in r.requests {
          MultiplyIsMonotone(r.requests[MEMORY], r.limits[MEMORY], m);
        }
      }
    } else {
      // both quantities grow beyond the limit cap, and only the limit is held back
      var cap := caps.value.limits[MEMORY];
      var q: nat := (cap + 1) * m.den;
      var r := Resources(map[MEMORY := q], map[MEMORY := q]);
      assert Schedulable(r);
      BeyondCap(cap, m);
      assert !Schedulable(ApplyMemory(Some(r), mitigation).value);
    }
  }

  lemma BeyondCap(cap: nat, m: Fraction)
    requires m.num > 0 && m.den > 0
    ensures (cap + 1) * m.den >= 0 && Multiply((cap + 1) * m.den, m) > cap
  {
    ProductsAreNatural(cap + 1, m.den);
    var q: nat := (cap + 1) * m.den;
    LessProduct(1, m.num, q);
    assert (cap + 1) * m.den == cap * m.den + m.den;
    Cancel(cap, Multiply(q, m), m.den);
  }

  function AddCapped(base: int, mitigation: TimeoutIncrement): int {
    var sum := base + mitigation.increment;
    if mitigation.maxTimeout.Some? then Shorter(sum, mitigation.maxTimeout.value) else sum
  }

  /** enforcePipelineCeiling: a pipeline timeout that is there is raised to cover the other two. */
  function Raised(t: TimeoutFields): TimeoutFields {
    if t.pipeline.None? then t
    else t.(pipeline := Some(Longer(t.pipeline.value, OrZero(t.tasks) + OrZero(t.finally))))
  }

  /** ApplyTaskTimeoutMitigation, for a task that has a timeout. */
  function RaiseForTask(taskTimeout: int, t: TimeoutFields): TimeoutFields {
    Raised(if t.tasks.Some? then t.(tasks := Some(Longer(t.tasks.value, taskTimeout))) else t)
  }

  /** ApplyPipelineTimeoutMitigation. */
  function RaisePipeline(t: TimeoutFields, mitigation: TimeoutIncrement): TimeoutFields {
    Raised(TimeoutFields(
             if t.pipeline.Some? then Some(AddCapped(t.pipeline.value, mitigation)) else None,
             if t.tasks.Some? then Some(AddCapped(t.tasks.value, mitigation)) else None,
             t.finally))
  }

  /** Raising the pipeline timeout gives the least timeouts above the given ones that obey the rule. */
  lemma RaisedIsLeast(t: TimeoutFields, other: TimeoutFields)
    requires t.pipeline.Some?
    ensures Covers(Raised(t)) && Raised(t) == t.(pipeline := Raised(t).pipeline)
    ensures Raised(t).pipeline.value >= t.pipeline.value
    ensures Covers(other) && other == t.(pipeline := other.pipeline) && other.pipeline.value >= t.pipeline.value ==>
              other.pipeline.value >= Raised(t).pipeline.value
  {
  }

  /** The entry of a task with an override applied: step specs and task resources exclude each other. */
  function Overridden(s: TaskRunSpec, o: TaskRunSpec): TaskRunSpec {
    var s := if o.steps != [] then s.(steps := o.steps, compute := None) else s;
    var s := if o.compute.Some? then s.(compute := o.compute, steps := []) else s;
    if o.timeout.Some? then s.(timeout := o.timeout) else s
  }

  /** The first entry of the task is overridden; without one, the override is appended. */
  function Merge(specs: seq<TaskRunSpec>, o: TaskRunSpec): seq<TaskRunSpec> {
    if specs == [] then [o]
    else if specs[0].task == o.task then [Overridden(specs[0], o)] + specs[1..]
    else [specs[0]] + Merge(specs[1..], o)
  }

  /** MergeTaskRunSpecs: overrides apply in order, those without a task name not at all. */
  function MergeAll(specs: seq<TaskRunSpec>, overrides: seq<TaskRunSpec>): seq<TaskRunSpec> {
    if overrides == [] then specs
    else
      var last := |overrides| - 1;
      var before := MergeAll(specs, overrides[..last]);
      if overrides[last].task == "" then before else Merge(before, overrides[last])
  }

  lemma {:induction false} MergeAt(specs: seq<TaskRunSpec>, o: TaskRunSpec, i: nat)
    requires i <= |specs| && forall k | 0 <= k < i :: !HasName(specs[k], o.task)
    ensures i == |specs| ==> Merge(specs, o) == specs + [o]
    ensures i < |specs| && HasName(specs[i], o.task) ==> Merge(specs, o) == specs[i := Overridden(specs[i], o)]
  {
    if i > 0 {
      assert !HasName(specs[0], o.task);
      assert forall k | 0 <= k < i - 1 :: specs[1..][k] == specs[k + 1];
      MergeAt(specs[1..], o, i - 1);
      assert specs == [specs[0]] + specs[1..];
    }
  }

  method MergeTaskRunSpecs(original: seq<TaskRunSpec>, overrides: seq<TaskRunSpec>) returns (result: seq<TaskRunSpec>)
    ensures result == MergeAll(original, overrides)
  {
    result := original;
    for n := 0 to |overrides|
      invariant result == MergeAll(original, overrides[..n])
    {
      var o := overrides[n];
      assert overrides[..n + 1][..n] == overrides[..n];
      if o.task == "" {
        continue;
      }
      ghost var before := result;
      var found := false;
      for i := 0 to |result|
        invariant !found && result == before
        invariant forall k | 0 <= k < i :: !HasName(before[k], o.task)
      {
        if result[i].task != o.task {
          continue;
        }
        found := true;
        if o.steps != [] {
          result := result[i := result[i].(steps := o.steps, compute := None)];
        }
        if o.compute.Some? {
          result := result[i := result[i].(compute := o.compute, steps := [])];
        }
        if o.timeout.Some? {
          result := result[i := result[i].(timeout := o.timeout)];
        }
        MergeAt(before, o, i);
        break;
      }
      if !found {
        MergeAt(before, o, |before|);
        result := result + [o];
      }
    }
    assert overrides[..|overrides|] == overrides;
  }

  function FindStep(steps: seq<StepSpec>, name: string): Option<Resources> {
    if steps == [] then None
    else if steps[0].name == name then Some(steps[0].resources)
    else FindStep(steps[1..], name)
  }

  /** The override of a step's resources in the TaskRunSpecs, looked for in the step specs and the
      task resources of every entry of the task. */
  function StepOverride(specs: seq<TaskRunSpec>, task: string, step: string): Option<Resources> {
    if specs == [] then None
    else if specs[0].task != task then StepOverride(specs[1..], task, step)
    else if FindStep(specs[0].steps, step).Some? then FindStep(specs[0].steps, step)
    else if specs[0].compute.Some? then specs[0].compute
    else StepOverride(specs[1..], task, step)
  }

  function StepResources(specs: seq<TaskRunSpec>, taskRun: Option<TaskRun>, task: string, step: string)
    : Option<Resources>
  {
    var override := StepOverride(specs, task, step);
    if override.Some? then override
    else if taskRun.Some? then FindStep(taskRun.value.steps, step)
    else None
  }

  function TimeoutOverride(specs: seq<TaskRunSpec>, task: string): Option<int> {
    if specs == [] then None
    else if specs[0].task == task && specs[0].timeout.Some? then specs[0].timeout
    else TimeoutOverride(specs[1..], task)
  }

  function TaskTimeout(specs: seq<TaskRunSpec>, taskRun: Option<TaskRun>, task: string): Option<int> {
    var override := TimeoutOverride(specs, task);
    if override.Some? then override
    else if taskRun.Some? then taskRun.value.timeout
    else None
  }

  method FindStepSpec(steps: seq<StepSpec>, name: string) returns (r: Option<Resources>)
    ensures r == FindStep(steps, name)
  {
    for i := 0 to |steps|
      invariant FindStep(steps, name) == FindStep(steps[i..], name)
    {
      if steps[i].name == name {
        return Some(steps[i].resources);
      }
    }
    return None;
  }

  method GetStepComputeResources(specs: seq<TaskRunSpec>, taskRun: Option<TaskRun>, task: string, step: string)
    returns (r: Option<Resources>)
    ensures r == StepResources(specs, taskRun, task, step)
  {
    for i := 0 to |specs|
      invariant StepOverride(specs, task, step) == StepOverride(specs[i..], task, step)
    {
      assert specs[i..][1..] == specs[i + 1..];
      if specs[i].task != task {
        continue;
      }
      r := FindStepSpec(specs[i].steps, step);
      if r.Some? {
        return;
      }
      if specs[i].compute.Some? {
        return specs[i].compute;
      }
    }
    if taskRun.Some? {
      r := FindStepSpec(taskRun.value.steps, step);
      return;
    }
    return None;
  }

  method GetTaskRunTimeout(specs: seq<TaskRunSpec>, taskRun: Option<TaskRun>, task: string) returns (r: Option<int>)
    ensures r == TaskTimeout(specs, taskRun, task)
  {
    for i := 0 to |specs|
      invariant TimeoutOverride(specs, task) == TimeoutOverride(specs[i..], task)
    {
      assert specs[i..][1..] == specs[i + 1..];
      if specs[i].task == task && specs[i].timeout.Some? {
        return specs[i].timeout;
      }
    }
    return if taskRun.Some? then taskRun.value.timeout else None;
  }

  /** Read after write and frame of one override, for any list of entries, duplicates included. */
  lemma {:induction false} MergeReads(specs: seq<TaskRunSpec>, o: TaskRunSpec, task: string, step: string)
    ensures o.timeout.Some? ==> TimeoutOverride(Merge(specs, o), o.task) == o.timeout
    ensures o.compute.None? && FindStep(o.steps, step).Some? ==>
              StepOverride(Merge(specs, o), o.task, step) == FindStep(o.steps, step)
    ensures o.compute.Some? && o.steps == [] ==> StepOverride(Merge(specs, o), o.task, step) == o.compute
    ensures task != o.task || o.timeout.None? ==>
              TimeoutOverride(Merge(specs, o), task) == TimeoutOverride(specs, task)
    ensures task != o.task || (o.steps == [] && o.compute.None?) ==>
              StepOverride(Merge(specs, o), task, step) == StepOverride(specs, task, step)
  {
    if specs != [] && specs[0].task != o.task {
      MergeReads(specs[1..], o, task, step);
      assert Merge(specs, o)[1..] == Merge(specs[1..], o);
    } else if specs != [] {
      assert Merge(specs, o)[1..] == specs[1..];
    } else {
      assert Merge(specs, o)[1..] == [];
    }
  }

  predicate DistinctTasks(specs: seq<TaskRunSpec>) {
    forall i, j | 0 <= i < j < |specs| :: specs[i].task != specs[j].task
  }

  /** Tekton rejects an entry with both step specs and task resources. */
  predicate Exclusive(s: TaskRunSpec) {
    s.steps == [] || s.compute.None?
  }

  predicate AllExclusive(specs: seq<TaskRunSpec>) {
    forall i | 0 <= i < |specs| :: Exclusive(specs[i])
  }

  function TaskNames(specs: seq<TaskRunSpec>): seq<string> {
    seq(|specs|, i requires 0 <= i < |specs| => specs[i].task)
  }

  /** The entries keep their places and names; a task that had no entry gets one at the end. */
  lemma MergeNames(specs: seq<TaskRunSpec>, o: TaskRunSpec)
    ensures o.task in TaskNames(specs) ==> TaskNames(Merge(specs, o)) == TaskNames(specs)
    ensures o.task !in TaskNames(specs) ==> Merge(specs, o) == specs + [o]
  {
    var i := FirstNamed(specs, o.task);
    MergeAt(specs, o, i);
    if i < |specs| {
      assert TaskNames(specs)[i] == o.task;
    }
  }

  lemma MergeKeepsDistinct(specs: seq<TaskRunSpec>, o: TaskRunSpec)
    requires DistinctTasks(specs)
    ensures DistinctTasks(Merge(specs, o))
  {
    var i := FirstNamed(specs, o.task);
    MergeAt(specs, o, i);
    if i == |specs| {
      assert forall k | 0 <= k < i :: !HasName(specs[k], o.task);
    } else {
      assert Overridden(specs[i], o).task == specs[i].task;
    }
  }

  lemma MergeKeepsExclusive(specs: seq<TaskRunSpec>, o: TaskRunSpec)
    requires AllExclusive(specs) && Exclusive(o)
    ensures AllExclusive(Merge(specs, o))
  {
    var i := FirstNamed(specs, o.task);
    MergeAt(specs, o, i);
    if i < |specs| {
      assert Exclusive(Overridden(specs[i], o));
    }
  }

  function FirstNamed(specs: seq<TaskRunSpec>, task: string): (i: nat)
    ensures i <= |specs| && forall k | 0 <= k < i :: !HasName(specs[k], task)
    ensures i < |specs| ==> HasName(specs[i], task)
  {
    if specs == [] || specs[0].task == task then 0
    else
      var i := FirstNamed(specs[1..], task);
      assert forall k | 1 <= k < i + 1 :: specs[k] == specs[1..][k - 1];
      1 + i
  }

  /** Exclusivity and distinct names, over any list of overrides. */
  lemma {:induction false} MergeAllShape(specs: seq<TaskRunSpec>, overrides: seq<TaskRunSpec>)
    ensures DistinctTasks(specs) ==> DistinctTasks(MergeAll(specs, overrides))
    ensures AllExclusive(specs) && AllExclusive(overrides) ==> AllExclusive(MergeAll(specs, overrides))
  {
    if overrides != [] {
      var last := |overrides| - 1;
      MergeAllShape(specs, overrides[..last]);
      var before := MergeAll(specs, overrides[..last]);
      if DistinctTasks(specs) {
        MergeKeepsDistinct(before, overrides[last]);
      }
      if AllExclusive(specs) && AllExclusive(overrides) {
        assert AllExclusive(overrides[..last]);
        MergeKeepsExclusive(before, overrides[last]);
      }
    }
  }

  predicate Touches(o: TaskRunSpec, task: string) {
    o.task != "" && o.task == task
  }

  /** What no override names stays as it was. */
  lemma {:induction false} MergeAllFrame(specs: seq<TaskRunSpec>, overrides: seq<TaskRunSpec>, task: string, step: string)
    requires forall i | 0 <= i < |overrides| :: !Touches(overrides[i], task)
    ensures TimeoutOverride(MergeAll(specs, overrides), task) == TimeoutOverride(specs, task)
    ensures StepOverride(MergeAll(specs, overrides), task, step) == StepOverride(specs, task, step)
  {
    if overrides != [] {
      var last := |overrides| - 1;
      assert !Touches(overrides[last], task);
      MergeAllFrame(specs, overrides[..last], task, step);
      MergeReads(MergeAll(specs, overrides[..last]), overrides[last], task, step);
    }
  }

  /** The last override that names a task and sets its timeout is the one that is read back. */
  lemma {:induction false} LastTimeoutWins(specs: seq<TaskRunSpec>, overrides: seq<TaskRunSpec>, n: nat)
    requires n < |overrides| && overrides[n].task != "" && overrides[n].timeout.Some?
    requires forall i | n < i < |overrides| :: overrides[i].task != overrides[n].task || overrides[i].timeout.None?
    ensures TimeoutOverride(MergeAll(specs, overrides), overrides[n].task) == overrides[n].timeout
  {
    var last := |overrides| - 1;
    var before := MergeAll(specs, overrides[..last]);
    MergeReads(before, overrides[last], overrides[n].task, "");
    if n < last {
      LastTimeoutWins(specs, overrides[..last], n);
    }
  }

  /** A step override replaces the other step overrides of its task: with one entry per task,
      nothing is left of them, and those steps fall back to the TaskRun. */
  lemma OtherStepsFallBack(specs: seq<TaskRunSpec>, o: TaskRunSpec, step: string)
    requires DistinctTasks(specs)
    requires o.compute.None? && o.steps != [] && FindStep(o.steps, step).None?
    ensures StepOverride(Merge(specs, o), o.task, step).None?
  {
    var i := FirstNamed(specs, o.task);
    MergeAt(specs, o, i);
    var merged := Merge(specs, o);
    forall k | 0 <= k < |merged|
      ensures merged[k].task == o.task ==> merged[k].compute.None? && FindStep(merged[k].steps, step).None?
    {
    }
    NoStepOverride(merged, o.task, step);
  }

  lemma {:induction false} NoStepOverride(specs: seq<TaskRunSpec>, task: string, step: string)
    requires forall k | 0 <= k < |specs| ::
               specs[k].task == task ==> specs[k].compute.None? && FindStep(specs[k].steps, step).None?
    ensures StepOverride(specs, task, step).None?
  {
    if specs != [] {
      assert forall k | 0 <= k < |specs| - 1 :: specs[1..][k] == specs[k + 1];
      NoStepOverride(specs[1..], task, step);
    }
  }

  /** The quantity is the least whole one that is not below the exact product, or the cap if that is less. */
  ghost predicate ScaledTo(before: nat, after: nat, m: Fraction, cap: Option<nat>) {
    exists product: nat ::
      RoundedUp(before, product, m) && after == if cap.Some? && cap.value < product then cap.value else product
  }

  predicate RoundedUp(before: nat, product: nat, m: Fraction) {
    product * m.den >= before * m.num && (product > 0 ==> (product - 1) * m.den < before * m.num)
  }

  function CapOf(caps: Option<Resources>, ofLimits: bool): Option<nat> {
    if caps.None? then None
    else
      var q := if ofLimits then caps.value.limits else caps.value.requests;
      if "memory" in q then Some(q["memory"]) else None
  }

  /** Memory is scaled if it is there, and every other quantity stays. */
  ghost predicate OnlyMemoryScaled(before: Quantities, after: Quantities, m: Fraction, cap: Option<nat>) {
    && after.Keys == before.Keys
    && (forall name | name in before && name != "memory" :: after[name] == before[name])
    && ("memory" in before ==> ScaledTo(before["memory"], after["memory"], m, cap))
  }

  lemma ScaledExactly(q: Quantities, m: Fraction, caps: Option<Resources>, ofLimits: bool)
    requires m.num > 0 && m.den > 0
    ensures OnlyMemoryScaled(q, Scaled(q, m, caps, ofLimits), m, CapOf(caps, ofLimits))
  {
    if MEMORY in q {
      var product := Multiply(q[MEMORY], m);
      var after := Scaled(q, m, caps, ofLimits);
      assert after[MEMORY] ==
             if CapOf(caps, ofLimits).Some? && CapOf(caps, ofLimits).value < product
             then CapOf(caps, ofLimits).value else product;
      assert RoundedUp(q[MEMORY], product, m);
      hide Multiply;
      assert ScaledTo(q[MEMORY], after[MEMORY], m, CapOf(caps, ofLimits));
    }
  }

  /** A memory mitigation applies exactly when there are resources with a memory quantity and the
      multiplier is a positive number; it scales the memory limit and the memory request, each under
      its own cap, and nothing else. */
  lemma MemoryExactly(current: Option<Resources>, mitigation: MemoryMitigation)
    ensures var r := ApplyMemory(current, mitigation);
            && (r.Some? <==>
                  && current.Some? && ("memory" in current.value.limits || "memory" in current.value.requests)
                  && mitigation.multiplier.Some?
                  && mitigation.multiplier.value.num > 0 && mitigation.multiplier.value.den > 0)
            && (r.Some? ==>
                  && OnlyMemoryScaled(current.value.limits, r.value.limits, mitigation.multiplier.value,
                                      CapOf(mitigation.caps, true))
                  && OnlyMemoryScaled(current.value.requests, r.value.requests, mitigation.multiplier.value,
                                      CapOf(mitigation.caps, false)))
  {
    if current.Some? && Usable(mitigation) {
      ScaledExactly(current.value.limits, mitigation.multiplier.value, mitigation.caps, true);
      ScaledExactly(current.value.requests, mitigation.multiplier.value, mitigation.caps, false);
    }
    hide Scaled, OnlyMemoryScaled;
  }

  /** A merged entry: what the override sets is taken over, step specs and task resources replace
      each other, and everything else of the entry and of the other entries stays. */
  lemma MergedEntry(specs: seq<TaskRunSpec>, o: TaskRunSpec, i: nat)
    requires i < |specs| && specs[i].task == o.task && forall k | 0 <= k < i :: specs[k].task != o.task
    ensures var merged := Merge(specs, o);
            && |merged| == |specs|
            && (forall k | 0 <= k < |specs| && k != i :: merged[k] == specs[k])
            && merged[i].task == specs[i].task && merged[i].rest == specs[i].rest
            && merged[i].timeout == (if o.timeout.Some? then o.timeout else specs[i].timeout)
            && merged[i].steps == (if o.compute.Some? then [] else if o.steps != [] then o.steps else specs[i].steps)
            && merged[i].compute ==
               (if o.compute.Some? then o.compute else if o.steps != [] then None else specs[i].compute)
  {
    assert forall k | 0 <= k < i :: !HasName(specs[k], o.task);
    MergeAt(specs, o, i);
  }

  predicate Times(s: TaskRunSpec, task: string) {
    s.task == task && s.timeout.Some?
  }

  /** The timeout that is read is that of the first entry of the task that has one. */
  lemma {:induction false} TimeoutOverrideExactly(specs: seq<TaskRunSpec>, task: string, i: nat)
    requires i <= |specs| && forall k | 0 <= k < i :: !Times(specs[k], task)
    ensures i < |specs| && Times(specs[i], task) ==> TimeoutOverride(specs, task) == specs[i].timeout
    ensures i == |specs| ==> TimeoutOverride(specs, task).None?
  {
    if i > 0 {
      assert !Times(specs[0], task);
      assert forall k | 0 <= k < i - 1 :: specs[1..][k] == specs[k + 1];
      TimeoutOverrideExactly(specs[1..], task, i - 1);
    }
  }

  predicate Named(s: StepSpec, name: string) {
    s.name == name
  }

  lemma {:induction false} FindStepExactly(steps: seq<StepSpec>, name: string, i: nat)
    requires i <= |steps| && forall k | 0 <= k < i :: !Named(steps[k], name)
    ensures i < |steps| && Named(steps[i], name) ==> FindStep(steps, name) == Some(steps[i].resources)
    ensures i == |steps| ==> FindStep(steps, name).None?
  {
    if i > 0 {
      assert !Named(steps[0], name);
      assert forall k | 0 <= k < i - 1 :: steps[1..][k] == steps[k + 1];
      FindStepExactly(steps[1..], name, i - 1);
    }
  }

  predicate Answers(s: TaskRunSpec, task: string, step: string) {
    s.task == task && (FindStep(s.steps, step).Some? || s.compute.Some?)
  }

  /** The resources that are read are those of the first entry of the task that has any for the
      step: its step spec, or else its task resources. */
  lemma {:induction false} StepOverrideExactly(specs: seq<TaskRunSpec>, task: string, step: string, i: nat)
    requires i <= |specs| && forall k | 0 <= k < i :: !Answers(specs[k], task, step)
    ensures i < |specs| && Answers(specs[i], task, step) ==>
              StepOverride(specs, task, step) ==
              if FindStep(specs[i].steps, step).Some? then FindStep(specs[i].steps, step) else specs[i].compute
    ensures i == |specs| ==> StepOverride(specs, task, step).None?
  {
    if i > 0 {
      assert !Answers(specs[0], task, step);
      assert forall k | 0 <= k < i - 1 :: specs[1..][k] == specs[k + 1];
      StepOverrideExactly(specs[1..], task, step, i - 1);
    }
  }

  /** Without an override, the TaskRun decides. */
  lemma FallsBack(specs: seq<TaskRunSpec>, taskRun: Option<TaskRun>, task: string, step: string)
    ensures TimeoutOverride(specs, task).Some? ==> TaskTimeout(specs, taskRun, task) == TimeoutOverride(specs, task)
    ensures StepOverride(specs, task, step).Some? ==>
              StepResources(specs, taskRun, task, step) == StepOverride(specs, task, step)
    ensures TimeoutOverride(specs, task).None? ==>
              TaskTimeout(specs, taskRun, task) == if taskRun.Some? then taskRun.value.timeout else None
    ensures StepOverride(specs, task, step).None? ==>
              StepResources(specs, taskRun, task, step) ==
              if taskRun.Some? then FindStep(taskRun.value.steps, step) else None
  {
  }
}
