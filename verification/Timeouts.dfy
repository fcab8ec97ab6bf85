/** The timeouts of a PipelineRun, and how they are made to obey pipeline >= tasks + finally.
 *
 * Durations are nanoseconds, in unbounded arithmetic; a field that is not there is `None`, which
 * differs from a field holding zero.
 */
module Timeouts {
  import opened ReleaseStatus

  datatype TimeoutFields = TimeoutFields(pipeline: Option<int>, tasks: Option<int>, finally: Option<int>)

  const UNSET := TimeoutFields(None, None, None)

  const MINUTE: int := 60_000_000_000

  /** A field counts as set only if it is positive. */
  function Positive(d: Option<int>): Option<int> {
    if d.Some? && d.value > 0 then d else None
  }

  function OrZero(d: Option<int>): int {
    if d.Some? then d.value else 0
  }

  function Longer(a: int, b: int): int {
    if a < b then b else a
  }

  function Shorter(a: int, b: int): int {
    if a < b then a else b
  }

  /** Ten minutes, or half of a pipeline timeout of less than twenty minutes. */
  function Buffer(pipeline: int): int {
    if pipeline < 20 * MINUTE then pipeline / 2 else 10 * MINUTE
  }

  /** The rule that Tekton enforces. */
  predicate Covers(t: TimeoutFields) {
    t.pipeline.Some? && t.pipeline.value >= OrZero(t.tasks) + OrZero(t.finally)
  }

  /** What AdjustTimeouts returns: a consistent set of timeouts is kept, a missing pipeline timeout
      is computed, and a pipeline timeout that is there decides about the other two. */
  function Adjusted(t: TimeoutFields): TimeoutFields {
    var p, k, f := Positive(t.pipeline), Positive(t.tasks), Positive(t.finally);
    if p.None? && k.None? then
      if f.None? then t else UNSET
    else if p.None? then
      TimeoutFields(Some(k.value + if f.Some? then f.value else 10 * MINUTE), k, f)
    else if k.Some? && (if f.Some? then p.value >= k.value + f.value else k.value < p.value) then
      TimeoutFields(p, k, f)
    else if k.None? && f.Some? && f.value <= p.value / 2 then
      TimeoutFields(p, Some(p.value - f.value), f)
    else
      TimeoutFields(p, Some(p.value - Buffer(p.value)), if f.Some? then Some(Buffer(p.value)) else None)
  }

  method AdjustTimeouts(timeouts: Option<TimeoutFields>) returns (r: Option<TimeoutFields>)
    ensures r.Some? <==> timeouts.Some?
    ensures r.Some? ==> r.value == Adjusted(timeouts.value)
  {
    if timeouts.None? {
      return None;
    }
    var t := timeouts.value;
    var pipelineSet := t.pipeline.Some? && t.pipeline.value > 0;
    var tasksSet := t.tasks.Some? && t.tasks.value > 0;
    var finallySet := t.finally.Some? && t.finally.value > 0;
    if !pipelineSet && !tasksSet && !finallySet {
      return timeouts;
    }

    var result := UNSET;
    if pipelineSet {
      result := result.(pipeline := t.pipeline);
    }
    if tasksSet {
      result := result.(tasks := t.tasks);
    }
    if finallySet {
      result := result.(finally := t.finally);
    }

    var adjustmentBuffer := 10 * MINUTE;
    if pipelineSet && result.pipeline.value < 20 * MINUTE {
      adjustmentBuffer := result.pipeline.value / 2;
    }

    if pipelineSet && tasksSet && finallySet {
      if result.pipeline.value < result.tasks.value + result.finally.value {
        result := result.(tasks := Some(result.pipeline.value - adjustmentBuffer), finally := Some(adjustmentBuffer));
      }
    } else if pipelineSet && tasksSet {
      if result.tasks.value >= result.pipeline.value {
        result := result.(tasks := Some(result.pipeline.value - adjustmentBuffer));
      }
    } else if pipelineSet && finallySet {
      if result.finally.value <= result.pipeline.value / 2 {
        result := result.(tasks := Some(result.pipeline.value - result.finally.value));
      } else {
        result := result.(tasks := Some(result.pipeline.value - adjustmentBuffer), finally := Some(adjustmentBuffer));
      }
    } else if pipelineSet {
      result := result.(tasks := Some(result.pipeline.value - adjustmentBuffer));
    } else if tasksSet && !finallySet {
      result := result.(pipeline := Some(result.tasks.value + adjustmentBuffer));
    } else if !tasksSet && finallySet {
      return Some(UNSET);
    } else {
      result := result.(pipeline := Some(result.tasks.value + result.finally.value));
    }
    return Some(result);
  }

  predicate AnySet(t: TimeoutFields) {
    Positive(t.pipeline).Some? || Positive(t.tasks).Some? || Positive(t.finally).Some?
  }

  /** An adjusted result obeys Tekton's rule, unless it is empty, which happens exactly when only
      the finally timeout is set. A set pipeline timeout is never changed, and the time left to the
      tasks is positive. */
  lemma AdjustedCovers(t: TimeoutFields)
    requires AnySet(t)
    ensures Adjusted(t) == UNSET <==> Positive(t.pipeline).None? && Positive(t.tasks).None?
    ensures Adjusted(t) != UNSET ==> Covers(Adjusted(t)) && OrZero(Adjusted(t).tasks) > 0
    ensures Positive(t.pipeline).Some? ==> Adjusted(t).pipeline == t.pipeline
    ensures Positive(t.finally).None? ==> Adjusted(t).finally.None?
  {
  }

  /** Adjusting is done exactly when adjusting again changes nothing, and that fails in one case
      only: half of a pipeline timeout of one nanosecond leaves nothing to the finally tasks. */
  lemma IdempotentExactly(t: TimeoutFields)
    ensures Adjusted(Adjusted(t)) == Adjusted(t)
            <==> !(t.pipeline == Some(1) && Positive(t.finally).Some?)
  {
  }

  /** The timeouts that AdjustTimeouts leaves alone: all set and consistent, or consistent with the
      tasks strictly shorter than the pipeline when there is no finally timeout, or nothing set; and
      one nanosecond for both, which cannot be split. */
  lemma FixedExactly(t: TimeoutFields)
    ensures Adjusted(t) == t <==>
              || !AnySet(t)
              || (&& Covers(t) && OrZero(t.tasks) > 0
                  && (if t.finally.Some? then t.finally.value > 0 else t.tasks.value < t.pipeline.value))
              || t == TimeoutFields(Some(1), Some(1), None)
  {
  }

  /** WithTimeouts: empty timeouts give way to the defaults. */
  function WithTimeouts(timeouts: Option<TimeoutFields>, defaults: TimeoutFields): (r: TimeoutFields)
    ensures r == UNSET ==> defaults == UNSET
  {
    if timeouts.None? || timeouts.value == UNSET then defaults else timeouts.value
  }

  /** The timeouts of a created run obey the rule as soon as its pipeline or tasks timeout was
      asked for; a finally timeout alone is dropped in favour of the defaults. */
  lemma CreatedCovers(t: TimeoutFields, defaults: TimeoutFields)
    requires AnySet(t)
    ensures var created := WithTimeouts(Some(Adjusted(t)), defaults);
            if Positive(t.pipeline).Some? || Positive(t.tasks).Some? then Covers(created) else created == defaults
  {
  }

  /** The result for every set of timeouts, in numbers. Ten minutes are 600_000_000_000 nanoseconds;
      `b` is what a pipeline timeout gives away when it has to be split. */
  lemma AdjustedExactly(t: TimeoutFields)
    ensures var p, k, f := OrZero(t.pipeline), OrZero(t.tasks), OrZero(t.finally);
            var b := if p < 1_200_000_000_000 then p / 2 else 600_000_000_000;
            var r := Adjusted(t);
            && (p <= 0 && k <= 0 && f <= 0 ==> r == t)
            && (p <= 0 && k <= 0 && f > 0 ==> r == TimeoutFields(None, None, None))
            && (p <= 0 && k > 0 && f <= 0 ==> r == TimeoutFields(Some(k + 600_000_000_000), Some(k), None))
            && (p <= 0 && k > 0 && f > 0 ==> r == TimeoutFields(Some(k + f), Some(k), Some(f)))
            && (p > 0 && k <= 0 && f <= 0 ==> r == TimeoutFields(Some(p), Some(p - b), None))
            && (p > 0 && k <= 0 && f > 0 ==>
                  r == if 2 * f <= p then TimeoutFields(Some(p), Some(p - f), Some(f))
                       else TimeoutFields(Some(p), Some(p - b), Some(b)))
            && (p > 0 && k > 0 && f <= 0 ==>
                  r == if k < p then TimeoutFields(Some(p), Some(k), None)
                       else TimeoutFields(Some(p), Some(p - b), None))
            && (p > 0 && k > 0 && f > 0 ==>
                  r == if k + f <= p then TimeoutFields(Some(p), Some(k), Some(f))
                       else TimeoutFields(Some(p), Some(p - b), Some(b)))
  {
  }

  /** Missing timeouts and timeouts with nothing set give way to the defaults, all others do not. */
  lemma DefaultsExactly(timeouts: Option<TimeoutFields>, defaults: TimeoutFields)
    ensures timeouts.None? || timeouts.value == TimeoutFields(None, None, None) ==>
              WithTimeouts(timeouts, defaults) == defaults
    ensures timeouts.Some? && timeouts.value != TimeoutFields(None, None, None) ==>
              WithTimeouts(timeouts, defaults) == timeouts.value
  {
  }
}
