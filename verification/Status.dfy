/** The persisted status of a Release, and the in-place updates of `Release`.
 *
 * A condition is abstracted from its (status, reason) pair to one of five values;
 * `Absent` stands for a condition type missing from the list.
 */
module ReleaseStatus {

  datatype Option<+T> = None | Some(value: T)

  /** The five pipeline phases, in the order in which a Release goes through them. */
  datatype Phase = TenantCollectors | ManagedCollectors | Tenant | Managed | Final

  datatype Cond = Absent | Progressing | Succeeded | Failed | Skipped {
    /** hasPhaseFinished: status True, or status False with a reason other than Progressing. */
    predicate Finished() {
      Succeeded? || Failed? || Skipped?
    }

    /** The condition status is True. */
    predicate IsTrue() {
      Succeeded? || Skipped?
    }
  }

  datatype AttemptStatus = AttemptProgressing | AttemptSucceeded | AttemptFailed

  datatype FailureReason = NoFailure | Error | OOMKill | TaskRunTimeout | PipelineRunTimeout {
    predicate Retriable() {
      OOMKill? || TaskRunTimeout? || PipelineRunTimeout?
    }
  }

  /** An entry of ManagedPipelineAttempts; `run` names the PipelineRun of the attempt. */
  datatype Attempt = Attempt(run: nat, status: AttemptStatus, reason: FailureReason, retryDisabled: bool) {
    predicate Done() {
      status.AttemptFailed? || status.AttemptSucceeded?
    }
  }

  datatype Conditions = Conditions(
    tenantCollectors: Cond,
    managedCollectors: Cond,
    tenant: Cond,
    managed: Cond,
    final: Cond,
    released: Cond,
    validated: Cond)

  datatype Status = Status(conds: Conditions, attempts: seq<Attempt>) {

    function Get(p: Phase): Cond {
      match p
      case TenantCollectors => conds.tenantCollectors
      case ManagedCollectors => conds.managedCollectors
      case Tenant => conds.tenant
      case Managed => conds.managed
      case Final => conds.final
    }

    function Set(p: Phase, c: Cond): Status {
      match p
      case TenantCollectors => this.(conds := conds.(tenantCollectors := c))
      case ManagedCollectors => this.(conds := conds.(managedCollectors := c))
      case Tenant => this.(conds := conds.(tenant := c))
      case Managed => this.(conds := conds.(managed := c))
      case Final => this.(conds := conds.(final := c))
    }

    predicate Finished(p: Phase) {
      Get(p).Finished()
    }

    /** The phase before `p` has finished; the first phase has none to wait for. */
    predicate PredecessorFinished(p: Phase) {
      match p
      case TenantCollectors => true
      case ManagedCollectors => conds.tenantCollectors.Finished()
      case Tenant => conds.managedCollectors.Finished()
      case Managed => conds.tenant.Finished()
      case Final => conds.managed.Finished()
    }

    predicate AllPhasesFinished() {
      && conds.tenantCollectors.Finished()
      && conds.managedCollectors.Finished()
      && conds.tenant.Finished()
      && conds.managed.Finished()
      && conds.final.Finished()
    }

    predicate HasPhaseFailed() {
      || conds.tenantCollectors.Failed?
      || conds.managedCollectors.Failed?
      || conds.tenant.Failed?
      || conds.managed.Failed?
      || conds.final.Failed?
    }

    predicate IsFailed() {
      conds.released.Failed?
    }

    predicate CurrentAttemptDone() {
      attempts != [] && attempts[|attempts| - 1].Done()
    }

    predicate CurrentAttemptFailed() {
      attempts != [] && attempts[|attempts| - 1].status.AttemptFailed?
    }

    predicate CurrentAttemptRetriable() {
      CurrentAttemptFailed() && attempts[|attempts| - 1].reason.Retriable()
    }

    /** GetManagedPipelineRetryCount: max(0, len(attempts) - 1). */
    function RetryCount(): nat {
      if attempts == [] then 0 else |attempts| - 1
    }

    /** `MarkReleaseFailed`: only a releasing Release can fail. */
    function FailRelease(): Status {
      if conds.released.Progressing? then this.(conds := conds.(released := Failed)) else this
    }

    /** Phase `p` is recorded as failed and takes the Release down with it. */
    function FailPhase(p: Phase): Status {
      Set(p, Failed).FailRelease()
    }

    /** A new attempt running PipelineRun `run` is recorded; the managed phase is progressing. */
    function StartAttempt(run: nat): Status {
      this.(attempts := attempts + [Attempt(run, AttemptProgressing, NoFailure, false)]).Set(Managed, Progressing)
    }

    function FinishAttempt(status: AttemptStatus, reason: FailureReason): Status
      requires attempts != []
    {
      var last := |attempts| - 1;
      this.(attempts := attempts[last := attempts[last].(status := status, reason := reason)])
    }

    function DisableRetry(): Status
      requires attempts != []
    {
      var last := |attempts| - 1;
      this.(attempts := attempts[last := attempts[last].(retryDisabled := true)])
    }
  }

  const EMPTY_STATUS := Status(Conditions(Absent, Absent, Absent, Absent, Absent, Absent, Absent), [])

  /** A JSON merge patch of the status, section 2 of RFC 7396: what does not differ from the
      baseline is left out of the patch, and a list that does differ is replaced as a whole. */
  function MergePatch(persisted: Status, baseline: Status, modified: Status): Status {
    Status(
      if modified.conds == baseline.conds then persisted.conds else modified.conds,
      if modified.attempts == baseline.attempts then persisted.attempts else modified.attempts)
  }

  datatype CondType = PhaseProcessed(phase: Phase) | Released | Validated

  /** The Release object held by the adapter; every method updates its status fields in place. */
  class Release {
    var conditions: map<CondType, Cond>
    var attempts: seq<Attempt>

    function Find(t: CondType): Cond
      reads this
    {
      if t in conditions then conditions[t] else Absent
    }

    /** The status as a value. */
    function View(): Status
      reads this
    {
      Status(
        Conditions(
          Find(PhaseProcessed(TenantCollectors)),
          Find(PhaseProcessed(ManagedCollectors)),
          Find(PhaseProcessed(Tenant)),
          Find(PhaseProcessed(Managed)),
          Find(PhaseProcessed(Final)),
          Find(Released),
          Find(Validated)),
        attempts)
    }

    /** A Release as read from the API server. */
    constructor (s: Status)
      ensures View() == s
    {
      new;
      Load(s);
    }

    /** The response of an API call is decoded into the object. */
    method Load(s: Status)
      modifies this
      ensures View() == s
    {
      conditions := map[
        PhaseProcessed(TenantCollectors) := s.conds.tenantCollectors,
        PhaseProcessed(ManagedCollectors) := s.conds.managedCollectors,
        PhaseProcessed(Tenant) := s.conds.tenant,
        PhaseProcessed(Managed) := s.conds.managed,
        PhaseProcessed(Final) := s.conds.final,
        Released := s.conds.released,
        Validated := s.conds.validated];
      attempts := s.attempts;
    }

    method SetCondition(t: CondType, c: Cond)
      modifies this`conditions
      ensures Find(t) == c
      ensures forall u :: u != t ==> Find(u) == old(Find(u))
    {
      conditions := conditions[t := c];
    }

    method MarkProcessing(p: Phase)
      modifies this`conditions
      ensures View() == if old(View()).Finished(p) then old(View()) else old(View()).Set(p, Progressing)
    {
      if Find(PhaseProcessed(p)).Finished() {
        return;
      }
      SetCondition(PhaseProcessed(p), Progressing);
    }

    method MarkProcessed(p: Phase)
      modifies this`conditions
      ensures View() == if old(View()).Get(p).Progressing? then old(View()).Set(p, Succeeded) else old(View())
    {
      if !Find(PhaseProcessed(p)).Progressing? || Find(PhaseProcessed(p)).Finished() {
        return;
      }
      SetCondition(PhaseProcessed(p), Succeeded);
    }

    method MarkProcessingFailed(p: Phase)
      modifies this`conditions
      ensures View() == if old(View()).Get(p).Progressing? then old(View()).Set(p, Failed) else old(View())
    {
      if !Find(PhaseProcessed(p)).Progressing? || Find(PhaseProcessed(p)).Finished() {
        return;
      }
      SetCondition(PhaseProcessed(p), Failed);
    }

    method MarkSkipped(p: Phase)
      modifies this`conditions
      ensures View() == if old(View()).Finished(p) then old(View()) else old(View()).Set(p, Skipped)
    {
      if Find(PhaseProcessed(p)).Finished() {
        return;
      }
      SetCondition(PhaseProcessed(p), Skipped);
    }

    method MarkReleasing()
      modifies this`conditions
      ensures View() == if old(View()).conds.released.Finished() then old(View())
                        else old(View()).(conds := old(View()).conds.(released := Progressing))
    {
      if Find(Released).Finished() {
        return;
      }
      SetCondition(Released, Progressing);
    }

    method MarkReleased()
      modifies this`conditions
      ensures View() == if old(View()).conds.released.Progressing?
                        then old(View()).(conds := old(View()).conds.(released := Succeeded))
                        else old(View())
    {
      if !Find(Released).Progressing? || Find(Released).Finished() {
        return;
      }
      SetCondition(Released, Succeeded);
    }

    method MarkReleaseFailed()
      modifies this`conditions
      ensures View() == old(View()).FailRelease()
    {
      if !Find(Released).Progressing? || Find(Released).Finished() {
        return;
      }
      SetCondition(Released, Failed);
    }

    /** A Validated condition is never skipped: it is True exactly when it has succeeded. */
    method MarkValidated()
      modifies this`conditions
      ensures View() == old(View()).(conds := old(View()).conds.(validated := Succeeded))
    {
      if Find(Validated).Succeeded? {
        return;
      }
      SetCondition(Validated, Succeeded);
    }

    method MarkValidationFailed()
      modifies this`conditions
      ensures View() == old(View()).(conds := old(View()).conds.(validated := Failed))
    {
      SetCondition(Validated, Failed);
    }

    method AppendAttempt(run: nat)
      modifies this`attempts
      ensures View() == old(View()).(attempts := old(attempts) + [Attempt(run, AttemptProgressing, NoFailure, false)])
    {
      attempts := attempts + [Attempt(run, AttemptProgressing, NoFailure, false)];
    }

    /** Blocked only by a succeeded or skipped managed phase: on its own, this method
        takes a failed managed phase back to progressing. */
    method MarkCurrentAttemptProcessing()
      modifies this
      ensures View() ==
              if old(View()).conds.managed.IsTrue() || old(attempts) == [] then old(View())
              else old(View()).FinishAttempt(AttemptProgressing, old(attempts)[|old(attempts)| - 1].reason)
                   .Set(Managed, Progressing)
    {
      if Find(PhaseProcessed(Managed)).IsTrue() {
        return;
      }
      if attempts == [] {
        return;
      }
      var last := |attempts| - 1;
      attempts := attempts[last := attempts[last].(status := AttemptProgressing)];
      SetCondition(PhaseProcessed(Managed), Progressing);
    }

    method MarkCurrentAttemptProcessed()
      modifies this
      ensures View() ==
              if !old(View()).conds.managed.Progressing? || old(View()).CurrentAttemptDone() || old(attempts) == []
              then old(View())
              else old(View()).FinishAttempt(AttemptSucceeded, old(attempts)[|old(attempts)| - 1].reason)
                   .Set(Managed, Succeeded)
    {
      if !Find(PhaseProcessed(Managed)).Progressing? || Find(PhaseProcessed(Managed)).Finished() {
        return;
      }
      if View().CurrentAttemptDone() || attempts == [] {
        return;
      }
      var last := |attempts| - 1;
      attempts := attempts[last := attempts[last].(status := AttemptSucceeded)];
      SetCondition(PhaseProcessed(Managed), Succeeded);
    }

    method MarkCurrentAttemptFailed(reason: FailureReason)
      modifies this
      ensures View() ==
              if !old(View()).conds.managed.Progressing? || old(View()).CurrentAttemptDone() || old(attempts) == []
              then old(View())
              else old(View()).FinishAttempt(AttemptFailed, reason)
    {
      if !Find(PhaseProcessed(Managed)).Progressing? || Find(PhaseProcessed(Managed)).Finished() {
        return;
      }
      if View().CurrentAttemptDone() || attempts == [] {
        return;
      }
      var last := |attempts| - 1;
      attempts := attempts[last := attempts[last].(status := AttemptFailed, reason := reason)];
    }

    method MarkCurrentAttemptRetryDisabled()
      modifies this`attempts
      ensures View() == if old(attempts) == [] then old(View()) else old(View()).DisableRetry()
    {
      if attempts == [] {
        return;
      }
      var last := |attempts| - 1;
      attempts := attempts[last := attempts[last].(retryDisabled := true)];
    }
  }
}
