/** The list scans of reconcileDestroy and ensurePlanRun, as loops, and the stack object whose
    condition and finalizer setStackCondition assigns. */
module StackScans {
  import opened Api
  import opened RunHistory
  import opened StackLifecycle

  predicate IsApplyFor(r: TerraformRun, name: string) { r.spec.stackName == name && r.spec.operation.Apply? }

  /** Run `k` is no Apply of the stack, or it has succeeded, was rejected, or failed without any doubt
      before it could change anything. */
  predicate DoesNotHold(list: seq<TerraformRun>, name: string, k: int)
    requires 0 <= k < |list|
  {
    list[k].spec.stackName == name && list[k].spec.operation == Apply ==>
      match list[k].status.outcome
      case Succeeded => true
      case Rejected => true
      case Failed => !list[k].status.mutationMayHaveOccurred && list[k].status.classification == "FailedPreMutation"
      case _ => false
  }

  predicate FirstToHold(list: seq<TerraformRun>, name: string, k: int) {
    0 <= k < |list| && !DoesNotHold(list, name, k) && forall m | 0 <= m < k :: DoesNotHold(list, name, m)
  }

  /** Why Destroy is held: the first Apply in the list that holds it decides, by its outcome. */
  method ScanApplies(list: seq<TerraformRun>, name: string) returns (hold: Option<ReadyReason>)
    ensures hold.None? <==> forall k | 0 <= k < |list| :: DoesNotHold(list, name, k)
    ensures hold.None? <==> forall k | 0 <= k < |list| && IsApplyFor(list[k], name) :: Settled(list[k].status)
    ensures hold.Some? ==> exists k :: (FirstToHold(list, name, k)
      && hold.value == if list[k].status.outcome in {Failed, Indeterminate} then RecoveryRequired else DeletionHeld)
  {
    for n := 0 to |list|
      invariant forall m | 0 <= m < n :: DoesNotHold(list, name, m)
      invariant forall m | 0 <= m < n && IsApplyFor(list[m], name) :: Settled(list[m].status)
    {
      var run := list[n];
      if run.spec.stackName != name || !run.spec.operation.Apply? { continue; }
      assert FirstToHold(list, name, n) <==> !Settled(run.status);
      if run.status.outcome.Indeterminate? || (run.status.outcome.Failed? && run.status.mutationMayHaveOccurred) {
        return Some(RecoveryRequired);
      }
      if !run.status.outcome.Succeeded? && !run.status.outcome.Failed? && !run.status.outcome.Rejected? {
        return Some(DeletionHeld);
      }
      if run.status.outcome.Failed? && run.status.classification != "FailedPreMutation" {
        return Some(RecoveryRequired);
      }
    }
    return None;
  }

  predicate IsAttempt(r: TerraformRun, stack: InfraStack, mode: PlanMode) {
    && r.spec.stackName == stack.key.name && r.spec.operation.Plan? && r.spec.planMode == mode
    && r.spec.stackGeneration == stack.generation
  }

  predicate IsForeignAttempt(r: TerraformRun, stack: InfraStack, mode: PlanMode) {
    IsAttempt(r, stack, mode) && HasForeignController(r.owner, stack.uid, "InfraStack")
  }

  /** The latest attempt; among equals the first in the list. A foreign attempt is an error. */
  method LatestAttempt(list: seq<TerraformRun>, stack: InfraStack, mode: PlanMode) returns (latest: Option<TerraformRun>, foreign: bool)
    ensures foreign <==> exists k | 0 <= k < |list| :: IsForeignAttempt(list[k], stack, mode)
    ensures foreign ==> exists k | 0 <= k < |list| ::
      list[k].owner.Some? && list[k].owner.value.kind == "InfraStack" && list[k].owner.value.uid != stack.uid
    ensures !foreign && latest.Some? ==>
      && (latest.value.spec.stackName, latest.value.spec.operation) == (stack.key.name, Plan)
      && (latest.value.spec.planMode, latest.value.spec.stackGeneration) == (mode, stack.generation)
    ensures forall k | 0 <= k < |list| && !foreign ::
      && list[k].spec.stackName == stack.key.name && list[k].spec.operation == Plan && list[k].spec.planMode == mode
      && list[k].spec.stackGeneration == stack.generation ==>
        && latest.Some? && list[k].created <= latest.value.created
        && (list[k].owner.Some? && list[k].owner.value.kind == "InfraStack" ==> list[k].owner.value.uid == stack.uid)
    ensures !foreign && latest.None? ==> forall k | 0 <= k < |list| :: !IsAttempt(list[k], stack, mode)
    ensures !foreign && latest.Some? ==> latest.value in list && IsAttempt(latest.value, stack, mode)
    ensures !foreign && latest.Some? ==> forall k | 0 <= k < |list| && IsAttempt(list[k], stack, mode) :: list[k].created <= latest.value.created
  {
    latest, foreign := None, false;
    for n := 0 to |list|
      invariant latest.None? ==> forall k | 0 <= k < n :: !IsAttempt(list[k], stack, mode)
      invariant latest.Some? ==> latest.value in list && IsAttempt(latest.value, stack, mode)
      invariant latest.Some? ==> forall k | 0 <= k < n && IsAttempt(list[k], stack, mode) :: list[k].created <= latest.value.created
      invariant forall k | 0 <= k < n :: !IsForeignAttempt(list[k], stack, mode)
    {
      if !IsAttempt(list[n], stack, mode) { continue; }
      if HasForeignController(list[n].owner, stack.uid, "InfraStack") { return latest, true; }
      if latest.None? || list[n].created > latest.value.created { latest := Some(list[n]); }
    }
  }

  /** `list` is what the cache shows of this stack's runs, in some order. */
  ghost predicate ListsRunsOf(name: string, listed: Runs, list: seq<TerraformRun>) {
    && (forall i | 0 <= i < |list| :: list[i].uid in listed && listed[list[i].uid].versions != []
                                      && list[i] == ReadAt(listed[list[i].uid], |listed[list[i].uid].versions| - 1))
    && (forall u | u in listed && listed[u].versions != [] :: ReadAt(listed[u], |listed[u].versions| - 1) in list)
    && (forall i | 0 <= i < |list| :: list[i].spec.stackName == name)
  }

  /** The loop over such a list decides what the machine's scan reports. */
  lemma SettledAsListed(name: string, listed: Runs, list: seq<TerraformRun>)
    requires ListsRunsOf(name, listed, list) && (forall u | u in listed :: listed[u].run.uid == u)
    ensures (forall k | 0 <= k < |list| && IsApplyFor(list[k], name) :: Settled(list[k].status))
            <==> forall u :: SettledAt(listed, u)
  {
    if forall u :: SettledAt(listed, u) {
      forall k | 0 <= k < |list| && IsApplyFor(list[k], name) ensures Settled(list[k].status) {
        assert SettledAt(listed, list[k].uid);
      }
    }
    if forall k | 0 <= k < |list| && IsApplyFor(list[k], name) :: Settled(list[k].status) {
      forall u ensures SettledAt(listed, u) {
        if u in listed && IsApplyRun(listed[u]) {
          var k :| 0 <= k < |list| && list[k] == ReadAt(listed[u], |listed[u].versions| - 1);
        }
      }
    }
  }

  /** The parts of the stack that setStackCondition assigns. */
  class StackObject {
    const generation: int
    const deleting: bool
    var status: StackStatus
    var finalizer: bool
    var gone: bool

    constructor (s: StackState)
      ensures generation == s.stack.generation && deleting == s.stack.deleting
      ensures status == s.stack.status && finalizer == s.stack.finalizer && gone == s.gone
    {
      generation, deleting := s.stack.generation, s.stack.deleting;
      status, finalizer, gone := s.stack.status, s.stack.finalizer, s.gone;
    }

    /** setStackCondition: the status first, the evidence next, the finalizer last. */
    method SetStackCondition(newStatus: CondStatus, reason: ReadyReason, removeFinalizer: bool, ch: Chance)
      modifies this
      ensures var st := old(status).(observedGeneration := generation, ready := Some(Condition(newStatus, reason, generation)));
        && status == (if StatusLands(old(status), st, ch) then st else old(status))
        && finalizer == (old(finalizer) && !FinalizerGoes(old(status), st, old(finalizer), removeFinalizer, ch))
        && gone == (old(gone) || (deleting && old(finalizer) && !finalizer))
      ensures old(finalizer) && !finalizer <==>
        && old(finalizer) && removeFinalizer && newStatus == IsTrue && ch.evidence == Done && ch.finalizer != Failing
        && (ch.status == Done
            || (old(status).ready == Some(Condition(newStatus, reason, generation)) && old(status).observedGeneration == generation))
      ensures status == old(status)
              || status == old(status).(observedGeneration := generation, ready := Some(Condition(newStatus, reason, generation)))
      ensures ch.status != Failing ==> status.ready == Some(Condition(newStatus, reason, generation)) && status.observedGeneration == generation
    {
      var st := status.(observedGeneration := generation, ready := Some(Condition(newStatus, reason, generation)));
      if status != st {
        if ch.status.Failing? { return; }
        status := st;
        if ch.status.AnswerLost? { return; }
      }
      if removeFinalizer && newStatus.IsTrue? && finalizer {
        if !ch.evidence.Done? || ch.finalizer.Failing? { return; }
        finalizer := false;
        if deleting { gone := true; }
      }
    }
  }
}
