/** What each decision of the InfraStack reconciler rests on, field by field: the verdict on a Plan,
    the Apply it creates, the Plan it goes on using, and the writes a release needs. */
module StackDecisions {
  import opened Api
  import opened RunHistory
  import opened StackLifecycle
  import opened StackSafety
  import Admission
  import AdmissionProofs

  // ------------------------------------------------------------ convergence

  /** A convergence is recorded exactly when the Plan is complete, the run that ended it has its terminal
      result and target discovery, and source bundle, backend, effective inputs, execution identity and
      target are all known. */
  lemma ConvergedExactly(stack: InfraStack, source: TerraformRun, terminal: TerraformRun)
    ensures AdmissionProofs.ConvergenceClosure(stack, source, terminal).Some? <==>
      && AdmissionProofs.Complete(source.status)
      && terminal.status.terminalRef != "" && terminal.status.terminalDigest != NoDigest
      && terminal.status.targetDiscoveryRef != "" && terminal.status.targetDiscoveryDigest != NoDigest
      && ((source.status.sourceBundleRef != "" && source.status.sourceBundleDigest != NoDigest)
          || (source.spec.source.kind == RetainedBundle && source.spec.source.ref != "" && source.spec.source.digest != NoDigest))
      && (if source.status.backendRef != "" then source.status.backendDigest != NoDigest
          else source.spec.backendArtifactRef != "" && source.spec.backendArtifactDigest != NoDigest)
      && (terminal.status.effectiveInputDigest != NoDigest || source.status.effectiveInputDigest != NoDigest
          || source.spec.effectiveInputDigest != NoDigest)
      && stack.spec.executionIdentity.provider != "" && stack.spec.targetIdentity.provider != ""
  {
  }

  // ------------------------------------------------------------ the verdict

  /** The condition a Plan without an Apply leads to. */
  predicate Follows(s: StackState, plan: TerraformRun, destroy: bool, ch: Chance, v: Verdict) {
    match plan.status.outcome
    case NoChange =>
      if destroy then
        v.status == (if PlanGone(plan.status) then IsTrue else IsFalse)
        && v.reason == (if PlanGone(plan.status) then InfrastructureRemoved else DestroyEvidencePending)
      else if !ch.discovered then (v.status, v.reason) == (IsFalse, TargetDiscoveryRejected)
      else if AdmissionProofs.ConvergenceClosure(s.stack, plan, plan).None? then (v.status, v.reason) == (IsFalse, ConvergenceEvidencePending)
      else (v.status, v.reason) == (IsTrue, InfrastructureReady) && v.closure == AdmissionProofs.ConvergenceClosure(s.stack, plan, plan)
    case ChangesPresent => true
    case Failed => (v.status, v.reason) == (IsFalse, PlanFailed)
    case Indeterminate => (v.status, v.reason) == (IsUnknown, PlanIndeterminate)
    case _ => (v.status, v.reason) == (IsFalse, if plan.status.jobRef == None then PlanPending else PlanRunning)
  }

  lemma VerdictFollows(s: StackState, at: Sighting, existing: Option<Sighting>, destroy: bool, ch: Chance)
    requires InRange(s, at) && (existing.Some? ==> InRange(s, existing.value))
    ensures Follows(s, ReadRun(s, at), destroy, ch, JudgePlan(s, at, existing, destroy, ch))
  {
  }

  /** The condition that the Apply of a Plan leads to. */
  lemma ApplyVerdictFollows(s: StackState, plan: TerraformRun, apply: TerraformRun, destroy: bool, ch: Chance)
    ensures var v, closure := ApplyVerdict(s, plan, apply, destroy, ch), AdmissionProofs.ConvergenceClosure(s.stack, plan, apply);
      match apply.status.outcome
      case Succeeded =>
        if destroy then v.reason == (if ApplyGone(apply.status) then InfrastructureRemoved else DestroyEvidencePending)
        else && v.reason == (if !ch.discovered then TargetDiscoveryRejected else if closure.None? then ConvergenceEvidencePending else InfrastructureReady)
             && v.applied == Some(apply.key.name) && (v.reason == InfrastructureReady ==> v.closure == closure)
      case Indeterminate => (v.status, v.reason) == (IsUnknown, ApplyIndeterminate)
      case Failed => (v.status, v.reason) == (IsFalse, ApplyFailed)
      case Rejected => (v.status, v.reason) == (IsFalse, ApplyFailed)
      case _ => (v.status, v.reason) == (IsFalse, Applying)
    ensures var v := ApplyVerdict(s, plan, apply, destroy, ch);
      v.status == IsTrue <==> v.reason in {InfrastructureReady, InfrastructureRemoved}
  {
  }

  // ------------------------------------------------------- Plans and Applies

  /** A Plan goes on being used exactly while it has not failed, been rejected, superseded or left in
      doubt, and has not expired. */
  lemma PlanReusedExactly(s: StackState, at: Sighting, spec: Option<RunSpec>, ch: Chance)
    requires InRange(s, at)
    ensures EnsurePlan(s, Some(at), spec, ch) == Use(s, at) <==>
      var st := ReadRun(s, at).status;
      && st.outcome !in {Failed, Indeterminate, Rejected, Outcome.Expired, Outcome.Superseded}
      && (st.planExpiresAt.Some? ==> s.now < st.planExpiresAt.value)
  {
    if PlanStale(ReadRun(s, at).status, s.now) {
      assert EnsurePlan(s, Some(at), spec, ch) != Use(s, at) by {
        if spec.Some? && StackLifecycle.Current(s, at) { assert SupersedePlan(s, at.uid).runs[at.uid] != s.runs[at.uid]; }
      }
    }
  }

  /** A complete Plan with changes of this stack and generation, unexpired, that no Apply claims yet,
      with an approval that repeats all it says; and a fence that is down unless this is a Destroy. */
  ghost predicate Due(s: StackState, p: string, n: int, ch: Chance, spec: RunSpec) {
    && p in s.runs && 0 <= n < |s.runs[p].versions| && ch.approval.Some?
    && var plan, st, a := ReadAt(s.runs[p], n), s.runs[p].versions[n], ch.approval.value;
       && plan.spec.operation == Plan && st.outcome == ChangesPresent && AdmissionProofs.Complete(st)
       && st.planExpiresAt.Some? && s.now < st.planExpiresAt.value
       && a.uid != "" && a.key.ns == plan.key.ns && AdmissionProofs.Approves(a, plan)
       && (plan.spec.stackName, plan.spec.stackGeneration) == (s.stack.key.name, s.stack.generation)
       && (s.stack.spec.mutationFence ==> plan.spec.planMode == Destroy)
       && plan.spec.executionRoleARN == s.stack.spec.executionIdentity.roleARN
       && spec == Admission.BuildApplyRun(s.stack, plan, a)
       && forall v | IsApply(s.runs, v) :: s.runs[v].run.spec.planRunUID != plan.uid
  }

  lemma EnsuringDue(s: StackState, plan: TerraformRun, spec: RunSpec, destroy: bool, ch: Chance, u: string)
    requires u in EnsureApply(s, plan, spec, destroy, ch).state.runs && u !in s.runs
    ensures EnsureApply(s, plan, spec, destroy, ch).state.runs[u].run.spec == spec
    ensures forall v | IsApply(s.runs, v) :: s.runs[v].run.spec.planRunUID != plan.uid
  {
    forall v | IsApply(s.runs, v) ensures s.runs[v].run.spec.planRunUID != plan.uid { assert !AppliesPlan(s.runs[v], plan.uid); }
  }

  lemma JudgingDue(s: StackState, at: Sighting, existing: Option<Sighting>, destroy: bool, ch: Chance, u: string)
    requires InRange(s, at) && (existing.Some? ==> InRange(s, existing.value))
    requires u in JudgePlan(s, at, existing, destroy, ch).state.runs && u !in s.runs
    ensures Due(s, at.uid, at.seen, ch, JudgePlan(s, at, existing, destroy, ch).state.runs[u].run.spec)
  {
    var plan := ReadRun(s, at);
    var spec := Admission.BuildApplyRun(s.stack, plan, ch.approval.value);
    EnsuringDue(s, plan, spec, destroy, ch, u);
  }

  lemma UsingDue(s: StackState, at: Sighting, existing: Option<Sighting>, destroy: bool, ch: Chance, u: string)
    requires InRange(s, at) && u in UsePlan(s, at, existing, destroy, ch).runs && u !in s.runs
    ensures Due(s, at.uid, at.seen, ch, UsePlan(s, at, existing, destroy, ch).runs[u].run.spec)
  {
    var found := if existing.Some? && InRange(s, existing.value) then existing else None;
    ConcludingMakes(JudgePlan(s, at, found, destroy, ch), s.runs[at.uid].run.key.name, destroy, ch);
    JudgingDue(s, at, found, destroy, ch, u);
  }

  /** The run is new, and an Apply. */
  predicate NewApply(s: StackState, t: StackState, u: string) { u in t.runs && u !in s.runs && t.runs[u].run.spec.operation == Apply }

  lemma PlanningDue(s: StackState, destroy: bool, scan: Scan, ch: Chance, u: string)
    requires ScanInRange(s, scan) && (destroy <==> Destroying(s.stack)) && NewApply(s, ReconcilePlan(s, destroy, scan, ch), u)
    ensures scan.latest.Some? && Due(s, scan.latest.value.uid, scan.latest.value.seen, ch, ReconcilePlan(s, destroy, scan, ch).runs[u].run.spec)
  {
    var spec := NewPlanSpec(s, destroy, ch);
    NewPlanFits(s, destroy, ch);
    EnsuringMakes(s, scan.latest, spec, ch, u);
    EnsuredApply(s, scan.latest, spec, ch);
    var e := EnsurePlan(s, scan.latest, spec, ch);
    if e.Use? && InRange(e.state, e.at) {
      if u in e.state.runs {
        UsingMakes(e.state, e.at, scan.existing, destroy, ch, u);
      } else {
        UsingDue(e.state, e.at, scan.existing, destroy, ch, u);
      }
    }
  }

  lemma ConditionMakesNothing(s: StackState, status: CondStatus, reason: ReadyReason, remove: bool, renewed: bool, ch: Chance)
    ensures SetCondition(s, status, reason, remove, renewed, ch).runs == s.runs
  {
  }

  lemma DestroyDue(s: StackState, scan: Scan, ch: Chance, u: string)
    requires ScanInRange(s, scan) && Destroying(s.stack) && NewApply(s, ReconcileDestroy(s, scan, ch), u)
    ensures scan.latest.Some? && Due(s, scan.latest.value.uid, scan.latest.value.seen, ch, ReconcileDestroy(s, scan, ch).runs[u].run.spec)
  {
    ConditionMakesNothing(s, IsTrue, InfrastructureRemoved, true, false, ch);
    ConditionMakesNothing(s, IsTrue, InfrastructureRemoved, true, true, ch);
    ConditionMakesNothing(s, if scan.hold.DeletionHeld? then IsFalse else IsUnknown, scan.hold, false, true, ch);
    ConditionMakesNothing(s, IsFalse, RecoveryRequired, false, true, ch);
    assert ReconcileDestroy(s, scan, ch) == ReconcilePlan(s, true, scan, ch);
    PlanningDue(s, true, scan, ch, u);
  }

  lemma PassDue(s: StackState, scan: Scan, ch: Chance, u: string)
    requires ScanInRange(s, scan) && NewApply(s, ReconcileStack(s, scan, ch), u)
    ensures scan.latest.Some? && Due(s, scan.latest.value.uid, scan.latest.value.seen, ch, ReconcileStack(s, scan, ch).runs[u].run.spec)
  {
    ConditionMakesNothing(s, IsFalse, MutationFence, false, true, ch);
    if Destroying(s.stack) {
      if s.stack.spec.mutationFence { DestroyDue(s, scan, ch, u); }
    } else if !s.stack.spec.mutationFence && (s.stack.deleting || s.stack.finalizer) {
      PlanningDue(s, false, scan, ch, u);
    }
  }

  /** Whatever the lists show, a pass creates an Apply only when one is due. */
  lemma ApplyIsDue(s: StackState, step: Step, u: string)
    requires NewApply(s, Next(s, step), u)
    ensures step.Reconciled? && step.scan.latest.Some?
    ensures Due(s, step.scan.latest.value.uid, step.scan.latest.value.seen, step.ch, Next(s, step).runs[u].run.spec)
  {
    if step.Reconciled? && Reads(s, step.lists, step.scan) { PassDue(s, step.scan, step.ch, u); }
  }

  // ----------------------------------------------------------------- release

  lemma ConditionNeedsWrites(s: StackState, status: CondStatus, reason: ReadyReason, remove: bool, renewed: bool, ch: Chance)
    requires Releases(s, SetCondition(s, status, reason, remove, renewed, ch))
    ensures status == IsTrue && ch.evidence == Done && ch.finalizer != Failing
  {
  }

  /** The finalizer goes only in a fenced Destroy, after the destroy evidence was stored. */
  lemma ReleaseNeedsWrites(s: StackState, step: Step)
    requires Releases(s, Next(s, step))
    ensures step.Reconciled? && step.ch.evidence == Done && step.ch.finalizer != Failing
    ensures s.stack.spec.mutationFence && (s.stack.spec.desiredState == DestroyRequested || s.stack.deleting)
  {
    if step.Reconciled? && Reads(s, step.lists, step.scan) { PassNeedsWrites(s, step.scan, step.ch); }
  }

  lemma ConcludeNeedsWrites(v: Verdict, planName: string, destroy: bool, ch: Chance)
    requires Releases(v.state, Conclude(v, planName, destroy, ch))
    ensures destroy && ch.evidence == Done && ch.finalizer != Failing
  {
  }

  lemma PlanNeedsWrites(s: StackState, destroy: bool, scan: Scan, ch: Chance)
    requires ScanInRange(s, scan) && Releases(s, ReconcilePlan(s, destroy, scan, ch))
    ensures destroy && ch.evidence == Done && ch.finalizer != Failing
  {
    var spec := NewPlanSpec(s, destroy, ch);
    var e := EnsurePlan(s, scan.latest, spec, ch);
    EnsuringKeepsStack(s, scan.latest, spec, ch);
    if e.Use? && InRange(e.state, e.at) {
      var found := if scan.existing.Some? && InRange(e.state, scan.existing.value) then scan.existing else None;
      JudgingKeepsStack(e.state, e.at, found, destroy, ch);
      ConcludeNeedsWrites(JudgePlan(e.state, e.at, found, destroy, ch), e.state.runs[e.at.uid].run.key.name, destroy, ch);
    }
  }

  lemma EnsuringKeepsStack(s: StackState, latest: Option<Sighting>, spec: Option<RunSpec>, ch: Chance)
    requires latest.Some? ==> InRange(s, latest.value)
    ensures EnsurePlan(s, latest, spec, ch).state.stack == s.stack
  {
  }

  lemma JudgingKeepsStack(s: StackState, at: Sighting, existing: Option<Sighting>, destroy: bool, ch: Chance)
    requires InRange(s, at) && (existing.Some? ==> InRange(s, existing.value))
    ensures JudgePlan(s, at, existing, destroy, ch).state.stack == s.stack
  {
  }

  lemma PassNeedsWrites(s: StackState, scan: Scan, ch: Chance)
    requires ScanInRange(s, scan) && Releases(s, ReconcileStack(s, scan, ch))
    ensures ch.evidence == Done && ch.finalizer != Failing && Destroying(s.stack) && s.stack.spec.mutationFence
  {
    if Destroying(s.stack) {
      if s.stack.spec.mutationFence { DestroyNeedsWrites(s, scan, ch); }
    } else if s.stack.spec.mutationFence {
      ConditionReleases(s, IsFalse, MutationFence, false, true, ch);
    } else if s.stack.deleting || s.stack.finalizer {
      PlanNeedsWrites(s, false, scan, ch);
    }
  }

  lemma DestroyNeedsWrites(s: StackState, scan: Scan, ch: Chance)
    requires ScanInRange(s, scan) && Releases(s, ReconcileDestroy(s, scan, ch))
    ensures ch.evidence == Done && ch.finalizer != Failing
  {
    var st := s.stack.status;
    if !SaysRemoved(st) && !scan.unsettled && st.lastConverged.Some? && !st.lastConverged.value.snapshot.Undecodable? {
      PlanNeedsWrites(s, true, scan, ch);
    }
  }
}
