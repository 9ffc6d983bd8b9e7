/** approvePlan of internal/console/server.go, and why what it accepts is admitted. */
module Console {
  import opened Api
  import opened Admission
  import AdmissionProofs
  import ArtifactStore

  datatype ApprovalRequest = ApprovalRequest(planRunUID: string, planDigest: Digest, contextDigest: Digest,
    effectiveInputDigest: Digest, planReportRef: string, planReportDigest: Digest)

  datatype Response = Accepted(approval: ChangeApproval) | NotFound | Conflict(code: Reason)

  predicate RequestMatches(q: ApprovalRequest, run: TerraformRun) {
    && q.planRunUID == run.uid && q.planDigest == run.status.planDigest
    && q.contextDigest == run.spec.contextDigest && q.effectiveInputDigest == run.status.effectiveInputDigest
    && q.planReportRef == run.status.planReportRef && q.planReportDigest == run.status.planReportDigest
  }

  /** The checks on the Plan itself. */
  function CheckRun(q: ApprovalRequest, run: TerraformRun, now: nat): Check {
    var p, st := run.spec, run.status;
    if || !p.operation.Plan? || !st.outcome.ChangesPresent? || !st.hasChanges || !st.artifactsReady
       || !st.evidenceCaptured || !st.ready
    then Fail(PlanNotApprovable)
    else if st.planExpiresAt.None? || now >= st.planExpiresAt.value then Fail(PlanExpired)
    else if || run.uid == "" || st.planRef == "" || st.planDigest == NoDigest || p.contextDigest == NoDigest
            || st.effectiveInputDigest == NoDigest || st.planReportRef == "" || st.planReportDigest == NoDigest
            || st.sourceBundleRef == "" || st.sourceBundleDigest == NoDigest
            || st.terminalRef == "" || st.terminalDigest == NoDigest
            || p.targetIdentityDigest == NoDigest || p.executionIdentityDigest == NoDigest
    then Fail(PlanEvidenceIncomplete)
    else if !RequestMatches(q, run) then Fail(StalePlan)
    else Pass
  }

  /** The checks against the stack the Plan belongs to. */
  function CheckStack(run: TerraformRun, stack: InfraStack): Check {
    var p := run.spec;
    if stack.status.latestPlanRun != Some(run.key.name) || stack.generation != p.stackGeneration
    then Fail(PlanNotCurrent)
    else if || p.executionRoleARN != stack.spec.executionIdentity.roleARN
            || p.runnerServiceAccountName != stack.spec.runnerServiceAccountName
            || p.runnerManagementRoleARN != stack.spec.runnerManagementRoleARN
            || p.runnerIdentityDigest != stack.spec.runnerIdentityDigest
    then Fail(ExecutionIdentityMismatch)
    else if stack.spec.mutationFence && !p.planMode.Destroy? then Fail(MutationFenced)
    else if && !(stack.status.ready.Some? && stack.status.ready.value.status.IsTrue?)
            && !(stack.status.ready.Some? && stack.status.ready.value.reason.WaitingApproval?)
    then Fail(StackNotWaitingApproval)
    else Pass
  }

  function NewApproval(names: Names, run: TerraformRun, uid: string): ChangeApproval {
    ChangeApproval(Key(run.key.ns, names.approval(run.key.name, run.uid)), uid,
      ApprovalSpec(run.key.name, run.uid, run.status.planDigest, run.spec.contextDigest,
                   run.status.effectiveInputDigest, run.status.planReportRef, run.status.planReportDigest))
  }

  predicate ForRun(a: ChangeApproval, run: TerraformRun) {
    a.key.ns == run.key.ns && a.spec.planRunUID == run.uid && a.spec.planRunName == run.key.name
  }

  /** The scan decides at the first approval that binds the run or holds its approval name. */
  predicate Decides(names: Names, a: ChangeApproval, run: TerraformRun) {
    ForRun(a, run) && (Binds(a.spec, run) || a.key.name == names.approval(run.key.name, run.uid))
  }

  function FirstDeciding(names: Names, approvals: seq<ChangeApproval>, run: TerraformRun): Option<ChangeApproval> {
    if approvals == [] then None
    else if Decides(names, approvals[0], run) then Some(approvals[0])
    else FirstDeciding(names, approvals[1..], run)
  }

  predicate NameTaken(approvals: seq<ChangeApproval>, key: Key) {
    exists a | a in approvals :: a.key == key
  }

  /** What one call answers, as a function of the approvals the API server holds. */
  function Answer(names: Names, approvals: seq<ChangeApproval>, q: ApprovalRequest, run: TerraformRun,
                  stack: InfraStack, now: nat, uid: string): Response {
    var onRun, onStack := CheckRun(q, run, now), CheckStack(run, stack);
    var first, made := FirstDeciding(names, approvals, run), NewApproval(names, run, uid);
    if onRun.Fail? then Conflict(onRun.reason)
    else if onStack.Fail? then Conflict(onStack.reason)
    else if first.Some? then
      if Binds(first.value.spec, run) then Accepted(first.value) else Conflict(ApprovalNameConflict)
    else if NameTaken(approvals, made.key) then Conflict(ApprovalNameConflict)
    else Accepted(made)
  }

  function Recorded(approvals: seq<ChangeApproval>, r: Response): seq<ChangeApproval> {
    if r.Accepted? && r.approval !in approvals then approvals + [r.approval] else approvals
  }

  class Server {
    var approvals: seq<ChangeApproval> // the ChangeApproval objects the API server holds

    constructor ()
      ensures approvals == []
    {
      approvals := [];
    }

    method ApprovePlan(names: Names, q: ApprovalRequest, run: Option<TerraformRun>, stack: Option<InfraStack>,
                       now: nat, freshUid: string) returns (r: Response)
      modifies this
      ensures run.None? || stack.None? ==> !r.Accepted?
      ensures run.Some? && stack.Some? ==> r == Answer(names, old(approvals), q, run.value, stack.value, now, freshUid)
      ensures approvals == Recorded(old(approvals), r)
    {
      if run.None? { return NotFound; }
      var plan := run.value;
      var onRun := CheckRun(q, plan, now);
      if onRun.Fail? { return Conflict(onRun.reason); }
      if stack.None? { return NotFound; }
      var onStack := CheckStack(plan, stack.value);
      if onStack.Fail? { return Conflict(onStack.reason); }
      var name := names.approval(plan.key.name, plan.uid);
      for i := 0 to |approvals|
        invariant FirstDeciding(names, approvals, plan) == FirstDeciding(names, approvals[i..], plan)
      {
        var approval := approvals[i];
        assert approvals[i..][0] == approval && approvals[i..][1..] == approvals[i + 1..];
        if approval.key.ns == plan.key.ns && approval.spec.planRunUID == plan.uid && approval.spec.planRunName == plan.key.name {
          if Binds(approval.spec, plan) { return Accepted(approval); }
          if approval.key.name == name { return Conflict(ApprovalNameConflict); }
        }
      }
      var made := NewApproval(names, plan, freshUid);
      for i := 0 to |approvals|
        invariant forall j | 0 <= j < i :: approvals[j].key != made.key
      {
        if approvals[i].key == made.key { return Conflict(ApprovalNameConflict); }
      }
      approvals := approvals + [made];
      return Accepted(made);
    }
  }

  // ------------------------------------------------------------- guarantees

  lemma {:induction false} DecidingApproval(names: Names, approvals: seq<ChangeApproval>, run: TerraformRun)
    ensures var first := FirstDeciding(names, approvals, run);
            first.Some? ==> first.value in approvals && Decides(names, first.value, run)
  {
    if approvals != [] && !Decides(names, approvals[0], run) {
      DecidingApproval(names, approvals[1..], run);
    }
  }

  lemma {:induction false} AppendDeciding(names: Names, approvals: seq<ChangeApproval>, a: ChangeApproval, run: TerraformRun)
    requires FirstDeciding(names, approvals, run).None? && Decides(names, a, run)
    ensures FirstDeciding(names, approvals + [a], run) == Some(a)
  {
    if approvals != [] {
      assert (approvals + [a])[1..] == approvals[1..] + [a];
      AppendDeciding(names, approvals[1..], a, run);
    }
  }

  /** Approving again, at any later time before expiry, answers with the same approval and
      creates nothing. */
  lemma ApprovingAgainChangesNothing(names: Names, approvals: seq<ChangeApproval>, q: ApprovalRequest,
      run: TerraformRun, stack: InfraStack, now: nat, uid: string, later: nat, laterUid: string)
    requires Answer(names, approvals, q, run, stack, now, uid).Accepted?
    requires Unexpired(run.status, later)
    ensures var r := Answer(names, approvals, q, run, stack, now, uid);
            var after := Recorded(approvals, r);
            Answer(names, after, q, run, stack, later, laterUid) == r && Recorded(after, r) == after
  {
    var r := Answer(names, approvals, q, run, stack, now, uid);
    DecidingApproval(names, approvals, run);
    if FirstDeciding(names, approvals, run).None? {
      assert r.approval.key == NewApproval(names, run, uid).key;
      assert r.approval !in approvals;
      AppendDeciding(names, approvals, r.approval, run);
    }
  }

  /** The stack is the one the Plan names, and a Reconcile Plan was made from its present spec. */
  predicate PlannedFor(run: TerraformRun, stack: InfraStack) {
    && stack.key == Key(run.key.ns, run.spec.stackName)
    && (!run.spec.planMode.Destroy? ==>
          run.spec.contextDigest == PlanContextDigest(stack.spec, run.spec.executionProfile))
  }

  /** A Plan that ensurePlanRun made stays one of those until the stack's spec is edited outside
      the two flags. */
  lemma PlannedUntilEdited(run: TerraformRun, planned: InfraStack, stack: InfraStack, profile: ExecutionProfile, bound: map<string, string>)
    requires run.spec == AdmissionProofs.PlannedSpec(planned, profile, bound)
    requires planned.key == stack.key && run.key.ns == stack.key.ns
    ensures PlannedFor(run, stack) <==> stack.spec == planned.spec.(mutationFence := stack.spec.mutationFence,
                                                                   runtimeMutationAllowed := stack.spec.runtimeMutationAllowed)
  {
    AdmissionProofs.ContextDetectsEveryEdit(planned, stack, profile, bound);
  }

  /** Whatever the console accepts, the controllers admit: while nothing changes and the Plan
      has not expired, the accepted approval is usable, and whichever usable approval the
      stack reconciler picks, admission passes. */
  lemma AcceptedIsAdmitted(names: Names, approvals: seq<ChangeApproval>, q: ApprovalRequest, run: TerraformRun,
      stack: InfraStack, now: nat, uid: string, later: nat, picked: ChangeApproval)
    requires Answer(names, approvals, q, run, stack, now, uid).Accepted?
    requires PlannedFor(run, stack) && Unexpired(run.status, later)
    requires Usable(picked, run, later) && picked.uid != ""
    ensures var accepted := Answer(names, approvals, q, run, stack, now, uid).approval;
            accepted in Recorded(approvals, Accepted(accepted)) && Usable(accepted, run, later)
    ensures ValidateApplyAdmission(stack, run, picked, later).Pass?
  {
    DecidingApproval(names, approvals, run);
  }

  /** What the button stands for, field by field: a finished Plan with changes and all its evidence,
      not expired, that the request repeats digest by digest. */
  predicate Presented(q: ApprovalRequest, run: TerraformRun, now: nat) {
    var st := run.status;
    && run.spec.operation == Plan && st.outcome == ChangesPresent && st.hasChanges && st.ready
    && AdmissionProofs.Complete(st) && st.planExpiresAt.Some? && now < st.planExpiresAt.value
    && run.uid != "" && st.planRef != "" && st.sourceBundleRef != ""
    && NoDigest !in {st.planDigest, run.spec.contextDigest, st.effectiveInputDigest, st.sourceBundleDigest,
                     run.spec.targetIdentityDigest, run.spec.executionIdentityDigest}
    && q == ApprovalRequest(run.uid, st.planDigest, run.spec.contextDigest, st.effectiveInputDigest, st.planReportRef, st.planReportDigest)
  }

  /** The Plan is the stack's latest, of its generation and identity, and the stack is ready or waits
      for the approval, with its fence down unless this is a Destroy. */
  predicate Awaited(run: TerraformRun, stack: InfraStack) {
    && stack.status.latestPlanRun == Some(run.key.name) && run.spec.stackGeneration == stack.generation
    && run.spec.executionRoleARN == stack.spec.executionIdentity.roleARN
    && run.spec.runnerServiceAccountName == stack.spec.runnerServiceAccountName
    && run.spec.runnerManagementRoleARN == stack.spec.runnerManagementRoleARN
    && run.spec.runnerIdentityDigest == stack.spec.runnerIdentityDigest
    && (stack.spec.mutationFence ==> run.spec.planMode == Destroy)
    && stack.status.ready.Some? && (stack.status.ready.value.status == IsTrue || stack.status.ready.value.reason == WaitingApproval)
  }

  /** An approval is accepted exactly when the Plan is presented and awaited and no other approval has
      its name; then it is one for this Plan and all it says, an existing one if there is one. */
  lemma AcceptedExactly(names: Names, approvals: seq<ChangeApproval>, q: ApprovalRequest, run: TerraformRun,
                        stack: InfraStack, now: nat, uid: string)
    ensures var r, first := Answer(names, approvals, q, run, stack, now, uid), FirstDeciding(names, approvals, run);
      && (r.Accepted? <==>
            && Presented(q, run, now) && Awaited(run, stack)
            && if first.Some? then AdmissionProofs.Approves(first.value, run)
               else forall a | a in approvals :: a.key != Key(run.key.ns, names.approval(run.key.name, run.uid)))
      && (r.Accepted? ==> AdmissionProofs.Approves(r.approval, run) && r.approval.key.ns == run.key.ns)
      && (r.Accepted? && first.None? ==> r.approval.uid == uid && r.approval.key.name == names.approval(run.key.name, run.uid))
  {
    DecidingApproval(names, approvals, run);
    RunChecked(q, run, now);
    StackChecked(run, stack);
  }

  lemma RunChecked(q: ApprovalRequest, run: TerraformRun, now: nat)
    ensures CheckRun(q, run, now).Pass? <==> Presented(q, run, now)
  {
  }

  lemma StackChecked(run: TerraformRun, stack: InfraStack)
    ensures CheckStack(run, stack).Pass? <==> Awaited(run, stack)
  {
  }

  /** From the button to the Job: the Apply created for the picked approval passes the
      Apply reconciler's own validation, given that the approved artifacts are readable. */
  lemma AcceptedReachesExecution(names: Names, approvals: seq<ChangeApproval>, q: ApprovalRequest, run: TerraformRun,
      stack: InfraStack, now: nat, uid: string, later: nat, picked: ChangeApproval, applyUid: string, bucket: ArtifactStore.Bucket)
    requires Answer(names, approvals, q, run, stack, now, uid).Accepted?
    requires PlannedFor(run, stack) && Usable(picked, run, later) && picked.uid != "" && picked.key.name != ""
    requires stack.uid != "" && AdmissionProofs.AllThere(bucket, run)
    ensures var apply := ApplyFor(names, stack, run, picked, applyUid, later);
      && ValidateApplyApproval(names, apply, Reads(Some(picked), Some(run), Some(stack), bucket, later)).Pass?
      && (apply.spec.mutationFence ==> apply.spec.planMode.Destroy?)
  {
    AcceptedIsAdmitted(names, approvals, q, run, stack, now, uid, later, picked);
    AdmissionProofs.ApplyValidationIsExact(names, ApplyFor(names, stack, run, picked, applyUid, later),
      Reads(Some(picked), Some(run), Some(stack), bucket, later));
  }
}
