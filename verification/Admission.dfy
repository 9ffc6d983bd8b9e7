/** Run construction, approval matching and Apply admission:
    internal/controller/infrastack_controller.go, the approval validation of
    terraformrun_controller.go and approvePlan of internal/console/server.go. */
module Admission {
  import opened Api
  import ArtifactStore

  /** The two name schemes that hash their arguments; nothing below depends on how. */
  datatype Names = Names(applyRun: (string, string) -> string, approval: (string, string) -> string)

  // ------------------------------------------------------------- evidence

  predicate PlanEvidenceReady(st: RunStatus) {
    && st.evidenceCaptured && st.artifactsReady
    && st.terminalRef != "" && st.terminalDigest != NoDigest
    && st.planReportRef != "" && st.planReportDigest != NoDigest
  }

  predicate HasDiscovery(st: RunStatus) {
    st.targetDiscoveryRef != "" && st.targetDiscoveryDigest != NoDigest
  }

  predicate RunEvidenceReady(st: RunStatus) { PlanEvidenceReady(st) && HasDiscovery(st) }

  predicate DestroyEvidenceReady(st: RunStatus) {
    && st.evidenceCaptured && st.artifactsReady
    && st.terminalRef != "" && st.terminalDigest != NoDigest
    && HasDiscovery(st)
  }

  predicate Unexpired(st: RunStatus, now: nat) {
    st.planExpiresAt.Some? && now < st.planExpiresAt.value
  }

  // -------------------------------------------------------------- digests

  function Frozen(spec: StackSpec): StackSpec {
    spec.(mutationFence := false, runtimeMutationAllowed := false)
  }

  function ExecutionContextDigest(spec: StackSpec): Digest { OfStackSpec(Frozen(spec)) }

  function PlanContextDigest(spec: StackSpec, profile: Option<ExecutionProfile>): Digest {
    OfPlanContext(ExecutionContextDigest(spec), if profile.Some? then profile.value.credentialsIdentity else "")
  }

  // --------------------------------------------------------- building runs

  function BuildPlanRun(stack: InfraStack): RunSpec {
    var s := stack.spec;
    RunSpec(
      s.executionProfile, s.variables, stack.key.name, stack.generation, Plan, Reconcile,
      RunSource(GitCommit, s.sourceURL, s.sourceRevision, s.sourcePath, "", NoDigest),
      s.backendConfigRef, "", NoDigest, s.secretRefs, s.secretVariables, s.lockTimeout, s.workspace, s.executor,
      ExecutionContextDigest(s), NoDigest, NoDigest,
      s.executionIdentity.roleARN, s.runnerManagementRoleARN,
      "", "", NoDigest, "", NoDigest, "", NoDigest, None, "",
      ExecutionContextDigest(s), NoDigest, NoDigest, NoDigest,
      OfExecutionIdentity(s.executionIdentity), OfTarget(s.targetIdentity), OfConnection(s.connectionProfile),
      s.runnerIdentityDigest, NoDigest, s.executor.terraformVersion, s.executor.image,
      s.mutationFence, s.runnerServiceAccountName, s.concurrencyGroup, s.maxConcurrentPlans, s.maxConcurrentApplies)
  }

  function RetainedBundleOf(run: TerraformRun): (string, Digest) {
    if run.status.sourceBundleRef != "" && run.status.sourceBundleDigest != NoDigest
    then (run.status.sourceBundleRef, run.status.sourceBundleDigest)
    else if run.spec.source.kind.RetainedBundle? then (run.spec.source.ref, run.spec.source.digest)
    else ("", NoDigest)
  }

  function BackendOf(run: TerraformRun): (string, Digest) {
    if run.status.backendRef != "" then (run.status.backendRef, run.status.backendDigest)
    else (run.spec.backendArtifactRef, run.spec.backendArtifactDigest)
  }

  function BuildDestroyPlanRun(stack: InfraStack, applied: TerraformRun): RunSpec {
    var a := applied.spec;
    var bundle, backend := RetainedBundleOf(applied), BackendOf(applied);
    RunSpec(
      a.executionProfile, a.inputs, stack.key.name, stack.generation, Plan, Destroy,
      RunSource(RetainedBundle, "", "", a.source.path, bundle.0, bundle.1),
      a.resolvedBackendConfigRef, backend.0, backend.1, a.secretRefs, a.secretVariables, a.lockTimeout,
      a.workspace, a.executor,
      a.contextDigest, a.executionTargetIdentityDigest, a.executionPlatformIdentityDigest,
      a.executionRoleARN, a.runnerManagementRoleARN,
      "", "", NoDigest, "", NoDigest, applied.status.targetDiscoveryRef, applied.status.targetDiscoveryDigest, None, "",
      a.effectiveInputDigest, applied.status.sourceBundleDigest, a.variablesSnapshotDigest,
      a.secretVariableIdentityDigest, a.executionIdentityDigest, a.targetIdentityDigest, a.connectionProfileDigest,
      a.runnerIdentityDigest, a.terraformLockfileDigest, a.expectedTerraformVersion, a.runnerImageDigest,
      stack.spec.mutationFence, a.runnerServiceAccountName, a.concurrencyGroup, a.maxConcurrentPlans,
      a.maxConcurrentApplies)
  }

  function BuildApplyRun(stack: InfraStack, plan: TerraformRun, approval: ChangeApproval): RunSpec {
    var p, st := plan.spec, plan.status;
    var bundle := if st.sourceBundleRef == "" || st.sourceBundleDigest == NoDigest
                  then RetainedBundleOf(plan) else (st.sourceBundleRef, st.sourceBundleDigest);
    var backend := BackendOf(plan);
    RunSpec(
      p.executionProfile, p.inputs, stack.key.name, stack.generation, Apply, p.planMode,
      RunSource(RetainedBundle, "", "", p.source.path, bundle.0, bundle.1),
      p.resolvedBackendConfigRef, backend.0, backend.1, p.secretRefs, p.secretVariables, p.lockTimeout,
      p.workspace, p.executor,
      p.contextDigest, p.executionTargetIdentityDigest, p.executionPlatformIdentityDigest,
      p.executionRoleARN, p.runnerManagementRoleARN,
      plan.uid, st.planRef, st.planDigest, st.planReportRef, st.planReportDigest,
      p.targetDiscoveryRef, p.targetDiscoveryDigest, Some(approval.key.name), approval.uid,
      st.effectiveInputDigest, st.sourceBundleDigest, p.variablesSnapshotDigest,
      p.secretVariableIdentityDigest, p.executionIdentityDigest, p.targetIdentityDigest, p.connectionProfileDigest,
      p.runnerIdentityDigest, p.terraformLockfileDigest, p.expectedTerraformVersion, p.runnerImageDigest,
      stack.spec.mutationFence, p.runnerServiceAccountName, p.concurrencyGroup, p.maxConcurrentPlans,
      p.maxConcurrentApplies)
  }

  // ------------------------------------------------------------ approvals

  /** The bindings every component compares: UID and name of the Plan and all its digests. */
  predicate Binds(approval: ApprovalSpec, plan: TerraformRun) {
    && approval.planRunUID == plan.uid && approval.planRunName == plan.key.name
    && approval.planDigest == plan.status.planDigest
    && approval.contextDigest == plan.spec.contextDigest
    && approval.effectiveInputDigest == plan.status.effectiveInputDigest
    && approval.planReportRef == plan.status.planReportRef
    && approval.planReportDigest == plan.status.planReportDigest
  }

  predicate Usable(approval: ChangeApproval, plan: TerraformRun, now: nat) {
    approval.key.ns == plan.key.ns && Binds(approval.spec, plan) && Unexpired(plan.status, now)
  }

  predicate IsFirstUsable(approvals: seq<ChangeApproval>, k: int, plan: TerraformRun, now: nat) {
    0 <= k < |approvals| && Usable(approvals[k], plan, now) && forall m | 0 <= m < k :: !Usable(approvals[m], plan, now)
  }

  /** The first usable approval in list order, as the controller picks it. */
  method ValidApprovalForPlan(approvals: seq<ChangeApproval>, plan: TerraformRun, now: nat)
    returns (found: Option<ChangeApproval>)
    ensures found.Some? ==> exists k | 0 <= k < |approvals| :: IsFirstUsable(approvals, k, plan, now) && approvals[k] == found.value
    ensures found.None? ==> forall a | a in approvals :: !Usable(a, plan, now)
    ensures found.Some? ==>
      && found.value in approvals && found.value.key.ns == plan.key.ns
      && (found.value.spec.planRunName, found.value.spec.planRunUID) == (plan.key.name, plan.uid)
      && (found.value.spec.planDigest, found.value.spec.contextDigest) == (plan.status.planDigest, plan.spec.contextDigest)
      && found.value.spec.effectiveInputDigest == plan.status.effectiveInputDigest
      && (found.value.spec.planReportRef, found.value.spec.planReportDigest) == (plan.status.planReportRef, plan.status.planReportDigest)
      && plan.status.planExpiresAt.Some? && now < plan.status.planExpiresAt.value
  {
    for n := 0 to |approvals|
      invariant forall m | 0 <= m < n :: !Usable(approvals[m], plan, now)
    {
      var a := approvals[n];
      if a.key.ns != plan.key.ns { continue; } // the list is already limited to the namespace
      if a.spec.planRunName != plan.key.name || a.spec.planRunUID != plan.uid { continue; }
      if || a.spec.planDigest != plan.status.planDigest || a.spec.contextDigest != plan.spec.contextDigest
         || a.spec.effectiveInputDigest != plan.status.effectiveInputDigest
         || a.spec.planReportRef != plan.status.planReportRef
         || a.spec.planReportDigest != plan.status.planReportDigest { continue; }
      if plan.status.planExpiresAt.None? || now >= plan.status.planExpiresAt.value { continue; }
      assert IsFirstUsable(approvals, n, plan, now);
      return Some(a);
    }
    return None;
  }

  // ------------------------------------------------------------ admission

  function ValidateApplyAdmission(stack: InfraStack, plan: TerraformRun, approval: ChangeApproval, now: nat): Check {
    var p, st, a := plan.spec, plan.status, approval.spec;
    if stack.spec.mutationFence && !p.planMode.Destroy? then Fail(FenceIsSet)
    else if !p.operation.Plan? || !st.outcome.ChangesPresent? || !PlanEvidenceReady(st)
    then Fail(PlanCannotAuthorize)
    else if || a.planRunName != plan.key.name || plan.key.ns != stack.key.ns || approval.key.ns != plan.key.ns
            || p.stackName != stack.key.name || p.stackGeneration != stack.generation
    then Fail(StackOrGenerationMismatch)
    else if !p.planMode.Destroy? && p.contextDigest != PlanContextDigest(stack.spec, p.executionProfile)
    then Fail(ContextChanged)
    else if plan.uid == "" || approval.uid == "" || a.planRunUID != plan.uid
    then Fail(UIDBindingMismatch)
    else if st.planDigest == NoDigest || a.planDigest != st.planDigest then Fail(PlanDigestBindingMismatch)
    else if a.contextDigest != p.contextDigest then Fail(ContextBindingMismatch)
    else if || st.planReportRef == "" || st.planReportDigest == NoDigest
            || a.planReportRef != st.planReportRef || a.planReportDigest != st.planReportDigest
    then Fail(PlanReportBindingMismatch)
    else if st.planExpiresAt.None? || now >= st.planExpiresAt.value
    then Fail(SavedPlanExpired)
    else if || st.effectiveInputDigest == NoDigest || a.effectiveInputDigest != st.effectiveInputDigest
            || p.targetIdentityDigest == NoDigest || p.executionIdentityDigest == NoDigest
    then Fail(PlanSnapshotIncomplete)
    else if p.executionRoleARN != stack.spec.executionIdentity.roleARN
    then Fail(ExecutionRoleMismatch)
    else if || p.runnerServiceAccountName != stack.spec.runnerServiceAccountName
            || p.runnerManagementRoleARN != stack.spec.runnerManagementRoleARN
            || p.runnerIdentityDigest != stack.spec.runnerIdentityDigest
    then Fail(ManagementIdentityMismatch)
    else Pass
  }

  /** What the Apply's reconciler reads before it lets the Apply proceed. */
  datatype Reads = Reads(approval: Option<ChangeApproval>, plan: Option<TerraformRun>, stack: Option<InfraStack>,
                         bucket: ArtifactStore.Bucket, now: nat)

  function ModuleInputsRef(run: TerraformRun): Ref {
    Ref("runs/" + run.uid + "/" + "module-inputs.json", Sha(InputsJson(run.spec.inputs)))
  }

  function ApprovedArtifacts(plan: TerraformRun): seq<Ref> {
    [Ref(plan.status.planRef, plan.status.planDigest),
     Ref(plan.status.sourceBundleRef, plan.status.sourceBundleDigest),
     Ref(plan.status.backendRef, plan.status.backendDigest),
     Ref(plan.status.planReportRef, plan.status.planReportDigest),
     Ref(plan.status.terminalRef, plan.status.terminalDigest),
     ModuleInputsRef(plan)]
  }

  predicate AllReadable(bucket: ArtifactStore.Bucket, refs: seq<Ref>) {
    forall r | r in refs :: ArtifactStore.Readable(bucket, r)
  }

  /** The Apply's own bindings against the approval it names. */
  function CheckApproval(s: RunSpec, a: ChangeApproval): Check {
    if a.uid != s.approvalUID then Fail(ApprovalUIDMismatch)
    else if || a.spec.planDigest != s.planDigest || a.spec.contextDigest != s.contextDigest
            || a.spec.effectiveInputDigest != s.effectiveInputDigest
            || a.spec.planReportRef != s.planReportRef || a.spec.planReportDigest != s.planReportDigest
    then Fail(ApprovalDigestMismatch)
    else Pass
  }

  /** The Apply's own bindings against the Plan the approval names. */
  function CheckPlan(s: RunSpec, plan: TerraformRun, now: nat): Check {
    var p, st := plan.spec, plan.status;
    if plan.uid != s.planRunUID then Fail(PlanUIDMismatch)
    else if || st.planDigest == NoDigest || st.planDigest != s.planDigest
            || !st.outcome.ChangesPresent? || !PlanEvidenceReady(st)
    then Fail(PlanNotVerified)
    else if || st.planReportRef == "" || st.planReportDigest == NoDigest
            || s.planReportRef != st.planReportRef || s.planReportDigest != st.planReportDigest
    then Fail(PlanReportMismatch)
    else if p.contextDigest != NoDigest && p.contextDigest != s.contextDigest
    then Fail(PlanContextMismatch)
    else if st.planExpiresAt.None? || now >= st.planExpiresAt.value
    then Fail(SavedPlanExpired)
    else if s.effectiveInputDigest == NoDigest || st.effectiveInputDigest != s.effectiveInputDigest
    then Fail(EffectiveInputMismatch)
    else if && s.sourceClosureDigest != NoDigest && st.sourceBundleDigest != NoDigest
            && s.sourceClosureDigest != st.sourceBundleDigest
    then Fail(SourceClosureMismatch)
    else if s.targetIdentityDigest != NoDigest && p.targetIdentityDigest != s.targetIdentityDigest
    then Fail(TargetIdentityMismatch)
    else if s.executionIdentityDigest != NoDigest && p.executionIdentityDigest != s.executionIdentityDigest
    then Fail(ExecutionIdentityDigestMismatch)
    else Pass
  }

  /** The checks that need the stack, and the artifacts last. */
  function CheckIntent(names: Names, apply: TerraformRun, stack: InfraStack, plan: TerraformRun, a: ChangeApproval,
                       bucket: ArtifactStore.Bucket, now: nat): Check {
    var admission := ValidateApplyAdmission(stack, plan, a, now);
    if apply.key.name != names.applyRun(plan.key.name, plan.uid) || !IsOwnedBy(apply.owner, stack.uid, "InfraStack")
    then Fail(NotThePlansApply)
    else if admission.Fail? then admission
    else if BuildApplyRun(stack, plan, a) != apply.spec then Fail(ApplySnapshotDiffers)
    else if !AllReadable(bucket, ApprovedArtifacts(plan)) then Fail(ApprovedArtifactMissing)
    else Pass
  }

  function ValidateApplyApproval(names: Names, apply: TerraformRun, r: Reads): Check {
    var s := apply.spec;
    if s.approvalRef.None? || s.approvalRef.value == "" || s.approvalUID == "" || s.planRunUID == ""
    then Fail(ApplyBindingMissing)
    else if r.approval.None? || r.approval.value.key != Key(apply.key.ns, s.approvalRef.value)
    then Fail(ApprovalUnreadable)
    else
      var a := r.approval.value;
      var onApproval := CheckApproval(s, a);
      if onApproval.Fail? then onApproval
      else if r.plan.None? || r.plan.value.key != Key(apply.key.ns, a.spec.planRunName) then Fail(PlanUnreadable)
      else
        var plan := r.plan.value;
        var onPlan := CheckPlan(s, plan, r.now);
        if onPlan.Fail? then onPlan
        else if r.stack.None? || r.stack.value.key != Key(apply.key.ns, s.stackName) then Fail(StackUnreadable)
        else CheckIntent(names, apply, r.stack.value, plan, a, r.bucket, r.now)
  }

  /** The Apply object ensureApplyRun creates for an approved Plan. */
  function ApplyFor(names: Names, stack: InfraStack, plan: TerraformRun, approval: ChangeApproval, uid: string,
                    created: nat): TerraformRun {
    TerraformRun(Key(stack.key.ns, names.applyRun(plan.key.name, plan.uid)), uid,
                 Some(Owner("InfraStack", stack.uid)), created, BuildApplyRun(stack, plan, approval), EmptyStatus)
  }

  /** The InfraStack side: which Apply run, if any, stands for the Plan. */
  datatype Ensured = Existing(run: TerraformRun) | Created(run: TerraformRun) | Refused(reason: Reason)

  predicate StandsFor(run: TerraformRun, stack: InfraStack, plan: TerraformRun) {
    && run.key.ns == stack.key.ns && run.spec.stackName == stack.key.name
    && run.spec.operation.Apply? && run.spec.planRunUID == plan.uid
  }

  /** `listed` is the (possibly outdated) list; `taken` is what the API server holds
      under the Apply's name, which makes the create fail with AlreadyExists. */
  method EnsureApplyRun(names: Names, stack: InfraStack, plan: TerraformRun, approval: ChangeApproval,
                        listed: seq<TerraformRun>, taken: Option<TerraformRun>, freshUid: string, now: nat)
    returns (r: Ensured)
    ensures !r.Refused? ==> ValidateApplyAdmission(stack, plan, approval, now).Pass?
                            && IsOwnedBy(r.run.owner, stack.uid, "InfraStack")
    ensures r.Created? ==> taken.None? && r.run == ApplyFor(names, stack, plan, approval, freshUid, now)
    ensures r.Existing? ==> StandsFor(r.run, stack, plan)
    ensures r.Existing? ==> (r.run.key.ns, r.run.spec.stackName, r.run.spec.operation, r.run.spec.planRunUID)
                            == (stack.key.ns, stack.key.name, Apply, plan.uid)
    ensures !r.Refused? ==> stack.uid != "" && r.run.owner == Some(Owner("InfraStack", stack.uid))
    ensures r.Existing? && r.run !in listed ==>
      taken == Some(r.run) && r.run.key == ApplyFor(names, stack, plan, approval, freshUid, now).key
      && r.run.spec == BuildApplyRun(stack, plan, approval)
    ensures (exists x | x in listed :: StandsFor(x, stack, plan)) ==> !r.Created?
  {
    var admission := ValidateApplyAdmission(stack, plan, approval, now);
    if admission.Fail? { return Refused(admission.reason); }
    for n := 0 to |listed|
      invariant forall m | 0 <= m < n :: !StandsFor(listed[m], stack, plan)
    {
      if StandsFor(listed[n], stack, plan) {
        if !IsOwnedBy(listed[n].owner, stack.uid, "InfraStack") { return Refused(ForeignApply); }
        return Existing(listed[n]);
      }
    }
    if stack.uid == "" { return Refused(OwnerWithoutUID); }
    var apply := ApplyFor(names, stack, plan, approval, freshUid, now);
    if taken.Some? {
      if !IsOwnedBy(taken.value.owner, stack.uid, "InfraStack") || taken.value.spec != apply.spec || taken.value.key != apply.key {
        return Refused(ExistingApplyDiffers);
      }
      return Existing(taken.value);
    }
    return Created(apply);
  }
}
