/** Properties of Apply admission that hold across the components involved. */
module AdmissionProofs {
  import opened Api
  import opened Admission
  import ArtifactStore

  /** `apply` is the object ensureApplyRun makes from this stack, Plan and approval. */
  predicate IsApplyOf(names: Names, apply: TerraformRun, stack: InfraStack, plan: TerraformRun, approval: ChangeApproval) {
    && apply.key == Key(stack.key.ns, names.applyRun(plan.key.name, plan.uid))
    && stack.uid != "" && apply.owner == Some(Owner("InfraStack", stack.uid))
    && apply.spec == BuildApplyRun(stack, plan, approval)
  }

  /** Once admission has passed, the Apply's own bindings follow from how it is built. */
  lemma BuiltApplyBinds(stack: InfraStack, plan: TerraformRun, approval: ChangeApproval, now: nat)
    requires ValidateApplyAdmission(stack, plan, approval, now).Pass?
    ensures var s := BuildApplyRun(stack, plan, approval);
      && CheckApproval(s, approval).Pass? && CheckPlan(s, plan, now).Pass?
      && s.approvalRef == Some(approval.key.name) && s.approvalUID != "" && s.planRunUID != "" && s.stackName == stack.key.name
      && approval.key.ns == plan.key.ns == stack.key.ns && approval.spec.planRunName == plan.key.name
  {
  }

  /** Plan, source bundle, backend, report, terminal result and module inputs all read back. */
  predicate AllThere(bucket: ArtifactStore.Bucket, plan: TerraformRun) {
    var st := plan.status;
    && ArtifactStore.Read(bucket, Ref(st.planRef, st.planDigest)).Ok?
    && ArtifactStore.Read(bucket, Ref(st.sourceBundleRef, st.sourceBundleDigest)).Ok?
    && ArtifactStore.Read(bucket, Ref(st.backendRef, st.backendDigest)).Ok?
    && ArtifactStore.Read(bucket, Ref(st.planReportRef, st.planReportDigest)).Ok?
    && ArtifactStore.Read(bucket, Ref(st.terminalRef, st.terminalDigest)).Ok?
    && ArtifactStore.Read(bucket, Ref("runs/" + plan.uid + "/" + "module-inputs.json", Sha(InputsJson(plan.spec.inputs)))).Ok?
  }

  lemma AllThereExactly(bucket: ArtifactStore.Bucket, plan: TerraformRun)
    ensures AllReadable(bucket, ApprovedArtifacts(plan)) <==> AllThere(bucket, plan)
  {
    var refs := ApprovedArtifacts(plan);
    assert refs[0] in refs && refs[1] in refs && refs[2] in refs && refs[3] in refs && refs[4] in refs && refs[5] in refs;
  }

  lemma ApplyValidationIs(names: Names, apply: TerraformRun, r: Reads)
    ensures ValidateApplyApproval(names, apply, r).Pass? <==>
      && r.approval.Some? && r.plan.Some? && r.stack.Some?
      && r.approval.value.key.name != ""
      && IsApplyOf(names, apply, r.stack.value, r.plan.value, r.approval.value)
      && ValidateApplyAdmission(r.stack.value, r.plan.value, r.approval.value, r.now).Pass?
      && AllReadable(r.bucket, ApprovedArtifacts(r.plan.value))
  {
    if r.approval.Some? && r.plan.Some? && r.stack.Some? {
      if ValidateApplyAdmission(r.stack.value, r.plan.value, r.approval.value, r.now).Pass? {
        BuiltApplyBinds(r.stack.value, r.plan.value, r.approval.value, r.now);
      }
    }
  }

  /** The Apply reconciler's two dozen checks accept exactly the Apply that the stack
      reconciler would build now, for a Plan it would still admit, with every approved
      artifact still readable. */
  lemma ApplyValidationIsExact(names: Names, apply: TerraformRun, r: Reads)
    ensures ValidateApplyApproval(names, apply, r).Pass? <==>
      && r.approval.Some? && r.plan.Some? && r.stack.Some?
      && r.approval.value.key.name != ""
      && IsApplyOf(names, apply, r.stack.value, r.plan.value, r.approval.value)
      && ValidateApplyAdmission(r.stack.value, r.plan.value, r.approval.value, r.now).Pass?
      && AllThere(r.bucket, r.plan.value)
  {
    ApplyValidationIs(names, apply, r);
    if r.plan.Some? { AllThereExactly(r.bucket, r.plan.value); }
  }

  /** The approval repeats the Plan's name, UID and every digest. */
  predicate Approves(a: ChangeApproval, plan: TerraformRun) {
    a.spec == ApprovalSpec(plan.key.name, plan.uid, plan.status.planDigest, plan.spec.contextDigest,
                           plan.status.effectiveInputDigest, plan.status.planReportRef, plan.status.planReportDigest)
  }

  /** Captured, complete, with terminal result and report on record. */
  predicate Complete(st: RunStatus) {
    && st.evidenceCaptured && st.artifactsReady && st.terminalRef != "" && st.terminalDigest != NoDigest
    && st.planReportRef != "" && st.planReportDigest != NoDigest
  }

  /** An approval is usable exactly when it is in the Plan's namespace, repeats what the Plan says, and
      the Plan has an expiry that has not come. */
  lemma UsableExactly(a: ChangeApproval, plan: TerraformRun, now: nat)
    ensures Usable(a, plan, now) <==>
      && a.key.ns == plan.key.ns && Approves(a, plan)
      && plan.status.planExpiresAt != None && now < plan.status.planExpiresAt.value
  {
  }

  /** What an Apply that passes validation is bound to. */
  predicate Authorised(apply: TerraformRun, stack: InfraStack, plan: TerraformRun, approval: ChangeApproval, now: nat) {
    // one approval, by UID, with every digest the Plan and the Apply carry
    && approval.uid != "" && apply.spec.approvalUID == approval.uid
    && apply.spec.planRunUID == plan.uid == approval.spec.planRunUID && plan.uid != ""
    && Approves(approval, plan) && approval.key.ns == plan.key.ns
    && apply.spec.planDigest == plan.status.planDigest != NoDigest
    && apply.spec.contextDigest == plan.spec.contextDigest
    && apply.spec.effectiveInputDigest == plan.status.effectiveInputDigest != NoDigest
    && apply.spec.planReportDigest == plan.status.planReportDigest != NoDigest
    // a finished, evidence-complete, unexpired and not superseded Plan of this very stack
    && plan.spec.operation.Plan? && plan.status.outcome == ChangesPresent
    && Complete(plan.status) && plan.status.planExpiresAt.Some? && now < plan.status.planExpiresAt.value
    && plan.spec.stackName == stack.key.name && plan.spec.stackGeneration == stack.generation
    && plan.spec.executionRoleARN == stack.spec.executionIdentity.roleARN
    && plan.spec.runnerServiceAccountName == stack.spec.runnerServiceAccountName
    && plan.spec.runnerManagementRoleARN == stack.spec.runnerManagementRoleARN
    && plan.spec.runnerIdentityDigest == stack.spec.runnerIdentityDigest
    && (!plan.spec.planMode.Destroy? ==>
          plan.spec.contextDigest == PlanContextDigest(stack.spec, plan.spec.executionProfile))
    // the fence is down, in the stack and in the Apply, unless this is a Destroy
    && (stack.spec.mutationFence || apply.spec.mutationFence ==> apply.spec.planMode.Destroy?)
    && apply.spec.planMode == plan.spec.planMode
  }

  lemma ValidatedMeansAuthorised(names: Names, apply: TerraformRun, r: Reads)
    requires ValidateApplyApproval(names, apply, r).Pass?
    ensures r.approval.Some? && r.plan.Some? && r.stack.Some?
    ensures Authorised(apply, r.stack.value, r.plan.value, r.approval.value, r.now)
    ensures apply.key == Key(r.plan.value.key.ns, names.applyRun(r.plan.value.key.name, apply.spec.planRunUID))
  {
    ApplyValidationIsExact(names, apply, r);
  }

  /** An Apply changes nothing of its Plan but what makes it an Apply: the operation, the
      retained bundle and backend, the approved artifacts, the approval and the fence. */
  lemma ApplyCarriesPlan(stack: InfraStack, plan: TerraformRun, approval: ChangeApproval, now: nat)
    requires ValidateApplyAdmission(stack, plan, approval, now).Pass?
    ensures var a := BuildApplyRun(stack, plan, approval);
      && a == plan.spec.(
           operation := Apply,
           source := a.source, backendArtifactRef := a.backendArtifactRef, backendArtifactDigest := a.backendArtifactDigest,
           planRunUID := plan.uid, planRef := plan.status.planRef, planDigest := approval.spec.planDigest,
           planReportRef := approval.spec.planReportRef, planReportDigest := approval.spec.planReportDigest,
           effectiveInputDigest := approval.spec.effectiveInputDigest,
           sourceClosureDigest := plan.status.sourceBundleDigest,
           approvalRef := Some(approval.key.name), approvalUID := approval.uid,
           mutationFence := stack.spec.mutationFence)
      && a.source == RunSource(RetainedBundle, "", "", plan.spec.source.path, RetainedBundleOf(plan).0, RetainedBundleOf(plan).1)
      && (a.backendArtifactRef, a.backendArtifactDigest) == BackendOf(plan)
  {
  }

  /** From the stack to the Apply: what an admitted Apply of a Reconcile Plan runs is, field by field,
      what the stack asked for when the Plan was made. */
  lemma ApplyRunsWhatWasAsked(planned: InfraStack, profile: ExecutionProfile, bound: map<string, string>,
                              stack: InfraStack, plan: TerraformRun, approval: ChangeApproval, now: nat)
    requires plan.spec == PlannedSpec(planned, profile, bound)
    requires ValidateApplyAdmission(stack, plan, approval, now).Pass?
    ensures var s, p, a := planned.spec, plan.spec, BuildApplyRun(stack, plan, approval);
      && (p.source.kind, p.source.url, p.source.revision, p.source.path) == (GitCommit, s.sourceURL, s.sourceRevision, s.sourcePath)
      && (a.source.kind, a.source.path) == (RetainedBundle, s.sourcePath)
      && (a.operation, a.planMode, a.stackName, a.stackGeneration) == (Apply, Reconcile, planned.key.name, planned.generation)
      && (a.executionProfile, a.inputs) == (Some(profile), bound)
      && (a.resolvedBackendConfigRef, a.workspace, a.lockTimeout, a.executor) == (s.backendConfigRef, s.workspace, s.lockTimeout, s.executor)
      && (a.secretRefs, a.secretVariables) == (s.secretRefs, s.secretVariables)
      && (a.executionRoleARN, a.runnerManagementRoleARN) == (s.executionIdentity.roleARN, s.runnerManagementRoleARN)
      && (a.runnerServiceAccountName, a.runnerIdentityDigest) == (s.runnerServiceAccountName, s.runnerIdentityDigest)
      && (a.executionIdentityDigest, a.targetIdentityDigest) == (OfExecutionIdentity(s.executionIdentity), OfTarget(s.targetIdentity))
      && a.connectionProfileDigest == OfConnection(s.connectionProfile)
      && (a.expectedTerraformVersion, a.runnerImageDigest) == (s.executor.terraformVersion, s.executor.image)
      && (a.concurrencyGroup, a.maxConcurrentPlans, a.maxConcurrentApplies)
         == (s.concurrencyGroup, s.maxConcurrentPlans, s.maxConcurrentApplies)
      && !a.mutationFence
  {
  }

  // ------------------------------------------------- what makes a Plan stale

  /** The spec ensurePlanRun gives a Reconcile Plan once the profile is resolved and the inputs bound. */
  function PlannedSpec(stack: InfraStack, profile: ExecutionProfile, bound: map<string, string>): RunSpec {
    BuildPlanRun(stack).(executionProfile := Some(profile), inputs := bound,
                         contextDigest := PlanContextDigest(stack.spec, Some(profile)),
                         effectiveInputDigest := PlanContextDigest(stack.spec, Some(profile)))
  }

  /** The context digest detects every edit of the stack spec except of the two flags it
      deliberately leaves out. */
  lemma ContextDetectsEveryEdit(planned: InfraStack, now: InfraStack, profile: ExecutionProfile, bound: map<string, string>)
    ensures var spec := PlannedSpec(planned, profile, bound);
      spec.contextDigest == PlanContextDigest(now.spec, spec.executionProfile) <==>
      now.spec == planned.spec.(mutationFence := now.spec.mutationFence, runtimeMutationAllowed := now.spec.runtimeMutationAllowed)
  {
    var p, n := planned.spec, now.spec;
    if Frozen(n) == Frozen(p) {
      assert n == Frozen(n).(mutationFence := n.mutationFence, runtimeMutationAllowed := n.runtimeMutationAllowed);
    }
  }

  // ------------------------------------------------ convergence and Destroy

  function ConvergenceClosure(stack: InfraStack, source: TerraformRun, terminal: TerraformRun): Option<Closure> {
    if || !PlanEvidenceReady(source.status)
       || terminal.status.terminalRef == "" || terminal.status.terminalDigest == NoDigest
       || !HasDiscovery(terminal.status) then None else
    var bundle, backend := RetainedBundleOf(source), BackendOf(source);
    var effective :=
      if terminal.status.effectiveInputDigest != NoDigest then terminal.status.effectiveInputDigest
      else if source.status.effectiveInputDigest != NoDigest then source.status.effectiveInputDigest
      else source.spec.effectiveInputDigest;
    if || bundle.0 == "" || bundle.1 == NoDigest || backend.0 == "" || backend.1 == NoDigest || effective == NoDigest
       || stack.spec.executionIdentity.provider == "" || stack.spec.targetIdentity.provider == "" then None else
    Some(Closure(Decoded(terminal.spec), bundle.0, bundle.1, backend.0, backend.1,
                 terminal.status.targetDiscoveryRef, terminal.status.targetDiscoveryDigest, effective,
                 OfExecutionIdentity(stack.spec.executionIdentity), OfConnection(stack.spec.connectionProfile),
                 terminal.spec.runnerIdentityDigest, terminal.uid, stack.generation))
  }

  function RetainedRun(uid: string, spec: RunSpec, c: Closure): TerraformRun {
    TerraformRun(Key("", ""), uid, None, 0, spec,
                 EmptyStatus.(sourceBundleRef := c.sourceRef, sourceBundleDigest := c.sourceDigest,
                              backendRef := c.backendRef, backendDigest := c.backendDigest,
                              targetDiscoveryRef := c.discoveryRef, targetDiscoveryDigest := c.discoveryDigest))
  }

  function RetainedRunFromClosure(stack: InfraStack, c: Closure): Option<TerraformRun> {
    match c.snapshot
    case Decoded(spec) => Some(RetainedRun(c.runUID, spec, c))
    case Undecodable => None
    case NoSnapshot =>
      var s := stack.spec;
      var base := BuildPlanRun(stack);
      var spec := base.(executionProfile := None, inputs := map[], stackGeneration := 0, operation := OtherOperation,
                        planMode := OtherMode,
                        source := RunSource(RetainedBundle, "", "", s.sourcePath, c.sourceRef, c.sourceDigest),
                        resolvedBackendConfigRef := c.backendRef,
                        backendArtifactRef := c.backendRef, backendArtifactDigest := c.backendDigest,
                        secretRefs := [], secretVariables := [],
                        effectiveInputDigest := c.effectiveInputDigest,
                        executionIdentityDigest := c.executionIdentityDigest,
                        mutationFence := false, concurrencyGroup := "", maxConcurrentPlans := 0, maxConcurrentApplies := 0);
      Some(RetainedRun(c.runUID, spec, c).(status := RetainedRun(c.runUID, spec, c).status.(effectiveInputDigest := c.effectiveInputDigest)))
  }

  /** Recording a convergence and rebuilding from the record after any edit of the stack
      gives a Destroy Plan that is the converged run's own spec, turned into a Destroy Plan
      over the retained bundle and backend. */
  lemma DestroyRebuildsConvergedRun(then': InfraStack, source: TerraformRun, terminal: TerraformRun, now: InfraStack)
    requires ConvergenceClosure(then', source, terminal).Some?
    ensures var closure := ConvergenceClosure(then', source, terminal).value;
      && RetainedRunFromClosure(now, closure).Some?
      && var d := BuildDestroyPlanRun(now, RetainedRunFromClosure(now, closure).value);
         var bundle, backend := RetainedBundleOf(source), BackendOf(source);
         d == terminal.spec.(
           operation := Plan, planMode := Destroy,
           source := RunSource(RetainedBundle, "", "", terminal.spec.source.path, bundle.0, bundle.1),
           sourceClosureDigest := bundle.1,
           backendArtifactRef := backend.0, backendArtifactDigest := backend.1,
           targetDiscoveryRef := terminal.status.targetDiscoveryRef,
           targetDiscoveryDigest := terminal.status.targetDiscoveryDigest,
           planRunUID := "", planRef := "", planDigest := NoDigest, planReportRef := "", planReportDigest := NoDigest,
           approvalRef := None, approvalUID := "",
           stackName := now.key.name, stackGeneration := now.generation, mutationFence := now.spec.mutationFence)
  {
  }

  /** For an Apply, the bundle and backend the Destroy uses are the ones the Apply itself ran with. */
  lemma DestroyUsesWhatApplyUsed(then': InfraStack, plan: TerraformRun, approval: ChangeApproval, apply: TerraformRun, now: InfraStack)
    requires apply.spec == BuildApplyRun(then', plan, approval)
    requires ConvergenceClosure(then', plan, apply).Some?
    ensures var d := BuildDestroyPlanRun(now, RetainedRunFromClosure(now, ConvergenceClosure(then', plan, apply).value).value);
      && d.source.ref == apply.spec.source.ref && d.source.digest == apply.spec.source.digest
      && d.source.path == apply.spec.source.path
      && d.backendArtifactRef == apply.spec.backendArtifactRef && d.backendArtifactDigest == apply.spec.backendArtifactDigest
      && d.inputs == plan.spec.inputs && d.workspace == plan.spec.workspace && d.executor == plan.spec.executor
      && d.executionRoleARN == plan.spec.executionRoleARN && d.runnerServiceAccountName == plan.spec.runnerServiceAccountName
  {
    DestroyRebuildsConvergedRun(then', plan, apply, now);
  }

  /** Nothing else of the stack reaches the Destroy Plan. */
  lemma DestroyIgnoresEdits(then': InfraStack, source: TerraformRun, terminal: TerraformRun, one: InfraStack, other: InfraStack)
    requires ConvergenceClosure(then', source, terminal).Some?
    requires one.key.name == other.key.name && one.generation == other.generation
    requires one.spec.mutationFence == other.spec.mutationFence
    ensures var closure := ConvergenceClosure(then', source, terminal).value;
      BuildDestroyPlanRun(one, RetainedRunFromClosure(one, closure).value)
      == BuildDestroyPlanRun(other, RetainedRunFromClosure(other, closure).value)
  {
    DestroyRebuildsConvergedRun(then', source, terminal, one);
    DestroyRebuildsConvergedRun(then', source, terminal, other);
  }

  predicate SameRunnerIdentity(stack: StackSpec, run: RunSpec) {
    && run.executionRoleARN == stack.executionIdentity.roleARN
    && run.runnerServiceAccountName == stack.runnerServiceAccountName
    && run.runnerManagementRoleARN == stack.runnerManagementRoleARN
    && run.runnerIdentityDigest == stack.runnerIdentityDigest
  }

  /** A finished Plan with everything an approval needs. */
  predicate Approvable(plan: TerraformRun, now: nat) {
    && plan.uid != "" && plan.spec.operation.Plan? && plan.status.outcome.ChangesPresent?
    && PlanEvidenceReady(plan.status) && Unexpired(plan.status, now)
    && plan.status.planDigest != NoDigest && plan.status.effectiveInputDigest != NoDigest
    && plan.spec.targetIdentityDigest != NoDigest && plan.spec.executionIdentityDigest != NoDigest
  }

  /** Where the round trip stops: the Destroy Plan carries the converged run's identity, but
      admission compares it with the stack as edited since. An approved Destroy is admitted
      exactly when role, service account and runner identity were left alone. */
  lemma DestroyAdmittedIffIdentityKept(then': InfraStack, source: TerraformRun, terminal: TerraformRun,
                                       now: InfraStack, plan: TerraformRun, approval: ChangeApproval, time: nat)
    requires ConvergenceClosure(then', source, terminal).Some?
    requires plan.spec == BuildDestroyPlanRun(now, RetainedRunFromClosure(now, ConvergenceClosure(then', source, terminal).value).value)
    requires plan.key.ns == now.key.ns && Approvable(plan, time)
    requires Usable(approval, plan, time) && approval.uid != ""
    ensures ValidateApplyAdmission(now, plan, approval, time).Pass? <==> SameRunnerIdentity(now.spec, terminal.spec)
  {
    DestroyRebuildsConvergedRun(then', source, terminal, now);
  }

  /** The counterpart for a Reconcile Plan: once approved it is admitted exactly while the fence is
      down, the generation is the planned one and the spec is unedited but for the two flags. */
  lemma FreshPlanAdmittedIffUnedited(planned: InfraStack, now: InfraStack, profile: ExecutionProfile, bound: map<string, string>,
                                     plan: TerraformRun, approval: ChangeApproval, time: nat)
    requires plan.spec == PlannedSpec(planned, profile, bound)
    requires planned.key == now.key && plan.key.ns == now.key.ns && Approvable(plan, time)
    requires Usable(approval, plan, time) && approval.uid != ""
    ensures ValidateApplyAdmission(now, plan, approval, time).Pass? <==>
      && !now.spec.mutationFence && now.generation == planned.generation
      && now.spec == planned.spec.(mutationFence := now.spec.mutationFence, runtimeMutationAllowed := now.spec.runtimeMutationAllowed)
  {
    ContextDetectsEveryEdit(planned, now, profile, bound);
  }
}
