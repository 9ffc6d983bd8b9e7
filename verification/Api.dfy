/** The objects of api/v1alpha1/types.go that the controllers exchange.

    Digests are a free datatype: a digest *is* what was hashed, so equal digests
    mean equal contents. JSON text is likewise represented by the value encoded. */
module Api {

  datatype Option<+T> = None | Some(value: T)

  /** An error return without a value: nil, or an error; each reason stands for one message. */
  datatype Check = Pass | Fail(reason: Reason)

  datatype Reason = FenceIsSet | PlanCannotAuthorize | StackOrGenerationMismatch | ContextChanged
                  | UIDBindingMismatch | PlanDigestBindingMismatch | ContextBindingMismatch
                  | PlanReportBindingMismatch | SavedPlanExpired | PlanSnapshotIncomplete
                  | ExecutionRoleMismatch | ManagementIdentityMismatch | ApprovalUIDMismatch
                  | ApprovalDigestMismatch | PlanUIDMismatch | PlanNotVerified | PlanReportMismatch
                  | PlanContextMismatch | EffectiveInputMismatch | SourceClosureMismatch
                  | TargetIdentityMismatch | ExecutionIdentityDigestMismatch | NotThePlansApply
                  | ApplySnapshotDiffers | ApprovedArtifactMissing | ApplyBindingMissing | ApprovalUnreadable
                  | PlanUnreadable | StackUnreadable | ForeignApply | OwnerWithoutUID | ExistingApplyDiffers
                  | TerminalIdentityMismatch | TerminalJobMismatch | TerminalTimesInconsistent
                  | InconsistentChanges | InconsistentNoChange | InconsistentApply | UnknownOutcome
                  | TerminalPlanMismatch | TerminalApprovedPlanMismatch | TerminalInputMissing
                  | TerminalClosureMismatch | TerminalArtifactUnverified | JobUIDChanged | JobLabelMismatch
                  | JobOwnerMismatch | JobNotOwned | PlanNotApprovable | PlanExpired | PlanEvidenceIncomplete
                  | StalePlan | PlanNotCurrent | ExecutionIdentityMismatch | MutationFenced
                  | StackNotWaitingApproval | ApprovalNameConflict

  datatype Key = Key(ns: string, name: string)

  datatype Content = Raw(text: string)
                   | InputsJson(inputs: map<string, string>)
                   | TerminalJson(result: TerminalResult)

  datatype Digest = NoDigest
                  | Sha(content: Content)
                  | OfExecutionIdentity(identity: ExecutionIdentity)
                  | OfTarget(target: TargetIdentity)
                  | OfConnection(connection: ConnectionProfile)
                  | OfStackSpec(frozen: StackSpec)
                  | OfPlanContext(context: Digest, credentials: string)
                  | OfRecordedInputs(spec: Digest, bundle: Digest, backend: Digest, plan: Digest, report: Digest,
                                     version: string, image: string, targetDigest: Digest, platform: Digest, runner: Digest)
                  | OfInputs(bundle: Digest, backend: Digest, plan: Digest, version: string, workspace: string,
                             destroy: bool, inputs: map<string, string>)

  datatype Ref = Ref(key: string, digest: Digest)

  datatype Outcome = NoOutcome | Pending | Running | Succeeded | NoChange | ChangesPresent
                   | Failed | Indeterminate | Rejected | Expired | Superseded | Unrecognized

  datatype Operation = Plan | Apply | OtherOperation
  datatype PlanMode = Reconcile | Destroy | OtherMode
  datatype SourceType = GitCommit | RetainedBundle | OtherSource
  datatype DesiredState = Present | DestroyRequested

  datatype CondStatus = IsTrue | IsFalse | IsUnknown

  /** The reasons of an InfraStack's Ready condition. */
  datatype ReadyReason = InfrastructureReady | InfrastructureRemoved | WaitingApproval | MutationFence
                       | RecoveryRequired | DeletionHeld | PlanPending | PlanRunning | PlanFailed
                       | PlanIndeterminate | PlanArtifactsPending | ApplyBlocked | Applying | ApplyFailed
                       | ApplyIndeterminate | DestroyEvidencePending | ConvergenceEvidencePending
                       | TargetDiscoveryRejected

  datatype Condition = Condition(status: CondStatus, reason: ReadyReason, generation: int)

  datatype Owner = Owner(kind: string, uid: string)

  datatype ExecutionProfile = ExecutionProfile(s3Endpoint: string, stsEndpoint: string, region: string,
    accountID: string, artifactBucket: string, credentialsSecret: string, credentialsIdentity: string)

  datatype ExecutionIdentity = ExecutionIdentity(provider: string, mode: string, accountID: string,
    region: string, roleARN: string, sessionProfile: string)

  datatype TargetIdentity = TargetIdentity(provider: string, accountID: string, region: string,
    clusterARN: string, clusterName: string, incarnationID: string)

  datatype ConnectionProfile = ConnectionProfile(endpoint: string, caDigest: string, authMode: string,
    networkRoute: string, kubeContext: string, roleARN: string)

  datatype ExecutorSpec = ExecutorSpec(terraformVersion: string, image: string, workDir: string,
    executionTimeout: int, parallelism: Option<int>)

  datatype StackSpec = StackSpec(
    executionProfile: Option<ExecutionProfile>,
    sourceURL: string, sourceRevision: string, sourcePath: string,
    backendConfigRef: string, lockTimeout: int,
    workspace: string,
    variables: map<string, string>, secretRefs: seq<string>, secretVariables: seq<string>,
    executor: ExecutorSpec,
    desiredState: DesiredState,
    executionIdentity: ExecutionIdentity,
    targetIdentity: TargetIdentity,
    connectionProfile: ConnectionProfile,
    mutationFence: bool,
    runtimeMutationAllowed: bool,
    runnerServiceAccountName: string,
    runnerManagementRoleARN: string,
    runnerIdentityDigest: Digest,
    concurrencyGroup: string, maxConcurrentPlans: int, maxConcurrentApplies: int)

  datatype RunSource = RunSource(kind: SourceType, url: string, revision: string, path: string,
                                 ref: string, digest: Digest)

  datatype RunSpec = RunSpec(
    executionProfile: Option<ExecutionProfile>,
    inputs: map<string, string>,
    stackName: string,
    stackGeneration: int,
    operation: Operation,
    planMode: PlanMode,
    source: RunSource,
    resolvedBackendConfigRef: string,
    backendArtifactRef: string, backendArtifactDigest: Digest,
    secretRefs: seq<string>, secretVariables: seq<string>,
    lockTimeout: int,
    workspace: string,
    executor: ExecutorSpec,
    contextDigest: Digest,
    executionTargetIdentityDigest: Digest, executionPlatformIdentityDigest: Digest,
    executionRoleARN: string,
    runnerManagementRoleARN: string,
    planRunUID: string,
    planRef: string, planDigest: Digest,
    planReportRef: string, planReportDigest: Digest,
    targetDiscoveryRef: string, targetDiscoveryDigest: Digest,
    approvalRef: Option<string>, approvalUID: string,
    effectiveInputDigest: Digest,
    sourceClosureDigest: Digest,
    variablesSnapshotDigest: Digest, secretVariableIdentityDigest: Digest,
    executionIdentityDigest: Digest, targetIdentityDigest: Digest, connectionProfileDigest: Digest,
    runnerIdentityDigest: Digest,
    terraformLockfileDigest: Digest,
    expectedTerraformVersion: string,
    runnerImageDigest: string,
    mutationFence: bool,
    runnerServiceAccountName: string,
    concurrencyGroup: string, maxConcurrentPlans: int, maxConcurrentApplies: int)

  datatype RunStatus = RunStatus(
    outcome: Outcome,
    ready: bool,                       // the Ready condition is True
    jobRef: Option<string>, jobUID: string,
    evidenceCaptured: bool, artifactsReady: bool, hasChanges: bool,
    sourceBundleRef: string, sourceBundleDigest: Digest,
    backendRef: string, backendDigest: Digest,
    planRef: string, planDigest: Digest,
    planReportRef: string, planReportDigest: Digest,
    targetDiscoveryRef: string, targetDiscoveryDigest: Digest,
    terminalRef: string, terminalDigest: Digest,
    effectiveInputDigest: Digest,
    planExpiresAt: Option<nat>,
    classification: string, mutationMayHaveOccurred: bool)

  const EmptyStatus := RunStatus(NoOutcome, false, None, "", false, false, false, "", NoDigest, "", NoDigest,
                                 "", NoDigest, "", NoDigest, "", NoDigest, "", NoDigest, NoDigest, None, "", false)

  datatype TerraformRun = TerraformRun(key: Key, uid: string, owner: Option<Owner>, created: nat,
                                       spec: RunSpec, status: RunStatus)

  datatype ApprovalSpec = ApprovalSpec(planRunName: string, planRunUID: string, planDigest: Digest,
    contextDigest: Digest, effectiveInputDigest: Digest, planReportRef: string, planReportDigest: Digest)

  datatype ChangeApproval = ChangeApproval(key: Key, uid: string, spec: ApprovalSpec)

  /** What a retained status field decodes to. */
  datatype Snapshot = NoSnapshot | Undecodable | Decoded(spec: RunSpec)

  datatype Closure = Closure(snapshot: Snapshot,
    sourceRef: string, sourceDigest: Digest, backendRef: string, backendDigest: Digest,
    discoveryRef: string, discoveryDigest: Digest,
    effectiveInputDigest: Digest, executionIdentityDigest: Digest, connectionDigest: Digest,
    runnerIdentityDigest: Digest, runUID: string, generation: int)

  datatype StackStatus = StackStatus(observedGeneration: int, ready: Option<Condition>,
                                     latestPlanRun: Option<string>, lastAppliedRun: Option<string>,
                                     lastConverged: Option<Closure>)

  datatype InfraStack = InfraStack(key: Key, uid: string, generation: int, deleting: bool, finalizer: bool,
                                   spec: StackSpec, status: StackStatus)

  datatype TerminalResult = TerminalResult(
    runUID: string, jobUID: string, startedAt: nat, finishedAt: nat,   // 0 is the zero time
    operation: Operation, exitCode: int, outcome: Outcome,
    artifactsReady: bool, hasChanges: bool,
    planRef: string, planDigest: Digest,
    sourceBundleRef: string, sourceBundleDigest: Digest,
    backendRef: string, backendDigest: Digest,
    planReportRef: string, planReportDigest: Digest,
    effectiveInputDigest: Digest,
    discoveryRef: string, discoveryDigest: Digest,
    classification: string, mutationMayHaveOccurred: bool)

  predicate IsOwnedBy(owner: Option<Owner>, parentUid: string, kind: string) {
    parentUid != "" && owner == Some(Owner(kind, parentUid))
  }

  predicate HasForeignController(owner: Option<Owner>, parentUid: string, kind: string) {
    owner.Some? && owner.value.kind == kind && owner.value.uid != parentUid
  }

  /** What becomes of one API write: done, refused, or done without an answer. */
  datatype Fate = Done | Failing | AnswerLost

  predicate Lands(f: Fate) { !f.Failing? }
}
