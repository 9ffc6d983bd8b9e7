/** How the TerraformRun reconciler turns a finished Job into a recorded outcome
    (internal/controller/terraformrun_controller.go), and the outcome table that runner,
    store and controller keep between them. */
module Capture {
  import opened Api
  import opened ArtifactStore
  import Admission
  import Runner

  const PlanValidity: nat := 3600

  function ValidateTerminalIdentity(run: TerraformRun, t: TerminalResult, job: Option<string>): Check {
    if t.runUID != run.uid || t.jobUID == "" || t.operation != run.spec.operation || t.outcome.NoOutcome?
    then Fail(TerminalIdentityMismatch)
    else if (job.Some? && t.jobUID != job.value) || (run.status.jobUID != "" && t.jobUID != run.status.jobUID)
    then Fail(TerminalJobMismatch)
    else if t.startedAt == 0 || t.finishedAt < t.startedAt then Fail(TerminalTimesInconsistent)
    else if t.outcome.ChangesPresent? && (!t.operation.Plan? || t.exitCode != 2 || !t.hasChanges)
    then Fail(InconsistentChanges)
    else if t.outcome.NoChange? && (!t.operation.Plan? || t.exitCode != 0 || t.hasChanges)
    then Fail(InconsistentNoChange)
    else if t.outcome.Succeeded? && (!t.operation.Apply? || t.exitCode != 0) then Fail(InconsistentApply)
    else if !(Positive(t.outcome) || t.outcome.Failed? || t.outcome.Indeterminate?) then Fail(UnknownOutcome)
    else if t.artifactsReady && run.spec.operation.Plan? && t.planRef != Runner.RunKey(run.uid, Runner.PlanBinary)
    then Fail(TerminalPlanMismatch)
    else if t.artifactsReady && run.spec.operation.Apply? && (run.spec.planRef == "" || t.planRef != run.spec.planRef)
    then Fail(TerminalApprovedPlanMismatch)
    else Pass
  }

  function EvidenceRefs(run: TerraformRun, t: TerminalResult): seq<Ref> {
    [Ref(t.planRef, t.planDigest), Ref(t.sourceBundleRef, t.sourceBundleDigest), Ref(t.backendRef, t.backendDigest),
     Admission.ModuleInputsRef(run)]
    + (if run.spec.operation.Plan? then [Ref(t.planReportRef, t.planReportDigest)] else [])
    + (if t.outcome.NoChange? || t.outcome.Succeeded? then [Ref(t.discoveryRef, t.discoveryDigest)] else [])
  }

  /** A reference the store confirms; `down` are the keys whose read fails this time. */
  predicate Confirmed(bucket: Bucket, down: set<string>, ref: Ref) {
    ref.key != "" && ref.digest != NoDigest && ref.key !in down && Readable(bucket, ref)
  }

  function VerifyTerminalEvidence(run: TerraformRun, t: TerminalResult, job: Option<string>, bucket: Bucket,
                                  down: set<string>): Check {
    var identity := ValidateTerminalIdentity(run, t, job);
    if identity.Fail? then identity
    else if !t.artifactsReady then Pass
    else if t.effectiveInputDigest == NoDigest then Fail(TerminalInputMissing)
    else if && run.spec.operation.Apply?
            && (t.planDigest != run.spec.planDigest || t.sourceBundleDigest != run.spec.source.digest
                || t.backendDigest != run.spec.backendArtifactDigest)
    then Fail(TerminalClosureMismatch)
    else if exists r | r in EvidenceRefs(run, t) :: !Confirmed(bucket, down, r)
    then Fail(TerminalArtifactUnverified)
    else Pass
  }

  datatype Captured = Terminal(result: TerminalResult, ref: Ref) | Missing

  function CaptureTerminalResult(run: TerraformRun, bucket: Bucket, job: Option<string>, down: set<string>): Captured {
    var key := Runner.RunKey(run.uid, Runner.TerminalResultFile);
    var read := ReadByKey(bucket, key);
    if key in down || read.Err? || !read.value.1.TerminalJson? then Missing
    else if VerifyTerminalEvidence(run, read.value.1.result, job, bucket, down).Fail? then Missing
    else Terminal(read.value.1.result, read.value.0)
  }

  /** The outcome that is recorded for a verified terminal result. */
  function EffectiveOutcome(op: Operation, t: TerminalResult): Outcome {
    if t.artifactsReady then t.outcome else if op.Apply? then Indeterminate else Failed
  }

  function MissingStatus(op: Operation, st: RunStatus): RunStatus {
    st.(evidenceCaptured := false, artifactsReady := false, ready := false,
        outcome := if op.Apply? then Indeterminate else Failed)
  }

  function FallbackInputs(run: TerraformRun, t: TerminalResult): Digest {
    OfRecordedInputs(run.spec.effectiveInputDigest, t.sourceBundleDigest, t.backendDigest, t.planDigest, t.planReportDigest,
      run.spec.expectedTerraformVersion, run.spec.runnerImageDigest, run.spec.targetIdentityDigest,
      run.spec.executionPlatformIdentityDigest, run.spec.runnerIdentityDigest)
  }

  /** The evidence part of the status a verified terminal result leaves behind. */
  function WithEvidence(run: TerraformRun, st: RunStatus, t: TerminalResult, ref: Ref): RunStatus {
    var spec := run.spec;
    var retained := t.sourceBundleRef == "" && st.sourceBundleRef == "" && spec.source.kind.RetainedBundle?;
    st.(evidenceCaptured := true, artifactsReady := t.artifactsReady, hasChanges := t.hasChanges,
        terminalRef := ref.key, terminalDigest := ref.digest,
        classification := t.classification, mutationMayHaveOccurred := t.mutationMayHaveOccurred,
        planReportRef := if t.planReportRef != "" then t.planReportRef else st.planReportRef,
        planReportDigest := if t.planReportRef != "" then t.planReportDigest else st.planReportDigest,
        effectiveInputDigest := if t.effectiveInputDigest != NoDigest then t.effectiveInputDigest else FallbackInputs(run, t),
        targetDiscoveryRef := t.discoveryRef, targetDiscoveryDigest := t.discoveryDigest,
        planRef := if t.planRef != "" then t.planRef else st.planRef,
        planDigest := if t.planRef != "" then t.planDigest else st.planDigest,
        sourceBundleRef := if t.sourceBundleRef != "" then t.sourceBundleRef else if retained then spec.source.ref else st.sourceBundleRef,
        sourceBundleDigest := if t.sourceBundleRef != "" then t.sourceBundleDigest else if retained then spec.source.digest else st.sourceBundleDigest,
        backendRef := if t.backendRef != "" then t.backendRef else if st.backendRef == "" then spec.backendArtifactRef else st.backendRef,
        backendDigest := if t.backendRef != "" then t.backendDigest else if st.backendRef == "" then spec.backendArtifactDigest else st.backendDigest)
  }

  /** The expiry and the outcome, once the evidence is in place. */
  function WithOutcome(op: Operation, st: RunStatus, t: TerminalResult): RunStatus {
    var outcome := EffectiveOutcome(op, t);
    st.(planExpiresAt := if op.Plan? && (t.outcome.NoChange? || t.outcome.ChangesPresent?) && st.planExpiresAt.None?
                         then Some(t.finishedAt + PlanValidity) else st.planExpiresAt,
        outcome := outcome, ready := Positive(outcome))
  }

  /** The status a verified terminal result leaves behind. */
  function TerminalStatus(run: TerraformRun, t: TerminalResult, ref: Ref): RunStatus {
    WithOutcome(run.spec.operation, WithEvidence(run, run.status, t, ref), t)
  }

  /** What reconcileJobStatus records once the Job has finished. */
  function Recorded(run: TerraformRun, bucket: Bucket, job: Option<string>, down: set<string>): RunStatus {
    match CaptureTerminalResult(run, bucket, job, down)
    case Terminal(t, ref) => TerminalStatus(run, t, ref)
    case Missing => MissingStatus(run.spec.operation, run.status)
  }

  /** Recording a result settles the outcome, never as Rejected, and leaves the Job's identity alone. */
  lemma RecordedKeepsJob(run: TerraformRun, bucket: Bucket, job: Option<string>, down: set<string>)
    ensures var st := Recorded(run, bucket, job, down);
      && st.outcome in {Succeeded, NoChange, ChangesPresent, Failed, Indeterminate}
      && st.jobRef == run.status.jobRef && st.jobUID == run.status.jobUID
  {
  }

  /** The reconciler's copy of the run, whose status it assigns field by field. */
  class RunObject {
    const run: TerraformRun // as read
    var status: RunStatus

    constructor (run: TerraformRun)
      ensures this.run == run && status == run.status
    {
      this.run := run;
      status := run.status;
    }

    method ApplyMissingTerminalResult()
      modifies this
      ensures status == MissingStatus(run.spec.operation, old(status))
    {
      status := status.(evidenceCaptured := false, artifactsReady := false);
      if run.spec.operation.Apply? {
        status := status.(outcome := Indeterminate, ready := false);
      } else {
        status := status.(outcome := Failed, ready := false);
      }
    }

    method RecordEvidence(t: TerminalResult, ref: Ref)
      requires status == run.status
      modifies this
      ensures status == WithEvidence(run, run.status, t, ref)
    {
      status := status.(evidenceCaptured := true, artifactsReady := t.artifactsReady, hasChanges := t.hasChanges,
                        terminalRef := ref.key, terminalDigest := ref.digest,
                        classification := t.classification, mutationMayHaveOccurred := t.mutationMayHaveOccurred);
      RecordReport(t);
      RecordInputs(t);
      status := status.(targetDiscoveryRef := t.discoveryRef, targetDiscoveryDigest := t.discoveryDigest);
      RecordPlan(t);
      RecordClosure(t);
    }

    method RecordReport(t: TerminalResult)
      modifies this
      ensures status == old(status).(
        planReportRef := if t.planReportRef != "" then t.planReportRef else old(status).planReportRef,
        planReportDigest := if t.planReportRef != "" then t.planReportDigest else old(status).planReportDigest)
    {
      if t.planReportRef != "" {
        status := status.(planReportRef := t.planReportRef, planReportDigest := t.planReportDigest);
      }
    }

    method RecordPlan(t: TerminalResult)
      modifies this
      ensures status == old(status).(
        planRef := if t.planRef != "" then t.planRef else old(status).planRef,
        planDigest := if t.planRef != "" then t.planDigest else old(status).planDigest)
    {
      if t.planRef != "" {
        status := status.(planRef := t.planRef, planDigest := t.planDigest);
      }
    }

    method RecordInputs(t: TerminalResult)
      modifies this
      ensures status == old(status).(effectiveInputDigest :=
        if t.effectiveInputDigest != NoDigest then t.effectiveInputDigest else FallbackInputs(run, t))
    {
      if t.effectiveInputDigest != NoDigest {
        status := status.(effectiveInputDigest := t.effectiveInputDigest);
      } else {
        status := status.(effectiveInputDigest := FallbackInputs(run, t));
      }
    }

    /** The source bundle and the backend: from the result, or else from the run itself. */
    method RecordClosure(t: TerminalResult)
      modifies this
      ensures status == old(status).(
        sourceBundleRef := status.sourceBundleRef, sourceBundleDigest := status.sourceBundleDigest,
        backendRef := status.backendRef, backendDigest := status.backendDigest)
      ensures (status.sourceBundleRef, status.sourceBundleDigest) ==
        if t.sourceBundleRef != "" then (t.sourceBundleRef, t.sourceBundleDigest)
        else if old(status).sourceBundleRef == "" && run.spec.source.kind.RetainedBundle? then (run.spec.source.ref, run.spec.source.digest)
        else (old(status).sourceBundleRef, old(status).sourceBundleDigest)
      ensures (status.backendRef, status.backendDigest) ==
        if t.backendRef != "" then (t.backendRef, t.backendDigest)
        else if old(status).backendRef == "" then (run.spec.backendArtifactRef, run.spec.backendArtifactDigest)
        else (old(status).backendRef, old(status).backendDigest)
    {
      if t.sourceBundleRef != "" {
        status := status.(sourceBundleRef := t.sourceBundleRef, sourceBundleDigest := t.sourceBundleDigest);
      } else if status.sourceBundleRef == "" && run.spec.source.kind.RetainedBundle? {
        status := status.(sourceBundleRef := run.spec.source.ref, sourceBundleDigest := run.spec.source.digest);
      }
      if t.backendRef != "" {
        status := status.(backendRef := t.backendRef, backendDigest := t.backendDigest);
      } else if status.backendRef == "" {
        status := status.(backendRef := run.spec.backendArtifactRef, backendDigest := run.spec.backendArtifactDigest);
      }
    }

    method RecordOutcome(t: TerminalResult)
      modifies this
      ensures status == WithOutcome(run.spec.operation, old(status), t)
    {
      if run.spec.operation.Plan? && (t.outcome.NoChange? || t.outcome.ChangesPresent?) && status.planExpiresAt.None? {
        status := status.(planExpiresAt := Some(t.finishedAt + PlanValidity));
      }
      var outcome := t.outcome;
      if !t.artifactsReady {
        outcome := if run.spec.operation.Apply? then Indeterminate else Failed;
      }
      status := status.(outcome := outcome, ready := Positive(outcome));
    }

    method ApplyTerminalResult(t: TerminalResult, ref: Ref)
      requires status == run.status
      modifies this
      ensures status == TerminalStatus(run, t, ref)
    {
      RecordEvidence(t, ref);
      RecordOutcome(t);
    }

    /** The finished-Job branch of reconcileJobStatus. */
    method Finish(store: Store, job: Option<string>, down: set<string>)
      requires status == run.status
      modifies this
      ensures status == Recorded(run, store.bucket, job, down)
    {
      var captured := CaptureTerminalResult(run, store.bucket, job, down);
      match captured {
        case Terminal(t, ref) => ApplyTerminalResult(t, ref);
        case Missing => ApplyMissingTerminalResult();
      }
    }
  }

  // ------------------------------------------------------ the outcome table

  /** Every artifact the recorded status refers to reads back, now and (ReadsAreStable) later. */
  predicate EvidenceHolds(run: TerraformRun, st: RunStatus, bucket: Bucket) {
    && Readable(bucket, Ref(st.terminalRef, st.terminalDigest))
    && Readable(bucket, Ref(st.planRef, st.planDigest))
    && Readable(bucket, Ref(st.sourceBundleRef, st.sourceBundleDigest))
    && Readable(bucket, Ref(st.backendRef, st.backendDigest))
    && Readable(bucket, Admission.ModuleInputsRef(run))
    && (run.spec.operation.Plan? ==> Readable(bucket, Ref(st.planReportRef, st.planReportDigest)))
    && (st.outcome.NoChange? || st.outcome.Succeeded? ==> Readable(bucket, Ref(st.targetDiscoveryRef, st.targetDiscoveryDigest)))
  }

  /** Verification confirms each artifact the terminal result refers to. */
  lemma VerifiedMeansConfirmed(run: TerraformRun, t: TerminalResult, bucket: Bucket, job: Option<string>, down: set<string>)
    requires VerifyTerminalEvidence(run, t, job, bucket, down).Pass? && t.artifactsReady
    ensures Confirmed(bucket, down, Ref(t.planRef, t.planDigest))
    ensures Confirmed(bucket, down, Ref(t.sourceBundleRef, t.sourceBundleDigest))
    ensures Confirmed(bucket, down, Ref(t.backendRef, t.backendDigest))
    ensures Confirmed(bucket, down, Admission.ModuleInputsRef(run))
    ensures run.spec.operation.Plan? ==> Confirmed(bucket, down, Ref(t.planReportRef, t.planReportDigest))
    ensures t.outcome.NoChange? || t.outcome.Succeeded? ==> Confirmed(bucket, down, Ref(t.discoveryRef, t.discoveryDigest))
  {
    var refs := EvidenceRefs(run, t);
    assert refs[0] in refs && refs[1] in refs && refs[2] in refs && refs[3] in refs;
    assert run.spec.operation.Plan? ==> refs[4] in refs;
    assert t.outcome.NoChange? || t.outcome.Succeeded? ==> refs[|refs| - 1] in refs;
  }

  /** A confirmed terminal result with its artifacts ready leaves a status whose every
      reference reads back. */
  lemma EvidenceIsRecorded(run: TerraformRun, t: TerminalResult, ref: Ref, bucket: Bucket, job: Option<string>, down: set<string>)
    requires VerifyTerminalEvidence(run, t, job, bucket, down).Pass? && t.artifactsReady
    requires Readable(bucket, ref)
    ensures EvidenceHolds(run, TerminalStatus(run, t, ref), bucket)
    ensures t.planRef != "" && t.sourceBundleRef != "" && t.backendRef != "" && t.effectiveInputDigest != NoDigest
    ensures run.spec.operation.Plan? ==> t.planReportRef != "" && t.planReportDigest != NoDigest
    ensures t.outcome.NoChange? || t.outcome.Succeeded? ==> t.discoveryRef != "" && t.discoveryDigest != NoDigest
  {
    VerifiedMeansConfirmed(run, t, bucket, job, down);
  }

  predicate Positive(outcome: Outcome) { outcome.NoChange? || outcome.ChangesPresent? || outcome.Succeeded? }

  /** A terminal result is accepted as the run's own exactly when it names the run and the Job the
      reconciler knows of, its times are in order, and its outcome fits its operation, exit code and,
      with artifacts ready, the plan it refers to. */
  lemma IdentityExactly(run: TerraformRun, t: TerminalResult, job: Option<string>)
    ensures ValidateTerminalIdentity(run, t, job).Pass? <==>
      && t.runUID == run.uid && t.operation == run.spec.operation
      && t.jobUID != "" && (job == None || job == Some(t.jobUID)) && run.status.jobUID in {"", t.jobUID}
      && 0 < t.startedAt <= t.finishedAt
      && (match t.outcome
          case NoChange => t.operation == Plan && t.exitCode == 0 && !t.hasChanges
          case ChangesPresent => t.operation == Plan && t.exitCode == 2 && t.hasChanges
          case Succeeded => t.operation == Apply && t.exitCode == 0
          case Failed => true
          case Indeterminate => true
          case _ => false)
      && (t.artifactsReady && t.operation == Plan ==> t.planRef == "runs/" + run.uid + "/" + "plan.binary")
      && (t.artifactsReady && t.operation == Apply ==> t.planRef == run.spec.planRef != "")
  {
  }

  /** A positive outcome comes from a terminal result in the store that is the run's own, and the status
      repeats what it says. */
  lemma PositiveComesFromTheRun(run: TerraformRun, bucket: Bucket, job: Option<string>, down: set<string>) returns (t: TerminalResult)
    requires Positive(Recorded(run, bucket, job, down).outcome)
    ensures var key := "runs/" + run.uid + "/" + "terminal-result.json";
      key !in down && key in bucket && bucket[key].content == TerminalJson(t)
    ensures ValidateTerminalIdentity(run, t, job).Pass? && t.artifactsReady && t.effectiveInputDigest != NoDigest
    ensures var st := Recorded(run, bucket, job, down);
      && (st.outcome, st.hasChanges, st.classification) == (t.outcome, t.hasChanges, t.classification)
      && st.mutationMayHaveOccurred == t.mutationMayHaveOccurred && st.effectiveInputDigest == t.effectiveInputDigest
      && (run.spec.operation.Plan? && run.status.planExpiresAt.None? ==> st.planExpiresAt == Some(t.finishedAt + 3600))
  {
    var c := CaptureTerminalResult(run, bucket, job, down);
    t := c.result;
  }

  /** No matter what is in the bucket, a positive outcome is never recorded without its evidence. */
  lemma PositiveNeedsEvidence(run: TerraformRun, bucket: Bucket, job: Option<string>, down: set<string>)
    requires Positive(Recorded(run, bucket, job, down).outcome)
    ensures var st := Recorded(run, bucket, job, down);
      && EvidenceHolds(run, st, bucket) && st.evidenceCaptured && st.artifactsReady
      && st.terminalRef != "" && st.terminalDigest != NoDigest
      && st.planRef != "" && st.sourceBundleRef != "" && st.backendRef != ""
      && (st.outcome != Succeeded ==>
            && run.spec.operation.Plan? && Admission.PlanEvidenceReady(st) && st.planExpiresAt.Some?
            && st.planReportRef != "" && st.planReportDigest != NoDigest)
      && (st.outcome != ChangesPresent ==> st.targetDiscoveryRef != "" && st.targetDiscoveryDigest != NoDigest)
      && (st.outcome == NoChange ==> Admission.RunEvidenceReady(st))
      && (st.outcome == Succeeded ==>
            && run.spec.operation.Apply? && Admission.DestroyEvidenceReady(st)
            && st.planDigest == run.spec.planDigest && st.sourceBundleDigest == run.spec.source.digest
            && st.backendDigest == run.spec.backendArtifactDigest)
  {
    var c := CaptureTerminalResult(run, bucket, job, down);
    if c.Terminal? { EvidenceIsRecorded(run, c.result, c.ref, bucket, job, down); }
  }

  /** The bucket holds what an honest runner of this run left. */
  ghost predicate Executed(run: TerraformRun, w: Runner.World, before: Bucket, after: Bucket) {
    && run.uid == w.uid && Runner.Ran(w, run.spec.operation, before, after)
    && Runner.RunKey(w.uid, Runner.TerminalResultFile) !in before
  }

  /** The Plan half of the table. */
  lemma PlanOutcomes(run: TerraformRun, w: Runner.World, before: Bucket, after: Bucket, job: Option<string>, down: set<string>)
    requires run.spec.operation.Plan? && Executed(run, w, before, after)
    ensures var st := Recorded(run, after, job, down);
      && st.outcome in {NoChange, ChangesPresent, Failed}
      && (st.outcome == NoChange || st.outcome == ChangesPresent ==>
            w.prepared && w.versionOk && w.init == Runner.Exited(0) && (w.select == Runner.Exited(0) || (w.select.Exited? && w.create == Runner.Exited(0))))
      && (st.outcome == NoChange ==> w.terraform == Runner.Exited(0) && EvidenceHolds(run, st, after) && Admission.RunEvidenceReady(st))
      && (st.outcome == ChangesPresent ==> w.terraform == Runner.Exited(2) && EvidenceHolds(run, st, after) && Admission.PlanEvidenceReady(st))
  {
    if Positive(Recorded(run, after, job, down).outcome) {
      PositiveNeedsEvidence(run, after, job, down);
    }
  }

  /** The Apply half: an Apply that got a Job is Succeeded on exit 0 with all evidence, or
      Indeterminate. It is never recorded Failed. */
  lemma ApplyOutcomes(run: TerraformRun, w: Runner.World, before: Bucket, after: Bucket, job: Option<string>, down: set<string>)
    requires run.spec.operation.Apply? && Executed(run, w, before, after)
    ensures var st := Recorded(run, after, job, down);
      && st.outcome in {Succeeded, Indeterminate}
      && (st.outcome == Succeeded ==>
            w.prepared && w.versionOk && w.init == Runner.Exited(0) && (w.select == Runner.Exited(0) || (w.select.Exited? && w.create == Runner.Exited(0))))
      && (st.outcome == Succeeded ==> w.terraform == Runner.Exited(0) && EvidenceHolds(run, st, after) && Admission.DestroyEvidenceReady(st))
  {
    if Positive(Recorded(run, after, job, down).outcome) {
      PositiveNeedsEvidence(run, after, job, down);
    }
  }

  // ----------------------------------------------- runs in which nothing fails

  /** The runner was started for this run, with its frozen inputs, by the Job the reconciler looks at. */
  predicate StartedFor(w: Runner.World, run: TerraformRun, job: Option<string>) {
    && w.uid == run.uid && w.jobUID.Some? && (job == w.jobUID || job.None?)
    && (run.status.jobUID == "" || run.status.jobUID == w.jobUID.value)
    && w.inputs == Some(run.spec.inputs)
  }

  /** The runner of an Apply was given the references its run names. */
  predicate GivenTheClosure(w: Runner.World, run: TerraformRun) {
    && w.planRef == Ref(run.spec.planRef, run.spec.planDigest) && w.bundleRef.digest == run.spec.source.digest
    && w.backendRef.digest == run.spec.backendArtifactDigest
  }

  /** The terminal result an honest runner left is the one the reconciler reads. */
  lemma TerminalIsRead(run: TerraformRun, w: Runner.World, before: Bucket, after: Bucket)
    requires Executed(run, w, before, after) && Runner.Clear(w, before, 0) && Runner.Terminal(w, after).Some?
    ensures var t := Runner.Terminal(w, after).value;
      && Runner.Honest(w, run.spec.operation, t)
      && ReadByKey(after, Runner.RunKey(w.uid, Runner.TerminalResultFile))
           == Ok((Ref(Runner.RunKey(w.uid, Runner.TerminalResultFile), Sha(TerminalJson(t))), TerminalJson(t)))
  {
    assert Runner.Vacant(w, before, Runner.TerminalResultFile);
  }

  /** A verified terminal result with its artifacts ready is recorded with its own outcome. */
  lemma VerifiedIsRecorded(run: TerraformRun, bucket: Bucket, job: Option<string>, t: TerminalResult, ref: Ref)
    requires ReadByKey(bucket, Runner.RunKey(run.uid, Runner.TerminalResultFile)) == Ok((ref, TerminalJson(t)))
    requires VerifyTerminalEvidence(run, t, job, bucket, {}).Pass? && t.artifactsReady
    ensures Recorded(run, bucket, job, {}).outcome == t.outcome
  {
  }

  lemma ReadableIsConfirmed(bucket: Bucket, ref: Ref)
    requires Readable(bucket, ref)
    ensures Confirmed(bucket, {}, ref)
  {
  }

  lemma InputsAreConfirmed(run: TerraformRun, w: Runner.World, bucket: Bucket)
    requires w.uid == run.uid && w.inputs == Some(run.spec.inputs) && Runner.ModuleInputsStored(w, bucket)
    ensures Confirmed(bucket, {}, Admission.ModuleInputsRef(run))
  {
    var ref := Ref(Runner.RunKey(w.uid, Runner.ModuleInputsFile), Sha(InputsJson(w.inputs.value)));
    assert Admission.ModuleInputsRef(run) == ref;
    ReadableIsConfirmed(bucket, ref);
  }

  predicate CommonConfirmed(run: TerraformRun, t: TerminalResult, bucket: Bucket) {
    && Confirmed(bucket, {}, Ref(t.planRef, t.planDigest)) && Confirmed(bucket, {}, Ref(t.sourceBundleRef, t.sourceBundleDigest))
    && Confirmed(bucket, {}, Ref(t.backendRef, t.backendDigest)) && Confirmed(bucket, {}, Admission.ModuleInputsRef(run))
  }

  /** What verification asks for is enough: the converse of VerifiedMeansConfirmed. */
  lemma ConfirmedMeansVerified(run: TerraformRun, t: TerminalResult, bucket: Bucket, job: Option<string>)
    requires ValidateTerminalIdentity(run, t, job).Pass? && t.effectiveInputDigest != NoDigest && CommonConfirmed(run, t, bucket)
    requires run.spec.operation.Apply? ==>
      t.planDigest == run.spec.planDigest && t.sourceBundleDigest == run.spec.source.digest && t.backendDigest == run.spec.backendArtifactDigest
    requires run.spec.operation.Plan? ==> Confirmed(bucket, {}, Ref(t.planReportRef, t.planReportDigest))
    requires t.outcome.NoChange? || t.outcome.Succeeded? ==> Confirmed(bucket, {}, Ref(t.discoveryRef, t.discoveryDigest))
    ensures VerifyTerminalEvidence(run, t, job, bucket, {}).Pass?
  {
    forall r | r in EvidenceRefs(run, t) ensures Confirmed(bucket, {}, r) { WhichReference(run, t, r); }
  }

  lemma WhichReference(run: TerraformRun, t: TerminalResult, r: Ref)
    requires r in EvidenceRefs(run, t)
    ensures || r == Ref(t.planRef, t.planDigest) || r == Ref(t.sourceBundleRef, t.sourceBundleDigest)
            || r == Ref(t.backendRef, t.backendDigest) || r == Admission.ModuleInputsRef(run)
            || (run.spec.operation.Plan? && r == Ref(t.planReportRef, t.planReportDigest))
            || ((t.outcome.NoChange? || t.outcome.Succeeded?) && r == Ref(t.discoveryRef, t.discoveryDigest))
  {
  }

  lemma PlanIdentity(run: TerraformRun, w: Runner.World, t: TerminalResult, job: Option<string>)
    requires run.spec.operation.Plan? && StartedFor(w, run, job) && Runner.Honest(w, Plan, t)
    requires Runner.Prepared(w) && Runner.Positive(t) && t.planRef == Runner.RunKey(w.uid, Runner.PlanBinary)
    ensures ValidateTerminalIdentity(run, t, job).Pass?
  {
  }

  lemma PlanIsVerified(run: TerraformRun, w: Runner.World, t: TerminalResult, bucket: Bucket, job: Option<string>)
    requires run.spec.operation.Plan? && StartedFor(w, run, job) && Runner.Honest(w, Plan, t)
    requires Runner.Prepared(w) && Runner.PlanComplete(w, t, bucket) && Runner.ModuleInputsStored(w, bucket)
    ensures VerifyTerminalEvidence(run, t, job, bucket, {}).Pass?
  {
    PlanIdentity(run, w, t, job);
    InputsAreConfirmed(run, w, bucket);
    ReadableIsConfirmed(bucket, Ref(t.planReportRef, t.planReportDigest));
    if t.outcome.NoChange? { ReadableIsConfirmed(bucket, Ref(t.discoveryRef, t.discoveryDigest)); }
    ConfirmedMeansVerified(run, t, bucket, job);
  }

  lemma ApplyIdentity(run: TerraformRun, w: Runner.World, t: TerminalResult, job: Option<string>)
    requires run.spec.operation.Apply? && StartedFor(w, run, job) && Runner.Honest(w, Apply, t) && Runner.Prepared(w)
    requires t.outcome.Succeeded? && t.exitCode == 0 && t.planRef == run.spec.planRef != ""
    ensures ValidateTerminalIdentity(run, t, job).Pass?
  {
  }

  lemma ApplyIsVerified(run: TerraformRun, w: Runner.World, t: TerminalResult, bucket: Bucket, job: Option<string>)
    requires run.spec.operation.Apply? && StartedFor(w, run, job) && GivenTheClosure(w, run) && Runner.Honest(w, Apply, t)
    requires Runner.Prepared(w) && Runner.ApplyComplete(w, t, bucket) && Runner.ModuleInputsStored(w, bucket)
    requires Readable(bucket, w.planRef) && Readable(bucket, w.bundleRef) && Readable(bucket, w.backendRef)
    ensures VerifyTerminalEvidence(run, t, job, bucket, {}).Pass?
  {
    ApplyIdentity(run, w, t, job);
    InputsAreConfirmed(run, w, bucket);
    ReadableIsConfirmed(bucket, Ref(t.discoveryRef, t.discoveryDigest));
    ConfirmedMeansVerified(run, t, bucket, job);
  }

  /** A Plan in which nothing fails is recorded as what Terraform's exit code says. */
  lemma FaultlessPlan(run: TerraformRun, w: Runner.World, before: Bucket, after: Bucket, job: Option<string>)
    requires run.spec.operation.Plan? && Executed(run, w, before, after) && StartedFor(w, run, job)
    requires Runner.PlanSmooth(w, before) && Runner.PlanLeft(w, after)
    ensures Recorded(run, after, job, {}).outcome == if w.terraform == Runner.Exited(0) then NoChange else ChangesPresent
  {
    TerminalIsRead(run, w, before, after);
    var t := Runner.Terminal(w, after).value;
    PlanIsVerified(run, w, t, after, job);
    VerifiedIsRecorded(run, after, job, t, Ref(Runner.RunKey(w.uid, Runner.TerminalResultFile), Sha(TerminalJson(t))));
  }

  /** An Apply in which nothing fails, of a Plan whose artifacts read back, is recorded Succeeded. */
  lemma FaultlessApply(run: TerraformRun, w: Runner.World, before: Bucket, after: Bucket, job: Option<string>)
    requires run.spec.operation.Apply? && Executed(run, w, before, after) && StartedFor(w, run, job) && GivenTheClosure(w, run)
    requires Readable(before, w.planRef) && Readable(before, w.bundleRef) && Readable(before, w.backendRef)
    requires Runner.ApplySmooth(w, before) && Runner.ApplyLeft(w, after)
    ensures Recorded(run, after, job, {}).outcome == Succeeded
  {
    TerminalIsRead(run, w, before, after);
    var t := Runner.Terminal(w, after).value;
    Runner.StillReadable(before, after, w.planRef);
    Runner.StillReadable(before, after, w.bundleRef);
    Runner.StillReadable(before, after, w.backendRef);
    ApplyIsVerified(run, w, t, after, job);
    VerifiedIsRecorded(run, after, job, t, Ref(Runner.RunKey(w.uid, Runner.TerminalResultFile), Sha(TerminalJson(t))));
  }

  /** For an arbitrary bucket, an Apply is recorded Failed exactly when its verified terminal
      result claims a failure with its artifacts ready, which no honest runner writes. */
  lemma ApplyFailsOnlyOnContradiction(run: TerraformRun, bucket: Bucket, job: Option<string>, down: set<string>)
    requires run.spec.operation.Apply?
    ensures Recorded(run, bucket, job, down).outcome == Failed <==>
            (var c := CaptureTerminalResult(run, bucket, job, down);
             c.Terminal? && c.result.artifactsReady && c.result.outcome == Failed)
  {
  }
}
