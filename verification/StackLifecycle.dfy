/** The InfraStack reconciler (internal/controller/infrastack_controller.go) over the life of
    one stack: Plans, Applies, Destroy and the release of the finalizer.

    The stack's runs evolve on their own between reconciliations, users edit or delete the
    stack at any time, and every API write of a reconciliation may fail or lose its answer. The
    lists of runs come from a cache: a list may leave out runs that exist and show any earlier
    status of those it holds. The stack itself is read as it is. */
module StackLifecycle {
  import opened Api
  import opened RunHistory
  import Admission
  import AdmissionProofs

  /** A run as it was read: which one, and which version of its status. */
  datatype Sighting = Sighting(uid: string, seen: nat)

  /** What a reconciliation meets: new UIDs, the Apply read back when its name is taken, an approval
      if one is found, the oracle of target discovery, and the fate of each write it may attempt. */
  datatype Chance = Chance(
    planUid: string, applyUid: string, taken: Option<Sighting>, approval: Option<ChangeApproval>,
    profile: ExecutionProfile, inputs: map<string, string>, discovered: bool,
    edit: Fate, supersede: Fate, plan: Fate, apply: Fate, status: Fate, evidence: Fate, finalizer: Fate)

  /** `outdated`: an Apply was created after the Ready condition was last established. */
  datatype StackState = StackState(stack: InfraStack, gone: bool, runs: Runs, now: nat, outdated: bool)

  predicate Destroying(stack: InfraStack) { stack.spec.desiredState.DestroyRequested? || stack.deleting }

  predicate SaysRemoved(st: StackStatus) {
    st.ready.Some? && st.ready.value.status.IsTrue? && st.ready.value.reason.InfrastructureRemoved?
  }

  // --------------------------------------------------------------- the runs

  predicate IsApplyRun(r: Record) { r.run.spec.operation.Apply? && r.versions != [] }

  predicate PreMutation(st: RunStatus) { st.classification == "FailedPreMutation" }

  /** An Apply the Destroy path does not wait for. */
  predicate Settled(st: RunStatus) {
    st.outcome.Succeeded? || st.outcome.Rejected? || (st.outcome.Failed? && !st.mutationMayHaveOccurred && PreMutation(st))
  }

  predicate SettledAt(runs: Runs, u: string) {
    u in runs && IsApplyRun(runs[u]) ==> Settled(Latest(runs[u]))
  }

  /** Rejected before a Job could be created. */
  predicate NeverAdmitted(st: RunStatus) { st.outcome.Rejected? && st.jobRef.None? && !st.mutationMayHaveOccurred }

  predicate NeverAdmittedAt(runs: Runs, u: string) {
    u in runs && IsApplyRun(runs[u]) ==> NeverAdmitted(Latest(runs[u]))
  }

  predicate PlanStale(st: RunStatus, now: nat) {
    || st.outcome.Failed? || st.outcome.Indeterminate? || st.outcome.Rejected? || st.outcome.Expired? || st.outcome.Superseded?
    || (st.planExpiresAt.Some? && now >= st.planExpiresAt.value)
  }

  predicate IsCandidate(stack: InfraStack, runs: Runs, u: string, mode: PlanMode) {
    && u in runs && runs[u].versions != []
    && runs[u].run.spec.operation.Plan? && runs[u].run.spec.planMode == mode
    && runs[u].run.spec.stackGeneration == stack.generation
  }

  /** The candidate the scan of a list ends with: none in it was created later. */
  ghost predicate IsLatest(stack: InfraStack, runs: Runs, u: string, mode: PlanMode) {
    IsCandidate(stack, runs, u, mode) && forall v | IsCandidate(stack, runs, v, mode) :: runs[v].run.created <= runs[u].run.created
  }

  predicate HasCandidate(stack: InfraStack, runs: Runs, mode: PlanMode) {
    exists u | u in runs :: IsCandidate(stack, runs, u, mode)
  }

  function ModeOf(stack: InfraStack): PlanMode { if Destroying(stack) then Destroy else Reconcile }

  // ------------------------------------------------------------------ the lists

  type Runs = map<string, Record>

  predicate CachedAt(runs: Runs, listed: Runs, u: string) {
    u in listed ==>
      u in runs && listed[u].run == runs[u].run && listed[u].versions != [] && listed[u].versions <= runs[u].versions
  }

  /** What a cache may show of the runs: some of them, each with a status it once had. */
  ghost predicate CachedFrom(runs: Runs, listed: Runs) { forall u :: CachedAt(runs, listed, u) }

  /** The lists of one pass: of reconcileDestroy, of ensurePlanRun and of ensureApplyRun. */
  datatype Lists = Lists(settling: Runs, plans: Runs, applies: Runs)

  ghost predicate Cached(runs: Runs, l: Lists) {
    CachedFrom(runs, l.settling) && CachedFrom(runs, l.plans) && CachedFrom(runs, l.applies)
  }

  // -------------------------------------------------------------- API writes

  function WithStatus(s: StackState, st: StackStatus): StackState { s.(stack := s.stack.(status := st)) }

  function AddRun(s: StackState, uid: string, spec: RunSpec, created: nat): StackState {
    if uid == "" || uid in s.runs then s else
    var run := TerraformRun(Key(s.stack.key.ns, uid), uid, Some(Owner("InfraStack", s.stack.uid)), created, spec, EmptyStatus);
    s.(runs := s.runs[uid := Record(run, [EmptyStatus])])
  }

  function SetFinalizer(s: StackState, present: bool): StackState {
    var t := s.(stack := s.stack.(finalizer := present));
    if !present && s.stack.deleting then t.(gone := true) else t
  }

  /** An edit of the spec, by the reconciler or by anybody. */
  function Edited(s: StackState, spec: StackSpec): StackState {
    s.(stack := s.stack.(spec := spec, generation := s.stack.generation + 1))
  }

  function ConditionStatus(s: StackState, status: CondStatus, reason: ReadyReason): StackStatus {
    s.stack.status.(observedGeneration := s.stack.generation, ready := Some(Condition(status, reason, s.stack.generation)))
  }

  /** A status update that changes nothing is not sent at all. */
  predicate StatusLands(was: StackStatus, st: StackStatus, ch: Chance) { was == st || Lands(ch.status) }

  predicate FinalizerGoes(was: StackStatus, st: StackStatus, finalizer: bool, remove: bool, ch: Chance) {
    && remove && st.ready.Some? && st.ready.value.status.IsTrue? && finalizer
    && (was == st || ch.status.Done?) && ch.evidence.Done? && Lands(ch.finalizer)
  }

  /** setStackCondition; `renewed` unless the condition only repeats what was there. */
  function SetCondition(s: StackState, status: CondStatus, reason: ReadyReason, removeFinalizer: bool, renewed: bool, ch: Chance): StackState {
    var st := ConditionStatus(s, status, reason);
    var t := if StatusLands(s.stack.status, st, ch) then WithStatus(s, st).(outdated := s.outdated && !renewed) else s;
    if FinalizerGoes(s.stack.status, st, s.stack.finalizer, removeFinalizer, ch) then SetFinalizer(t, false) else t
  }

  // ------------------------------------------------------------------- plans

  function NewPlanSpec(s: StackState, destroy: bool, ch: Chance): Option<RunSpec> {
    if !destroy then Some(AdmissionProofs.PlannedSpec(s.stack, ch.profile, ch.inputs))
    else if s.stack.status.lastConverged.None? then None
    else
      var retained := AdmissionProofs.RetainedRunFromClosure(s.stack, s.stack.status.lastConverged.value);
      if retained.None? then None
      else Some(Admission.BuildDestroyPlanRun(s.stack, retained.value).(executionProfile := Some(ch.profile), inputs := ch.inputs))
  }

  predicate InRange(s: StackState, at: Sighting) { at.uid in s.runs && at.seen < |s.runs[at.uid].versions| }

  function ReadRun(s: StackState, at: Sighting): TerraformRun
    requires InRange(s, at)
  {
    ReadAt(s.runs[at.uid], at.seen)
  }

  /** A status update goes through only against the current version. */
  predicate Current(s: StackState, at: Sighting) { at.uid in s.runs && at.seen + 1 == |s.runs[at.uid].versions| }

  function SupersedePlan(s: StackState, uid: string): StackState
    requires uid in s.runs && s.runs[uid].versions != []
  {
    var r := s.runs[uid];
    s.(runs := s.runs[uid := r.(versions := r.versions + [Latest(r).(outcome := Outcome.Superseded, ready := false)])])
  }

  datatype Ensured = Use(state: StackState, at: Sighting) | Stop(state: StackState)

  /** ensurePlanRun: reuse the latest candidate of the list, or supersede it and create a new
      attempt. The first attempt of a generation has a fixed name, which a list that leaves it out
      does not make free. The new attempt's spec, if one can be built, is a parameter. */
  function EnsurePlan(s: StackState, latest: Option<Sighting>, spec: Option<RunSpec>, ch: Chance): Ensured
    requires latest.Some? ==> InRange(s, latest.value)
  {
    if latest.Some? && !PlanStale(ReadRun(s, latest.value).status, s.now) then Use(s, latest.value)
    else if latest.None? then
      if spec.None? || ch.plan.Failing? || HasCandidate(s.stack, s.runs, ModeOf(s.stack)) then Stop(s) else AddAttempt(s, spec.value, ch)
    else
      var lands := Current(s, latest.value) && Lands(ch.supersede);
      var superseded := if lands then SupersedePlan(s, latest.value.uid) else s;
      if !lands || !ch.supersede.Done? || spec.None? || ch.plan.Failing? then Stop(superseded)
      else AddAttempt(superseded, spec.value, ch)
  }

  function AddAttempt(s: StackState, spec: RunSpec, ch: Chance): Ensured {
    var t := AddRun(s, ch.planUid, spec, s.now);
    if ch.plan.AnswerLost? || ch.planUid == "" || ch.planUid in s.runs then Stop(t) else Use(t, Sighting(ch.planUid, 0))
  }

  // ------------------------------------------------------------- plan results

  datatype Verdict = Verdict(state: StackState, status: CondStatus, reason: ReadyReason, applied: Option<string>, closure: Option<Closure>)

  function ApplyVerdict(s: StackState, plan: TerraformRun, apply: TerraformRun, destroy: bool, ch: Chance): Verdict {
    if apply.status.outcome.Succeeded? then
      if destroy then
        if Admission.DestroyEvidenceReady(apply.status) then Verdict(s, IsTrue, InfrastructureRemoved, None, None)
        else Verdict(s, IsFalse, DestroyEvidencePending, None, None)
      else
        var closure := AdmissionProofs.ConvergenceClosure(s.stack, plan, apply);
        if !ch.discovered then Verdict(s, IsFalse, TargetDiscoveryRejected, Some(apply.key.name), None)
        else if closure.None? then Verdict(s, IsFalse, ConvergenceEvidencePending, Some(apply.key.name), None)
        else Verdict(s, IsTrue, InfrastructureReady, Some(apply.key.name), closure)
    else if apply.status.outcome.Indeterminate? then Verdict(s, IsUnknown, ApplyIndeterminate, None, None)
    else if apply.status.outcome.Failed? || apply.status.outcome.Rejected? then Verdict(s, IsFalse, ApplyFailed, None, None)
    else Verdict(s, IsFalse, Applying, None, None)
  }

  predicate AppliesPlan(r: Record, planUid: string) { IsApplyRun(r) && r.run.spec.planRunUID == planUid }

  /** The one name an Apply of this Plan can have is taken. */
  predicate NameTaken(s: StackState, planUid: string) { exists u | u in s.runs :: AppliesPlan(s.runs[u], planUid) }

  /** The approved branch: find or create the Apply. `existing` is the one the list holds, if any. */
  function ApplyPlan(s: StackState, at: Sighting, existing: Option<Sighting>, destroy: bool, ch: Chance): Verdict
    requires InRange(s, at) && (existing.Some? ==> InRange(s, existing.value))
  {
    var plan := ReadRun(s, at);
    if ch.approval.None? || !Admission.Usable(ch.approval.value, plan, s.now) then Verdict(s, IsFalse, WaitingApproval, None, None)
    else if plan.status.planDigest == NoDigest || plan.status.sourceBundleRef == "" || plan.status.sourceBundleDigest == NoDigest
            || !Admission.PlanEvidenceReady(plan.status) then Verdict(s, IsFalse, PlanArtifactsPending, None, None)
    else if Admission.ValidateApplyAdmission(s.stack, plan, ch.approval.value, s.now).Fail? then Verdict(s, IsFalse, ApplyBlocked, None, None)
    else if existing.Some? then ApplyVerdict(s, plan, ReadRun(s, existing.value), destroy, ch)
    else EnsureApply(s, plan, Admission.BuildApplyRun(s.stack, plan, ch.approval.value), destroy, ch)
  }

  /** The create of ensureApplyRun: a taken name is read back and must be the very same Apply. */
  function EnsureApply(s: StackState, plan: TerraformRun, spec: RunSpec, destroy: bool, ch: Chance): Verdict {
    if ch.apply.Failing? || ch.applyUid == "" || ch.applyUid in s.runs then Verdict(s, IsFalse, ApplyBlocked, None, None)
    else if NameTaken(s, plan.uid) then
      if ch.taken.Some? && InRange(s, ch.taken.value) && AppliesPlan(s.runs[ch.taken.value.uid], plan.uid)
         && s.runs[ch.taken.value.uid].run.spec == spec
      then ApplyVerdict(s, plan, ReadRun(s, ch.taken.value), destroy, ch) else Verdict(s, IsFalse, ApplyBlocked, None, None)
    else
      var t := AddRun(s, ch.applyUid, spec, s.now).(outdated := true);
      if ch.apply.AnswerLost? then Verdict(t, IsFalse, ApplyBlocked, None, None) else Verdict(t, IsFalse, Applying, None, None)
  }

  function JudgePlan(s: StackState, at: Sighting, existing: Option<Sighting>, destroy: bool, ch: Chance): Verdict
    requires InRange(s, at) && (existing.Some? ==> InRange(s, existing.value))
  {
    var plan := ReadRun(s, at);
    match plan.status.outcome
    case NoChange =>
      if destroy then
        if Admission.RunEvidenceReady(plan.status) then Verdict(s, IsTrue, InfrastructureRemoved, None, None)
        else Verdict(s, IsFalse, DestroyEvidencePending, None, None)
      else
        var closure := AdmissionProofs.ConvergenceClosure(s.stack, plan, plan);
        if !ch.discovered then Verdict(s, IsFalse, TargetDiscoveryRejected, None, None)
        else if closure.None? then Verdict(s, IsFalse, ConvergenceEvidencePending, None, None)
        else Verdict(s, IsTrue, InfrastructureReady, None, closure)
    case ChangesPresent => ApplyPlan(s, at, existing, destroy, ch)
    case Failed => Verdict(s, IsFalse, PlanFailed, None, None)
    case Indeterminate => Verdict(s, IsUnknown, PlanIndeterminate, None, None)
    case _ => Verdict(s, IsFalse, if plan.status.jobRef.Some? then PlanRunning else PlanPending, None, None)
  }

  function VerdictStatus(v: Verdict, planName: string): StackStatus {
    var st := ConditionStatus(v.state, v.status, v.reason).(latestPlanRun := Some(planName));
    var applied := if v.applied.Some? then st.(lastAppliedRun := v.applied) else st;
    if v.closure.Some? then applied.(lastConverged := v.closure) else applied
  }

  /** reconcilePlanResult and what the Destroy path does after it. */
  function Conclude(v: Verdict, planName: string, destroy: bool, ch: Chance): StackState {
    var st := VerdictStatus(v, planName);
    var written := WithStatus(v.state, st).(outdated := false);
    if v.state.stack.status != st && ch.status.Failing? then v.state
    else if v.state.stack.status != st && ch.status.AnswerLost? then written
    else if destroy && SaysRemoved(st) && written.stack.deleting && written.stack.finalizer
    then SetCondition(written, IsTrue, InfrastructureRemoved, true, false, ch)
    else written
  }

  /** The Plan is in place: judge it with the Apply the scan found, if that is still on record. */
  function UsePlan(s: StackState, at: Sighting, existing: Option<Sighting>, destroy: bool, ch: Chance): StackState
    requires InRange(s, at)
  {
    var found := if existing.Some? && InRange(s, existing.value) then existing else None;
    Conclude(JudgePlan(s, at, found, destroy, ch), s.runs[at.uid].run.key.name, destroy, ch)
  }

  function ReconcilePlan(s: StackState, destroy: bool, scan: Scan, ch: Chance): StackState
    requires ScanInRange(s, scan)
  {
    var e := EnsurePlan(s, scan.latest, NewPlanSpec(s, destroy, ch), ch);
    if e.Stop? || !InRange(e.state, e.at) then e.state else UsePlan(e.state, e.at, scan.existing, destroy, ch)
  }

  // --------------------------------------------------------------- reconcile

  /** What the scans of a reconciliation find. */
  datatype Scan = Scan(unsettled: bool, hold: ReadyReason, ran: bool, latest: Option<Sighting>, existing: Option<Sighting>)

  /** `at` is run `u` as the list shows it. */
  predicate ShownAs(listed: Runs, at: Sighting) { at.uid in listed && at.seen + 1 == |listed[at.uid].versions| }

  /** The scans report what the lists show, whether or not that is still so. */
  ghost predicate ScanIsTrue(stack: InfraStack, l: Lists, scan: Scan) {
    && (scan.unsettled <==> exists u :: !SettledAt(l.settling, u))
    && (scan.hold.RecoveryRequired? || scan.hold.DeletionHeld?)
    && (scan.ran <==> exists u :: !NeverAdmittedAt(l.settling, u))
    && (match scan.latest
        case Some(at) => ShownAs(l.plans, at) && IsLatest(stack, l.plans, at.uid, ModeOf(stack))
        case None => !HasCandidate(stack, l.plans, ModeOf(stack)))
    && (match scan.existing
        case Some(at) => scan.latest.Some? && ShownAs(l.applies, at) && AppliesPlan(l.applies[at.uid], scan.latest.value.uid)
        case None => scan.latest.None? || forall u | u in l.applies :: !AppliesPlan(l.applies[u], scan.latest.value.uid))
  }

  predicate ScanInRange(s: StackState, scan: Scan) {
    && (scan.latest.Some? ==> InRange(s, scan.latest.value))
    && (scan.existing.Some? ==> InRange(s, scan.existing.value))
  }

  function ReconcileDestroy(s: StackState, scan: Scan, ch: Chance): StackState
    requires ScanInRange(s, scan)
  {
    var st := s.stack.status;
    if SaysRemoved(st) then SetCondition(s, IsTrue, InfrastructureRemoved, true, false, ch)
    else if scan.unsettled then
      SetCondition(s, if scan.hold.DeletionHeld? then IsFalse else IsUnknown, scan.hold, false, true, ch)
    else if st.lastConverged.None? then
      if st.lastAppliedRun.Some? && st.lastAppliedRun.value != "" then SetCondition(s, IsFalse, RecoveryRequired, false, true, ch)
      else if scan.ran then SetCondition(s, IsFalse, RecoveryRequired, false, true, ch)
      else if st.ready.Some? && st.ready.value.reason.InfrastructureRemoved? then s
      else SetCondition(s, IsTrue, InfrastructureRemoved, true, true, ch)
    else if st.lastConverged.value.snapshot.Undecodable? then SetCondition(s, IsFalse, RecoveryRequired, false, true, ch)
    else ReconcilePlan(s, true, scan, ch)
  }

  function ReconcileStack(s: StackState, scan: Scan, ch: Chance): StackState
    requires ScanInRange(s, scan)
  {
    if s.gone then s
    else if !s.stack.deleting && !s.stack.finalizer then (if Lands(ch.finalizer) then SetFinalizer(s, true) else s)
    else if Destroying(s.stack) then
      if !s.stack.spec.mutationFence then (if Lands(ch.edit) then Edited(s, s.stack.spec.(mutationFence := true)) else s)
      else ReconcileDestroy(s, scan, ch)
    else if s.stack.spec.mutationFence then SetCondition(s, IsFalse, MutationFence, false, true, ch)
    else ReconcilePlan(s, false, scan, ch)
  }

  // --------------------------------------------------------------------- runs

  datatype Step = SpecEdited(spec: StackSpec)
                | DeletionRequested
                | RunMoved(uid: string, status: RunStatus)
                | Ticked
                | Reconciled(lists: Lists, scan: Scan, ch: Chance)

  /** A run's status only ever changes as it does in Execution (`HistoryIsStable`). */
  function MoveRun(s: StackState, uid: string, st: RunStatus): StackState {
    if || uid !in s.runs || s.runs[uid].versions == [] || !StatusOk(s.runs[uid].run, st)
       || !Evolves(s.runs[uid].run.spec, Latest(s.runs[uid]), st) then s
    else s.(runs := s.runs[uid := s.runs[uid].(versions := s.runs[uid].versions + [st])])
  }

  /** The pass reads these lists and its scans find this in them. */
  ghost predicate Reads(s: StackState, lists: Lists, scan: Scan) {
    Cached(s.runs, lists) && ScanIsTrue(s.stack, lists, scan) && ScanInRange(s, scan)
  }

  /** Deleting an object raises its generation, as any edit of its spec does. */
  ghost function Next(s: StackState, step: Step): StackState {
    if s.gone then s else
    match step
    case SpecEdited(spec) => Edited(s, spec)
    case DeletionRequested =>
      if s.stack.deleting then s
      else if !s.stack.finalizer then s.(gone := true)
      else s.(stack := s.stack.(deleting := true, generation := s.stack.generation + 1))
    case RunMoved(uid, st) => MoveRun(s, uid, st)
    case Ticked => s.(now := s.now + 1)
    case Reconciled(lists, scan, ch) => if Reads(s, lists, scan) then ReconcileStack(s, scan, ch) else s
  }

  const NewStatus := StackStatus(0, None, None, None, None)

  function Init(key: Key, uid: string, spec: StackSpec): StackState {
    StackState(InfraStack(key, uid, 1, false, false, spec, NewStatus), false, map[], 0, false)
  }

  ghost function After(key: Key, uid: string, spec: StackSpec, steps: seq<Step>): StackState {
    if steps == [] then Init(key, uid, spec)
    else Next(After(key, uid, spec, steps[..|steps| - 1]), steps[|steps| - 1])
  }
}
