/** Two ways in which the InfraStack finalizer is released beside an unsettled Apply, each with a
    concrete run from a new stack: a Removed condition that was outdated when it was trusted, and a
    list that left the Apply out. */
module StackTrace {
  import opened Api
  import opened RunHistory
  import opened StackLifecycle
  import opened StackSafety
  import Admission
  import AdmissionProofs

  // ------------------------------------------------- an outdated condition

  /** An approved Plan of a stack in present mode whose condition still says Removed. */
  predicate AboutToApply(s: StackState, at: Sighting, ch: Chance) {
    && !s.gone && s.stack.finalizer && !Destroying(s.stack) && !s.stack.spec.mutationFence && SaysRemoved(s.stack.status)
    && InRange(s, at) && CurrentPlan(s, at.uid) && ReadRun(s, at).status.outcome.ChangesPresent?
    && !PlanStale(ReadRun(s, at).status, s.now) && Approved(s, at, ch)
  }

  predicate Approved(s: StackState, at: Sighting, ch: Chance)
    requires InRange(s, at)
  {
    && ReadRun(s, at).status.sourceBundleRef != "" && ReadRun(s, at).status.sourceBundleDigest != NoDigest
    && ch.approval.Some? && Admission.Usable(ch.approval.value, ReadRun(s, at), s.now)
    && Admission.ValidateApplyAdmission(s.stack, ReadRun(s, at), ch.approval.value, s.now).Pass?
    && ch.apply.Done? && ch.applyUid != "" && ch.applyUid !in s.runs && !NameTaken(s, s.runs[at.uid].run.uid)
  }

  lemma ApplyIsCreated(s: StackState, at: Sighting, ch: Chance)
    requires InRange(s, at) && ReadRun(s, at).status.outcome.ChangesPresent? && Approved(s, at, ch)
    ensures var spec := Admission.BuildApplyRun(s.stack, ReadRun(s, at), ch.approval.value);
      && spec.operation.Apply?
      && JudgePlan(s, at, None, false, ch)
         == Verdict(AddRun(s, ch.applyUid, spec, s.now).(outdated := true), IsFalse, Applying, None, None)
  {
  }

  /** The Apply is created but the status update fails, so the condition goes on saying Removed. */
  lemma LostStatusOutdates(s: StackState, at: Sighting, ch: Chance)
    requires AboutToApply(s, at, ch) && ch.status.Failing?
    ensures var t := UsePlan(s, at, None, false, ch);
      && SaysRemoved(t.stack.status) && t.outdated && t.stack == s.stack && !t.gone
      && ch.applyUid in t.runs && IsApplyRun(t.runs[ch.applyUid]) && !SettledAt(t.runs, ch.applyUid)
  {
    ApplyIsCreated(s, at, ch);
  }

  /** A destroying stack whose condition says Removed loses its finalizer, whatever its runs are and
      whatever the lists show. */
  lemma RemovedReleases(t: StackState, lists: Lists, scan: Scan, ch: Chance)
    requires !t.gone && t.stack.finalizer && Destroying(t.stack) && t.stack.spec.mutationFence && SaysRemoved(t.stack.status)
    requires Reads(t, lists, scan) && ch.status.Done? && ch.evidence.Done? && ch.finalizer.Done?
    ensures Releases(t, Next(t, Reconciled(lists, scan, ch))) && Next(t, Reconciled(lists, scan, ch)).runs == t.runs
  {
    assert Next(t, Reconciled(lists, scan, ch)) == SetCondition(t, IsTrue, InfrastructureRemoved, true, false, ch);
  }

  lemma AppliesInPresentMode(s: StackState, lists: Lists, scan: Scan, ch: Chance)
    requires !s.gone && s.stack.finalizer && !Destroying(s.stack) && !s.stack.spec.mutationFence
    requires Reads(s, lists, scan) && scan.latest.Some? && !PlanStale(ReadRun(s, scan.latest.value).status, s.now)
    ensures Next(s, Reconciled(lists, scan, ch)) == UsePlan(s, scan.latest.value, scan.existing, false, ch)
  {
  }

  /** Going back to Destroy then releases the finalizer while that Apply is under way. */
  lemma OutdatedConditionReleases(s: StackState, lists: Lists, first: Scan, ch: Chance, destroy: StackSpec,
                                  later: Lists, second: Scan, last: Chance)
    requires Reads(s, lists, first) && first.latest.Some? && first.existing.None?
    requires AboutToApply(s, first.latest.value, ch) && ch.status.Failing?
    requires destroy.desiredState.DestroyRequested? && destroy.mutationFence
    requires last.status.Done? && last.evidence.Done? && last.finalizer.Done?
    requires Reads(Edited(Next(s, Reconciled(lists, first, ch)), destroy), later, second)
    ensures var t := Next(Next(s, Reconciled(lists, first, ch)), SpecEdited(destroy));
      && Releases(t, Next(t, Reconciled(later, second, last)))
      && !SettledAt(Next(t, Reconciled(later, second, last)).runs, ch.applyUid)
  {
    LostStatusOutdates(s, first.latest.value, ch);
    AppliesInPresentMode(s, lists, first, ch);
    RemovedReleases(Edited(UsePlan(s, first.latest.value, None, false, ch), destroy), later, second, last);
  }

  // ------------------------------------------------- a list that leaves it out

  /** No condition says Removed, nothing was ever recorded, and the list shows no Apply: the stack is
      let go, whatever Applies there are. */
  lemma EmptyListReleases(t: StackState, lists: Lists, scan: Scan, ch: Chance)
    requires !t.gone && t.stack.finalizer && Destroying(t.stack) && t.stack.spec.mutationFence
    requires t.stack.status.lastConverged.None? && t.stack.status.lastAppliedRun.None?
    requires t.stack.status.ready.Some? ==> !t.stack.status.ready.value.reason.InfrastructureRemoved?
    requires Reads(t, lists, scan) && lists.settling == map[]
    requires ch.status.Done? && ch.evidence.Done? && ch.finalizer.Done?
    ensures Releases(t, Next(t, Reconciled(lists, scan, ch))) && Next(t, Reconciled(lists, scan, ch)).runs == t.runs
  {
    assert forall u :: SettledAt(lists.settling, u) && NeverAdmittedAt(lists.settling, u);
    assert Next(t, Reconciled(lists, scan, ch)) == SetCondition(t, IsTrue, InfrastructureRemoved, true, true, ch);
  }

  // ------------------------------------------------------------ concrete runs

  /** A new stack. */
  datatype Scene = Scene(key: Key, uid: string, spec: StackSpec, profile: ExecutionProfile, inputs: map<string, string>)

  function PresentSpec(sc: Scene): StackSpec { sc.spec.(desiredState := Present, mutationFence := false) }

  function DestroySpec(sc: Scene): StackSpec { sc.spec.(desiredState := DestroyRequested, mutationFence := true) }

  function Meets(sc: Scene, approval: Option<ChangeApproval>, status: Fate, finalizer: Fate): Chance {
    Chance("plan", "apply", None, approval, sc.profile, sc.inputs, false, Done, Done, Done, Done, status, Done, finalizer)
  }

  const NoLists := Lists(map[], map[], map[])
  const Nothing := Scan(false, RecoveryRequired, false, None, None)

  /** In present mode, nothing recorded yet. */
  predicate Settling(sc: Scene, s: StackState) {
    && !s.gone && s.stack.finalizer && !s.stack.deleting && s.stack.key == sc.key && s.stack.uid == sc.uid && s.now == 0
    && s.stack.spec == PresentSpec(sc) && s.stack.status.lastConverged.None? && s.stack.status.lastAppliedRun.None?
  }

  predicate NotRemoved(st: StackStatus) { st.ready.Some? ==> !st.ready.value.reason.InfrastructureRemoved? }

  /** A pass whose status write fails leaves the status alone; one whose write is done replaces it. */
  predicate StatusAfter(s: StackState, t: StackState, status: Fate) {
    (status.Failing? ==> t.stack.status == s.stack.status) && (status.Done? ==> NotRemoved(t.stack.status))
  }

  function PlanRun(sc: Scene, stack: InfraStack): TerraformRun {
    TerraformRun(Key(sc.key.ns, "plan"), "plan", Some(Owner("InfraStack", sc.uid)), 0,
                 AdmissionProofs.PlannedSpec(stack, sc.profile, sc.inputs), EmptyStatus)
  }

  function Finished(): RunStatus {
    var d := Sha(Raw(""));
    EmptyStatus.(outcome := ChangesPresent, evidenceCaptured := true, artifactsReady := true, hasChanges := true,
                 sourceBundleRef := "bundle", sourceBundleDigest := d, planRef := "plan", planDigest := d,
                 planReportRef := "report", planReportDigest := d, terminalRef := "terminal", terminalDigest := d,
                 effectiveInputDigest := d, planExpiresAt := Some(1))
  }

  function Approving(plan: TerraformRun): ChangeApproval {
    ChangeApproval(Key(plan.key.ns, "approval"), "approval",
      ApprovalSpec(plan.key.name, plan.uid, plan.status.planDigest, plan.spec.contextDigest, plan.status.effectiveInputDigest,
                   plan.status.planReportRef, plan.status.planReportDigest))
  }

  lemma NothingIsRead(s: StackState)
    ensures Reads(s, NoLists, Nothing)
  {
    var none: Runs := map[];
    assert forall u :: SettledAt(none, u) && NeverAdmittedAt(none, u) && CachedAt(s.runs, none, u);
  }

  function PlanStep(sc: Scene, status: Fate): Step { Reconciled(NoLists, Nothing, Meets(sc, None, status, Done)) }

  lemma PlanArises(sc: Scene, s: StackState, status: Fate)
    requires Settling(sc, s) && s.runs == map[] && !status.AnswerLost?
    ensures var t := Next(s, PlanStep(sc, status));
      && Settling(sc, t) && t.stack.generation == s.stack.generation && StatusAfter(s, t, status)
      && t.runs == map["plan" := Record(PlanRun(sc, s.stack), [EmptyStatus])]
  {
    NothingIsRead(s);
    var ch := Meets(sc, None, status, Done);
    var e := EnsurePlan(s, None, NewPlanSpec(s, false, ch), ch);
    assert !HasCandidate(s.stack, s.runs, ModeOf(s.stack));
    assert e == Use(s.(runs := map["plan" := Record(PlanRun(sc, s.stack), [EmptyStatus])]), Sighting("plan", 0));
    assert Next(s, PlanStep(sc, status)) == UsePlan(e.state, e.at, None, false, ch);
  }

  lemma PlanFinishes(sc: Scene, s: StackState, stack: InfraStack)
    requires Settling(sc, s) && s.runs == map["plan" := Record(PlanRun(sc, stack), [EmptyStatus])]
    ensures Next(s, RunMoved("plan", Finished())) == s.(runs := map["plan" := Record(PlanRun(sc, stack), [EmptyStatus, Finished()])])
  {
    assert [EmptyStatus] + [Finished()] == [EmptyStatus, Finished()];
  }

  function Seen(): Scan { Scan(false, RecoveryRequired, false, Some(Sighting("plan", 1)), None) }

  function ApplyStep(sc: Scene, s: StackState, status: Fate): Step
    requires InRange(s, Sighting("plan", 1))
  {
    Reconciled(Lists(map[], s.runs, s.runs), Seen(), Meets(sc, Some(Approving(ReadRun(s, Sighting("plan", 1)))), status, Done))
  }

  predicate Planned(sc: Scene, s: StackState) {
    Settling(sc, s) && s.runs == map["plan" := Record(PlanRun(sc, s.stack), [EmptyStatus, Finished()])]
  }

  lemma PlanIsSeen(sc: Scene, s: StackState)
    requires Planned(sc, s)
    ensures Reads(s, Lists(map[], s.runs, s.runs), Seen())
  {
    var none: Runs := map[];
    assert forall u :: SettledAt(none, u) && NeverAdmittedAt(none, u) && CachedAt(s.runs, none, u) && CachedAt(s.runs, s.runs, u);
    assert IsLatest(s.stack, s.runs, "plan", Reconcile);
  }

  lemma ApplyIsDue(sc: Scene, s: StackState, status: Fate)
    requires Planned(sc, s)
    ensures Approved(s, Sighting("plan", 1), Meets(sc, Some(Approving(ReadRun(s, Sighting("plan", 1)))), status, Done))
  {
    var plan := ReadRun(s, Sighting("plan", 1));
    AdmissionProofs.FreshPlanAdmittedIffUnedited(s.stack, s.stack, sc.profile, sc.inputs, plan, Approving(plan), 0);
  }

  /** What the pass that creates the Apply leaves behind. */
  lemma ApplyIsNoted(sc: Scene, s: StackState, spec: RunSpec, planName: string, ch: Chance)
    requires Settling(sc, s) && "apply" !in s.runs && spec.operation.Apply? && !ch.status.AnswerLost?
    ensures var t := Conclude(Verdict(AddRun(s, "apply", spec, 0).(outdated := true), IsFalse, Applying, None, None), planName, false, ch);
      && Settling(sc, t) && t.stack.generation == s.stack.generation && StatusAfter(s, t, ch.status)
      && "apply" in t.runs && IsApplyRun(t.runs["apply"]) && !SettledAt(t.runs, "apply")
  {
  }

  lemma ApplyArises(sc: Scene, s: StackState, status: Fate)
    requires Planned(sc, s) && !status.AnswerLost?
    ensures var t := Next(s, ApplyStep(sc, s, status));
      && Settling(sc, t) && t.stack.generation == s.stack.generation && StatusAfter(s, t, status)
      && "apply" in t.runs && IsApplyRun(t.runs["apply"]) && !SettledAt(t.runs, "apply")
  {
    PlanIsSeen(sc, s);
    ApplyIsDue(sc, s, status);
    var at := Sighting("plan", 1);
    var ch := Meets(sc, Some(Approving(ReadRun(s, at))), status, Done);
    AppliesInPresentMode(s, Lists(map[], s.runs, s.runs), Seen(), ch);
    ApplyIsCreated(s, at, ch);
    ApplyIsNoted(sc, s, Admission.BuildApplyRun(s.stack, ReadRun(s, at), ch.approval.value), s.runs["plan"].run.key.name, ch);
  }

  lemma Snoc(sc: Scene, spec: StackSpec, steps: seq<Step>, step: Step)
    ensures After(sc.key, sc.uid, spec, steps + [step]) == Next(After(sc.key, sc.uid, spec, steps), step)
    ensures AttentiveRun(sc.key, sc.uid, spec, steps + [step])
            <==> AttentiveRun(sc.key, sc.uid, spec, steps) && Attentive(After(sc.key, sc.uid, spec, steps), step)
  {
    assert (steps + [step])[..|steps|] == steps;
  }

  /** From a settled stack without runs to an approved Plan's Apply. */
  lemma ApplyFollows(sc: Scene, spec: StackSpec, front: seq<Step>, status: Fate) returns (steps: seq<Step>)
    requires Settling(sc, After(sc.key, sc.uid, spec, front)) && After(sc.key, sc.uid, spec, front).runs == map[]
    requires AttentiveRun(sc.key, sc.uid, spec, front) && !status.AnswerLost?
    ensures |steps| == |front| + 3 && steps[..|front|] == front && AttentiveRun(sc.key, sc.uid, spec, steps)
    ensures forall n | |front| <= n < |steps| && steps[n].Reconciled? :: steps[n].ch.status == status
    ensures var s, t := After(sc.key, sc.uid, spec, front), After(sc.key, sc.uid, spec, steps);
      && Settling(sc, t) && StatusAfter(s, t, status)
      && "apply" in t.runs && IsApplyRun(t.runs["apply"]) && !SettledAt(t.runs, "apply")
  {
    var s := After(sc.key, sc.uid, spec, front);
    var one := front + [PlanStep(sc, status)];
    Snoc(sc, spec, front, PlanStep(sc, status));
    PlanArises(sc, s, status);
    var s1 := After(sc.key, sc.uid, spec, one);
    var two := one + [RunMoved("plan", Finished())];
    Snoc(sc, spec, one, RunMoved("plan", Finished()));
    PlanFinishes(sc, s1, s.stack);
    var s2 := After(sc.key, sc.uid, spec, two);
    assert PlanRun(sc, s2.stack) == PlanRun(sc, s.stack);
    steps := two + [ApplyStep(sc, s2, status)];
    Snoc(sc, spec, two, ApplyStep(sc, s2, status));
    ApplyArises(sc, s2, status);
  }

  /** And on to one that is being destroyed beside that Apply. */
  lemma ApplyBesideDestroy(sc: Scene, spec: StackSpec, front: seq<Step>, status: Fate) returns (steps: seq<Step>)
    requires Settling(sc, After(sc.key, sc.uid, spec, front)) && After(sc.key, sc.uid, spec, front).runs == map[]
    requires AttentiveRun(sc.key, sc.uid, spec, front) && !status.AnswerLost?
    ensures |steps| == |front| + 4 && steps[..|front|] == front && AttentiveRun(sc.key, sc.uid, spec, steps)
    ensures forall n | |front| <= n < |steps| && steps[n].Reconciled? :: steps[n].ch.status == status
    ensures var s, t := After(sc.key, sc.uid, spec, front), After(sc.key, sc.uid, spec, steps);
      && !t.gone && t.stack.finalizer && Destroying(t.stack) && t.stack.spec.mutationFence
      && t.stack.status.lastConverged.None? && t.stack.status.lastAppliedRun.None? && StatusAfter(s, t, status)
      && "apply" in t.runs && IsApplyRun(t.runs["apply"]) && !SettledAt(t.runs, "apply")
  {
    var three := ApplyFollows(sc, spec, front, status);
    steps := three + [SpecEdited(DestroySpec(sc))];
    Snoc(sc, spec, three, SpecEdited(DestroySpec(sc)));
  }

  function FirstStep(sc: Scene): Step { Reconciled(NoLists, Nothing, Meets(sc, None, Done, Done)) }

  lemma FinalizerArises(sc: Scene, spec: StackSpec)
    ensures var s := Init(sc.key, sc.uid, spec);
      After(sc.key, sc.uid, spec, [FirstStep(sc)]) == s.(stack := s.stack.(finalizer := true)) && AttentiveRun(sc.key, sc.uid, spec, [FirstStep(sc)])
  {
    NothingIsRead(Init(sc.key, sc.uid, spec));
    Snoc(sc, spec, [], FirstStep(sc));
    assert [] + [FirstStep(sc)] == [FirstStep(sc)];
  }

  /** No write is lost, but the last list leaves the Apply out: the stack is let go beside it. */
  lemma MissedApplyReleases(sc: Scene) returns (steps: seq<Step>, step: Step)
    ensures forall n | 0 <= n < |steps| :: KeepsUp(steps[n])
    ensures AttentiveRun(sc.key, sc.uid, PresentSpec(sc), steps)
    ensures var s := After(sc.key, sc.uid, PresentSpec(sc), steps);
      && Releases(s, Next(s, step)) && !TrustsOutdated(s) && !SettledAt(Next(s, step).runs, "apply") && !Clean(Next(s, step).runs)
  {
    steps := MissedApply(sc);
    step := Reconciled(NoLists, Nothing, Meets(sc, None, Done, Done));
    UnseenApplyReleases(sc, After(sc.key, sc.uid, PresentSpec(sc), steps));
  }

  /** The stack is to be destroyed beside an Apply that is not settled; every status was written. */
  predicate Unseen(s: StackState) {
    && !s.gone && s.stack.finalizer && Destroying(s.stack) && s.stack.spec.mutationFence
    && s.stack.status.lastConverged.None? && s.stack.status.lastAppliedRun.None? && NotRemoved(s.stack.status)
    && "apply" in s.runs && IsApplyRun(s.runs["apply"]) && !SettledAt(s.runs, "apply")
  }

  lemma MissedApply(sc: Scene) returns (steps: seq<Step>)
    ensures forall n | 0 <= n < |steps| :: KeepsUp(steps[n])
    ensures AttentiveRun(sc.key, sc.uid, PresentSpec(sc), steps) && Unseen(After(sc.key, sc.uid, PresentSpec(sc), steps))
  {
    var spec := PresentSpec(sc);
    FinalizerArises(sc, spec);
    steps := ApplyBesideDestroy(sc, spec, [FirstStep(sc)], Done);
    assert steps[0] == FirstStep(sc);
  }

  lemma UnseenApplyReleases(sc: Scene, s: StackState)
    requires Unseen(s)
    ensures var t := Next(s, Reconciled(NoLists, Nothing, Meets(sc, None, Done, Done)));
      Releases(s, t) && !TrustsOutdated(s) && !SettledAt(t.runs, "apply") && !Clean(t.runs)
  {
    var ch := Meets(sc, None, Done, Done);
    NothingIsRead(s);
    EmptyListReleases(s, NoLists, Nothing, ch);
    var t := Next(s, Reconciled(NoLists, Nothing, ch));
    assert t.runs == s.runs && !SettledAt(t.runs, "apply");
  }

  /** The finalizer write of a first Destroy fails, so the condition says Removed; the stack is wanted
      again, the status writes of its Plan and Apply are lost, and it is destroyed once more. Every
      list is complete, and the stack is let go beside the Apply. */
  lemma OutdatedConditionIsReachable(sc: Scene) returns (steps: seq<Step>, step: Step)
    ensures AttentiveRun(sc.key, sc.uid, DestroySpec(sc), steps)
    ensures var s := After(sc.key, sc.uid, DestroySpec(sc), steps);
      && Attentive(s, step) && TrustsOutdated(s)
      && Releases(s, Next(s, step)) && !SettledAt(Next(s, step).runs, "apply") && !Clean(Next(s, step).runs)
  {
    var spec := DestroySpec(sc);
    var removal := Reconciled(NoLists, Nothing, Meets(sc, None, Done, Failing));
    var one := [FirstStep(sc)];
    FinalizerArises(sc, spec);
    var s1 := After(sc.key, sc.uid, spec, one);
    NothingIsRead(s1);
    Snoc(sc, spec, one, removal);
    var front := one + [removal] + [SpecEdited(PresentSpec(sc))];
    Snoc(sc, spec, one + [removal], SpecEdited(PresentSpec(sc)));
    assert Next(s1, removal) == SetCondition(s1, IsTrue, InfrastructureRemoved, true, true, removal.ch);
    steps := ApplyBesideDestroy(sc, spec, front, Failing);
    var s := After(sc.key, sc.uid, spec, steps);
    step := FullPass(sc, spec, steps);
    RemovedReleases(s, step.lists, step.scan, step.ch);
    assert !SettledAt(Next(s, step).runs, "apply");
    RunSafe(sc.key, sc.uid, spec, steps);
  }

  /** A pass whose lists are complete. */
  lemma FullPass(sc: Scene, spec: StackSpec, steps: seq<Step>) returns (step: Step)
    requires var s := After(sc.key, sc.uid, spec, steps); "apply" in s.runs && IsApplyRun(s.runs["apply"]) && !SettledAt(s.runs, "apply")
    ensures step.Reconciled? && step.ch == Meets(sc, None, Done, Done)
    ensures var s := After(sc.key, sc.uid, spec, steps); Reads(s, step.lists, step.scan) && Attentive(s, step)
  {
    var s := After(sc.key, sc.uid, spec, steps);
    var none: Runs := map[];
    RunHistoryKept(sc.key, sc.uid, spec, steps);
    forall u ensures CachedAt(s.runs, s.runs, u) && CachedAt(s.runs, none, u) { assert RecordOk(s.runs, u); }
    assert !NeverAdmittedAt(s.runs, "apply");
    step := Reconciled(Lists(s.runs, none, none), Scan(true, DeletionHeld, true, None, None), Meets(sc, None, Done, Done));
  }
}
