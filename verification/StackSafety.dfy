/** When the InfraStack finalizer is released and what the Destroy path waits for, for lists that may
    be outdated: exactly when a release or a Destroy Plan is right, and over whole runs. */
module StackSafety {
  import opened Api
  import opened RunHistory
  import opened StackLifecycle
  import Admission
  import AdmissionProofs

  // ------------------------------------------------------------- what is shown

  /** Captured, complete, and with the terminal result and the target discovery on record. */
  predicate OnRecord(st: RunStatus) {
    && st.evidenceCaptured && st.artifactsReady && st.terminalRef != "" && st.terminalDigest != NoDigest
    && st.targetDiscoveryRef != "" && st.targetDiscoveryDigest != NoDigest
  }

  predicate PlanGone(st: RunStatus) {
    st.outcome == NoChange && OnRecord(st) && st.planReportRef != "" && st.planReportDigest != NoDigest
  }

  predicate ApplyGone(st: RunStatus) { st.outcome == Succeeded && OnRecord(st) }

  /** Succeeded, Rejected, or Failed without any doubt before it could change anything. */
  predicate Concluded(st: RunStatus) {
    match st.outcome
    case Succeeded => true
    case Rejected => true
    case Failed => !st.mutationMayHaveOccurred && st.classification == "FailedPreMutation"
    case _ => false
  }

  /** Rejected without a Job. */
  predicate Unstarted(st: RunStatus) { st.outcome == Rejected && st.jobRef == None && !st.mutationMayHaveOccurred }

  predicate IsApply(runs: Runs, u: string) { u in runs && runs[u].run.spec.operation == Apply && runs[u].versions != [] }

  /** Version `n` of run `w` is durable evidence that the infrastructure is gone. */
  predicate Evidence(runs: Runs, w: string, n: int) {
    && w in runs && 0 <= n < |runs[w].versions| && runs[w].run.spec.planMode.Destroy?
    && ((runs[w].run.spec.operation.Plan? && PlanGone(runs[w].versions[n]))
        || (runs[w].run.spec.operation.Apply? && ApplyGone(runs[w].versions[n])))
  }

  /** Apart from Destroy Applies, no Apply is as recent as run `w`. */
  predicate OlderAt(runs: Runs, w: string, u: string) {
    w in runs && u in runs && IsApplyRun(runs[u]) ==>
      runs[u].run.spec.stackGeneration < runs[w].run.spec.stackGeneration || runs[u].run.spec.planMode.Destroy?
  }

  ghost predicate Witnessed(runs: Runs, w: string, n: int) {
    Evidence(runs, w, n) && forall u :: OlderAt(runs, w, u)
  }

  /** No Apply is unsettled, and either none was ever admitted, or the infrastructure is shown
      to be gone by a Destroy Plan or Apply that no other Apply came after. */
  ghost predicate Clean(runs: Runs) {
    && (forall u :: SettledAt(runs, u))
    && ((forall u :: NeverAdmittedAt(runs, u)) || (exists w, n :: Witnessed(runs, w, n)))
  }

  /** What that means for each Apply, by its outcome. */
  lemma CleanMeans(runs: Runs)
    ensures Clean(runs) <==>
      && (forall u | IsApply(runs, u) :: Concluded(Latest(runs[u])))
      && ((forall u | IsApply(runs, u) :: Unstarted(Latest(runs[u]))) || exists w, n :: Witnessed(runs, w, n))
  {
    if Clean(runs) {
      forall u | IsApply(runs, u) ensures Concluded(Latest(runs[u])) { assert SettledAt(runs, u); }
      if forall u :: NeverAdmittedAt(runs, u) {
        forall u | IsApply(runs, u) ensures Unstarted(Latest(runs[u])) { assert NeverAdmittedAt(runs, u); }
      }
    }
    if forall u | IsApply(runs, u) :: Concluded(Latest(runs[u])) {
      forall u ensures SettledAt(runs, u) { assert IsApply(runs, u) || u !in runs || !IsApplyRun(runs[u]); }
    }
    if forall u | IsApply(runs, u) :: Unstarted(Latest(runs[u])) {
      forall u ensures NeverAdmittedAt(runs, u) { assert IsApply(runs, u) || u !in runs || !IsApplyRun(runs[u]); }
    }
  }

  // ---------------------------------------------------------------- invariant

  /** Runs of the current generation were made in the mode the stack is in. */
  predicate ModeAt(s: StackState, u: string) {
    u in s.runs ==>
      && s.runs[u].run.spec.stackGeneration <= s.stack.generation
      && (s.runs[u].run.spec.stackGeneration == s.stack.generation ==>
            (s.runs[u].run.spec.planMode.Destroy? <==> Destroying(s.stack)))
  }

  /** An Apply has the mode and generation of its Plan. */
  predicate ParentAt(runs: Runs, u: string) {
    u in runs && runs[u].run.spec.operation.Apply? ==>
      var p := runs[u].run.spec.planRunUID;
      && p in runs && runs[p].run.spec.planMode == runs[u].run.spec.planMode
      && runs[p].run.spec.stackGeneration == runs[u].run.spec.stackGeneration
  }

  /** Runs in Destroy mode exist only once a convergence has been recorded. */
  predicate ClosureAt(s: StackState, u: string) {
    u in s.runs && s.runs[u].run.spec.planMode.Destroy? ==> s.stack.status.lastConverged.Some?
  }

  ghost predicate History(s: StackState) {
    && (forall u :: RecordOk(s.runs, u)) && (forall u :: ClosureAt(s, u))
    && (forall u :: ModeAt(s, u)) && (forall u :: ParentAt(s.runs, u))
  }

  /** Of two states of the stack, the later: what was recorded stays recorded. */
  predicate KeepsClosure(s: StackState, t: StackState) {
    s.stack.status.lastConverged.Some? ==> t.stack.status.lastConverged.Some?
  }

  ghost predicate Inv(s: StackState) {
    History(s) && (SaysRemoved(s.stack.status) && !s.outdated ==> Clean(s.runs))
  }

  // ------------------------------------------------------------- the run map

  /** Nothing but statuses moved on, as they may. */
  predicate MovedAt(runs: Runs, later: Runs, u: string) {
    (u in later <==> u in runs)
    && (u in runs ==> later[u].run == runs[u].run && runs[u].versions <= later[u].versions)
  }

  ghost predicate Moved(runs: Runs, later: Runs) {
    && (forall u :: MovedAt(runs, later, u)) && (forall u :: RecordOk(later, u))
  }

  lemma SettledStays(runs: Runs, later: Runs, u: string)
    requires RecordOk(later, u) && MovedAt(runs, later, u)
    requires u in runs && IsApplyRun(runs[u]) && Terminal(Latest(runs[u]).outcome)
    ensures Latest(later[u]) == Latest(runs[u])
  {
    var n, m := |runs[u].versions|, |later[u].versions|;
    assert later[u].versions[n - 1] == runs[u].versions[n - 1];
    assert VersionsEvolve(later[u], n - 1, m - 1);
  }

  lemma CleanStays(runs: Runs, later: Runs)
    requires Clean(runs) && Moved(runs, later) && (forall u :: RecordOk(runs, u))
    ensures Clean(later)
  {
    forall u ensures SettledAt(later, u) {
      assert SettledAt(runs, u) && MovedAt(runs, later, u) && RecordOk(runs, u);
      if u in runs && IsApplyRun(runs[u]) { SettledStays(runs, later, u); }
    }
    if forall u :: NeverAdmittedAt(runs, u) {
      forall u ensures NeverAdmittedAt(later, u) {
        assert NeverAdmittedAt(runs, u) && MovedAt(runs, later, u) && RecordOk(runs, u);
        if u in runs && IsApplyRun(runs[u]) { SettledStays(runs, later, u); }
      }
    } else {
      var w, n :| Witnessed(runs, w, n);
      WitnessStays(runs, later, w, n);
    }
  }

  lemma WitnessStays(runs: Runs, later: Runs, w: string, n: int)
    requires Witnessed(runs, w, n) && Moved(runs, later) && (forall u :: RecordOk(runs, u))
    ensures Witnessed(later, w, n)
  {
    assert MovedAt(runs, later, w) && RecordOk(runs, w);
    forall u ensures OlderAt(later, w, u) {
      assert OlderAt(runs, w, u) && MovedAt(runs, later, u) && RecordOk(runs, u);
    }
  }

  /** A new Plan changes nothing about the Applies. */
  lemma CleanWithPlan(s: StackState, uid: string, spec: RunSpec, created: nat)
    requires Clean(s.runs) && !spec.operation.Apply?
    ensures Clean(AddRun(s, uid, spec, created).runs)
  {
    var later := AddRun(s, uid, spec, created).runs;
    forall u ensures SettledAt(later, u) { assert SettledAt(s.runs, u); }
    if forall u :: NeverAdmittedAt(s.runs, u) {
      forall u ensures NeverAdmittedAt(later, u) { assert NeverAdmittedAt(s.runs, u); }
    } else {
      var w, n :| Witnessed(s.runs, w, n);
      forall u ensures OlderAt(later, w, u) { assert OlderAt(s.runs, w, u); }
      assert Witnessed(later, w, n);
    }
  }

  // ------------------------------------------------------ history is kept

  predicate FitsStack(s: StackState, spec: RunSpec) {
    && spec.stackGeneration == s.stack.generation && (spec.planMode.Destroy? <==> Destroying(s.stack))
    && (spec.planMode.Destroy? ==> s.stack.status.lastConverged.Some?)
    && (spec.operation.Apply? ==>
          && spec.planRunUID in s.runs && s.runs[spec.planRunUID].run.spec.planMode == spec.planMode
          && s.runs[spec.planRunUID].run.spec.stackGeneration == spec.stackGeneration)
  }

  lemma AddKeeps(s: StackState, uid: string, spec: RunSpec, created: nat)
    requires History(s) && FitsStack(s, spec)
    ensures History(AddRun(s, uid, spec, created))
  {
    var t := AddRun(s, uid, spec, created);
    forall u ensures RecordOk(t.runs, u) { assert RecordOk(s.runs, u); }
    forall u ensures ClosureAt(t, u) { assert ClosureAt(s, u); }
    forall u ensures ModeAt(t, u) { assert ModeAt(s, u); }
    forall u ensures ParentAt(t.runs, u) { assert ParentAt(s.runs, u); }
  }

  lemma MoveKeeps(s: StackState, t: StackState)
    requires History(s) && Moved(s.runs, t.runs) && KeepsClosure(s, t)
    requires t.stack.generation == s.stack.generation && (Destroying(t.stack) <==> Destroying(s.stack))
    ensures History(t)
  {
    forall u ensures ClosureAt(t, u) { assert ClosureAt(s, u) && MovedAt(s.runs, t.runs, u); }
    forall u ensures ModeAt(t, u) { assert ModeAt(s, u) && MovedAt(s.runs, t.runs, u); }
    forall u ensures ParentAt(t.runs, u) {
      assert ParentAt(s.runs, u) && MovedAt(s.runs, t.runs, u);
      if u in s.runs { assert MovedAt(s.runs, t.runs, s.runs[u].run.spec.planRunUID); }
    }
  }

  lemma AppendMoves(s: StackState, uid: string, st: RunStatus)
    requires History(s) && uid in s.runs && s.runs[uid].versions != []
    requires StatusOk(s.runs[uid].run, st)
    requires Evolves(s.runs[uid].run.spec, Latest(s.runs[uid]), st)
    ensures Moved(s.runs, s.runs[uid := s.runs[uid].(versions := s.runs[uid].versions + [st])])
  {
    var later := s.runs[uid := s.runs[uid].(versions := s.runs[uid].versions + [st])];
    assert RecordOk(s.runs, uid);
    AppendKeepsHistory(s.runs[uid], st);
    forall u ensures RecordOk(later, u) { assert RecordOk(s.runs, u); }
    forall u ensures MovedAt(s.runs, later, u) { }
  }

  lemma EditKeeps(s: StackState, spec: StackSpec)
    requires History(s)
    ensures History(Edited(s, spec))
  {
    var t := Edited(s, spec);
    forall u ensures ClosureAt(t, u) { assert ClosureAt(s, u); }
    forall u ensures ModeAt(t, u) { assert ModeAt(s, u); }
  }

  // -------------------------------------------------------- ensuring a Plan

  ghost predicate AllSettled(s: StackState) { forall u :: SettledAt(s.runs, u) }

  /** A change that leaves the stack alone and the Applies as settled as they were. */
  ghost predicate Harmless(s: StackState, t: StackState) {
    && History(t) && t.stack == s.stack && t.gone == s.gone && t.outdated == s.outdated && t.now == s.now
    && (AllSettled(s) ==> AllSettled(t)) && (Clean(s.runs) ==> Clean(t.runs))
  }

  lemma HarmlessThen(s: StackState, t: StackState, r: StackState)
    requires Harmless(s, t) && Harmless(t, r)
    ensures Harmless(s, r)
  {
  }

  predicate CurrentPlan(s: StackState, u: string) {
    && u in s.runs && s.runs[u].versions != [] && s.runs[u].run.spec.operation.Plan?
    && s.runs[u].run.spec.stackGeneration == s.stack.generation
    && (s.runs[u].run.spec.planMode.Destroy? <==> Destroying(s.stack))
  }

  lemma NewPlanFits(s: StackState, destroy: bool, ch: Chance)
    requires destroy <==> Destroying(s.stack)
    ensures var spec := NewPlanSpec(s, destroy, ch);
            spec.Some? ==> FitsStack(s, spec.value) && spec.value.operation.Plan?
  {
  }

  lemma AddPlanHarmless(s: StackState, uid: string, spec: RunSpec, created: nat)
    requires History(s) && FitsStack(s, spec) && spec.operation.Plan?
    ensures Harmless(s, AddRun(s, uid, spec, created))
    ensures uid != "" && uid !in s.runs ==> CurrentPlan(AddRun(s, uid, spec, created), uid)
  {
    var t := AddRun(s, uid, spec, created);
    AddKeeps(s, uid, spec, created);
    if Clean(s.runs) { CleanWithPlan(s, uid, spec, created); }
    if AllSettled(s) {
      forall u ensures SettledAt(t.runs, u) { assert SettledAt(s.runs, u); }
    }
  }

  lemma MoveHarmless(s: StackState, uid: string, st: RunStatus)
    requires History(s) && uid in s.runs && s.runs[uid].versions != []
    requires StatusOk(s.runs[uid].run, st) && Evolves(s.runs[uid].run.spec, Latest(s.runs[uid]), st)
    ensures Harmless(s, s.(runs := s.runs[uid := s.runs[uid].(versions := s.runs[uid].versions + [st])]))
  {
    var t := s.(runs := s.runs[uid := s.runs[uid].(versions := s.runs[uid].versions + [st])]);
    AppendMoves(s, uid, st);
    MoveKeeps(s, t);
    if Clean(s.runs) { CleanStays(s.runs, t.runs); }
    if AllSettled(s) {
      forall u ensures SettledAt(t.runs, u) {
        assert SettledAt(s.runs, u) && MovedAt(s.runs, t.runs, u) && RecordOk(s.runs, u);
        if u in s.runs && IsApplyRun(s.runs[u]) { SettledStays(s.runs, t.runs, u); }
      }
    }
  }

  lemma SupersedeHarmless(s: StackState, uid: string)
    requires History(s) && uid in s.runs && s.runs[uid].versions != [] && s.runs[uid].run.spec.operation.Plan?
    ensures Harmless(s, SupersedePlan(s, uid))
  {
    var r := s.runs[uid];
    assert RecordOk(s.runs, uid) && VersionOk(r, |r.versions| - 1);
    MoveHarmless(s, uid, Latest(r).(outcome := Outcome.Superseded, ready := false));
  }

  predicate SpecFits(s: StackState, spec: Option<RunSpec>) {
    spec.Some? ==> FitsStack(s, spec.value) && spec.value.operation.Plan?
  }

  lemma AttemptHarmless(s: StackState, t: StackState, spec: RunSpec, ch: Chance)
    requires Harmless(s, t) && FitsStack(t, spec) && spec.operation.Plan?
    ensures var e := AddAttempt(t, spec, ch);
            Harmless(s, e.state) && (e.Use? ==> InRange(e.state, e.at) && CurrentPlan(e.state, e.at.uid))
  {
    AddPlanHarmless(t, ch.planUid, spec, s.now);
    HarmlessThen(s, t, AddRun(t, ch.planUid, spec, s.now));
  }

  lemma EnsurePlanHarmless(s: StackState, latest: Option<Sighting>, spec: Option<RunSpec>, ch: Chance)
    requires History(s) && SpecFits(s, spec)
    requires latest.Some? ==> InRange(s, latest.value) && CurrentPlan(s, latest.value.uid)
    ensures var e := EnsurePlan(s, latest, spec, ch);
            Harmless(s, e.state) && (e.Use? ==> InRange(e.state, e.at) && CurrentPlan(e.state, e.at.uid))
  {
    if latest.None? {
      if spec.Some? { AttemptHarmless(s, s, spec.value, ch); }
    } else if PlanStale(ReadRun(s, latest.value).status, s.now) && StackLifecycle.Current(s, latest.value) && Lands(ch.supersede) {
      SupersedeHarmless(s, latest.value.uid);
      if spec.Some? { AttemptHarmless(s, SupersedePlan(s, latest.value.uid), spec.value, ch); }
    }
  }

  // -------------------------------------------------------- judging a Plan

  /** What a verdict may do: nothing to the runs, or one new Apply. */
  ghost predicate VerdictOk(s: StackState, v: Verdict) {
    && History(v.state) && v.state.stack == s.stack && v.state.gone == s.gone
    && (v.state == s || (v.state.outdated && exists u :: CurrentApply(v.state, u)))
  }

  predicate CurrentApply(s: StackState, u: string) {
    && u in s.runs && IsApplyRun(s.runs[u]) && s.runs[u].run.spec.stackGeneration == s.stack.generation
    && (s.runs[u].run.spec.planMode.Destroy? <==> Destroying(s.stack))
  }

  ghost predicate ShowsRemoval(s: StackState) {
    exists w, n :: Evidence(s.runs, w, n) && s.runs[w].run.spec.stackGeneration == s.stack.generation
  }

  predicate Removal(v: Verdict) { v.status.IsTrue? && v.reason.InfrastructureRemoved? }

  lemma NewApplyFits(s: StackState, at: Sighting, approval: ChangeApproval)
    requires History(s) && InRange(s, at) && CurrentPlan(s, at.uid)
    requires Admission.ValidateApplyAdmission(s.stack, ReadRun(s, at), approval, s.now).Pass?
    ensures var spec := Admission.BuildApplyRun(s.stack, ReadRun(s, at), approval); FitsStack(s, spec) && spec.operation.Apply?
  {
    assert RecordOk(s.runs, at.uid) && ClosureAt(s, at.uid);
  }

  predicate ApplyOf(s: StackState, planUid: string, existing: Option<Sighting>) {
    existing.Some? ==> InRange(s, existing.value) && AppliesPlan(s.runs[existing.value.uid], planUid)
  }

  lemma ApplyPlanOk(s: StackState, at: Sighting, existing: Option<Sighting>, destroy: bool, ch: Chance)
    requires History(s) && InRange(s, at) && CurrentPlan(s, at.uid) && ApplyOf(s, at.uid, existing) && (destroy <==> Destroying(s.stack))
    ensures var v := ApplyPlan(s, at, existing, destroy, ch);
            VerdictOk(s, v) && (Removal(v) ==> v.state == s && ShowsRemoval(s))
  {
    if existing.Some? {
      ApplyVerdictOk(s, at, existing.value, destroy, ch);
    } else if ch.approval.Some? && Admission.ValidateApplyAdmission(s.stack, ReadRun(s, at), ch.approval.value, s.now).Pass? {
      NewApplyFits(s, at, ch.approval.value);
      EnsureApplyOk(s, at, Admission.BuildApplyRun(s.stack, ReadRun(s, at), ch.approval.value), destroy, ch);
    }
  }

  lemma ApplyVerdictOk(s: StackState, at: Sighting, apply: Sighting, destroy: bool, ch: Chance)
    requires History(s) && InRange(s, at) && CurrentPlan(s, at.uid) && ApplyOf(s, at.uid, Some(apply)) && (destroy <==> Destroying(s.stack))
    ensures var v := ApplyVerdict(s, ReadRun(s, at), ReadRun(s, apply), destroy, ch);
            VerdictOk(s, v) && v.state == s && (Removal(v) ==> ShowsRemoval(s))
  {
    assert ParentAt(s.runs, apply.uid);
    if destroy && ApplyGone(ReadRun(s, apply).status) {
      assert Evidence(s.runs, apply.uid, apply.seen);
    }
  }

  lemma EnsureApplyOk(s: StackState, at: Sighting, spec: RunSpec, destroy: bool, ch: Chance)
    requires History(s) && InRange(s, at) && CurrentPlan(s, at.uid) && (destroy <==> Destroying(s.stack)) && FitsStack(s, spec)
    requires spec.operation.Apply?
    ensures var v := EnsureApply(s, ReadRun(s, at), spec, destroy, ch);
            VerdictOk(s, v) && (Removal(v) ==> v.state == s && ShowsRemoval(s))
  {
    assert RecordOk(s.runs, at.uid);
    if ch.applyUid != "" && ch.applyUid !in s.runs { NewApplyOk(s, ch.applyUid, spec); }
    if ch.taken.Some? && InRange(s, ch.taken.value) && AppliesPlan(s.runs[ch.taken.value.uid], at.uid) {
      ApplyVerdictOk(s, at, ch.taken.value, destroy, ch);
    }
  }

  lemma NewApplyOk(s: StackState, uid: string, spec: RunSpec)
    requires History(s) && FitsStack(s, spec) && spec.operation.Apply? && uid != "" && uid !in s.runs
    ensures var t := AddRun(s, uid, spec, s.now).(outdated := true);
      && History(t) && t.stack == s.stack && t.gone == s.gone && exists u :: CurrentApply(t, u)
  {
    var t := AddRun(s, uid, spec, s.now);
    AddKeeps(s, uid, spec, s.now);
    OutdatedHistory(t);
    assert CurrentApply(t.(outdated := true), uid);
  }

  lemma OutdatedHistory(s: StackState)
    requires History(s)
    ensures History(s.(outdated := true)) && History(s.(outdated := false))
  {
    SameRunsKeep(s, s.(outdated := true));
    SameRunsKeep(s, s.(outdated := false));
  }

  lemma JudgePlanOk(s: StackState, at: Sighting, existing: Option<Sighting>, destroy: bool, ch: Chance)
    requires History(s) && InRange(s, at) && CurrentPlan(s, at.uid) && ApplyOf(s, at.uid, existing) && (destroy <==> Destroying(s.stack))
    ensures var v := JudgePlan(s, at, existing, destroy, ch);
            VerdictOk(s, v) && (Removal(v) ==> v.state == s && ShowsRemoval(s))
  {
    var plan := ReadRun(s, at);
    if plan.status.outcome.ChangesPresent? {
      ApplyPlanOk(s, at, existing, destroy, ch);
    } else {
      PlainVerdictOk(s, at, existing, destroy, ch);
    }
  }

  lemma PlainVerdictOk(s: StackState, at: Sighting, existing: Option<Sighting>, destroy: bool, ch: Chance)
    requires History(s) && InRange(s, at) && CurrentPlan(s, at.uid) && (destroy <==> Destroying(s.stack))
    requires (existing.Some? ==> InRange(s, existing.value)) && !ReadRun(s, at).status.outcome.ChangesPresent?
    ensures var v := JudgePlan(s, at, existing, destroy, ch); v.state == s && (Removal(v) ==> ShowsRemoval(s))
  {
    if destroy && PlanGone(ReadRun(s, at).status) { assert Evidence(s.runs, at.uid, at.seen); }
  }

  /** Evidence of the current generation is as recent as any Apply. */
  lemma ShownIsClean(s: StackState)
    requires History(s) && AllSettled(s) && ShowsRemoval(s) && Destroying(s.stack)
    ensures Clean(s.runs)
  {
    var w, n :| Evidence(s.runs, w, n) && s.runs[w].run.spec.stackGeneration == s.stack.generation;
    forall u ensures OlderAt(s.runs, w, u) { assert ModeAt(s, u); }
    assert Witnessed(s.runs, w, n);
  }

  lemma SameRunsKeep(s: StackState, t: StackState)
    requires History(s) && t.runs == s.runs && t.stack.generation == s.stack.generation && (Destroying(t.stack) <==> Destroying(s.stack))
    requires KeepsClosure(s, t)
    ensures History(t)
  {
    forall u ensures ClosureAt(t, u) { assert ClosureAt(s, u); }
    forall u ensures ModeAt(t, u) { assert ModeAt(s, u); }
  }

  // ------------------------------------------------------ history, whatever is read

  lemma SetConditionKeeps(s: StackState, status: CondStatus, reason: ReadyReason, remove: bool, renewed: bool, ch: Chance)
    requires History(s)
    ensures var t := SetCondition(s, status, reason, remove, renewed, ch); History(t) && t.runs == s.runs
  {
    SameRunsKeep(s, SetCondition(s, status, reason, remove, renewed, ch));
  }

  lemma ConcludeKeeps(s: StackState, v: Verdict, planName: string, destroy: bool, ch: Chance)
    requires VerdictOk(s, v)
    ensures var t := Conclude(v, planName, destroy, ch); History(t) && t.runs == v.state.runs
  {
    var written := WithStatus(v.state, VerdictStatus(v, planName)).(outdated := false);
    SameRunsKeep(v.state, written);
    SetConditionKeeps(written, IsTrue, InfrastructureRemoved, true, false, ch);
  }

  /** What the scans hand to the Plan path. */
  predicate ScanFits(s: StackState, latest: Option<Sighting>, existing: Option<Sighting>) {
    && (latest.Some? ==> InRange(s, latest.value) && CurrentPlan(s, latest.value.uid))
    && (existing.Some? ==> latest.Some? && ApplyOf(s, latest.value.uid, existing))
  }

  /** A run in a list is the run itself, in an earlier state. */
  lemma SightedFits(s: StackState, lists: Lists, scan: Scan)
    requires Reads(s, lists, scan)
    ensures ScanFits(s, scan.latest, scan.existing)
  {
    if scan.latest.Some? { assert CachedAt(s.runs, lists.plans, scan.latest.value.uid); }
    if scan.existing.Some? { assert CachedAt(s.runs, lists.applies, scan.existing.value.uid); }
  }

  /** The Apply found for the candidate is used only with the candidate: a new attempt has no
      outcome yet. */
  lemma EnsuredApply(s: StackState, latest: Option<Sighting>, spec: Option<RunSpec>, ch: Chance)
    requires latest.Some? ==> InRange(s, latest.value)
    ensures var e := EnsurePlan(s, latest, spec, ch);
            e.Use? ==> (e.state == s && latest == Some(e.at))
                       || (InRange(e.state, e.at) && ReadRun(e.state, e.at).status == EmptyStatus)
  {
  }

  lemma JudgeCurrentOk(s: StackState, at: Sighting, existing: Option<Sighting>, destroy: bool, ch: Chance)
    requires History(s) && InRange(s, at) && CurrentPlan(s, at.uid) && (destroy <==> Destroying(s.stack))
    requires existing.Some? ==> InRange(s, existing.value)
    requires ApplyOf(s, at.uid, existing) || ReadRun(s, at).status == EmptyStatus
    ensures var v := JudgePlan(s, at, existing, destroy, ch);
            && VerdictOk(s, v) && (Removal(v) ==> v.state == s && ShowsRemoval(s)) && (!destroy ==> !Removal(v))
            && (ReadRun(s, at).status == EmptyStatus ==> v.state == s && !Removal(v))
  {
    if ReadRun(s, at).status == EmptyStatus {
      UnfinishedPlan(s, at, existing, destroy, ch);
    } else {
      JudgePlanOk(s, at, existing, destroy, ch);
      PresentIsNoRemoval(s, at, existing, ch);
    }
  }

  lemma UnfinishedPlan(s: StackState, at: Sighting, existing: Option<Sighting>, destroy: bool, ch: Chance)
    requires InRange(s, at) && (existing.Some? ==> InRange(s, existing.value)) && ReadRun(s, at).status == EmptyStatus
    ensures JudgePlan(s, at, existing, destroy, ch) == Verdict(s, IsFalse, PlanPending, None, None)
  {
  }

  lemma PresentIsNoRemoval(s: StackState, at: Sighting, existing: Option<Sighting>, ch: Chance)
    requires InRange(s, at) && (existing.Some? ==> InRange(s, existing.value))
    ensures !Removal(JudgePlan(s, at, existing, false, ch))
  {
  }

  lemma UsePlanKeeps(s: StackState, at: Sighting, existing: Option<Sighting>, destroy: bool, ch: Chance)
    requires History(s) && InRange(s, at) && CurrentPlan(s, at.uid) && (destroy <==> Destroying(s.stack))
    requires ApplyOf(s, at.uid, existing) || ReadRun(s, at).status == EmptyStatus
    ensures History(UsePlan(s, at, existing, destroy, ch))
  {
    var found := if existing.Some? && InRange(s, existing.value) then existing else None;
    JudgeCurrentOk(s, at, found, destroy, ch);
    ConcludeKeeps(s, JudgePlan(s, at, found, destroy, ch), s.runs[at.uid].run.key.name, destroy, ch);
  }

  lemma ReconcilePlanKeeps(s: StackState, destroy: bool, scan: Scan, ch: Chance)
    requires History(s) && ScanInRange(s, scan) && ScanFits(s, scan.latest, scan.existing) && (destroy <==> Destroying(s.stack))
    ensures History(ReconcilePlan(s, destroy, scan, ch))
  {
    var spec := NewPlanSpec(s, destroy, ch);
    NewPlanFits(s, destroy, ch);
    EnsurePlanHarmless(s, scan.latest, spec, ch);
    EnsuredApply(s, scan.latest, spec, ch);
    var e := EnsurePlan(s, scan.latest, spec, ch);
    if e.Use? { UsePlanKeeps(e.state, e.at, scan.existing, destroy, ch); }
  }

  lemma ReconcileKeeps(s: StackState, lists: Lists, scan: Scan, ch: Chance)
    requires History(s) && Reads(s, lists, scan)
    ensures History(ReconcileStack(s, scan, ch))
  {
    SightedFits(s, lists, scan);
    if !s.gone && (s.stack.deleting || s.stack.finalizer) {
      if Destroying(s.stack) && !s.stack.spec.mutationFence {
        EditKeeps(s, s.stack.spec.(mutationFence := true));
      } else if Destroying(s.stack) {
        DestroyKeeps(s, scan, ch);
      } else if s.stack.spec.mutationFence {
        SetConditionKeeps(s, IsFalse, MutationFence, false, true, ch);
      } else {
        ReconcilePlanKeeps(s, false, scan, ch);
      }
    } else {
      SameRunsKeep(s, SetFinalizer(s, true));
    }
  }

  lemma DestroyKeeps(s: StackState, scan: Scan, ch: Chance)
    requires History(s) && ScanInRange(s, scan) && ScanFits(s, scan.latest, scan.existing) && Destroying(s.stack)
    ensures History(ReconcileDestroy(s, scan, ch))
  {
    ReconcilePlanKeeps(s, true, scan, ch);
    ConditionsKeep(s, scan, ch);
  }

  /** The exits of reconcileDestroy that only set a condition. */
  lemma ConditionsKeep(s: StackState, scan: Scan, ch: Chance)
    requires History(s)
    ensures History(SetCondition(s, IsTrue, InfrastructureRemoved, true, false, ch))
    ensures History(SetCondition(s, IsTrue, InfrastructureRemoved, true, true, ch))
    ensures History(SetCondition(s, IsFalse, RecoveryRequired, false, true, ch))
    ensures History(SetCondition(s, if scan.hold.DeletionHeld? then IsFalse else IsUnknown, scan.hold, false, true, ch))
  {
    SetConditionKeeps(s, IsTrue, InfrastructureRemoved, true, false, ch);
    SetConditionKeeps(s, IsTrue, InfrastructureRemoved, true, true, ch);
    SetConditionKeeps(s, IsFalse, RecoveryRequired, false, true, ch);
    SetConditionKeeps(s, if scan.hold.DeletionHeld? then IsFalse else IsUnknown, scan.hold, false, true, ch);
  }

  lemma NextHistory(s: StackState, step: Step)
    requires History(s)
    ensures History(Next(s, step))
  {
    match step
    case SpecEdited(spec) => EditKeeps(s, spec);
    case DeletionRequested => DeletionKeeps(s);
    case RunMoved(uid, st) =>
      if uid in s.runs && s.runs[uid].versions != [] && StatusOk(s.runs[uid].run, st)
         && Evolves(s.runs[uid].run.spec, Latest(s.runs[uid]), st) { MoveHarmless(s, uid, st); }
    case Ticked => SameRunsKeep(s, s.(now := s.now + 1));
    case Reconciled(lists, scan, ch) => if Reads(s, lists, scan) { ReconcileKeeps(s, lists, scan, ch); }
  }

  lemma DeletionKeeps(s: StackState)
    requires History(s)
    ensures History(Next(s, DeletionRequested))
  {
    if !s.gone && !s.stack.deleting {
      SameRunsKeep(s, s.(gone := true));
      var t := s.(stack := s.stack.(deleting := true, generation := s.stack.generation + 1));
      forall u ensures ClosureAt(t, u) { assert ClosureAt(s, u); }
      forall u ensures ModeAt(t, u) { assert ModeAt(s, u); }
    }
  }

  lemma {:induction false} RunHistoryKept(key: Key, uid: string, spec: StackSpec, steps: seq<Step>)
    ensures History(After(key, uid, spec, steps))
  {
    if steps != [] {
      RunHistoryKept(key, uid, spec, steps[..|steps| - 1]);
      NextHistory(After(key, uid, spec, steps[..|steps| - 1]), steps[|steps| - 1]);
    }
  }

  // --------------------------------------------- what an outdated list tells

  /** An Apply that the list leaves out. */
  predicate Misses(s: StackState, listed: Runs, u: string) { IsApply(s.runs, u) && u !in listed }

  /** Outdated statuses do no harm: what a list shows as settled, or as never admitted, is so still. */
  lemma ListedStays(s: StackState, listed: Runs, u: string)
    requires History(s) && CachedFrom(s.runs, listed) && u in listed
    ensures SettledAt(listed, u) ==> SettledAt(s.runs, u)
    ensures NeverAdmittedAt(listed, u) ==> NeverAdmittedAt(s.runs, u)
  {
    assert CachedAt(s.runs, listed, u) && RecordOk(s.runs, u);
    var n, m := |listed[u].versions|, |s.runs[u].versions|;
    assert listed[u].versions[n - 1] == s.runs[u].versions[n - 1];
    assert VersionsEvolve(s.runs[u], n - 1, m - 1);
  }

  /** A list without an unsettled Apply leaves only those to worry about that it leaves out. */
  lemma ListTellsSettled(s: StackState, listed: Runs)
    requires History(s) && CachedFrom(s.runs, listed) && forall u :: SettledAt(listed, u)
    ensures AllSettled(s) <==> forall u | Misses(s, listed, u) :: Settled(Latest(s.runs[u]))
  {
    if forall u | Misses(s, listed, u) :: Settled(Latest(s.runs[u])) {
      forall u ensures SettledAt(s.runs, u) {
        if u in listed { assert SettledAt(listed, u); ListedStays(s, listed, u); } else { assert Misses(s, listed, u) || SettledAt(s.runs, u); }
      }
    }
    if AllSettled(s) {
      forall u | Misses(s, listed, u) ensures Settled(Latest(s.runs[u])) { assert SettledAt(s.runs, u); }
    }
  }

  ghost predicate NoneAdmitted(s: StackState) { forall u :: NeverAdmittedAt(s.runs, u) }

  lemma ListTellsAdmitted(s: StackState, listed: Runs)
    requires History(s) && CachedFrom(s.runs, listed) && forall u :: NeverAdmittedAt(listed, u)
    ensures NoneAdmitted(s) <==> forall u | Misses(s, listed, u) :: NeverAdmitted(Latest(s.runs[u]))
  {
    if forall u | Misses(s, listed, u) :: NeverAdmitted(Latest(s.runs[u])) {
      forall u ensures NeverAdmittedAt(s.runs, u) {
        if u in listed { assert NeverAdmittedAt(listed, u); ListedStays(s, listed, u); }
        else { assert Misses(s, listed, u) || NeverAdmittedAt(s.runs, u); }
      }
    }
    if NoneAdmitted(s) {
      forall u | Misses(s, listed, u) ensures NeverAdmitted(Latest(s.runs[u])) { assert NeverAdmittedAt(s.runs, u); }
    }
  }

  // ------------------------------------------- when a release is right, exactly

  /** The finalizer went in this step. */
  predicate Releases(s: StackState, t: StackState) { s.stack.finalizer && !t.stack.finalizer }

  /** What a release rests on: the word of the condition, a scan that found no Apply that was ever
      admitted, or evidence of a Destroy and a scan that found no unsettled Apply. */
  ghost predicate Grounds(s: StackState, scan: Scan) {
    || SaysRemoved(s.stack.status)
    || (!scan.unsettled && !scan.ran && s.stack.status.lastConverged.None?)
    || (!scan.unsettled && s.stack.status.lastConverged.Some? && ShowsRemoval(s))
  }

  lemma ConcludeReleases(v: Verdict, planName: string, destroy: bool, ch: Chance)
    requires Releases(v.state, Conclude(v, planName, destroy, ch))
    ensures Removal(v)
  {
  }

  lemma PlanReleases(s: StackState, destroy: bool, scan: Scan, ch: Chance)
    requires History(s) && ScanInRange(s, scan) && ScanFits(s, scan.latest, scan.existing) && (destroy <==> Destroying(s.stack))
    requires Releases(s, ReconcilePlan(s, destroy, scan, ch))
    ensures destroy && ShowsRemoval(s) && ReconcilePlan(s, destroy, scan, ch).runs == s.runs
  {
    var spec := NewPlanSpec(s, destroy, ch);
    NewPlanFits(s, destroy, ch);
    EnsurePlanHarmless(s, scan.latest, spec, ch);
    EnsuredApply(s, scan.latest, spec, ch);
    var e := EnsurePlan(s, scan.latest, spec, ch);
    if e.Use? { UseReleases(e.state, e.at, scan.existing, destroy, ch); }
  }

  lemma UseReleases(s: StackState, at: Sighting, existing: Option<Sighting>, destroy: bool, ch: Chance)
    requires History(s) && InRange(s, at) && CurrentPlan(s, at.uid) && (destroy <==> Destroying(s.stack))
    requires ApplyOf(s, at.uid, existing) || ReadRun(s, at).status == EmptyStatus
    requires Releases(s, UsePlan(s, at, existing, destroy, ch))
    ensures destroy && ShowsRemoval(s) && UsePlan(s, at, existing, destroy, ch).runs == s.runs
    ensures ReadRun(s, at).status != EmptyStatus
  {
    var found := if existing.Some? && InRange(s, existing.value) then existing else None;
    var v := JudgePlan(s, at, found, destroy, ch);
    JudgeCurrentOk(s, at, found, destroy, ch);
    ConcludeKeeps(s, v, s.runs[at.uid].run.key.name, destroy, ch);
    ConcludeReleases(v, s.runs[at.uid].run.key.name, destroy, ch);
  }

  lemma ConditionReleases(s: StackState, status: CondStatus, reason: ReadyReason, remove: bool, renewed: bool, ch: Chance)
    ensures var t := SetCondition(s, status, reason, remove, renewed, ch); t.runs == s.runs && (Releases(s, t) ==> remove)
  {
  }

  lemma DestroyReleases(s: StackState, scan: Scan, ch: Chance)
    requires History(s) && ScanInRange(s, scan) && ScanFits(s, scan.latest, scan.existing) && Destroying(s.stack)
    requires Releases(s, ReconcileDestroy(s, scan, ch))
    ensures Grounds(s, scan) && ReconcileDestroy(s, scan, ch).runs == s.runs
  {
    var st := s.stack.status;
    if SaysRemoved(st) {
      ConditionReleases(s, IsTrue, InfrastructureRemoved, true, false, ch);
    } else if scan.unsettled {
      ConditionReleases(s, if scan.hold.DeletionHeld? then IsFalse else IsUnknown, scan.hold, false, true, ch);
    } else if st.lastConverged.None? {
      ConditionReleases(s, IsFalse, RecoveryRequired, false, true, ch);
      ConditionReleases(s, IsTrue, InfrastructureRemoved, true, true, ch);
    } else if st.lastConverged.value.snapshot.Undecodable? {
      ConditionReleases(s, IsFalse, RecoveryRequired, false, true, ch);
    } else {
      PlanReleases(s, true, scan, ch);
    }
  }

  lemma ReleaseHasGrounds(s: StackState, lists: Lists, scan: Scan, ch: Chance)
    requires History(s) && Reads(s, lists, scan) && Releases(s, ReconcileStack(s, scan, ch))
    ensures Grounds(s, scan) && Destroying(s.stack) && ReconcileStack(s, scan, ch).runs == s.runs
  {
    SightedFits(s, lists, scan);
    if Destroying(s.stack) {
      if s.stack.spec.mutationFence && !s.gone { DestroyReleases(s, scan, ch); }
    } else if s.stack.spec.mutationFence {
      ConditionReleases(s, IsFalse, MutationFence, false, true, ch);
    } else if !s.gone && s.stack.finalizer {
      PlanReleases(s, false, scan, ch);
    }
  }

  // ------------------------------------------------------------- whole runs

  /** The finalizer goes on the word of a condition that an Apply has outlived. */
  predicate TrustsOutdated(s: StackState) { SaysRemoved(s.stack.status) && s.outdated }

  /** A pass in Destroy mode leaves no Apply out of its first list. */
  ghost predicate Attentive(s: StackState, step: Step) {
    step.Reconciled? && Destroying(s.stack) ==> forall u :: !Misses(s, step.lists.settling, u)
  }

  ghost predicate AttentiveRun(key: Key, uid: string, spec: StackSpec, steps: seq<Step>) {
    steps == [] || (AttentiveRun(key, uid, spec, steps[..|steps| - 1])
                    && Attentive(After(key, uid, spec, steps[..|steps| - 1]), steps[|steps| - 1]))
  }

  /** A step is safe: it keeps the invariant and releases the finalizer only when that is right,
      unless it trusts an outdated condition. */
  ghost predicate SafeStep(s: StackState, t: StackState) {
    Inv(t) && (Releases(s, t) ==> Clean(t.runs) || TrustsOutdated(s))
  }

  lemma SetConditionSafe(s: StackState, status: CondStatus, reason: ReadyReason, remove: bool, renewed: bool, ch: Chance)
    requires Inv(s)
    requires status.IsTrue? && reason.InfrastructureRemoved? ==> Clean(s.runs) || (TrustsOutdated(s) && !renewed)
    requires remove ==> status.IsTrue? && reason.InfrastructureRemoved?
    ensures SafeStep(s, SetCondition(s, status, reason, remove, renewed, ch))
  {
    SetConditionKeeps(s, status, reason, remove, renewed, ch);
  }

  lemma ConcludeSafe(s: StackState, v: Verdict, planName: string, destroy: bool, ch: Chance)
    requires History(s) && VerdictOk(s, v) && (destroy <==> Destroying(s.stack))
    requires destroy ==> AllSettled(s) && !SaysRemoved(s.stack.status)
    requires !destroy ==> Inv(s) && !Removal(v)
    requires Removal(v) ==> v.state == s && ShowsRemoval(s)
    ensures SafeStep(s, Conclude(v, planName, destroy, ch))
  {
    var st := VerdictStatus(v, planName);
    var written := WithStatus(v.state, st).(outdated := false);
    SameRunsKeep(v.state, written);
    if Removal(v) { ShownIsClean(s); }
    assert Inv(written);
    assert Inv(v.state);
    if SaysRemoved(st) { SetConditionSafe(written, IsTrue, InfrastructureRemoved, true, false, ch); }
  }

  lemma UsePlanSafe(t: StackState, at: Sighting, existing: Option<Sighting>, destroy: bool, ch: Chance)
    requires Inv(t) && InRange(t, at) && CurrentPlan(t, at.uid) && (destroy <==> Destroying(t.stack))
    requires ApplyOf(t, at.uid, existing) || ReadRun(t, at).status == EmptyStatus
    requires destroy ==> AllSettled(t) && !SaysRemoved(t.stack.status)
    ensures SafeStep(t, UsePlan(t, at, existing, destroy, ch))
  {
    var found := if existing.Some? && InRange(t, existing.value) then existing else None;
    JudgeCurrentOk(t, at, found, destroy, ch);
    ConcludeSafe(t, JudgePlan(t, at, found, destroy, ch), t.runs[at.uid].run.key.name, destroy, ch);
  }

  lemma SafeAfterHarmless(s: StackState, t: StackState, r: StackState)
    requires Harmless(s, t) && SafeStep(t, r)
    ensures SafeStep(s, r)
  {
  }

  lemma ReconcilePlanSafe(s: StackState, destroy: bool, scan: Scan, ch: Chance)
    requires Inv(s) && ScanInRange(s, scan) && ScanFits(s, scan.latest, scan.existing) && (destroy <==> Destroying(s.stack))
    requires destroy ==> AllSettled(s) && !SaysRemoved(s.stack.status)
    ensures SafeStep(s, ReconcilePlan(s, destroy, scan, ch))
  {
    var spec := NewPlanSpec(s, destroy, ch);
    NewPlanFits(s, destroy, ch);
    EnsurePlanHarmless(s, scan.latest, spec, ch);
    var e := EnsurePlan(s, scan.latest, spec, ch);
    EnsuredApply(s, scan.latest, spec, ch);
    if e.Use? { EnsuredSafe(s, e.state, e.at, scan.existing, destroy, ch); }
  }

  lemma EnsuredSafe(s: StackState, t: StackState, at: Sighting, existing: Option<Sighting>, destroy: bool, ch: Chance)
    requires Inv(s) && Harmless(s, t) && InRange(t, at) && CurrentPlan(t, at.uid) && (destroy <==> Destroying(s.stack))
    requires destroy ==> AllSettled(s) && !SaysRemoved(s.stack.status)
    requires ApplyOf(t, at.uid, existing) || ReadRun(t, at).status == EmptyStatus
    ensures SafeStep(s, UsePlan(t, at, existing, destroy, ch))
  {
    UsePlanSafe(t, at, existing, destroy, ch);
    SafeAfterHarmless(s, t, UsePlan(t, at, existing, destroy, ch));
  }

  lemma ScanFacts(s: StackState, lists: Lists, scan: Scan)
    requires History(s) && Reads(s, lists, scan) && forall u :: !Misses(s, lists.settling, u)
    ensures !scan.unsettled ==> AllSettled(s)
    ensures !scan.unsettled && !scan.ran ==> Clean(s.runs)
    ensures ScanFits(s, scan.latest, scan.existing)
  {
    SightedFits(s, lists, scan);
    if !scan.unsettled { ListTellsSettled(s, lists.settling); }
    if !scan.ran { ListTellsAdmitted(s, lists.settling); }
  }

  lemma ReconcileDestroySafe(s: StackState, lists: Lists, scan: Scan, ch: Chance)
    requires Inv(s) && Reads(s, lists, scan) && Destroying(s.stack) && forall u :: !Misses(s, lists.settling, u)
    ensures SafeStep(s, ReconcileDestroy(s, scan, ch))
  {
    ScanFacts(s, lists, scan);
    var st := s.stack.status;
    if SaysRemoved(st) {
      SetConditionSafe(s, IsTrue, InfrastructureRemoved, true, false, ch);
    } else if scan.unsettled {
      SetConditionSafe(s, if scan.hold.DeletionHeld? then IsFalse else IsUnknown, scan.hold, false, true, ch);
    } else if st.lastConverged.None? {
      SetConditionSafe(s, IsFalse, RecoveryRequired, false, true, ch);
      if !scan.ran { SetConditionSafe(s, IsTrue, InfrastructureRemoved, true, true, ch); }
    } else if st.lastConverged.value.snapshot.Undecodable? {
      SetConditionSafe(s, IsFalse, RecoveryRequired, false, true, ch);
    } else {
      ReconcilePlanSafe(s, true, scan, ch);
    }
  }

  lemma ReconcileSafe(s: StackState, lists: Lists, scan: Scan, ch: Chance)
    requires Inv(s) && Reads(s, lists, scan) && (Destroying(s.stack) ==> forall u :: !Misses(s, lists.settling, u))
    ensures SafeStep(s, ReconcileStack(s, scan, ch))
  {
    if !s.gone && (s.stack.deleting || s.stack.finalizer) {
      if Destroying(s.stack) {
        if s.stack.spec.mutationFence { ReconcileDestroySafe(s, lists, scan, ch); }
        EditKeeps(s, s.stack.spec.(mutationFence := true));
      } else if s.stack.spec.mutationFence {
        SetConditionSafe(s, IsFalse, MutationFence, false, true, ch);
      } else {
        SightedFits(s, lists, scan);
        ReconcilePlanSafe(s, false, scan, ch);
      }
    } else {
      SameRunsKeep(s, SetFinalizer(s, true));
    }
  }

  lemma NextSafe(s: StackState, step: Step)
    requires Inv(s) && Attentive(s, step)
    ensures SafeStep(s, Next(s, step))
  {
    match step
    case Reconciled(lists, scan, ch) => if Reads(s, lists, scan) { ReconcileSafe(s, lists, scan, ch); }
    case RunMoved(uid, st) =>
      if uid in s.runs && s.runs[uid].versions != [] && StatusOk(s.runs[uid].run, st)
         && Evolves(s.runs[uid].run.spec, Latest(s.runs[uid]), st) { MoveHarmless(s, uid, st); }
    case _ => NextHistory(s, step);
  }

  lemma {:induction false} RunSafe(key: Key, uid: string, spec: StackSpec, steps: seq<Step>)
    requires AttentiveRun(key, uid, spec, steps)
    ensures Inv(After(key, uid, spec, steps))
  {
    if steps != [] {
      RunSafe(key, uid, spec, steps[..|steps| - 1]);
      NextSafe(After(key, uid, spec, steps[..|steps| - 1]), steps[|steps| - 1]);
    }
  }

  /** While no list leaves an Apply out, the finalizer is released only when every Apply is settled
      and either none was ever admitted or durable evidence shows the infrastructure gone, or on the
      word of a Removed condition that an Apply created since has made outdated. */
  lemma FinalizerSafety(key: Key, uid: string, spec: StackSpec, steps: seq<Step>, step: Step)
    requires AttentiveRun(key, uid, spec, steps)
    requires var s := After(key, uid, spec, steps); Attentive(s, step) && Releases(s, Next(s, step))
    ensures var s := After(key, uid, spec, steps); Clean(Next(s, step).runs) || TrustsOutdated(s)
  {
    RunSafe(key, uid, spec, steps);
    NextSafe(After(key, uid, spec, steps), step);
  }

  /** The reconciliation that creates an Apply also gets its status written. */
  predicate KeepsUp(step: Step) { step.Reconciled? && Lands(step.ch.apply) ==> Lands(step.ch.status) }

  lemma JudgingOutdates(s: StackState, at: Sighting, existing: Option<Sighting>, destroy: bool, ch: Chance)
    requires InRange(s, at) && (existing.Some? ==> InRange(s, existing.value))
    ensures var v := JudgePlan(s, at, existing, destroy, ch); v.state.outdated ==> s.outdated || Lands(ch.apply)
  {
  }

  lemma ConcludingCatchesUp(v: Verdict, planName: string, destroy: bool, ch: Chance)
    requires v.state.outdated ==> Lands(ch.status)
    ensures !Conclude(v, planName, destroy, ch).outdated
  {
  }

  lemma EnsuringKeepsUp(s: StackState, latest: Option<Sighting>, spec: Option<RunSpec>, ch: Chance)
    requires latest.Some? ==> InRange(s, latest.value)
    ensures EnsurePlan(s, latest, spec, ch).state.outdated == s.outdated
  {
  }

  lemma UsingKeepsUp(s: StackState, at: Sighting, existing: Option<Sighting>, destroy: bool, ch: Chance)
    requires !s.outdated && (Lands(ch.apply) ==> Lands(ch.status)) && InRange(s, at)
    ensures !UsePlan(s, at, existing, destroy, ch).outdated
  {
    var found := if existing.Some? && InRange(s, existing.value) then existing else None;
    JudgingOutdates(s, at, found, destroy, ch);
    ConcludingCatchesUp(JudgePlan(s, at, found, destroy, ch), s.runs[at.uid].run.key.name, destroy, ch);
  }

  lemma ReconcilePlanKeepsUp(s: StackState, destroy: bool, scan: Scan, ch: Chance)
    requires !s.outdated && (Lands(ch.apply) ==> Lands(ch.status)) && ScanInRange(s, scan)
    ensures !ReconcilePlan(s, destroy, scan, ch).outdated
  {
    var spec := NewPlanSpec(s, destroy, ch);
    EnsuringKeepsUp(s, scan.latest, spec, ch);
    var e := EnsurePlan(s, scan.latest, spec, ch);
    if e.Use? && InRange(e.state, e.at) { UsingKeepsUp(e.state, e.at, scan.existing, destroy, ch); }
  }

  lemma ReconcileKeepsUp(s: StackState, scan: Scan, ch: Chance)
    requires !s.outdated && (Lands(ch.apply) ==> Lands(ch.status)) && ScanInRange(s, scan)
    ensures !ReconcileStack(s, scan, ch).outdated
  {
    ReconcilePlanKeepsUp(s, Destroying(s.stack), scan, ch);
  }

  lemma KeepsUpNext(s: StackState, step: Step)
    requires !s.outdated && KeepsUp(step)
    ensures !Next(s, step).outdated
  {
    if step.Reconciled? && ScanInRange(s, step.scan) { ReconcileKeepsUp(s, step.scan, step.ch); }
  }

  lemma {:induction false} KeepsUpRun(key: Key, uid: string, spec: StackSpec, steps: seq<Step>)
    requires forall i | 0 <= i < |steps| :: KeepsUp(steps[i])
    ensures !After(key, uid, spec, steps).outdated
  {
    if steps != [] {
      KeepsUpRun(key, uid, spec, steps[..|steps| - 1]);
      KeepsUpNext(After(key, uid, spec, steps[..|steps| - 1]), steps[|steps| - 1]);
    }
  }

  /** If besides no status update that follows an Apply's creation is lost, the release is always right. */
  lemma FinalizerSafetyWhenWritten(key: Key, uid: string, spec: StackSpec, steps: seq<Step>, step: Step)
    requires AttentiveRun(key, uid, spec, steps) && forall i | 0 <= i < |steps| :: KeepsUp(steps[i])
    requires var s := After(key, uid, spec, steps); Attentive(s, step) && Releases(s, Next(s, step))
    ensures Clean(Next(After(key, uid, spec, steps), step).runs)
  {
    FinalizerSafety(key, uid, spec, steps, step);
    KeepsUpRun(key, uid, spec, steps);
  }

  // ----------------------------------------------------------- Destroy Plans

  predicate IsDestroyPlan(r: Record) { r.run.spec.operation.Plan? && r.run.spec.planMode.Destroy? }

  predicate MakesPlan(s: StackState, t: StackState, plan: string) {
    plan in t.runs && plan !in s.runs && IsDestroyPlan(t.runs[plan])
  }

  /** A Destroy Plan is created only when every Apply in the list is Succeeded, Rejected, or Failed
      strictly before mutation, and all Applies are so exactly when those left out are. */
  lemma DestroyPlansWait(key: Key, uid: string, spec: StackSpec, steps: seq<Step>, step: Step, plan: string)
    requires var s := After(key, uid, spec, steps); MakesPlan(s, Next(s, step), plan)
    ensures step.Reconciled?
    ensures var s := After(key, uid, spec, steps);
      && (forall u | u in step.lists.settling && IsApply(s.runs, u) :: Concluded(Latest(s.runs[u])))
      && ((forall u | IsApply(s.runs, u) :: Concluded(Latest(s.runs[u])))
          <==> forall u | Misses(s, step.lists.settling, u) :: Concluded(Latest(s.runs[u])))
  {
    var s := After(key, uid, spec, steps);
    RunHistoryKept(key, uid, spec, steps);
    DestroyPlanWaits(s, step, plan);
    ListTellsSettled(s, step.lists.settling);
    forall u | u in step.lists.settling && IsApply(s.runs, u) ensures Concluded(Latest(s.runs[u])) {
      assert SettledAt(step.lists.settling, u) && CachedAt(s.runs, step.lists.settling, u);
      ListedStays(s, step.lists.settling, u);
    }
  }

  lemma EnsuringMakes(s: StackState, latest: Option<Sighting>, spec: Option<RunSpec>, ch: Chance, u: string)
    requires latest.Some? ==> InRange(s, latest.value)
    ensures var t := EnsurePlan(s, latest, spec, ch).state;
      u in t.runs && u !in s.runs ==> spec == Some(t.runs[u].run.spec)
  {
  }

  predicate MakesOnlyApplies(s: StackState, t: StackState, u: string) {
    && (u in t.runs && u !in s.runs ==> t.runs[u].run.spec.operation.Apply?)
    && (u in s.runs ==> u in t.runs && t.runs[u] == s.runs[u])
  }

  lemma EnsuringApplyMakes(s: StackState, plan: TerraformRun, spec: RunSpec, destroy: bool, ch: Chance, u: string)
    requires spec.operation.Apply?
    ensures MakesOnlyApplies(s, EnsureApply(s, plan, spec, destroy, ch).state, u)
  {
  }

  lemma ApplyingMakes(s: StackState, at: Sighting, existing: Option<Sighting>, destroy: bool, ch: Chance, u: string)
    requires InRange(s, at) && (existing.Some? ==> InRange(s, existing.value))
    ensures MakesOnlyApplies(s, ApplyPlan(s, at, existing, destroy, ch).state, u)
  {
    var plan := ReadRun(s, at);
    if ch.approval.Some? {
      var spec := Admission.BuildApplyRun(s.stack, plan, ch.approval.value);
      EnsuringApplyMakes(s, plan, spec, destroy, ch, u);
    }
  }

  lemma JudgingMakes(s: StackState, at: Sighting, existing: Option<Sighting>, destroy: bool, ch: Chance, u: string)
    requires InRange(s, at) && (existing.Some? ==> InRange(s, existing.value))
    ensures MakesOnlyApplies(s, JudgePlan(s, at, existing, destroy, ch).state, u)
  {
    ApplyingMakes(s, at, existing, destroy, ch, u);
  }

  lemma ConcludingMakes(v: Verdict, planName: string, destroy: bool, ch: Chance)
    ensures Conclude(v, planName, destroy, ch).runs == v.state.runs
  {
  }

  lemma UsingMakes(s: StackState, at: Sighting, existing: Option<Sighting>, destroy: bool, ch: Chance, u: string)
    requires InRange(s, at)
    ensures MakesOnlyApplies(s, UsePlan(s, at, existing, destroy, ch), u)
  {
    var found := if existing.Some? && InRange(s, existing.value) then existing else None;
    JudgingMakes(s, at, found, destroy, ch, u);
    ConcludingMakes(JudgePlan(s, at, found, destroy, ch), s.runs[at.uid].run.key.name, destroy, ch);
  }

  lemma PresentMakesNoDestroyPlan(s: StackState, scan: Scan, ch: Chance, u: string)
    requires ScanInRange(s, scan) && !Destroying(s.stack)
    ensures !MakesPlan(s, ReconcilePlan(s, false, scan, ch), u)
  {
    var spec := NewPlanSpec(s, false, ch);
    NewPlanFits(s, false, ch);
    EnsuringMakes(s, scan.latest, spec, ch, u);
    var e := EnsurePlan(s, scan.latest, spec, ch);
    if e.Use? && InRange(e.state, e.at) { UsingMakes(e.state, e.at, scan.existing, false, ch, u); }
  }

  lemma HeldMakesNothing(s: StackState, scan: Scan, ch: Chance)
    requires ScanInRange(s, scan) && scan.unsettled && Destroying(s.stack)
    ensures ReconcileStack(s, scan, ch).runs == s.runs
  {
  }

  lemma DestroyPlanWaits(s: StackState, step: Step, plan: string)
    requires MakesPlan(s, Next(s, step), plan)
    ensures step.Reconciled? && Reads(s, step.lists, step.scan) && forall u :: SettledAt(step.lists.settling, u)
  {
    if step.Reconciled? && Reads(s, step.lists, step.scan) && step.scan.unsettled {
      if Destroying(s.stack) {
        HeldMakesNothing(s, step.scan, step.ch);
      } else {
        PresentMakesNoDestroyPlan(s, step.scan, step.ch, plan);
      }
    }
  }
}
