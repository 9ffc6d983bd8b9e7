/** What a Removed condition of a stack is worth, and exactly when releasing the finalizer is right,
    in every reachable state and whatever the lists of runs show. */
module StackRemoval {
  import opened Api
  import opened RunHistory
  import opened StackLifecycle
  import opened StackSafety

  // --------------------------------------------- what stands behind a condition

  /** A run in Destroy mode that no Apply in the other mode is as recent as. */
  ghost predicate Recent(runs: Runs, w: string) {
    w in runs && runs[w].run.spec.planMode.Destroy? && forall u :: OlderAt(runs, w, u)
  }

  ghost predicate Shown(runs: Runs) { exists w, n :: Witnessed(runs, w, n) }

  /** A Removed condition that an Apply has outlived has no recent Destroy beside it; any other, once
      there was a convergence, has durable evidence. */
  ghost predicate Backed(s: StackState) {
    SaysRemoved(s.stack.status) ==>
      if s.outdated then forall w :: !Recent(s.runs, w) else s.stack.status.lastConverged.Some? ==> Shown(s.runs)
  }

  /** Evidence stays, and no run becomes a recent Destroy. */
  ghost predicate Carries(runs: Runs, later: Runs) {
    (Shown(runs) ==> Shown(later)) && forall w :: Recent(later, w) ==> Recent(runs, w)
  }

  lemma BackedStays(s: StackState, t: StackState)
    requires Backed(s) && t.stack.status == s.stack.status && t.outdated == s.outdated && Carries(s.runs, t.runs)
    ensures Backed(t)
  {
  }

  lemma CarriesThen(a: Runs, b: Runs, c: Runs)
    requires Carries(a, b) && Carries(b, c)
    ensures Carries(a, c)
  {
  }

  lemma MovedCarries(runs: Runs, later: Runs)
    requires Moved(runs, later) && forall u :: RecordOk(runs, u)
    ensures Carries(runs, later)
  {
    if w, n :| Witnessed(runs, w, n) { WitnessStays(runs, later, w, n); }
    forall w | Recent(later, w) ensures Recent(runs, w) {
      assert MovedAt(runs, later, w);
      forall u ensures OlderAt(runs, w, u) { assert OlderAt(later, w, u) && MovedAt(runs, later, u) && RecordOk(later, u); }
    }
  }

  lemma AppendCarries(s: StackState, uid: string, st: RunStatus)
    requires History(s) && uid in s.runs && s.runs[uid].versions != []
    requires StatusOk(s.runs[uid].run, st) && Evolves(s.runs[uid].run.spec, Latest(s.runs[uid]), st)
    ensures Carries(s.runs, s.runs[uid := s.runs[uid].(versions := s.runs[uid].versions + [st])])
  {
    AppendMoves(s, uid, st);
    MovedCarries(s.runs, s.runs[uid := s.runs[uid].(versions := s.runs[uid].versions + [st])]);
  }

  /** A new Plan of a stack in present mode is no Destroy, and no Apply. */
  lemma PlanCarries(s: StackState, uid: string, spec: RunSpec, created: nat)
    requires spec.operation.Plan? && !spec.planMode.Destroy?
    ensures Carries(s.runs, AddRun(s, uid, spec, created).runs)
  {
    var later := AddRun(s, uid, spec, created).runs;
    if w, n :| Witnessed(s.runs, w, n) {
      forall u ensures OlderAt(later, w, u) { assert OlderAt(s.runs, w, u); }
      assert Witnessed(later, w, n);
    }
    forall w | Recent(later, w) ensures Recent(s.runs, w) {
      forall u ensures OlderAt(s.runs, w, u) { assert OlderAt(later, w, u); }
    }
  }

  lemma EnsurePlanCarries(s: StackState, latest: Option<Sighting>, spec: Option<RunSpec>, ch: Chance)
    requires History(s) && SpecFits(s, spec) && !Destroying(s.stack)
    requires latest.Some? ==> InRange(s, latest.value) && CurrentPlan(s, latest.value.uid)
    ensures Carries(s.runs, EnsurePlan(s, latest, spec, ch).state.runs)
  {
    if latest.None? || PlanStale(ReadRun(s, latest.value).status, s.now) {
      var t := if latest.Some? && StackLifecycle.Current(s, latest.value) && Lands(ch.supersede) then SupersedePlan(s, latest.value.uid) else s;
      if latest.Some? { SupersedeCarries(s, latest.value.uid); }
      if spec.Some? {
        PlanCarries(t, ch.planUid, spec.value, s.now);
        CarriesThen(s.runs, t.runs, AddRun(t, ch.planUid, spec.value, s.now).runs);
      }
    }
  }

  lemma SupersedeCarries(s: StackState, uid: string)
    requires History(s) && uid in s.runs && s.runs[uid].versions != [] && s.runs[uid].run.spec.operation.Plan?
    ensures Carries(s.runs, SupersedePlan(s, uid).runs)
  {
    var r := s.runs[uid];
    assert RecordOk(s.runs, uid) && VersionOk(r, |r.versions| - 1);
    AppendCarries(s, uid, Latest(r).(outcome := Outcome.Superseded, ready := false));
  }

  /** An Apply of a stack in present mode is more recent than every Destroy. */
  lemma ApplyOutruns(s: StackState, u: string)
    requires History(s) && !Destroying(s.stack) && CurrentApply(s, u)
    ensures forall w :: !Recent(s.runs, w)
  {
    forall w ensures !Recent(s.runs, w) {
      assert ModeAt(s, w);
      assert w in s.runs && s.runs[w].run.spec.planMode.Destroy? ==> !OlderAt(s.runs, w, u);
    }
  }

  lemma ShownAtGeneration(s: StackState)
    requires History(s) && ShowsRemoval(s) && Destroying(s.stack)
    ensures Shown(s.runs)
  {
    var w, n :| Evidence(s.runs, w, n) && s.runs[w].run.spec.stackGeneration == s.stack.generation;
    forall u ensures OlderAt(s.runs, w, u) { assert ModeAt(s, u); }
    assert Witnessed(s.runs, w, n);
  }

  // -------------------------------------------------------- every pass keeps it

  /** A Removed condition is only repeated, or set where nothing was ever converged. */
  lemma ConditionBacked(s: StackState, status: CondStatus, reason: ReadyReason, remove: bool, renewed: bool, ch: Chance)
    requires Backed(s)
    requires status.IsTrue? && reason.InfrastructureRemoved? ==>
      (SaysRemoved(s.stack.status) && !renewed) || (s.stack.status.lastConverged.None? && renewed)
    ensures Backed(SetCondition(s, status, reason, remove, renewed, ch))
  {
    var t := SetCondition(s, status, reason, remove, renewed, ch);
    assert t.runs == s.runs && t.stack.status.lastConverged == s.stack.status.lastConverged;
  }

  lemma ConcludeBacked(s: StackState, v: Verdict, planName: string, destroy: bool, ch: Chance)
    requires History(s) && VerdictOk(s, v) && (destroy <==> Destroying(s.stack)) && Backed(s)
    requires destroy ==> !SaysRemoved(s.stack.status)
    requires Removal(v) ==> destroy && v.state == s && ShowsRemoval(s)
    ensures Backed(Conclude(v, planName, destroy, ch))
  {
    var st := VerdictStatus(v, planName);
    var written := WithStatus(v.state, st).(outdated := false);
    assert Backed(v.state) by { if v.state != s && !destroy { var u :| CurrentApply(v.state, u); ApplyOutruns(v.state, u); } }
    assert Backed(written) by { if Removal(v) { ShownAtGeneration(s); } }
    if SaysRemoved(st) { ConditionBacked(written, IsTrue, InfrastructureRemoved, true, false, ch); }
  }

  lemma UseBacked(s: StackState, at: Sighting, existing: Option<Sighting>, destroy: bool, ch: Chance)
    requires History(s) && Backed(s) && InRange(s, at) && CurrentPlan(s, at.uid) && (destroy <==> Destroying(s.stack))
    requires destroy ==> !SaysRemoved(s.stack.status)
    requires ApplyOf(s, at.uid, existing) || ReadRun(s, at).status == EmptyStatus
    ensures Backed(UsePlan(s, at, existing, destroy, ch))
  {
    var found := if existing.Some? && InRange(s, existing.value) then existing else None;
    JudgeCurrentOk(s, at, found, destroy, ch);
    ConcludeBacked(s, JudgePlan(s, at, found, destroy, ch), s.runs[at.uid].run.key.name, destroy, ch);
  }

  lemma EnsuredBacked(s: StackState, destroy: bool, latest: Option<Sighting>, spec: Option<RunSpec>, ch: Chance)
    requires History(s) && Backed(s) && SpecFits(s, spec) && (destroy ==> !SaysRemoved(s.stack.status))
    requires latest.Some? ==> InRange(s, latest.value) && CurrentPlan(s, latest.value.uid)
    requires destroy <==> Destroying(s.stack)
    ensures Backed(EnsurePlan(s, latest, spec, ch).state)
  {
    EnsurePlanHarmless(s, latest, spec, ch);
    if !destroy {
      EnsurePlanCarries(s, latest, spec, ch);
      BackedStays(s, EnsurePlan(s, latest, spec, ch).state);
    }
  }

  lemma PlanBacked(s: StackState, destroy: bool, scan: Scan, ch: Chance)
    requires History(s) && Backed(s) && ScanInRange(s, scan) && ScanFits(s, scan.latest, scan.existing)
    requires (destroy <==> Destroying(s.stack)) && (destroy ==> !SaysRemoved(s.stack.status))
    ensures Backed(ReconcilePlan(s, destroy, scan, ch))
  {
    NewPlanFits(s, destroy, ch);
    EnsuredPlanBacked(s, destroy, scan, NewPlanSpec(s, destroy, ch), ch);
  }

  lemma EnsuredPlanBacked(s: StackState, destroy: bool, scan: Scan, spec: Option<RunSpec>, ch: Chance)
    requires History(s) && Backed(s) && ScanInRange(s, scan) && ScanFits(s, scan.latest, scan.existing) && SpecFits(s, spec)
    requires (destroy <==> Destroying(s.stack)) && (destroy ==> !SaysRemoved(s.stack.status))
    ensures var e := EnsurePlan(s, scan.latest, spec, ch);
            Backed(if e.Stop? || !InRange(e.state, e.at) then e.state else UsePlan(e.state, e.at, scan.existing, destroy, ch))
  {
    EnsurePlanHarmless(s, scan.latest, spec, ch);
    EnsuredApply(s, scan.latest, spec, ch);
    var e := EnsurePlan(s, scan.latest, spec, ch);
    EnsuredBacked(s, destroy, scan.latest, spec, ch);
    if e.Use? { UseBacked(e.state, e.at, scan.existing, destroy, ch); }
  }

  lemma DestroyBacked(s: StackState, scan: Scan, ch: Chance)
    requires History(s) && Backed(s) && ScanInRange(s, scan) && ScanFits(s, scan.latest, scan.existing) && Destroying(s.stack)
    ensures Backed(ReconcileDestroy(s, scan, ch))
  {
    var st := s.stack.status;
    if SaysRemoved(st) {
      ConditionBacked(s, IsTrue, InfrastructureRemoved, true, false, ch);
    } else if scan.unsettled {
      ConditionBacked(s, if scan.hold.DeletionHeld? then IsFalse else IsUnknown, scan.hold, false, true, ch);
    } else if st.lastConverged.None? {
      ConditionBacked(s, IsFalse, RecoveryRequired, false, true, ch);
      ConditionBacked(s, IsTrue, InfrastructureRemoved, true, true, ch);
    } else if st.lastConverged.value.snapshot.Undecodable? {
      ConditionBacked(s, IsFalse, RecoveryRequired, false, true, ch);
    } else {
      PlanBacked(s, true, scan, ch);
    }
  }

  lemma ReconcileBacked(s: StackState, scan: Scan, ch: Chance)
    requires History(s) && Backed(s) && ScanInRange(s, scan) && ScanFits(s, scan.latest, scan.existing)
    ensures Backed(ReconcileStack(s, scan, ch))
  {
    if !s.gone && (s.stack.deleting || s.stack.finalizer) {
      if Destroying(s.stack) {
        if s.stack.spec.mutationFence { DestroyBacked(s, scan, ch); }
      } else if s.stack.spec.mutationFence {
        ConditionBacked(s, IsFalse, MutationFence, false, true, ch);
      } else {
        PlanBacked(s, false, scan, ch);
      }
    }
  }

  lemma NextBacked(s: StackState, step: Step)
    requires History(s) && Backed(s)
    ensures Backed(Next(s, step))
  {
    match step
    case Reconciled(lists, scan, ch) =>
      if Reads(s, lists, scan) {
        SightedFits(s, lists, scan);
        ReconcileBacked(s, scan, ch);
      }
    case RunMoved(uid, st) =>
      if Next(s, step) != s {
        AppendCarries(s, uid, st);
        BackedStays(s, Next(s, step));
      }
    case _ =>
  }

  /** Whatever lists show and whichever writes fail, a Removed condition is either outlived by an Apply
      more recent than every Destroy, or, once there was a convergence, backed by evidence. */
  lemma {:induction false} RunBacked(key: Key, uid: string, spec: StackSpec, steps: seq<Step>)
    ensures Backed(After(key, uid, spec, steps))
  {
    if steps != [] {
      RunBacked(key, uid, spec, steps[..|steps| - 1]);
      RunHistoryKept(key, uid, spec, steps[..|steps| - 1]);
      NextBacked(After(key, uid, spec, steps[..|steps| - 1]), steps[|steps| - 1]);
    }
  }

  // ------------------------------------------- when a release is right, exactly

  /** A Removed condition is to be trusted when no Apply was ever admitted or, with a recent Destroy on
      record, when every Apply is settled. */
  ghost predicate WordHolds(s: StackState) {
    if exists w :: Recent(s.runs, w) then forall u | IsApply(s.runs, u) :: Concluded(Latest(s.runs[u]))
    else forall u | IsApply(s.runs, u) :: Unstarted(Latest(s.runs[u]))
  }

  /** The condition says that the infrastructure is removed. */
  predicate IsWord(st: StackStatus) {
    match st.ready
    case Some(Condition(IsTrue, InfrastructureRemoved, _)) => true
    case _ => false
  }

  lemma WordExactly(s: StackState)
    ensures IsWord(s.stack.status) <==> SaysRemoved(s.stack.status)
    ensures WordHolds(s) <==> if exists w :: Recent(s.runs, w) then AllSettled(s) else NoneAdmitted(s)
  {
    forall u ensures SettledAt(s.runs, u) <==> (IsApply(s.runs, u) ==> Concluded(Latest(s.runs[u]))) { }
    forall u ensures NeverAdmittedAt(s.runs, u) <==> (IsApply(s.runs, u) ==> Unstarted(Latest(s.runs[u]))) { }
  }

  /** When a release is right. On the word of the condition: when that is to be trusted. On what the scans
      found: when the Applies that the list left out were never admitted, or are settled. */
  ghost predicate RightToRelease(s: StackState, listed: Runs) {
    if IsWord(s.stack.status) then WordHolds(s)
    else if s.stack.status.lastConverged.None? then forall u | Misses(s, listed, u) :: Unstarted(Latest(s.runs[u]))
    else forall u | Misses(s, listed, u) :: Concluded(Latest(s.runs[u]))
  }

  lemma NeverAdmittedIsSettled(s: StackState)
    ensures NoneAdmitted(s) ==> AllSettled(s)
  {
    if NoneAdmitted(s) { forall u ensures SettledAt(s.runs, u) { assert NeverAdmittedAt(s.runs, u); } }
  }

  /** Without a recorded convergence there is no Destroy run, and no evidence of one. */
  lemma NothingToShow(s: StackState)
    requires History(s) && s.stack.status.lastConverged.None?
    ensures !Shown(s.runs) && forall w :: !Recent(s.runs, w)
  {
    forall w ensures !Recent(s.runs, w) { assert ClosureAt(s, w); }
    forall w, n ensures !Witnessed(s.runs, w, n) { assert ClosureAt(s, w); }
  }

  /** Beside a Removed condition, a recent Destroy is as good as evidence, and nothing else is. */
  lemma RemovedTells(s: StackState)
    requires History(s) && Backed(s) && SaysRemoved(s.stack.status)
    ensures Shown(s.runs) <==> exists w :: Recent(s.runs, w)
  {
    if w, n :| Witnessed(s.runs, w, n) { assert Recent(s.runs, w); }
    if s.stack.status.lastConverged.None? { NothingToShow(s); }
  }

  lemma WordDecides(s: StackState)
    requires History(s) && Backed(s) && SaysRemoved(s.stack.status)
    ensures Clean(s.runs) <==> WordHolds(s)
  {
    WordExactly(s);
    NeverAdmittedIsSettled(s);
    RemovedTells(s);
    assert Clean(s.runs) <==> AllSettled(s) && (NoneAdmitted(s) || Shown(s.runs));
  }

  lemma MissedExactly(s: StackState, listed: Runs)
    ensures (forall u | Misses(s, listed, u) :: Settled(Latest(s.runs[u]))) <==> forall u | Misses(s, listed, u) :: Concluded(Latest(s.runs[u]))
    ensures (forall u | Misses(s, listed, u) :: NeverAdmitted(Latest(s.runs[u]))) <==> forall u | Misses(s, listed, u) :: Unstarted(Latest(s.runs[u]))
  {
    forall u | Misses(s, listed, u) ensures Settled(Latest(s.runs[u])) <==> Concluded(Latest(s.runs[u])) { }
    forall u | Misses(s, listed, u) ensures NeverAdmitted(Latest(s.runs[u])) <==> Unstarted(Latest(s.runs[u])) { }
  }

  lemma ScanDecides(s: StackState, lists: Lists, scan: Scan)
    requires History(s) && Reads(s, lists, scan) && Grounds(s, scan) && Destroying(s.stack) && !SaysRemoved(s.stack.status)
    ensures Clean(s.runs) <==>
      if s.stack.status.lastConverged.None? then forall u | Misses(s, lists.settling, u) :: NeverAdmitted(Latest(s.runs[u]))
      else forall u | Misses(s, lists.settling, u) :: Settled(Latest(s.runs[u]))
  {
    NeverAdmittedIsSettled(s);
    ListTellsSettled(s, lists.settling);
    assert Clean(s.runs) <==> AllSettled(s) && (NoneAdmitted(s) || Shown(s.runs));
    if s.stack.status.lastConverged.None? {
      ListTellsAdmitted(s, lists.settling);
      NothingToShow(s);
    } else {
      ShownAtGeneration(s);
    }
  }

  lemma GroundsDecide(s: StackState, lists: Lists, scan: Scan)
    requires History(s) && Backed(s) && Reads(s, lists, scan) && Grounds(s, scan) && Destroying(s.stack)
    ensures Clean(s.runs) <==> RightToRelease(s, lists.settling)
  {
    WordExactly(s);
    MissedExactly(s, lists.settling);
    if SaysRemoved(s.stack.status) { WordDecides(s); } else { ScanDecides(s, lists, scan); }
  }

  /** In every reachable state, whatever the lists show: a release leaves no Apply unsettled, and none
      admitted without evidence that the infrastructure is gone, exactly when it is right. */
  lemma ReleaseIsRightExactly(key: Key, uid: string, spec: StackSpec, steps: seq<Step>, step: Step)
    requires var s := After(key, uid, spec, steps); Releases(s, Next(s, step))
    ensures step.Reconciled?
    ensures var s := After(key, uid, spec, steps); Clean(Next(s, step).runs) <==> RightToRelease(s, step.lists.settling)
  {
    var s := After(key, uid, spec, steps);
    RunHistoryKept(key, uid, spec, steps);
    RunBacked(key, uid, spec, steps);
    if step.Reconciled? {
      ReleaseHasGrounds(s, step.lists, step.scan, step.ch);
      GroundsDecide(s, step.lists, step.scan);
    }
  }

  /** With a list that leaves nothing out, only the word of the condition can be wrong. */
  lemma ReleaseWithFullList(key: Key, uid: string, spec: StackSpec, steps: seq<Step>, step: Step)
    requires var s := After(key, uid, spec, steps); Releases(s, Next(s, step))
    requires step.Reconciled? ==> var s := After(key, uid, spec, steps); forall u :: !Misses(s, step.lists.settling, u)
    ensures var s := After(key, uid, spec, steps); Clean(Next(s, step).runs) <==> !IsWord(s.stack.status) || WordHolds(s)
  {
    ReleaseIsRightExactly(key, uid, spec, steps, step);
  }

  /** Not even a Destroy Plan, and no release but on the word of the condition, comes of a pass whose list
      shows an Apply with any other outcome: without one, Pending, Running, Indeterminate, or Failed
      when something may have changed. */
  lemma OpenApplyHolds(key: Key, uid: string, spec: StackSpec, steps: seq<Step>, step: Step, u: string)
    requires step.Reconciled? && IsApply(step.lists.settling, u) && !Concluded(Latest(step.lists.settling[u]))
    ensures var s := After(key, uid, spec, steps);
      && (forall plan :: !MakesPlan(s, Next(s, step), plan))
      && (Releases(s, Next(s, step)) ==> IsWord(s.stack.status))
  {
    var s := After(key, uid, spec, steps);
    RunHistoryKept(key, uid, spec, steps);
    assert !SettledAt(step.lists.settling, u);
    forall plan ensures !MakesPlan(s, Next(s, step), plan) {
      if MakesPlan(s, Next(s, step), plan) { DestroyPlanWaits(s, step, plan); }
    }
    if Releases(s, Next(s, step)) {
      ReleaseHasGrounds(s, step.lists, step.scan, step.ch);
      WordExactly(s);
    }
  }

  /** While no Destroy pass is shown a list that leaves an Apply out, a release is right exactly when
      the condition it trusts has not been outlived by an Apply, or no Apply was ever admitted. */
  lemma FinalizerSafetyExactly(key: Key, uid: string, spec: StackSpec, steps: seq<Step>, step: Step)
    requires AttentiveRun(key, uid, spec, steps)
    requires var s := After(key, uid, spec, steps); Attentive(s, step) && Releases(s, Next(s, step))
    ensures var s := After(key, uid, spec, steps); Clean(Next(s, step).runs) <==> !TrustsOutdated(s) || forall u | IsApply(s.runs, u) :: Unstarted(Latest(s.runs[u]))
  {
    var s := After(key, uid, spec, steps);
    FinalizerSafety(key, uid, spec, steps, step);
    RunBacked(key, uid, spec, steps);
    ReleaseIsRightExactly(key, uid, spec, steps, step);
  }
}
