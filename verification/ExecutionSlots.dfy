/** Execution slots: every unfinished Job is accounted for by the gate, restarts included.

    The property needs two things of a run of the machine: a reconciliation that asks for a
    slot must not have read its run from before a recorded intent, and a Create that is
    reported as failed must not have been executed, nor be executed later. Both are needed:
    see `OutdatedReadLosesSlot` and `CoverageIsLostExactly` of SlotCoverage. This module has the
    invariant and the steps that keep it. */
module ExecutionSlots {
  import opened Api
  import opened RunHistory
  import opened Execution
  import opened ExecutionSafety
  import opened JobRecords
  import Admission
  import Capture
  import Gate = ExecutionGate
  import GateRuns

  // ---------------------------------------------------------- what is running

  predicate InFlight(s: State, u: string) { u in s.requests && s.requests[u].Flying? }

  predicate Pending(s: State, u: string) { JobRunning(s, u) || InFlight(s, u) }

  /** Slot coverage: a gate that admits work accounts for every unfinished Job. */
  ghost predicate Covered(s: State) {
    s.gate.ready ==> forall k | k in s.jobs && !s.jobs[k].finished :: s.jobs[k].labelUid in s.gate.active
  }

  function StackOf(s: State, u: string): string
    requires u in s.runs
  {
    ItemOf(s.runs[u].run).stack
  }

  predicate IsApply(s: State, u: string) { u in s.runs && s.runs[u].run.spec.operation.Apply? }

  // -------------------------------------------------------------- hypotheses

  /** The reconciliation read a version older than an intent that is on record by now. */
  predicate Outdated(s: State, uid: string, seen: nat) {
    OpensFresh(s, uid, seen) && Latest(s.runs[uid]).jobRef.Some?
  }

  predicate Careful(s: State, step: Step) {
    match step
    case World(change) => !change.ForeignJob?
    case Opened(uid, seen, opening) => opening.AskedSlot? ==> !Outdated(s, uid, seen)
    case Continued(uid, next) => next.CreateFailed? && AtSending(s, uid) ==> !HasMadeJob(s, uid)
    case ExecutedCreate(uid, _) => uid in s.requests ==> !s.requests[uid].Abandoned?
    case _ => true
  }

  ghost predicate CarefulRun(c: Config, steps: seq<Step>) {
    steps == [] || (CarefulRun(c, steps[..|steps| - 1]) && Careful(After(c, steps[..|steps| - 1]), steps[|steps| - 1]))
  }

  // --------------------------------------------------------------- invariant

  predicate GateOk(s: State) {
    && s.gate.shadow == [] && !s.gate.violation
    && (!s.gate.ready ==> s.progress == map[] && s.gate.active == map[])
  }

  /** A slot is held by a run, with the run's own item. */
  predicate HeldOk(s: State, u: string) {
    u in s.gate.active ==> u in s.runs && s.gate.active[u] == ItemOf(s.runs[u].run)
  }

  predicate RunOk(s: State, u: string) {
    && HeldOk(s, u)
    && (s.gate.ready && (u in s.progress || Pending(s, u)) ==> u in s.gate.active)
    && (u in s.progress && (s.progress[u].Admitted? || s.progress[u].Cleared?) && u in s.runs && s.runs[u].versions != [] ==>
          Latest(s.runs[u]).jobRef.None?)
  }

  predicate ApartOk(s: State, u: string, v: string) {
    (&& u != v && IsApply(s, u) && IsApply(s, v)
     && ((Pending(s, u) && Pending(s, v)) || (u in s.gate.active && v in s.gate.active)))
    ==> StackOf(s, u) != StackOf(s, v)
  }

  ghost predicate Slots(s: State) {
    && GateOk(s) && JobsOk(s)
    && (forall u :: RunOk(s, u)) && (forall u, v :: ApartOk(s, u, v))
  }

  // ----------------------------------------------------- elementary changes

  /** Nothing that matters to the slots changed, except that reconciliations may have ended. */
  lemma ForgetSlots(s: State, t: State)
    requires Slots(s)
    requires t.runs == s.runs && t.jobs == s.jobs && t.observed == s.observed && t.gate == s.gate && t.requests == s.requests
    requires t.created == s.created
    requires forall u | u in t.progress :: u in s.progress && t.progress[u] == s.progress[u]
    ensures Slots(t)
  {
    JobsStay(s, t);
    forall u ensures RunOk(t, u) { assert RunOk(s, u); }
    forall u, v ensures ApartOk(t, u, v) { assert ApartOk(s, u, v); }
  }

  /** Whether a reconciliation that holds a slot without an intent stays one. */
  predicate KeepsIntent(s: State, uid: string, st: RunStatus)
    requires uid in s.runs
  {
    uid !in s.progress || (s.runs[uid].versions != [] && st.jobRef == Latest(s.runs[uid]).jobRef)
  }

  lemma AppendSlots(s: State, uid: string, st: RunStatus)
    requires Slots(s) && uid in s.runs && KeepsIntent(s, uid, st)
    requires forall j :: KnowsJob(s, uid, st, j)
    ensures Slots(Append(s, uid, st))
  {
    var t := Append(s, uid, st);
    AppendJobs(s, uid, st);
    forall u ensures RunOk(t, u) { AppendKeepsRun(s, uid, st, u); }
    forall u, v ensures ApartOk(t, u, v) { assert ApartOk(s, u, v); }
  }

  lemma AppendKeepsRun(s: State, uid: string, st: RunStatus, u: string)
    requires RunOk(s, u) && uid in s.runs && KeepsIntent(s, uid, st)
    ensures RunOk(Append(s, uid, st), u)
  {
  }

  lemma UpdateSlots(s: State, uid: string, seen: nat, st: RunStatus, w: Write)
    requires Slots(s) && uid in s.runs && uid !in s.progress
    requires forall j :: KnowsJob(s, uid, st, j)
    ensures Slots(Update(s, uid, seen, st, w))
  {
    AppendSlots(s, uid, st);
  }

  /** A slot may be given back once nothing is under way for it. */
  lemma ReleaseSlots(s: State, uid: string)
    requires Slots(s) && uid in s.runs && s.runs[uid].run.uid == uid != ""
    requires uid !in s.progress && !Pending(s, uid)
    ensures Slots(ReleaseSlot(s, uid))
  {
    var t := ReleaseSlot(s, uid);
    JobsStay(s, t);
    forall u ensures RunOk(t, u) { assert RunOk(s, u); }
    forall u, v ensures ApartOk(t, u, v) { assert ApartOk(s, u, v); }
  }

  lemma FreeStack(v: Gate.View, stack: string, id: string)
    requires Gate.Count(Gate.OnStack(stack), v) == 0 && id in v.active
    ensures !(v.active[id].kind.Apply? && v.active[id].stack == stack)
  {
    assert Gate.MatchingIds(Gate.OnStack(stack), v.active) == {};
    assert id !in Gate.MatchingIds(Gate.OnStack(stack), v.active);
  }

  lemma AdmitSlots(s: State, uid: string)
    requires Slots(s) && uid in s.runs && s.runs[uid].run.uid == uid != ""
    requires Gate.Grants(s.gate, ItemOf(s.runs[uid].run))
    ensures var t := s.(gate := Gate.Admit(s.gate, ItemOf(s.runs[uid].run)));
            Slots(t) && uid in t.gate.active && t.gate.ready
  {
    var item := ItemOf(s.runs[uid].run);
    var t := s.(gate := Gate.Admit(s.gate, item));
    JobsStay(s, t);
    forall u ensures RunOk(t, u) { assert RunOk(s, u); }
    forall u, v ensures ApartOk(t, u, v) {
      assert ApartOk(s, u, v) && RunOk(s, u) && RunOk(s, v);
      if item.id !in s.gate.active && item.kind.Apply? {
        if u in s.gate.active { FreeStack(s.gate, item.stack, u); }
        if v in s.gate.active { FreeStack(s.gate, item.stack, v); }
      }
    }
  }

  lemma AdvanceSlots(s: State, uid: string, p: Progress)
    requires Slots(s) && uid in s.gate.active && s.gate.ready && uid in s.runs && s.runs[uid].versions != []
    requires p.Admitted? || p.Cleared? ==> Latest(s.runs[uid]).jobRef.None?
    requires p.Started? ==> p.job in s.created && p.job.labelUid == uid
    ensures Slots(s.(progress := s.progress[uid := p]))
  {
    var t := s.(progress := s.progress[uid := p]);
    JobsStay(s, t);
    forall u ensures RunOk(t, u) { assert RunOk(s, u); }
    forall u, v ensures ApartOk(t, u, v) { assert ApartOk(s, u, v); }
  }

  // ------------------------------------------------------------------- world

  lemma NewRunIsApart(s: State, run: TerraformRun, u: string, v: string)
    requires Slots(s) && Inv(s) && run.uid != "" && run.uid !in s.runs && !KeyTaken(s, run.key)
    ensures ApartOk(CreateRun(s, run), u, v)
  {
    assert ApartOk(s, u, v) && RunOk(s, u) && RunOk(s, v);
    NewRunIsIdle(s, run, u);
    NewRunIsIdle(s, run, v);
  }

  lemma CreateRunSlots(s: State, run: TerraformRun)
    requires Slots(s) && Inv(s)
    ensures Slots(CreateRun(s, run))
  {
    if run.uid != "" && run.uid !in s.runs && !KeyTaken(s, run.key) {
      var t := CreateRun(s, run);
      assert RequestAt(s, run.uid);
      CreateRunJobs(s, run);
      forall u ensures RunOk(t, u) { NewRunIsIdle(s, run, u); }
      forall u, v ensures ApartOk(t, u, v) { NewRunIsApart(s, run, u, v); }
    }
  }

  lemma JobTakesKey(s: State, key: Key)
    requires Slots(s)
    ensures key in s.jobs ==> KeyTaken(s, key)
  {
    if key in s.jobs {
      assert KeyOk(s, key) && JobOk(s, s.jobs[key]);
    }
  }

  lemma NewRunIsIdle(s: State, run: TerraformRun, u: string)
    requires Slots(s) && Inv(s) && run.uid != "" && run.uid !in s.runs && !KeyTaken(s, run.key)
    ensures Pending(CreateRun(s, run), u) ==> Pending(s, u) && u != run.uid
    ensures RunOk(CreateRun(s, run), u)
  {
    assert RunOk(s, u) && RequestAt(s, u) && ProgressAt(s, u);
    JobTakesKey(s, run.key);
  }

  lemma EndJobSlots(s: State, key: Key)
    requires Slots(s)
    ensures Slots(EndJob(s, key))
  {
    if key in s.jobs {
      var t, was := EndJob(s, key), s.jobs[key];
      assert KeyOk(s, key) && JobOk(s, was);
      EndJobJobs(s, key);
      forall u ensures RunOk(t, u) { assert RunOk(s, u); }
      forall u, v ensures ApartOk(t, u, v) { assert ApartOk(s, u, v); }
    }
  }

  lemma VanishSlots(s: State, key: Key)
    requires Slots(s)
    ensures Slots(s.(jobs := s.jobs - {key}))
  {
    var t := s.(jobs := s.jobs - {key});
    VanishJobs(s, key);
    forall u ensures RunOk(t, u) { assert RunOk(s, u); }
    forall u, v ensures ApartOk(t, u, v) { assert ApartOk(s, u, v); }
  }

  lemma SupersedeSlots(s: State, uid: string)
    requires Slots(s)
    ensures Slots(SupersedePlan(s, uid))
  {
    if uid in s.runs && s.runs[uid].versions != [] {
      var st := Latest(s.runs[uid]).(outcome := Superseded, ready := false);
      KeptJob(s, uid, |s.runs[uid].versions| - 1, st);
      AppendSlots(s, uid, st);
    }
  }

  lemma WorldSlots(s: State, change: WorldStep)
    requires Slots(s) && Inv(s) && !change.ForeignJob?
    ensures Slots(NextWorld(s, change))
  {
    match change
    case CreatedRun(run) => CreateRunSlots(s, run);
    case SupersededPlan(uid) => SupersedeSlots(s, uid);
    case JobEnds(key) => EndJobSlots(s, key);
    case JobVanishes(key) => VanishSlots(s, key);
    case _ => ForgetSlots(s, NextWorld(s, change));
  }

  // ------------------------------------------------------------- reconciling

  lemma OutcomeSlots(s: State, uid: string, seen: nat, outcome: Outcome, w: Write)
    requires Slots(s) && uid in s.runs && seen < |s.runs[uid].versions| && uid !in s.progress
    ensures Slots(Update(s, uid, seen, s.runs[uid].versions[seen].(outcome := outcome, ready := false), w))
  {
    var st := s.runs[uid].versions[seen].(outcome := outcome, ready := false);
    KeptJob(s, uid, seen, st);
    UpdateSlots(s, uid, seen, st, w);
  }

  lemma CaptureSlots(s: State, uid: string, seen: nat, job: Option<string>, down: set<string>, w: Write)
    requires Slots(s) && Opens(s, uid, seen)
    ensures Slots(Update(s, uid, seen, Capture.Recorded(ReadAt(s.runs[uid], seen), s.bucket, job, down), w))
  {
    var run := ReadAt(s.runs[uid], seen);
    Capture.RecordedKeepsJob(run, s.bucket, job, down);
    KeptJob(s, uid, seen, Capture.Recorded(run, s.bucket, job, down));
    UpdateSlots(s, uid, seen, Capture.Recorded(run, s.bucket, job, down), w);
  }

  lemma AskSlotSlots(s: State, uid: string, seen: nat, w: Write)
    requires Slots(s) && Inv(s) && !Outdated(s, uid, seen)
    ensures Slots(AskSlot(s, uid, seen, w))
  {
    if OpensFresh(s, uid, seen) {
      VersionKnown(s, uid, seen);
      if Gate.Grants(s.gate, ItemOf(ReadAt(s.runs[uid], seen))) {
        AdmitSlots(s, uid);
        AdvanceSlots(s.(gate := Gate.Admit(s.gate, ItemOf(s.runs[uid].run))), uid, Admitted(seen));
      } else {
        OutcomeSlots(s, uid, seen, Api.Pending, w);
      }
    }
  }

  /** A finished Job that was found is this run's, so nothing of it is under way. */
  lemma FinishedIsIdle(s: State, uid: string, job: Job)
    requires Slots(s) && uid in s.runs && job in s.observed && job.labelUid == uid && job.finished
    ensures !Pending(s, uid)
  {
    assert JobOk(s, job);
  }

  lemma ObserveFinishedSlots(s: State, uid: string, seen: nat, st: RunStatus, w: Write)
    requires Slots(s) && Opens(s, uid, seen) && !Pending(s, uid) && s.runs[uid].run.uid == uid != ""
    requires forall j :: KnowsJob(s, uid, st, j)
    ensures Slots(ObserveFinished(s, uid, seen, st, w))
  {
    UpdateSlots(s, uid, seen, st, w);
    var written := Update(s, uid, seen, st, w);
    assert !Pending(written, uid);
    ReleaseSlots(written, uid);
  }

  lemma ObserveActiveSlots(s: State, uid: string, seen: nat, active: bool, w: Write)
    requires Slots(s) && Inv(s) && Opens(s, uid, seen)
    ensures Slots(ObserveActive(s, uid, seen, active, w))
  {
    VersionKnown(s, uid, seen);
    if Gate.Grants(s.gate, ItemOf(ReadAt(s.runs[uid], seen))) {
      AdmitSlots(s, uid);
      OutcomeSlots(s.(gate := Gate.Admit(s.gate, ItemOf(s.runs[uid].run))), uid, seen, if active then Api.Running else Api.Pending, w);
    } else {
      OutcomeSlots(s, uid, seen, Api.Pending, w);
    }
  }

  lemma ObserveSlots(s: State, uid: string, seen: nat, found: Option<Job>, active: bool, down: set<string>, w: Write)
    requires Slots(s) && Inv(s)
    ensures Slots(ObserveJob(s, uid, seen, found, active, down, w))
  {
    if Opens(s, uid, seen) {
      var run := ReadAt(s.runs[uid], seen);
      VersionKnown(s, uid, seen);
      if found.None? || JobIdentity(run, found.value).Fail? {
        OutcomeSlots(s, uid, seen, Indeterminate, w);
      } else if found.value.finished {
        if found.value in s.observed {
          FinishedIsIdle(s, uid, found.value);
          Capture.RecordedKeepsJob(run, s.bucket, Some(found.value.uid), down);
          KeptJob(s, uid, seen, Capture.Recorded(run, s.bucket, Some(found.value.uid), down));
          ObserveFinishedSlots(s, uid, seen, Capture.Recorded(run, s.bucket, Some(found.value.uid), down), w);
        }
      } else {
        ObserveActiveSlots(s, uid, seen, active, w);
      }
    }
  }

  lemma OpeningSlots(s: State, uid: string, seen: nat, opening: Opening)
    requires Slots(s) && Inv(s) && (opening.AskedSlot? ==> !Outdated(s, uid, seen))
    ensures Slots(NextOpening(s, uid, seen, opening))
  {
    match opening
    case RejectedAtOnce(w) =>
      if uid in s.runs && seen < |s.runs[uid].versions| && uid !in s.progress { OutcomeSlots(s, uid, seen, Rejected, w); }
    case CapturedEarly(down, w) => if OpensFresh(s, uid, seen) { CaptureSlots(s, uid, seen, None, down, w); }
    case AskedSlot(w) => AskSlotSlots(s, uid, seen, w);
    case ObservedJob(found, active, down, w) => ObserveSlots(s, uid, seen, found, active, down, w);
  }

  /** While the run has no recorded intent nothing of it is under way. */
  lemma UnrecordedIsIdle(s: State, uid: string)
    requires Slots(s) && Inv(s) && At(s, uid) && (s.progress[uid].Admitted? || s.progress[uid].Cleared?)
    ensures uid !in s.requests && !Pending(s, uid) && s.runs[uid].run.uid == uid != ""
    ensures Latest(s.runs[uid]).jobRef.None? && s.gate.ready && uid in s.gate.active
  {
    VersionKnown(s, uid, s.progress[uid].seen);
    assert RunOk(s, uid) && RequestAt(s, uid);
    RunningIsMade(s, uid);
  }

  lemma AbortSlots(s: State, uid: string, reject: bool, w: Write)
    requires Slots(s) && Inv(s) && At(s, uid) && (s.progress[uid].Admitted? || s.progress[uid].Cleared?)
    ensures Slots(Abort(s, uid, reject, w))
  {
    var seen := s.progress[uid].seen;
    UnrecordedIsIdle(s, uid);
    ForgetSlots(s, Leave(s, uid));
    assert !Pending(Leave(s, uid), uid);
    ReleaseSlots(Leave(s, uid), uid);
    OutcomeSlots(ReleaseSlot(Leave(s, uid), uid), uid, seen, Rejected, w);
  }

  lemma ValidateSlots(c: Config, s: State, uid: string, r: Admission.Reads, w: Write)
    requires Slots(s) && Inv(s)
    ensures Slots(Validate(c, s, uid, r, w))
  {
    if AtAdmitted(s, uid) {
      UnrecordedIsIdle(s, uid);
      if !IsApply(s, uid) {
        AdvanceSlots(s, uid, Cleared(s.progress[uid].seen, None));
      } else {
        DecideSlots(s, uid, r, Admission.ValidateApplyApproval(c.names, s.runs[uid].run, r).Pass?, w);
      }
    }
  }

  lemma DecideSlots(s: State, uid: string, r: Admission.Reads, passes: bool, w: Write)
    requires Slots(s) && Inv(s) && AtAdmitted(s, uid)
    ensures Slots(Decide(s, uid, r, passes, w))
  {
    if passes {
      var seen := s.progress[uid].seen;
      UnrecordedIsIdle(s, uid);
      AdvanceSlots(s, uid, Cleared(seen, Some(r)));
      ForgetSlots(s.(progress := s.progress[uid := Cleared(seen, Some(r))]), Decide(s, uid, r, true, w));
    } else {
      AbortSlots(s, uid, true, w);
    }
  }

  lemma FindJobSlots(s: State, uid: string, job: Job, w: Write)
    requires Slots(s) && Inv(s)
    ensures Slots(FindJob(s, uid, job, w))
  {
    if AtCleared(s, uid) && job in s.observed {
      var seen, t := s.progress[uid].seen, Leave(s, uid);
      VersionKnown(s, uid, seen);
      ForgetSlots(s, t);
      if JobIdentity(ReadAt(s.runs[uid], seen), job).Fail? {
        OutcomeSlots(t, uid, seen, Indeterminate, w);
      } else {
        FoundJob(t, uid, seen, job);
        UpdateSlots(t, uid, seen, JobStarted(s.runs[uid].versions[seen], s.runs[uid].run.key.name, job), w);
      }
    }
  }

  lemma IntentSlots(s: State, uid: string, w: Write)
    requires Slots(s) && Inv(s) && AtCleared(s, uid)
    ensures var p, r, t := s.progress[uid], s.runs[uid], Leave(s, uid);
            var stored := Update(t, uid, p.seen, r.versions[p.seen].(jobRef := Some(r.run.key.name)), w);
            && Slots(stored) && !Pending(stored, uid) && stored.gate == s.gate
            && r.run.uid == uid != "" && s.gate.ready && uid in s.gate.active
  {
    var p, r, t := s.progress[uid], s.runs[uid], Leave(s, uid);
    var st := r.versions[p.seen].(jobRef := Some(r.run.key.name));
    UnrecordedIsIdle(s, uid);
    ForgetSlots(s, t);
    KeptJob(t, uid, p.seen, st);
    UpdateSlots(t, uid, p.seen, st, w);
  }

  lemma PersistIntentSlots(s: State, uid: string, w: Write)
    requires Slots(s) && Inv(s)
    ensures Slots(PersistIntent(s, uid, w))
  {
    if AtCleared(s, uid) && !w.Skipped? {
      var p, r := s.progress[uid], s.runs[uid];
      var stored := Update(Leave(s, uid), uid, p.seen, r.versions[p.seen].(jobRef := Some(r.run.key.name)), w);
      IntentSlots(s, uid, w);
      if w.Answered? && Takes(r, p.seen, w) {
        AdvanceSlots(stored, uid, Intended(p.seen + 1, p.basis));
        assert PersistIntent(s, uid, w).progress == stored.progress[uid := Intended(p.seen + 1, p.basis)];
      } else {
        ReleaseSlots(stored, uid);
      }
    }
  }

  lemma SendKeepsRun(s: State, uid: string, u: string)
    requires Slots(s) && At(s, uid) && s.progress[uid].Intended?
    ensures RunOk(SendCreate(s, uid), u)
    ensures Pending(SendCreate(s, uid), u) ==> Pending(s, u) || (u == uid && u in s.gate.active)
  {
    assert RunOk(s, u) && RunOk(s, uid);
  }

  lemma SendCreateSlots(s: State, uid: string)
    requires Slots(s) && Inv(s)
    ensures Slots(SendCreate(s, uid))
  {
    if At(s, uid) && s.progress[uid].Intended? {
      var t := SendCreate(s, uid);
      VersionKnown(s, uid, s.progress[uid].seen);
      assert RunOk(s, uid);
      JobsStay(s, t);
      forall u ensures RunOk(t, u) { SendKeepsRun(s, uid, u); }
      forall u, v ensures ApartOk(t, u, v) {
        assert ApartOk(s, u, v) && RunOk(s, u) && RunOk(s, v);
        SendKeepsRun(s, uid, u);
        SendKeepsRun(s, uid, v);
      }
    }
  }

  /** Who is pending after a Job was made. */
  lemma ExecutedRunOk(s: State, uid: string, jobUid: string, u: string)
    requires Slots(s) && InFlight(s, uid) && uid in s.runs && jobUid != ""
    ensures RunOk(ExecuteCreate(s, uid, jobUid), u)
    ensures Pending(ExecuteCreate(s, uid, jobUid), u) ==> Pending(s, u)
  {
    assert RunOk(s, u);
  }

  lemma ExecutedApartOk(s: State, uid: string, jobUid: string, u: string, v: string)
    requires Slots(s) && InFlight(s, uid) && uid in s.runs && jobUid != ""
    ensures ApartOk(ExecuteCreate(s, uid, jobUid), u, v)
  {
    assert ApartOk(s, u, v);
  }

  lemma ExecuteCreateSlots(s: State, uid: string, jobUid: string)
    requires Slots(s) && Inv(s) && (uid in s.requests ==> !s.requests[uid].Abandoned?)
    ensures Slots(ExecuteCreate(s, uid, jobUid))
  {
    if uid in s.requests && !s.requests[uid].Executed? && uid in s.runs && jobUid != "" {
      var t := ExecuteCreate(s, uid, jobUid);
      assert InFlight(s, uid);
      ExecuteCreateJobs(s, uid, jobUid);
      forall u ensures RunOk(t, u) { ExecutedRunOk(s, uid, jobUid, u); }
      forall u, v ensures ApartOk(t, u, v) { ExecutedApartOk(s, uid, jobUid, u, v); }
    }
  }

  lemma CreateReturnsSlots(s: State, uid: string, job: Job)
    requires Slots(s) && Inv(s)
    ensures Slots(CreateReturns(s, uid, job))
  {
    if AtSending(s, uid) && job in s.created && job.labelUid == uid {
      VersionKnown(s, uid, s.progress[uid].seen);
      assert RunOk(s, uid);
      AdvanceSlots(s, uid, Started(s.progress[uid].seen, job));
    }
  }

  lemma CreateFailsSlots(s: State, uid: string)
    requires Slots(s) && Inv(s) && (AtSending(s, uid) ==> !HasMadeJob(s, uid))
    ensures Slots(CreateFails(s, uid))
  {
    if AtSending(s, uid) {
      VersionKnown(s, uid, s.progress[uid].seen);
      var t := Leave(s, uid).(requests := s.requests[uid := Abandoned]);
      JobsStay(s, t);
      forall u ensures RunOk(t, u) { assert RunOk(s, u); }
      forall u, v ensures ApartOk(t, u, v) { assert ApartOk(s, u, v); }
      RunningIsMade(s, uid);
      ReleaseSlots(t, uid);
    }
  }

  lemma RecordStartSlots(s: State, uid: string, w: Write)
    requires Slots(s) && Inv(s)
    ensures Slots(RecordStart(s, uid, w))
  {
    if At(s, uid) && s.progress[uid].Started? {
      var p, t := s.progress[uid], Leave(s, uid);
      assert RunOk(s, uid) && StartedOwn(s, uid);
      ForgetSlots(s, t);
      FoundJob(t, uid, p.seen, p.job);
      UpdateSlots(t, uid, p.seen, JobStarted(s.runs[uid].versions[p.seen], s.runs[uid].run.key.name, p.job), w);
    }
  }

  lemma ContinuationSlots(c: Config, s: State, uid: string, next: Continuation)
    requires Slots(s) && Inv(s)
    requires next.CreateFailed? && AtSending(s, uid) ==> !HasMadeJob(s, uid)
    ensures Slots(NextContinuation(c, s, uid, next))
  {
    match next
    case Validated(basis, w) => ValidateSlots(c, s, uid, basis, w);
    case JobRefused(w) => if AtCleared(s, uid) { AbortSlots(s, uid, true, w); }
    case LookupFailed => if AtCleared(s, uid) { AbortSlots(s, uid, false, Refused); }
    case JobFound(job, w) => FindJobSlots(s, uid, job, w);
    case PersistedIntent(w) => PersistIntentSlots(s, uid, w);
    case SentCreate => SendCreateSlots(s, uid);
    case CreateReturned(job) => CreateReturnsSlots(s, uid, job);
    case CreateFailed => CreateFailsSlots(s, uid);
    case RecordedStart(w) => RecordStartSlots(s, uid, w);
  }

  lemma CrashSlots(c: Config, s: State)
    requires Slots(s)
    ensures Slots(Crash(c, s))
  {
    var t := Crash(c, s);
    JobsStay(s, t);
    forall u ensures RunOk(t, u) { assert RunOk(s, u); }
    forall u, v ensures ApartOk(t, u, v) { assert ApartOk(s, u, v); }
  }
}
