/** Slot coverage over whole runs, and exactly when one step loses it. */
module SlotCoverage {
  import opened Api
  import opened RunHistory
  import opened Execution
  import opened ExecutionSafety
  import opened JobRecords
  import opened ExecutionSlots
  import opened SlotReconstruction
  import Admission
  import Capture
  import Gate = ExecutionGate

  lemma NextSlots(c: Config, s: State, step: Step)
    requires Slots(s) && Inv(s) && Careful(s, step)
    ensures Slots(Next(c, s, step))
  {
    match step
    case World(change) => WorldSlots(s, change);
    case Opened(uid, seen, opening) => OpeningSlots(s, uid, seen, opening);
    case Continued(uid, next) => ContinuationSlots(c, s, uid, next);
    case ExecutedCreate(uid, jobUid) => ExecuteCreateSlots(s, uid, jobUid);
    case Crashed => CrashSlots(c, s);
    case Reconstructed(order) => ReconstructSlots(s, order);
  }

  lemma {:induction false} CarefulRunKeeps(c: Config, steps: seq<Step>)
    requires CarefulRun(c, steps)
    ensures Slots(After(c, steps))
  {
    if steps != [] {
      var front, last := steps[..|steps| - 1], steps[|steps| - 1];
      CarefulRunKeeps(c, front);
      RunKeeps(c, front);
      NextSlots(c, After(c, front), last);
    }
  }

  lemma SlotsCover(s: State)
    requires Slots(s)
    ensures Covered(s)
  {
    if s.gate.ready {
      forall k | k in s.jobs && !s.jobs[k].finished ensures s.jobs[k].labelUid in s.gate.active {
        assert KeyOk(s, k) && JobOk(s, s.jobs[k]) && RunOk(s, s.jobs[k].labelUid);
      }
    }
  }

  /** Slot coverage through crashes and restarts. */
  lemma EveryJobHasItsSlot(c: Config, steps: seq<Step>)
    requires CarefulRun(c, steps)
    ensures Covered(After(c, steps))
  {
    CarefulRunKeeps(c, steps);
    SlotsCover(After(c, steps));
  }

  /** No stack ever has two unfinished Apply Jobs, not even between a crash and the
      reconstruction after it. */
  lemma OneApplyJobPerStack(c: Config, steps: seq<Step>, k: Key, l: Key)
    requires CarefulRun(c, steps)
    requires var s := After(c, steps);
      && k in s.jobs && l in s.jobs && !s.jobs[k].finished && !s.jobs[l].finished
      && IsApply(s, s.jobs[k].labelUid) && IsApply(s, s.jobs[l].labelUid)
    requires var s := After(c, steps);
      StackOf(s, s.jobs[k].labelUid) == StackOf(s, s.jobs[l].labelUid)
    ensures k == l
  {
    CarefulRunKeeps(c, steps);
    JobsApart(After(c, steps), k, l);
  }

  lemma JobsApart(s: State, k: Key, l: Key)
    requires Slots(s) && k in s.jobs && l in s.jobs && !s.jobs[k].finished && !s.jobs[l].finished
    requires IsApply(s, s.jobs[k].labelUid) && IsApply(s, s.jobs[l].labelUid)
    requires StackOf(s, s.jobs[k].labelUid) == StackOf(s, s.jobs[l].labelUid)
    ensures k == l
  {
    var i, j := s.jobs[k], s.jobs[l];
    assert KeyOk(s, k) && KeyOk(s, l) && JobOk(s, i) && JobOk(s, j);
    assert ApartOk(s, i.labelUid, j.labelUid);
  }

  /** Reconstruction on a reachable cluster reports no violation and finds exactly the runs with
      unfinished Jobs, whatever order the Jobs are listed in. */
  lemma ReconstructionIsExact(c: Config, steps: seq<Step>, order: seq<Job>)
    requires CarefulRun(c, steps) && Lists(After(c, steps).jobs, order)
    ensures var s := After(c, steps);
            var v := Gate.Rebuilt(s.gate, ItemsOf(Current(s.runs), order));
      && !v.violation && (forall u :: u in v.active <==> JobRunning(s, u))
      && (forall u | u in v.active :: v.active[u] == ItemOf(s.runs[u].run))
  {
    CarefulRunKeeps(c, steps);
    RunKeeps(c, steps);
    ObservationExact(After(c, steps), order);
    RebuiltExact(After(c, steps), ItemsOf(Current(After(c, steps).runs), order));
  }

  // ------------------------------------------- when coverage is lost, exactly

  ghost predicate Labelled(s: State, uid: string) {
    exists k | k in s.jobs :: !s.jobs[k].finished && s.jobs[k].labelUid == uid
  }

  /** A reconciliation that holds a slot gives it back: the Apply is rejected, the Job refused, its
      lookup failed, the intent not stored, or the Create reported as failed. */
  predicate Ends(c: Config, s: State, uid: string, next: Continuation) {
    match next
    case Validated(r, w) =>
      && AtAdmitted(s, uid) && s.runs[uid].run.spec.operation.Apply? && Execution.Readable(s, r)
      && Admission.ValidateApplyApproval(c.names, s.runs[uid].run, r).Fail?
    case JobRefused(w) => AtCleared(s, uid)
    case LookupFailed => AtCleared(s, uid)
    case PersistedIntent(w) => AtCleared(s, uid) && !w.Skipped? && !(w.Answered? && s.progress[uid].seen + 1 == |s.runs[uid].versions|)
    case CreateFailed => AtSending(s, uid)
    case _ => false
  }

  /** A finished Job is found, and its result reported as recorded. */
  predicate Finishes(s: State, uid: string, seen: nat, opening: Opening) {
    && Opens(s, uid, seen) && s.runs[uid].versions[seen].jobRef.Some?
    && opening.ObservedJob? && opening.found.Some? && opening.found.value.finished && opening.found.value in s.observed
    && var run, job := ReadAt(s.runs[uid], seen), opening.found.value;
       && job.key == Key(run.key.ns, run.status.jobRef.value) && JobIdentity(run, job).Pass?
       && Reports(s.runs[uid], seen, Capture.Recorded(run, s.bucket, Some(job.uid), opening.down), opening.w)
  }

  predicate Creates(s: State, uid: string, jobUid: string) {
    && uid in s.requests && !s.requests[uid].Executed? && uid in s.runs && jobUid != ""
    && s.runs[uid].run.key !in s.jobs
  }

  predicate Classified(s: State, job: Job) { !ItemForJob(Current(s.runs), job).kind.Other? }

  /** An unfinished Job that reconstruction can give to no run. */
  ghost predicate Unclassified(s: State) {
    exists k | k in s.jobs && !s.jobs[k].finished ::
      forall l | l in s.jobs && !s.jobs[l].finished && s.jobs[l].labelUid == s.jobs[k].labelUid :: !Classified(s, s.jobs[l])
  }

  /** How one step can leave an unfinished Job without its slot while the gate is open: the slot of a
      run goes back while its Job runs, a request whose slot is gone makes its Job after all, or
      somebody else's Job comes in or cannot be given to a run. */
  ghost predicate Loses(c: Config, s: State, step: Step) {
    match step
    case World(change) =>
      change.ForeignJob? && s.gate.ready && !change.job.finished && change.job.key !in s.jobs && change.job.labelUid !in s.gate.active
    case Opened(uid, seen, opening) => s.gate.ready && Finishes(s, uid, seen, opening) && Labelled(s, uid)
    case Continued(uid, next) => s.gate.ready && Ends(c, s, uid, next) && Labelled(s, uid)
    case ExecutedCreate(uid, jobUid) => s.gate.ready && Creates(s, uid, jobUid) && uid !in s.gate.active
    case Reconstructed(order) => !s.gate.ready && Lists(s.jobs, order) && Unclassified(s)
    case Crashed => false
  }

  /** From every state the machine can reach, one step leaves every unfinished Job covered exactly
      when it is not one of those. */
  lemma CoverageIsLostExactly(c: Config, s: State, step: Step)
    requires Inv(s) && Covered(s)
    ensures Covered(Next(c, s, step)) <==> !Loses(c, s, step)
  {
    match step
    case World(change) => WorldLosesExactly(s, change);
    case Opened(uid, seen, opening) => OpeningLosesExactly(s, uid, seen, opening);
    case Continued(uid, next) => ContinuationLosesExactly(c, s, uid, next);
    case ExecutedCreate(uid, jobUid) => LandingLosesExactly(s, uid, jobUid);
    case Crashed =>
    case Reconstructed(order) => ReconstructionLosesExactly(s, order);
  }

  ghost predicate AlwaysCovered(c: Config, steps: seq<Step>) {
    Covered(After(c, steps)) && (steps == [] || AlwaysCovered(c, steps[..|steps| - 1]))
  }

  ghost predicate NeverLoses(c: Config, steps: seq<Step>) {
    steps == [] || (NeverLoses(c, steps[..|steps| - 1]) && !Loses(c, After(c, steps[..|steps| - 1]), steps[|steps| - 1]))
  }

  /** Over whole runs: every state is covered exactly when no step is one of those. */
  lemma {:induction false} CoveredThroughout(c: Config, steps: seq<Step>)
    ensures AlwaysCovered(c, steps) <==> NeverLoses(c, steps)
  {
    if steps != [] {
      var front, last := steps[..|steps| - 1], steps[|steps| - 1];
      CoveredThroughout(c, front);
      RunKeeps(c, front);
      if AlwaysCovered(c, front) { CoverageIsLostExactly(c, After(c, front), last); }
    }
  }

  lemma WorldLosesExactly(s: State, change: WorldStep)
    requires Covered(s)
    ensures Covered(NextWorld(s, change)) <==> !(change.ForeignJob? && s.gate.ready && !change.job.finished
                                                 && change.job.key !in s.jobs && change.job.labelUid !in s.gate.active)
  {
    if change.ForeignJob? && change.job.key !in s.jobs {
      assert change.job.key in NextWorld(s, change).jobs;
    }
  }

  /** Giving a slot back uncovers exactly the unfinished Jobs labelled with its run. */
  lemma ReleaseLosesExactly(s: State, t: State, uid: string)
    requires Covered(s) && s.gate.ready && t.jobs == s.jobs && t.gate == Gate.Released(s.gate, uid)
    ensures Covered(t) <==> !Labelled(s, uid)
  {
    if Labelled(s, uid) {
      var k :| k in s.jobs && !s.jobs[k].finished && s.jobs[k].labelUid == uid;
      assert t.jobs[k].labelUid !in t.gate.active;
    }
  }

  lemma OpeningLosesExactly(s: State, uid: string, seen: nat, opening: Opening)
    requires Inv(s) && Covered(s)
    ensures Covered(NextOpening(s, uid, seen, opening)) <==> !(s.gate.ready && Finishes(s, uid, seen, opening) && Labelled(s, uid))
  {
    var t := NextOpening(s, uid, seen, opening);
    OpeningGate(s, uid, seen, opening);
    if Finishes(s, uid, seen, opening) {
      VersionKnown(s, uid, seen);
      if s.gate.ready { ReleaseLosesExactly(s, t, uid); }
    }
  }

  /** What an opening does to the gate: a finish releases, anything else at most admits. */
  lemma OpeningGate(s: State, uid: string, seen: nat, opening: Opening)
    ensures var t := NextOpening(s, uid, seen, opening);
      && t.jobs == s.jobs
      && (if Finishes(s, uid, seen, opening) then t.gate == Gate.Released(s.gate, ItemOf(s.runs[uid].run).id)
          else t.gate == s.gate || (uid in s.runs && t.gate == Gate.Admit(s.gate, ItemOf(s.runs[uid].run))))
  {
    match opening
    case ObservedJob(found, active, down, w) => ObserveGate(s, uid, seen, found, active, down, w);
    case RejectedAtOnce(w) =>
    case CapturedEarly(down, w) =>
    case AskedSlot(w) => AskSlotGate(s, uid, seen, w);
  }

  lemma AskSlotGate(s: State, uid: string, seen: nat, w: Write)
    ensures var t := AskSlot(s, uid, seen, w);
      t.jobs == s.jobs && (t.gate == s.gate || (uid in s.runs && t.gate == Gate.Admit(s.gate, ItemOf(s.runs[uid].run))))
  {
  }

  lemma ObserveGate(s: State, uid: string, seen: nat, found: Option<Job>, active: bool, down: set<string>, w: Write)
    ensures var t := ObserveJob(s, uid, seen, found, active, down, w);
      && t.jobs == s.jobs
      && (if Finishes(s, uid, seen, ObservedJob(found, active, down, w)) then t.gate == Gate.Released(s.gate, ItemOf(s.runs[uid].run).id)
          else t.gate == s.gate || (uid in s.runs && t.gate == Gate.Admit(s.gate, ItemOf(s.runs[uid].run))))
  {
    if Opens(s, uid, seen) && s.runs[uid].versions[seen].jobRef.Some? && found.Some? {
      var run, job := ReadAt(s.runs[uid], seen), found.value;
      var st := Capture.Recorded(run, s.bucket, Some(job.uid), down);
      if Found(s, run, job) {
        assert Finishes(s, uid, seen, ObservedJob(found, active, down, w)) <==> job.finished && Reports(s.runs[uid], seen, st, w);
        FoundStep(s, uid, seen, job, active, down, w);
        FoundGate(s, uid, seen, job, active, st, w);
      } else {
        NotFoundGate(s, uid, seen, found, active, down, w);
      }
    } else {
      NotFoundGate(s, uid, seen, found, active, down, w);
    }
  }

  predicate Found(s: State, run: TerraformRun, job: Job)
    requires run.status.jobRef.Some?
  {
    job in s.observed && job.key == Key(run.key.ns, run.status.jobRef.value) && JobIdentity(run, job).Pass?
  }

  lemma FoundStep(s: State, uid: string, seen: nat, job: Job, active: bool, down: set<string>, w: Write)
    requires Opens(s, uid, seen) && s.runs[uid].versions[seen].jobRef.Some? && Found(s, ReadAt(s.runs[uid], seen), job)
    ensures var st := Capture.Recorded(ReadAt(s.runs[uid], seen), s.bucket, Some(job.uid), down);
      ObserveJob(s, uid, seen, Some(job), active, down, w)
        == if job.finished then ObserveFinished(s, uid, seen, st, w) else ObserveActive(s, uid, seen, active, w)
  {
  }

  /** Without a Job of the run's own, the gate stays as it is. */
  lemma NotFoundGate(s: State, uid: string, seen: nat, found: Option<Job>, active: bool, down: set<string>, w: Write)
    requires (Opens(s, uid, seen) && s.runs[uid].versions[seen].jobRef.Some? && found.Some?) ==> !Found(s, ReadAt(s.runs[uid], seen), found.value)
    ensures var t := ObserveJob(s, uid, seen, found, active, down, w); t.jobs == s.jobs && t.gate == s.gate
    ensures !Finishes(s, uid, seen, ObservedJob(found, active, down, w))
  {
  }

  lemma FoundGate(s: State, uid: string, seen: nat, job: Job, active: bool, st: RunStatus, w: Write)
    requires Opens(s, uid, seen)
    ensures var t := if job.finished then ObserveFinished(s, uid, seen, st, w) else ObserveActive(s, uid, seen, active, w);
      && t.jobs == s.jobs
      && (if job.finished && Reports(s.runs[uid], seen, st, w) then t.gate == Gate.Released(s.gate, ItemOf(s.runs[uid].run).id)
          else t.gate == s.gate || t.gate == Gate.Admit(s.gate, ItemOf(s.runs[uid].run)))
  {
    if job.finished { ObserveFinishedGate(s, uid, seen, st, w); } else { ObserveActiveGate(s, uid, seen, active, w); }
  }

  lemma ObserveFinishedGate(s: State, uid: string, seen: nat, st: RunStatus, w: Write)
    requires Opens(s, uid, seen)
    ensures var t := ObserveFinished(s, uid, seen, st, w);
      && t.jobs == s.jobs
      && t.gate == if Reports(s.runs[uid], seen, st, w) then Gate.Released(s.gate, ItemOf(s.runs[uid].run).id) else s.gate
  {
  }

  lemma ObserveActiveGate(s: State, uid: string, seen: nat, active: bool, w: Write)
    requires Opens(s, uid, seen)
    ensures var t := ObserveActive(s, uid, seen, active, w);
      t.jobs == s.jobs && (t.gate == s.gate || t.gate == Gate.Admit(s.gate, ItemOf(s.runs[uid].run)))
  {
  }

  lemma ContinuationLosesExactly(c: Config, s: State, uid: string, next: Continuation)
    requires Inv(s) && Covered(s)
    ensures Covered(NextContinuation(c, s, uid, next)) <==> !(s.gate.ready && Ends(c, s, uid, next) && Labelled(s, uid))
  {
    var t := NextContinuation(c, s, uid, next);
    ContinuationGate(c, s, uid, next);
    if Ends(c, s, uid, next) {
      VersionKnown(s, uid, s.progress[uid].seen);
      if s.gate.ready { ReleaseLosesExactly(s, t, uid); }
    }
  }

  lemma ContinuationGate(c: Config, s: State, uid: string, next: Continuation)
    ensures var t := NextContinuation(c, s, uid, next);
      && t.jobs == s.jobs
      && (if Ends(c, s, uid, next) then t.gate == Gate.Released(s.gate, ItemOf(s.runs[uid].run).id) else t.gate == s.gate)
  {
    match next
    case Validated(r, w) =>
      if AtAdmitted(s, uid) {
        DecideGate(s, uid, r, Admission.ValidateApplyApproval(c.names, s.runs[uid].run, r).Pass?, w);
      }
    case JobRefused(w) => if AtCleared(s, uid) { AbortGate(s, uid, true, w); }
    case LookupFailed => if AtCleared(s, uid) { AbortGate(s, uid, false, Refused); }
    case PersistedIntent(w) => IntentGate(s, uid, w);
    case _ => OtherGate(c, s, uid, next);
  }

  lemma AbortGate(s: State, uid: string, reject: bool, w: Write)
    requires At(s, uid)
    ensures var t := Abort(s, uid, reject, w);
      t.jobs == s.jobs && t.gate == Gate.Released(s.gate, ItemOf(s.runs[uid].run).id)
  {
  }

  lemma IntentGate(s: State, uid: string, w: Write)
    ensures var t := PersistIntent(s, uid, w);
      && t.jobs == s.jobs
      && t.gate == if AtCleared(s, uid) && !w.Skipped? && !(w.Answered? && s.progress[uid].seen + 1 == |s.runs[uid].versions|)
                   then Gate.Released(s.gate, ItemOf(s.runs[uid].run).id) else s.gate
  {
  }

  lemma OtherGate(c: Config, s: State, uid: string, next: Continuation)
    requires !next.Validated? && !next.JobRefused? && !next.LookupFailed? && !next.PersistedIntent?
    ensures var t := NextContinuation(c, s, uid, next);
      && t.jobs == s.jobs
      && t.gate == if next.CreateFailed? && AtSending(s, uid) then Gate.Released(s.gate, ItemOf(s.runs[uid].run).id) else s.gate
  {
  }

  lemma DecideGate(s: State, uid: string, r: Admission.Reads, passes: bool, w: Write)
    requires AtAdmitted(s, uid)
    ensures var t := Decide(s, uid, r, passes, w);
      t.jobs == s.jobs && t.gate == if passes then s.gate else Gate.Released(s.gate, ItemOf(s.runs[uid].run).id)
  {
  }

  lemma LandingLosesExactly(s: State, uid: string, jobUid: string)
    requires Covered(s)
    ensures Covered(ExecuteCreate(s, uid, jobUid)) <==> !(s.gate.ready && Creates(s, uid, jobUid) && uid !in s.gate.active)
  {
    var t := ExecuteCreate(s, uid, jobUid);
    if Creates(s, uid, jobUid) {
      var k := s.runs[uid].run.key;
      assert k in t.jobs && !t.jobs[k].finished && t.jobs[k].labelUid == uid;
    }
  }

  /** A classified Job becomes the item of the run it is labelled with. */
  lemma ClassifiedItem(s: State, job: Job)
    requires Inv(s) && Classified(s, job)
    ensures var item := ItemForJob(Current(s.runs), job); item.id == job.labelUid && Gate.ValidItem(item)
  {
    var run := RunOf(Current(s.runs), job).value;
    assert RecordOk(s.runs, job.labelUid);
    assert job.owner.Some? ==> RecordOk(s.runs, job.owner.value);
  }

  lemma UnclassifiedItem(s: State, job: Job)
    requires !Classified(s, job)
    ensures !Gate.ValidItem(ItemForJob(Current(s.runs), job))
  {
  }

  /** Reconstruction gives a slot to exactly the labels of classified unfinished Jobs. */
  lemma RebuiltLabels(s: State, order: seq<Job>, u: string)
    requires Inv(s) && Lists(s.jobs, order)
    ensures u in Gate.ActiveOf(ItemsOf(Current(s.runs), order)) <==>
            exists l | l in s.jobs :: !s.jobs[l].finished && s.jobs[l].labelUid == u && Classified(s, s.jobs[l])
  {
    var items, jobs := ItemsOf(Current(s.runs), order), Unfinished(order);
    ItemsOfUnfinished(Current(s.runs), order);
    Gate.ActiveOfMembers(items, u);
    if u in Gate.ActiveOf(items) {
      var i :| 0 <= i < |items| && Gate.ValidItem(items[i]) && items[i].id == u;
      UnfinishedMembers(order, jobs[i]);
      if !Classified(s, jobs[i]) { UnclassifiedItem(s, jobs[i]); }
      ClassifiedItem(s, jobs[i]);
      assert s.jobs[jobs[i].key] == jobs[i];
    }
    if l :| l in s.jobs && !s.jobs[l].finished && s.jobs[l].labelUid == u && Classified(s, s.jobs[l]) {
      UnfinishedMembers(order, s.jobs[l]);
      var i :| 0 <= i < |jobs| && jobs[i] == s.jobs[l];
      ClassifiedItem(s, jobs[i]);
      assert Gate.ValidItem(items[i]) && items[i].id == u;
    }
  }

  lemma ReconstructionLosesExactly(s: State, order: seq<Job>)
    requires Inv(s) && Covered(s)
    ensures Covered(Reconstruct(s, order)) <==> !(!s.gate.ready && Lists(s.jobs, order) && Unclassified(s))
  {
    if !s.gate.ready && Lists(s.jobs, order) {
      var t := Reconstruct(s, order);
      forall u ensures u in t.gate.active <==>
        exists l | l in s.jobs :: !s.jobs[l].finished && s.jobs[l].labelUid == u && Classified(s, s.jobs[l])
      {
        RebuiltLabels(s, order, u);
      }
      if Unclassified(s) {
        var k :| k in s.jobs && !s.jobs[k].finished &&
          forall l | l in s.jobs && !s.jobs[l].finished && s.jobs[l].labelUid == s.jobs[k].labelUid :: !Classified(s, s.jobs[l]);
        assert t.jobs[k].labelUid !in t.gate.active;
      }
    }
  }

  // ---------------------------------------------- among the controller's own Jobs

  /** Where nobody else makes Jobs, neither a recorded finish nor a reconstruction loses anything:
      what is left is a reconciliation that gives its slot back while the Job of its run is running,
      and a Create that lands without a slot. */
  lemma OwnLossesAre(c: Config, steps: seq<Step>, step: Step)
    requires OwnJobsOnly(steps + [step])
    ensures var s := After(c, steps);
      Loses(c, s, step) <==>
        s.gate.ready && match step
          case Continued(uid, next) => Ends(c, s, uid, next) && JobRunning(s, uid)
          case ExecutedCreate(uid, jobUid) => Creates(s, uid, jobUid) && uid !in s.gate.active
          case _ => false
  {
    var s := After(c, steps);
    assert (steps + [step])[|steps|] == step;
    assert forall n | 0 <= n < |steps| :: (steps + [step])[n] == steps[n];
    RunJobs(c, steps);
    RunKeeps(c, steps);
    match step
    case Opened(uid, seen, opening) =>
      if Finishes(s, uid, seen, opening) {
        VersionKnown(s, uid, seen);
        FinishedIsAlone(s, uid, opening.found.value);
      }
    case Continued(uid, next) => LabelledMeansRunning(s, uid);
    case Reconstructed(order) =>
      forall k | k in s.jobs && !s.jobs[k].finished ensures Classified(s, s.jobs[k]) { OwnIsClassified(s, k); }
    case _ =>
  }

  lemma LabelledMeansRunning(s: State, uid: string)
    requires JobsOk(s)
    ensures Labelled(s, uid) <==> JobRunning(s, uid)
  {
    if k :| k in s.jobs && !s.jobs[k].finished && s.jobs[k].labelUid == uid { LabelledIsRunning(s, k); }
  }

  /** A run with a finished Job has no other. */
  lemma FinishedIsAlone(s: State, uid: string, job: Job)
    requires JobsOk(s) && uid in s.runs && job in s.observed && job.finished && job.labelUid == uid
    ensures !Labelled(s, uid)
  {
    assert JobOk(s, job);
    LabelledMeansRunning(s, uid);
  }

  lemma OwnIsClassified(s: State, k: Key)
    requires JobsOk(s) && Inv(s) && k in s.jobs
    ensures Classified(s, s.jobs[k])
  {
    assert KeyOk(s, k);
    ItemOfJob(s, s.jobs[k]);
  }

  /** A reconciliation that holds a slot without a recorded intent, and whose Job is running
      nevertheless, works on a version from before the intent. */
  lemma RunningMeansOutdated(c: Config, steps: seq<Step>, uid: string)
    requires OwnJobsOnly(steps)
    requires var s := After(c, steps); At(s, uid) && (s.progress[uid].Admitted? || s.progress[uid].Cleared?) && JobRunning(s, uid)
    ensures var s := After(c, steps);
      && s.runs[uid].versions[s.progress[uid].seen].jobRef.None? && Latest(s.runs[uid]).jobRef.Some?
      && s.progress[uid].seen + 1 < |s.runs[uid].versions|
  {
    var s := After(c, steps);
    RunJobs(c, steps);
    RunKeeps(c, steps);
    RunningIsMade(s, uid);
    assert ProgressAt(s, uid) && RequestAt(s, uid);
  }

  // ------------------------------------------------------- outdated reads

  /** What becomes of such a reconciliation, Plan or Apply: it keeps the slot if its lookup finds the
      Job, and storing its intent can only fail and uncover the Job. */
  lemma OutdatedEnds(c: Config, s: State, uid: string, next: Continuation)
    requires Inv(s) && Covered(s) && s.gate.ready && JobRunning(s, uid) && AtCleared(s, uid)
    requires s.progress[uid].seen + 1 < |s.runs[uid].versions|
    ensures Covered(NextContinuation(c, s, uid, next)) <==>
      !(next.JobRefused? || next.LookupFailed? || (next.PersistedIntent? && !next.w.Skipped?))
  {
    assert Labelled(s, uid);
    ContinuationLosesExactly(c, s, uid, next);
  }

  ghost predicate Held(s: State) { forall u :: HeldOk(s, u) }

  /** Runs stay what they are, and the gate at most admits one more of them. */
  lemma HeldStays(s: State, t: State, uid: string)
    requires Held(s) && Grown(s.runs, t.runs)
    requires forall u :: EntryFrom(s, t, uid, u)
    ensures Held(t)
  {
    forall u ensures HeldOk(t, u) {
      assert HeldOk(s, u) && EntryFrom(s, t, uid, u) && GrownAt(s.runs, t.runs, u);
    }
  }

  predicate EntryFrom(s: State, t: State, uid: string, u: string) {
    u in t.gate.active ==>
      || (u in s.gate.active && t.gate.active[u] == s.gate.active[u])
      || (u == uid && uid in s.runs && t.gate.active[u] == ItemOf(s.runs[uid].run))
  }

  function Subject(step: Step): string {
    match step
    case Opened(uid, _, _) => uid
    case Continued(uid, _) => uid
    case _ => ""
  }

  lemma NextEntries(c: Config, s: State, step: Step, u: string)
    requires Inv(s) && !step.Reconstructed?
    ensures EntryFrom(s, Next(c, s, step), Subject(step), u)
  {
    match step
    case Opened(uid, seen, opening) => OpeningEntries(s, uid, seen, opening, u);
    case Continued(uid, next) => ContinuationEntries(c, s, uid, next, u);
    case _ => OtherEntries(c, s, step, u);
  }

  lemma OtherEntries(c: Config, s: State, step: Step, u: string)
    requires step.World? || step.ExecutedCreate? || step.Crashed?
    ensures EntryFrom(s, Next(c, s, step), Subject(step), u)
  {
    match step
    case World(change) => WorldKeepsGate(s, change);
    case ExecutedCreate(uid, jobUid) =>
    case Crashed =>
  }

  lemma WorldKeepsGate(s: State, change: WorldStep)
    ensures NextWorld(s, change).gate == s.gate
  {
    match change
    case CreatedRun(run) =>
    case SupersededPlan(uid) =>
    case JobEnds(key) =>
    case _ =>
  }

  lemma ContinuationEntries(c: Config, s: State, uid: string, next: Continuation, u: string)
    ensures EntryFrom(s, NextContinuation(c, s, uid, next), uid, u)
  {
    ContinuationGate(c, s, uid, next);
  }

  lemma OpeningEntries(s: State, uid: string, seen: nat, opening: Opening, u: string)
    requires Inv(s)
    ensures EntryFrom(s, NextOpening(s, uid, seen, opening), uid, u)
  {
    OpeningGate(s, uid, seen, opening);
    ItemId(s, uid);
  }

  lemma ItemId(s: State, uid: string)
    requires Inv(s)
    ensures uid in s.runs ==> ItemOf(s.runs[uid].run).id == uid
  {
    assert RecordOk(s.runs, uid);
  }

  lemma NextHeld(c: Config, s: State, step: Step)
    requires Held(s) && Inv(s)
    ensures Held(Next(c, s, step))
  {
    if step.Reconstructed? {
      forall u ensures HeldOk(Next(c, s, step), u) { ReconstructHeld(s, step.order, u); }
    } else {
      NextKeeps(c, s, step);
      forall u ensures EntryFrom(s, Next(c, s, step), Subject(step), u) { NextEntries(c, s, step, u); }
      HeldStays(s, Next(c, s, step), Subject(step));
    }
  }

  lemma ReconstructHeld(s: State, order: seq<Job>, u: string)
    requires Held(s) && Inv(s)
    ensures HeldOk(Reconstruct(s, order), u)
  {
    assert HeldOk(s, u);
    if !s.gate.ready && u in Gate.ActiveOf(ItemsOf(Current(s.runs), order)) {
      RebuiltItem(s, order, u);
    }
  }

  lemma RebuiltItem(s: State, order: seq<Job>, u: string)
    requires Inv(s) && u in Gate.ActiveOf(ItemsOf(Current(s.runs), order))
    ensures u in s.runs && Gate.ActiveOf(ItemsOf(Current(s.runs), order))[u] == ItemOf(s.runs[u].run)
  {
    var items := ItemsOf(Current(s.runs), order);
    Gate.ActiveOfMembers(items, u);
    Gate.ActiveOfSource(items, u);
    ItemsOfUnfinished(Current(s.runs), order);
    var i :| 0 <= i < |items| && items[i] == Gate.ActiveOf(items)[u];
    if !Classified(s, Unfinished(order)[i]) { UnclassifiedItem(s, Unfinished(order)[i]); }
    ItemOfSome(s, Unfinished(order)[i]);
    ClassifiedItem(s, Unfinished(order)[i]);
  }

  lemma ItemOfSome(s: State, job: Job)
    requires Inv(s) && Classified(s, job)
    ensures job.labelUid in s.runs && ItemForJob(Current(s.runs), job) == ItemOf(s.runs[job.labelUid].run)
  {
    ClassifiedItem(s, job);
    assert RecordOk(s.runs, job.labelUid);
    assert job.owner.Some? ==> RecordOk(s.runs, job.owner.value);
  }

  lemma {:induction false} RunHeld(c: Config, steps: seq<Step>)
    ensures Held(After(c, steps))
  {
    if steps != [] {
      RunHeld(c, steps[..|steps| - 1]);
      RunKeeps(c, steps[..|steps| - 1]);
      NextHeld(c, After(c, steps[..|steps| - 1]), steps[|steps| - 1]);
    }
  }

  /** A reconciliation that works on an outdated version, and whose lookup does not find the Job. */
  function OutdatedReconcile(uid: string, seen: nat, r: Admission.Reads): seq<Step> {
    [Opened(uid, seen, AskedSlot(Answered)), Continued(uid, Validated(r, Answered)), Continued(uid, PersistedIntent(Answered))]
  }

  /** It is told that it holds the slot already. */
  lemma OutdatedIsAdmitted(s: State, uid: string, seen: nat, w: Write)
    requires Inv(s) && Held(s) && Covered(s) && s.gate.ready && JobRunning(s, uid) && Outdated(s, uid, seen)
    ensures AskSlot(s, uid, seen, w) == s.(progress := s.progress[uid := Admitted(seen)])
    ensures seen + 1 < |s.runs[uid].versions|
  {
    VersionKnown(s, uid, seen);
    assert HeldOk(s, uid) && s.jobs[s.runs[uid].run.key].labelUid in s.gate.active;
  }

  /** Whatever its validation says, it ends with the running Job uncovered. */
  lemma AdmittedLosesSlot(c: Config, s: State, uid: string, r: Admission.Reads)
    requires Inv(s) && Covered(s) && s.gate.ready && JobRunning(s, uid) && AtAdmitted(s, uid)
    requires s.progress[uid].seen + 1 < |s.runs[uid].versions| && (IsApply(s, uid) ==> Execution.Readable(s, r))
    ensures !Covered(PersistIntent(Validate(c, s, uid, r, Answered), uid, Answered))
  {
    var next := Validate(c, s, uid, r, Answered);
    assert Labelled(s, uid);
    ContinuationLosesExactly(c, s, uid, Validated(r, Answered));
    if Ends(c, s, uid, Validated(r, Answered)) {
      assert !AtCleared(next, uid);
    } else {
      ValidateKeeps(c, s, uid, r, Answered);
      OutdatedEnds(c, next, uid, PersistedIntent(Answered));
    }
  }

  /** Whether it is a Plan, an Apply whose validation passes or one whose validation fails. */
  lemma OutdatedReadLosesSlot(c: Config, s: State, uid: string, seen: nat, r: Admission.Reads)
    requires Inv(s) && Held(s) && Covered(s) && s.gate.ready && JobRunning(s, uid) && Outdated(s, uid, seen)
    requires IsApply(s, uid) ==> Execution.Readable(s, r)
    ensures var steps := OutdatedReconcile(uid, seen, r);
            !Covered(Next(c, Next(c, Next(c, s, steps[0]), steps[1]), steps[2]))
  {
    OutdatedIsAdmitted(s, uid, seen, Answered);
    AskSlotKeeps(s, uid, seen, Answered);
    var admitted := s.(progress := s.progress[uid := Admitted(seen)]);
    assert AtAdmitted(admitted, uid) && Covered(admitted);
    AdmittedLosesSlot(c, admitted, uid, r);
  }
}
