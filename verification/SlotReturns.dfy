/** When a run's slot comes back, step by step, and which slots are never given back at all. */
module SlotReturns {
  import opened Api
  import opened RunHistory
  import opened Execution
  import opened ExecutionSafety
  import Admission
  import Capture
  import ExecutionGuards
  import Gate = ExecutionGate
  import SlotCoverage

  /** A step of a reconciliation that holds its slot gives it back exactly when it ends before the intent
      is known to be stored, or when the Create request fails; the slot of a Job that was found, foreign or
      not, stays taken. */
  lemma SlotComesBackExactly(c: Config, s: State, uid: string, next: Continuation)
    requires Inv(s) && uid in s.gate.active && uid in s.progress
    ensures uid in s.runs && s.progress[uid].seen < |s.runs[uid].versions|
    ensures var r, p := s.runs[uid], s.progress[uid];
      (uid !in NextContinuation(c, s, uid, next).gate.active <==>
         match next
         case Validated(basis, w) =>
           p.Admitted? && r.run.spec.operation == Apply && Readable(s, basis)
           && Admission.ValidateApplyApproval(c.names, r.run, basis).Fail?
         case JobRefused(w) => p.Cleared?
         case LookupFailed => p.Cleared?
         case PersistedIntent(w) => p.Cleared? && w != Skipped && !(w == Answered && p.seen + 1 == |r.versions|)
         case CreateFailed => p.Sending? && uid in s.requests
         case _ => false)
  {
    assert ProgressAt(s, uid) && RecordOk(s.runs, uid);
    SlotCoverage.ContinuationGate(c, s, uid, next);
  }

  lemma OwnExactly(run: TerraformRun, job: Job)
    requires run.uid != ""
    ensures JobIdentity(run, job).Pass? <==> ExecutionGuards.IsOwn(run, job)
  {
  }

  /** The run's own Job, as its status names it, was seen in this state. */
  predicate OwnJobFound(s: State, uid: string, seen: nat, found: Option<Job>)
    requires uid in s.runs && seen < |s.runs[uid].versions|
  {
    var read := ReadAt(s.runs[uid], seen);
    && found.Some? && found.value in s.observed
    && read.status.jobRef.Some? && found.value.key == Key(read.key.ns, read.status.jobRef.value)
    && ExecutionGuards.IsOwn(read, found.value)
  }

  /** The status is on record, by this very write or because a version says the same. */
  predicate OnRecord(r: Record, seen: nat, st: RunStatus, w: Write) {
    (w == Answered && seen + 1 == |r.versions|) || (w == Skipped && st in r.versions)
  }

  /** Of the steps that begin a reconciliation only one gives a slot back: it finds the run's own Job
      finished, and the outcome is on record. */
  lemma FinishFreesExactly(s: State, uid: string, seen: nat, opening: Opening)
    requires Inv(s) && uid in s.gate.active && Opens(s, uid, seen)
    ensures uid !in NextOpening(s, uid, seen, opening).gate.active <==>
      match opening
      case ObservedJob(found, active, down, w) =>
        OwnJobFound(s, uid, seen, found) && found.value.finished
        && OnRecord(s.runs[uid], seen, Capture.Recorded(ReadAt(s.runs[uid], seen), s.bucket, Some(found.value.uid), down), w)
      case _ => false
  {
    VersionKnown(s, uid, seen);
    if opening.ObservedJob? && opening.found.Some? { OwnExactly(ReadAt(s.runs[uid], seen), opening.found.value); }
    SlotCoverage.OpeningGate(s, uid, seen, opening);
    assert ItemOf(s.runs[uid].run).id == uid;
    SlotMoves(s.gate, ItemOf(s.runs[uid].run), uid);
  }

  /** What is on record when the slot has come back. */
  lemma FreedMeansRecorded(s: State, uid: string, seen: nat, job: Job, active: bool, down: set<string>, w: Write)
    requires Inv(s) && uid in s.gate.active && Opens(s, uid, seen)
    requires uid !in ObserveJob(s, uid, seen, Some(job), active, down, w).gate.active
    ensures var st := Capture.Recorded(ReadAt(s.runs[uid], seen), s.bucket, Some(job.uid), down);
      IsVersion(ObserveJob(s, uid, seen, Some(job), active, down, w).runs, uid, st)
  {
    FinishFreesExactly(s, uid, seen, ObservedJob(Some(job), active, down, w));
    VersionKnown(s, uid, seen);
    OwnExactly(ReadAt(s.runs[uid], seen), job);
    RecordedIsKept(s, uid, seen, Capture.Recorded(ReadAt(s.runs[uid], seen), s.bucket, Some(job.uid), down), w);
    SlotCoverage.FoundStep(s, uid, seen, job, active, down, w);
  }

  predicate IsVersion(runs: map<string, Record>, uid: string, st: RunStatus) { uid in runs && st in runs[uid].versions }

  lemma RecordedIsKept(s: State, uid: string, seen: nat, st: RunStatus, w: Write)
    requires Opens(s, uid, seen) && OnRecord(s.runs[uid], seen, st, w)
    ensures IsVersion(ObserveFinished(s, uid, seen, st, w).runs, uid, st)
  {
    var versions := s.runs[uid].versions + [st];
    assert versions[|versions| - 1] == st;
  }

  lemma SlotMoves(v: Gate.View, item: Gate.WorkItem, u: string)
    ensures u in Gate.Released(v, item.id).active <==> u in v.active && u != item.id
    ensures u in v.active ==> u in Gate.Admit(v, item).active
    ensures Gate.Released(v, item.id).ready == Gate.Admit(v, item).ready == v.ready
  {
  }

  // --------------------------------------------------------- slots left behind

  /** The run's slot is taken, nobody works on the run, and from version `n` on its outcome is settled. */
  ghost predicate LeftBehind(s: State, uid: string, n: nat) {
    && s.gate.ready && uid in s.gate.active && uid !in s.progress
    && uid in s.runs && n < |s.runs[uid].versions|
    && s.runs[uid].versions[n].outcome !in {NoOutcome, Pending, Running, Unrecognized}
  }

  /** The process goes on living, and no reconciliation of `uid` works on a version before `n`. */
  predicate UpToDate(step: Step, uid: string, n: nat) {
    !step.Crashed? && (step.Opened? && step.uid == uid ==> step.seen >= n)
  }

  lemma VersionSettled(s: State, uid: string, n: nat, seen: nat)
    requires Inv(s) && LeftBehind(s, uid, n) && n <= seen < |s.runs[uid].versions|
    ensures s.runs[uid].versions[seen].outcome !in {NoOutcome, Pending, Running, Unrecognized}
  {
    assert RecordOk(s.runs, uid) && VersionsEvolve(s.runs[uid], n, seen);
  }

  lemma StaysBehind(c: Config, s: State, step: Step, uid: string, n: nat)
    requires Inv(s) && LeftBehind(s, uid, n) && UpToDate(step, uid, n)
    ensures LeftBehind(Next(c, s, step), uid, n)
  {
    NextKeeps(c, s, step);
    assert GrownAt(s.runs, Next(c, s, step).runs, uid);
    match step
    case World(change) => WorldLeaves(s, change, uid);
    case Opened(u, seen, opening) => OpeningLeaves(s, u, seen, opening, uid, n);
    case Continued(u, next) => ContinuationLeaves(c, s, u, next, uid, n);
    case ExecutedCreate(u, jobUid) =>
    case Reconstructed(order) =>
  }

  lemma WorldLeaves(s: State, change: WorldStep, uid: string)
    ensures NextWorld(s, change).gate == s.gate && NextWorld(s, change).progress == s.progress
  {
    SlotCoverage.WorldKeepsGate(s, change);
    match change
    case CreatedRun(run) =>
    case SupersededPlan(u) =>
    case JobEnds(key) =>
    case _ =>
  }

  lemma OpeningLeaves(s: State, u: string, seen: nat, opening: Opening, uid: string, n: nat)
    requires Inv(s) && LeftBehind(s, uid, n) && (u == uid ==> seen >= n)
    ensures var t := NextOpening(s, u, seen, opening);
      t.gate.ready && uid in t.gate.active && uid !in t.progress
  {
    if Opens(s, u, seen) {
      if u == uid { VersionSettled(s, uid, n, seen); }
      VersionKnown(s, u, seen);
      OtherOpeningLeaves(s, u, seen, opening, uid);
    } else {
      ClosedGate(s, u, seen, opening);
    }
  }

  lemma OtherOpeningLeaves(s: State, u: string, seen: nat, opening: Opening, uid: string)
    requires u in s.runs && s.runs[u].run.uid == u != "" && u != uid
    requires s.gate.ready && uid in s.gate.active && uid !in s.progress
    ensures var t := NextOpening(s, u, seen, opening);
      t.gate.ready && uid in t.gate.active && uid !in t.progress
  {
    OpeningProgress(s, u, seen, opening);
    SlotCoverage.OpeningGate(s, u, seen, opening);
    var item := ItemOf(s.runs[u].run);
    assert item.id == u;
    SlotMoves(s.gate, item, uid);
  }

  /** A version that is not worked on moves no slot. */
  lemma ClosedGate(s: State, u: string, seen: nat, opening: Opening)
    requires !Opens(s, u, seen)
    ensures var t := NextOpening(s, u, seen, opening); t.gate == s.gate && t.progress == s.progress
  {
    match opening
    case RejectedAtOnce(w) =>
    case CapturedEarly(down, w) =>
    case AskedSlot(w) =>
    case ObservedJob(found, active, down, w) =>
  }

  lemma OpeningProgress(s: State, u: string, seen: nat, opening: Opening)
    ensures var t := NextOpening(s, u, seen, opening);
      t.progress == s.progress || (Opens(s, u, seen) && t.progress == s.progress[u := Admitted(seen)])
  {
    match opening
    case RejectedAtOnce(w) =>
    case CapturedEarly(down, w) =>
      if Opens(s, u, seen) { UpdateProgress(s, u, seen, Capture.Recorded(ReadAt(s.runs[u], seen), s.bucket, None, down), w); }
    case AskedSlot(w) =>
    case ObservedJob(found, active, down, w) => ObserveProgress(s, u, seen, found, active, down, w);
  }

  lemma ObserveProgress(s: State, u: string, seen: nat, found: Option<Job>, active: bool, down: set<string>, w: Write)
    ensures ObserveJob(s, u, seen, found, active, down, w).progress == s.progress
  {
    if Opens(s, u, seen) && s.runs[u].versions[seen].jobRef.Some? && found.Some? {
      if SlotCoverage.Found(s, ReadAt(s.runs[u], seen), found.value) {
        SlotCoverage.FoundStep(s, u, seen, found.value, active, down, w);
        UpdateProgress(s, u, seen, Capture.Recorded(ReadAt(s.runs[u], seen), s.bucket, Some(found.value.uid), down), w);
        ActiveProgress(s, u, seen, active, w);
      } else {
        NotFoundProgress(s, u, seen, found.value, active, down, w);
      }
    }
  }

  lemma NotFoundProgress(s: State, u: string, seen: nat, job: Job, active: bool, down: set<string>, w: Write)
    requires Opens(s, u, seen) && s.runs[u].versions[seen].jobRef.Some? && !SlotCoverage.Found(s, ReadAt(s.runs[u], seen), job)
    ensures ObserveJob(s, u, seen, Some(job), active, down, w).progress == s.progress
  {
  }

  lemma ActiveProgress(s: State, u: string, seen: nat, active: bool, w: Write)
    requires Opens(s, u, seen)
    ensures ObserveActive(s, u, seen, active, w).progress == s.progress
  {
    var item, st := ItemOf(ReadAt(s.runs[u], seen)), s.runs[u].versions[seen].(outcome := if active then Running else Pending, ready := false);
    assert Update(s.(gate := Gate.Admit(s.gate, item)), u, seen, st, w).progress == s.progress;
  }

  lemma UpdateProgress(s: State, u: string, seen: nat, st: RunStatus, w: Write)
    ensures u in s.runs ==> Update(s, u, seen, st, w).progress == s.progress
    ensures Opens(s, u, seen) ==> ObserveFinished(s, u, seen, st, w).progress == s.progress
  {
  }

  lemma ContinuationLeaves(c: Config, s: State, u: string, next: Continuation, uid: string, n: nat)
    requires Inv(s) && LeftBehind(s, uid, n)
    ensures var t := NextContinuation(c, s, u, next);
      t.gate.ready && uid in t.gate.active && uid !in t.progress
  {
    SlotCoverage.ContinuationGate(c, s, u, next);
    ContinuationProgress(c, s, u, next);
    if u in s.runs {
      assert RecordOk(s.runs, u);
      SlotMoves(s.gate, ItemOf(s.runs[u].run), uid);
    }
  }

  lemma ContinuationProgress(c: Config, s: State, u: string, next: Continuation)
    ensures NextContinuation(c, s, u, next).progress.Keys <= s.progress.Keys
  {
    match next
    case Validated(r, w) =>
      if AtAdmitted(s, u) {
        var passes := Admission.ValidateApplyApproval(c.names, s.runs[u].run, r).Pass?;
        DecideProgress(s, u, r, passes, w);
      }
    case JobRefused(w) =>
    case LookupFailed =>
    case JobFound(job, w) =>
    case PersistedIntent(w) =>
    case SentCreate =>
    case CreateReturned(job) =>
    case CreateFailed =>
    case RecordedStart(w) =>
  }

  lemma DecideProgress(s: State, u: string, r: Admission.Reads, passes: bool, w: Write)
    requires AtAdmitted(s, u)
    ensures Decide(s, u, r, passes, w).progress.Keys <= s.progress.Keys
  {
  }

  lemma StaysAfter(c: Config, before: seq<Step>, last: Step, uid: string, n: nat)
    requires LeftBehind(After(c, before), uid, n) && UpToDate(last, uid, n)
    ensures LeftBehind(After(c, before + [last]), uid, n)
  {
    RunKeeps(c, before);
    StaysBehind(c, After(c, before), last, uid, n);
    assert (before + [last])[..|before|] == before;
  }

  /** Once the outcome of a run is settled while its slot is taken and nobody works on the run, the slot
      is never given back: not before the process restarts, unless a reconciliation of the run reads an
      outdated status. */
  lemma {:induction false} SettledKeepsItsSlot(c: Config, front: seq<Step>, steps: seq<Step>, uid: string, n: nat)
    requires LeftBehind(After(c, front), uid, n) && forall k | 0 <= k < |steps| :: UpToDate(steps[k], uid, n)
    ensures LeftBehind(After(c, front + steps), uid, n)
  {
    if steps != [] {
      var before, last := steps[..|steps| - 1], steps[|steps| - 1];
      SettledKeepsItsSlot(c, front, before, uid, n);
      assert front + steps == front + before + [last];
      StaysAfter(c, front + before, last, uid, n);
    } else {
      assert front + steps == front;
    }
  }

  /** That is what becomes of the slot when the Job is not found any more, or turns out to be another's. */
  lemma LostJobKeepsItsSlot(c: Config, front: seq<Step>, uid: string, seen: nat, found: Option<Job>, active: bool, down: set<string>)
    requires var s := After(c, front);
      && s.gate.ready && uid in s.gate.active && Opens(s, uid, seen) && seen + 1 == |s.runs[uid].versions|
      && s.runs[uid].versions[seen].jobRef.Some?
      && (found.Some? ==> found.value in s.observed
                          && found.value.key == Key(s.runs[uid].run.key.ns, s.runs[uid].versions[seen].jobRef.value))
      && (found.None? || !ExecutionGuards.IsOwn(ReadAt(s.runs[uid], seen), found.value))
    ensures LeftBehind(Next(c, After(c, front), Opened(uid, seen, ObservedJob(found, active, down, Answered))), uid, seen + 1)
  {
    var s := After(c, front);
    RunKeeps(c, front);
    VersionKnown(s, uid, seen);
    ExecutionGuards.OnlyOwnJobsAreObserved(s, uid, seen, found, active, down);
  }
}
