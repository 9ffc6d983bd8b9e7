/** What is on record about the Jobs of runs: each Job was made for its run, a run never has two, and
    a recorded Job UID is that of the run's only Job. This holds whatever versions are read and
    whatever is reported of a Create, as long as nobody else puts Jobs into the cluster. */
module JobRecords {
  import opened Api
  import opened RunHistory
  import opened Execution
  import opened ExecutionSafety
  import Admission
  import Capture
  import Gate = ExecutionGate

  predicate JobRunning(s: State, u: string) {
    && u in s.runs && s.runs[u].run.key in s.jobs
    && s.jobs[s.runs[u].run.key].labelUid == u && !s.jobs[s.runs[u].run.key].finished
  }

  predicate HasMadeJob(s: State, u: string) { u in s.requests && s.requests[u].Executed? }

  // --------------------------------------------------------------- invariant

  /** A Job was made for its run, and does not come back to life. */
  predicate JobOk(s: State, j: Job) {
    j in s.observed ==>
      && j.labelUid in s.runs && j.key == s.runs[j.labelUid].run.key && j.owner == Some(j.labelUid)
      && j.uid != "" && HasMadeJob(s, j.labelUid)
      && (j.finished && j.key in s.jobs ==> s.jobs[j.key].finished)
  }

  predicate PairOk(s: State, i: Job, j: Job) {
    i in s.observed && j in s.observed && i.labelUid == j.labelUid ==> i.uid == j.uid
  }

  predicate KeyOk(s: State, k: Key) { k in s.jobs ==> s.jobs[k].key == k && s.jobs[k] in s.observed }

  predicate SeenOk(s: State, n: int) { 0 <= n < |s.created| ==> s.created[n] in s.observed }

  /** A recorded Job UID is that of the run's only Job. */
  predicate UidOk(s: State, u: string, n: int, j: Job) {
    u in s.runs && 0 <= n < |s.runs[u].versions| && s.runs[u].versions[n].jobUID != "" ==>
      HasMadeJob(s, u) && (j in s.observed && j.labelUid == u ==> j.uid == s.runs[u].versions[n].jobUID)
  }

  /** A started reconciliation holds the Job that was made for it. */
  predicate StartedOwn(s: State, u: string) {
    u in s.progress && s.progress[u].Started? ==> s.progress[u].job in s.observed && s.progress[u].job.labelUid == u
  }

  ghost predicate JobsOk(s: State) {
    && (forall j :: JobOk(s, j)) && (forall i, j :: PairOk(s, i, j)) && (forall k :: KeyOk(s, k))
    && (forall n :: SeenOk(s, n)) && (forall u, n, j :: UidOk(s, u, n, j)) && (forall u :: StartedOwn(s, u))
  }

  // ----------------------------------------------------- elementary changes

  /** What was made stays made, and only a Job that was created is started with. */
  predicate Follows(s: State, t: State, u: string) {
    && (HasMadeJob(s, u) ==> HasMadeJob(t, u))
    && (u in t.progress && t.progress[u].Started? ==>
          (u in s.progress && s.progress[u] == t.progress[u])
          || (t.progress[u].job in s.created && t.progress[u].job.labelUid == u))
  }

  /** The gate, the reconciliations and the requests under way do not matter. */
  lemma JobsStay(s: State, t: State)
    requires JobsOk(s)
    requires t.runs == s.runs && t.jobs == s.jobs && t.observed == s.observed && t.created == s.created
    requires forall u :: Follows(s, t, u)
    ensures JobsOk(t)
  {
    forall j ensures JobOk(t, j) { assert JobOk(s, j) && Follows(s, t, j.labelUid); }
    forall i, j ensures PairOk(t, i, j) { assert PairOk(s, i, j); }
    forall k ensures KeyOk(t, k) { assert KeyOk(s, k); }
    forall n ensures SeenOk(t, n) { assert SeenOk(s, n); }
    forall u, n, j ensures UidOk(t, u, n, j) { assert UidOk(s, u, n, j) && Follows(s, t, u); }
    forall u ensures StartedOwn(t, u) {
      assert StartedOwn(s, u) && Follows(s, t, u);
      if u in t.progress && t.progress[u].Started? && t.progress[u].job in s.created { CreatedIsObserved(s, t.progress[u].job); }
    }
  }

  lemma CreatedIsObserved(s: State, job: Job)
    requires JobsOk(s) && job in s.created
    ensures job in s.observed
  {
    var n :| 0 <= n < |s.created| && s.created[n] == job;
    assert SeenOk(s, n);
  }

  /** The status may say what it likes about anything but the Job. */
  predicate KnowsJob(s: State, uid: string, st: RunStatus, j: Job) {
    st.jobUID != "" ==> HasMadeJob(s, uid) && (j in s.observed && j.labelUid == uid ==> j.uid == st.jobUID)
  }

  lemma AppendJobs(s: State, uid: string, st: RunStatus)
    requires JobsOk(s) && uid in s.runs && forall j :: KnowsJob(s, uid, st, j)
    ensures JobsOk(Append(s, uid, st))
  {
    var t := Append(s, uid, st);
    forall j ensures JobOk(t, j) { assert JobOk(s, j); }
    forall i, j ensures PairOk(t, i, j) { assert PairOk(s, i, j); }
    forall k ensures KeyOk(t, k) { assert KeyOk(s, k); }
    forall n ensures SeenOk(t, n) { assert SeenOk(s, n); }
    forall u, n, j ensures UidOk(t, u, n, j) { assert UidOk(s, u, n, j) && KnowsJob(s, uid, st, j); }
    forall u ensures StartedOwn(t, u) { assert StartedOwn(s, u); }
  }

  lemma KeptJob(s: State, uid: string, seen: nat, st: RunStatus)
    requires JobsOk(s) && uid in s.runs && seen < |s.runs[uid].versions|
    requires st.jobUID == s.runs[uid].versions[seen].jobUID
    ensures forall j :: KnowsJob(s, uid, st, j)
  {
    forall j ensures KnowsJob(s, uid, st, j) { assert UidOk(s, uid, seen, j); }
  }

  lemma FoundJob(s: State, uid: string, seen: nat, job: Job)
    requires JobsOk(s) && uid in s.runs && seen < |s.runs[uid].versions| && job in s.observed && job.labelUid == uid
    ensures forall j :: KnowsJob(s, uid, JobStarted(s.runs[uid].versions[seen], s.runs[uid].run.key.name, job), j)
  {
    var st := JobStarted(s.runs[uid].versions[seen], s.runs[uid].run.key.name, job);
    forall j ensures KnowsJob(s, uid, st, j) { assert JobOk(s, job) && PairOk(s, job, j); }
  }

  /** A status update that keeps the Job UID it read. */
  lemma UpdateJobs(s: State, uid: string, seen: nat, st: RunStatus, w: Write)
    requires JobsOk(s) && uid in s.runs && seen < |s.runs[uid].versions|
    requires st.jobUID == s.runs[uid].versions[seen].jobUID
    ensures JobsOk(Update(s, uid, seen, st, w))
  {
    KeptJob(s, uid, seen, st);
    AppendJobs(s, uid, st);
  }

  lemma RunningIsMade(s: State, u: string)
    requires JobsOk(s)
    ensures JobRunning(s, u) ==> HasMadeJob(s, u)
  {
    if JobRunning(s, u) {
      assert KeyOk(s, s.runs[u].run.key) && JobOk(s, s.jobs[s.runs[u].run.key]);
    }
  }

  /** An unfinished Job is that of the run it is labelled with. */
  lemma LabelledIsRunning(s: State, k: Key)
    requires JobsOk(s) && k in s.jobs && !s.jobs[k].finished
    ensures JobRunning(s, s.jobs[k].labelUid)
  {
    assert KeyOk(s, k) && JobOk(s, s.jobs[k]);
  }

  // -------------------------------------------------------------------- steps

  lemma CreateRunJobs(s: State, run: TerraformRun)
    requires JobsOk(s)
    ensures JobsOk(CreateRun(s, run))
  {
    var t := CreateRun(s, run);
    forall j ensures JobOk(t, j) { assert JobOk(s, j); }
    forall i, j ensures PairOk(t, i, j) { assert PairOk(s, i, j); }
    forall k ensures KeyOk(t, k) { assert KeyOk(s, k); }
    forall n ensures SeenOk(t, n) { assert SeenOk(s, n); }
    forall u, n, j ensures UidOk(t, u, n, j) { assert UidOk(s, u, n, j); }
    forall u ensures StartedOwn(t, u) { assert StartedOwn(s, u); }
  }

  lemma EndJobJobs(s: State, key: Key)
    requires JobsOk(s)
    ensures JobsOk(EndJob(s, key))
  {
    if key in s.jobs {
      var t, was := EndJob(s, key), s.jobs[key];
      assert KeyOk(s, key) && JobOk(s, was);
      forall j ensures JobOk(t, j) { assert JobOk(s, j); }
      forall i, j ensures PairOk(t, i, j) { assert PairOk(s, i, j) && PairOk(s, was, j) && PairOk(s, i, was); }
      forall k ensures KeyOk(t, k) { assert KeyOk(s, k); }
      forall n ensures SeenOk(t, n) { assert SeenOk(s, n); }
      forall u, n, j ensures UidOk(t, u, n, j) { assert UidOk(s, u, n, j) && UidOk(s, u, n, was); }
      forall u ensures StartedOwn(t, u) { assert StartedOwn(s, u); }
    }
  }

  lemma VanishJobs(s: State, key: Key)
    requires JobsOk(s)
    ensures JobsOk(s.(jobs := s.jobs - {key}))
  {
    var t := s.(jobs := s.jobs - {key});
    forall j ensures JobOk(t, j) { assert JobOk(s, j); }
    forall i, j ensures PairOk(t, i, j) { assert PairOk(s, i, j); }
    forall k ensures KeyOk(t, k) { assert KeyOk(s, k); }
    forall n ensures SeenOk(t, n) { assert SeenOk(s, n); }
    forall u, n, j ensures UidOk(t, u, n, j) { assert UidOk(s, u, n, j); }
    forall u ensures StartedOwn(t, u) { assert StartedOwn(s, u); }
  }

  lemma SupersedeJobs(s: State, uid: string)
    requires JobsOk(s)
    ensures JobsOk(SupersedePlan(s, uid))
  {
    if uid in s.runs && s.runs[uid].versions != [] {
      var st := Latest(s.runs[uid]).(outcome := Superseded, ready := false);
      KeptJob(s, uid, |s.runs[uid].versions| - 1, st);
      AppendJobs(s, uid, st);
    }
  }

  lemma WorldJobs(s: State, change: WorldStep)
    requires JobsOk(s) && !change.ForeignJob?
    ensures JobsOk(NextWorld(s, change))
  {
    match change
    case CreatedRun(run) => CreateRunJobs(s, run);
    case SupersededPlan(uid) => SupersedeJobs(s, uid);
    case JobEnds(key) => EndJobJobs(s, key);
    case JobVanishes(key) => VanishJobs(s, key);
    case _ => JobsStay(s, NextWorld(s, change));
  }

  lemma ObserveFinishedJobs(s: State, uid: string, seen: nat, st: RunStatus, w: Write)
    requires JobsOk(s) && Opens(s, uid, seen) && st.jobUID == s.runs[uid].versions[seen].jobUID
    ensures JobsOk(ObserveFinished(s, uid, seen, st, w))
  {
    UpdateJobs(s, uid, seen, st, w);
    JobsStay(Update(s, uid, seen, st, w), ObserveFinished(s, uid, seen, st, w));
  }

  lemma ObserveActiveJobs(s: State, uid: string, seen: nat, active: bool, w: Write)
    requires JobsOk(s) && Opens(s, uid, seen)
    ensures JobsOk(ObserveActive(s, uid, seen, active, w))
  {
    var run := ReadAt(s.runs[uid], seen);
    var held := s.(gate := Gate.Admit(s.gate, ItemOf(run)));
    JobsStay(s, held);
    UpdateJobs(held, uid, seen, run.status.(outcome := if active then Running else Pending, ready := false), w);
    UpdateJobs(s, uid, seen, run.status.(outcome := Pending, ready := false), w);
  }

  lemma ObserveJobs(s: State, uid: string, seen: nat, found: Option<Job>, active: bool, down: set<string>, w: Write)
    requires JobsOk(s)
    ensures JobsOk(ObserveJob(s, uid, seen, found, active, down, w))
  {
    if Opens(s, uid, seen) {
      var run := ReadAt(s.runs[uid], seen);
      if found.None? || JobIdentity(run, found.value).Fail? {
        UpdateJobs(s, uid, seen, run.status.(outcome := Indeterminate, ready := false), w);
      } else if found.value.finished {
        Capture.RecordedKeepsJob(run, s.bucket, Some(found.value.uid), down);
        ObserveFinishedJobs(s, uid, seen, Capture.Recorded(run, s.bucket, Some(found.value.uid), down), w);
      } else {
        ObserveActiveJobs(s, uid, seen, active, w);
      }
    }
  }

  lemma OpeningJobs(s: State, uid: string, seen: nat, opening: Opening)
    requires JobsOk(s)
    ensures JobsOk(NextOpening(s, uid, seen, opening))
  {
    match opening
    case RejectedAtOnce(w) =>
      if uid in s.runs && seen < |s.runs[uid].versions| {
        UpdateJobs(s, uid, seen, s.runs[uid].versions[seen].(outcome := Rejected, ready := false), w);
      }
    case CapturedEarly(down, w) =>
      if OpensFresh(s, uid, seen) {
        var run := ReadAt(s.runs[uid], seen);
        Capture.RecordedKeepsJob(run, s.bucket, None, down);
        UpdateJobs(s, uid, seen, Capture.Recorded(run, s.bucket, None, down), w);
      }
    case AskedSlot(w) =>
      if OpensFresh(s, uid, seen) {
        var run := ReadAt(s.runs[uid], seen);
        if Gate.Grants(s.gate, ItemOf(run)) { JobsStay(s, AskSlot(s, uid, seen, w)); }
        UpdateJobs(s, uid, seen, run.status.(outcome := Pending, ready := false), w);
      }
    case ObservedJob(found, active, down, w) => ObserveJobs(s, uid, seen, found, active, down, w);
  }

  lemma AbortJobs(s: State, uid: string, reject: bool, w: Write)
    requires JobsOk(s) && At(s, uid)
    ensures JobsOk(Abort(s, uid, reject, w))
  {
    var seen, released := s.progress[uid].seen, ReleaseSlot(Leave(s, uid), uid);
    JobsStay(s, released);
    UpdateJobs(released, uid, seen, s.runs[uid].versions[seen].(outcome := Rejected, ready := false), w);
  }

  lemma ValidateJobs(c: Config, s: State, uid: string, r: Admission.Reads, w: Write)
    requires JobsOk(s)
    ensures JobsOk(Validate(c, s, uid, r, w))
  {
    if AtAdmitted(s, uid) {
      DecideJobs(s, uid, r, Admission.ValidateApplyApproval(c.names, s.runs[uid].run, r).Pass?, w);
      JobsStay(s, s.(progress := s.progress[uid := Cleared(s.progress[uid].seen, None)]));
    }
  }

  lemma DecideJobs(s: State, uid: string, r: Admission.Reads, passes: bool, w: Write)
    requires JobsOk(s) && AtAdmitted(s, uid)
    ensures JobsOk(Decide(s, uid, r, passes, w))
  {
    if passes { JobsStay(s, Decide(s, uid, r, passes, w)); } else { AbortJobs(s, uid, true, w); }
  }

  lemma FindJobJobs(s: State, uid: string, job: Job, w: Write)
    requires JobsOk(s) && Inv(s)
    ensures JobsOk(FindJob(s, uid, job, w))
  {
    if AtCleared(s, uid) && job in s.observed {
      var seen, t := s.progress[uid].seen, Leave(s, uid);
      var run := ReadAt(s.runs[uid], seen);
      VersionKnown(s, uid, seen);
      JobsStay(s, t);
      if JobIdentity(run, job).Fail? {
        UpdateJobs(t, uid, seen, run.status.(outcome := Indeterminate, ready := false), w);
      } else {
        FoundJob(t, uid, seen, job);
        AppendJobs(t, uid, JobStarted(run.status, run.key.name, job));
      }
    }
  }

  lemma PersistIntentJobs(s: State, uid: string, w: Write)
    requires JobsOk(s)
    ensures JobsOk(PersistIntent(s, uid, w))
  {
    if AtCleared(s, uid) && !w.Skipped? {
      var p, r := s.progress[uid], s.runs[uid];
      var st := r.versions[p.seen].(jobRef := Some(r.run.key.name));
      UpdateJobs(s, uid, p.seen, st, w);
      JobsStay(Update(s, uid, p.seen, st, w), PersistIntent(s, uid, w));
    }
  }

  lemma RecordStartJobs(s: State, uid: string, w: Write)
    requires JobsOk(s)
    ensures JobsOk(RecordStart(s, uid, w))
  {
    if At(s, uid) && s.progress[uid].Started? {
      var p, t := s.progress[uid], Leave(s, uid);
      assert StartedOwn(s, uid);
      JobsStay(s, t);
      FoundJob(t, uid, p.seen, p.job);
      AppendJobs(t, uid, JobStarted(s.runs[uid].versions[p.seen], s.runs[uid].run.key.name, p.job));
    }
  }

  /** The Job made is the first of its run. */
  lemma FirstJob(s: State, uid: string, j: Job)
    requires JobsOk(s) && Inv(s) && uid in s.runs && !HasMadeJob(s, uid) && j in s.observed
    ensures j.labelUid != uid && j.key != s.runs[uid].run.key
  {
    assert JobOk(s, j) && KeysApart(s.runs, j.labelUid, uid);
  }

  lemma ExecutedJobOk(s: State, uid: string, jobUid: string, j: Job)
    requires JobsOk(s) && Inv(s) && uid in s.requests && uid in s.runs && !HasMadeJob(s, uid) && jobUid != ""
    ensures JobOk(ExecuteCreate(s, uid, jobUid), j)
  {
    assert JobOk(s, j);
    if j in s.observed { FirstJob(s, uid, j); }
  }

  lemma ExecutedPairOk(s: State, uid: string, jobUid: string, i: Job, j: Job)
    requires JobsOk(s) && Inv(s) && uid in s.requests && uid in s.runs && !HasMadeJob(s, uid) && jobUid != ""
    ensures PairOk(ExecuteCreate(s, uid, jobUid), i, j)
  {
    assert PairOk(s, i, j);
    if i in s.observed { FirstJob(s, uid, i); }
    if j in s.observed { FirstJob(s, uid, j); }
  }

  lemma ExecutedRestOk(s: State, uid: string, jobUid: string, u: string, k: Key, n: int, j: Job)
    requires JobsOk(s) && uid in s.requests && uid in s.runs && !HasMadeJob(s, uid) && jobUid != ""
    ensures var t := ExecuteCreate(s, uid, jobUid); KeyOk(t, k) && SeenOk(t, n) && UidOk(t, u, n, j) && StartedOwn(t, u)
  {
    assert KeyOk(s, k) && SeenOk(s, n) && UidOk(s, u, n, j) && StartedOwn(s, u);
  }

  lemma ExecuteCreateJobs(s: State, uid: string, jobUid: string)
    requires JobsOk(s) && Inv(s)
    ensures JobsOk(ExecuteCreate(s, uid, jobUid))
  {
    if uid in s.requests && !HasMadeJob(s, uid) && uid in s.runs && jobUid != "" {
      var t, k, j := ExecuteCreate(s, uid, jobUid), Key("", ""), Job(Key("", ""), "", "", None, false);
      forall j ensures JobOk(t, j) { ExecutedJobOk(s, uid, jobUid, j); }
      forall i, j ensures PairOk(t, i, j) { ExecutedPairOk(s, uid, jobUid, i, j); }
      forall k ensures KeyOk(t, k) { ExecutedRestOk(s, uid, jobUid, "", k, 0, j); }
      forall n ensures SeenOk(t, n) { ExecutedRestOk(s, uid, jobUid, "", k, n, j); }
      forall u, n, j ensures UidOk(t, u, n, j) { ExecutedRestOk(s, uid, jobUid, u, k, n, j); }
      forall u ensures StartedOwn(t, u) { ExecutedRestOk(s, uid, jobUid, u, k, 0, j); }
    }
  }

  lemma ContinuationJobs(c: Config, s: State, uid: string, next: Continuation)
    requires JobsOk(s) && Inv(s)
    ensures JobsOk(NextContinuation(c, s, uid, next))
  {
    match next
    case Validated(basis, w) => ValidateJobs(c, s, uid, basis, w);
    case JobRefused(w) => if AtCleared(s, uid) { AbortJobs(s, uid, true, w); }
    case LookupFailed => if AtCleared(s, uid) { AbortJobs(s, uid, false, Refused); }
    case JobFound(job, w) => FindJobJobs(s, uid, job, w);
    case PersistedIntent(w) => PersistIntentJobs(s, uid, w);
    case RecordedStart(w) => RecordStartJobs(s, uid, w);
    case SentCreate =>
      assert ProgressAt(s, uid);
      JobsStay(s, SendCreate(s, uid));
    case _ => JobsStay(s, NextContinuation(c, s, uid, next));
  }

  lemma NextJobs(c: Config, s: State, step: Step)
    requires JobsOk(s) && Inv(s) && !(step.World? && step.change.ForeignJob?)
    ensures JobsOk(Next(c, s, step))
  {
    match step
    case World(change) => WorldJobs(s, change);
    case Opened(uid, seen, opening) => OpeningJobs(s, uid, seen, opening);
    case Continued(uid, next) => ContinuationJobs(c, s, uid, next);
    case ExecutedCreate(uid, jobUid) => ExecuteCreateJobs(s, uid, jobUid);
    case Crashed => CrashJobs(c, s);
    case Reconstructed(order) => ReconstructJobs(s, order);
  }

  lemma CrashJobs(c: Config, s: State)
    requires JobsOk(s)
    ensures JobsOk(Crash(c, s))
  {
    JobsStay(s, Crash(c, s));
  }

  lemma ReconstructJobs(s: State, order: seq<Job>)
    requires JobsOk(s)
    ensures JobsOk(Reconstruct(s, order))
  {
    JobsStay(s, Reconstruct(s, order));
  }

  /** Nobody but this controller puts Jobs into the cluster. */
  predicate OwnJobsOnly(steps: seq<Step>) {
    forall n | 0 <= n < |steps| :: !(steps[n].World? && steps[n].change.ForeignJob?)
  }

  lemma {:induction false} RunJobs(c: Config, steps: seq<Step>)
    requires OwnJobsOnly(steps)
    ensures JobsOk(After(c, steps))
  {
    if steps != [] {
      var front, last := steps[..|steps| - 1], steps[|steps| - 1];
      RunJobs(c, front);
      RunKeeps(c, front);
      NextJobs(c, After(c, front), last);
    }
  }
}
