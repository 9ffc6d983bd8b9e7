/** Safety of the TerraformRun protocol over every run of the machine: outdated reads, lost
    answers, crashes, late requests and foreign Jobs included. */
module ExecutionSafety {
  import opened Api
  import opened RunHistory
  import opened Execution
  import Admission
  import AdmissionProofs
  import Capture
  import Gate = ExecutionGate
  import Runner

  // ------------------------------------------------------------- the history

  predicate KeysApart(runs: map<string, Record>, u: string, v: string) {
    u in runs && v in runs && runs[u].run.key == runs[v].run.key ==> u == v
  }

  ghost predicate RunsOk(runs: map<string, Record>) {
    (forall u :: RecordOk(runs, u)) && (forall u, v :: KeysApart(runs, u, v))
  }

  predicate GrownAt(runs: map<string, Record>, later: map<string, Record>, u: string) {
    u in runs ==> u in later && later[u].run == runs[u].run && runs[u].versions <= later[u].versions
  }

  ghost predicate Grown(runs: map<string, Record>, later: map<string, Record>) {
    forall u :: GrownAt(runs, later, u)
  }

  // --------------------------------------------------------- authorised basis

  type Passed = set<(TerraformRun, Admission.Reads)>

  predicate BasisOk(passed: Passed, run: TerraformRun, basis: Option<Admission.Reads>) {
    run.spec.operation.Apply? ==> basis.Some? && (run, basis.value) in passed
  }

  /** What a passed validation read existed, and it did pass. */
  ghost predicate PassedOk(c: Config, s: State) {
    forall run, r | (run, r) in s.passed :: Substantiated(c, s, run, r)
  }

  ghost predicate Substantiated(c: Config, s: State, run: TerraformRun, r: Admission.Reads) {
    && (r.approval.Some? ==> r.approval.value in s.approvals)
    && (r.stack.Some? ==> r.stack.value in s.stacks)
    && (r.plan.Some? ==> WasRun(s.runs, r.plan.value))
    && Admission.ValidateApplyApproval(c.names, run, r).Pass?
  }

  predicate ProgressOk(r: Record, passed: Passed, requested: bool, p: Progress) {
    && p.seen < |r.versions| && !Fenced(r.run.spec) && !Terminal(r.versions[p.seen].outcome)
    && (p.Admitted? || p.Cleared? <==> r.versions[p.seen].jobRef.None?)
    && (p.Cleared? || p.Intended? || p.Sending? ==> BasisOk(passed, r.run, p.basis))
    && (p.Intended? ==> !requested)
  }

  predicate ProgressAt(s: State, u: string) {
    u in s.progress ==> u in s.runs && ProgressOk(s.runs[u], s.passed, u in s.requests, s.progress[u])
  }

  /** A requested run names its Job. */
  predicate RequestAt(s: State, u: string) {
    u in s.requests ==> u in s.runs && s.runs[u].versions != [] && Latest(s.runs[u]).jobRef.Some?
  }

  predicate IssueAt(s: State, i: int) {
    0 <= i < |s.issued| ==>
      var run := s.issued[i].run;
      && run.uid in s.requests && run.uid in s.runs && run == s.runs[run.uid].run
      && !Fenced(run.spec) && BasisOk(s.passed, run, s.issued[i].basis)
  }

  predicate IssuesApart(issued: seq<Issue>, i: int, j: int) {
    0 <= i < j < |issued| ==> issued[i].run.uid != issued[j].run.uid
  }

  predicate CreationAt(requests: map<string, Request>, created: seq<Job>, i: int) {
    0 <= i < |created| ==> created[i].labelUid in requests && requests[created[i].labelUid].Executed?
  }

  predicate CreationsApart(created: seq<Job>, i: int, j: int) {
    0 <= i < j < |created| ==> created[i].labelUid != created[j].labelUid
  }

  ghost predicate CreatedOk(requests: map<string, Request>, created: seq<Job>) {
    (forall i :: CreationAt(requests, created, i)) && (forall i, j :: CreationsApart(created, i, j))
  }

  ghost predicate Inv(s: State) {
    && RunsOk(s.runs)
    && (forall u :: ProgressAt(s, u))
    && (forall u :: RequestAt(s, u))
    && (forall i :: IssueAt(s, i)) && (forall i, j :: IssuesApart(s.issued, i, j))
    && CreatedOk(s.requests, s.created)
  }

  // ----------------------------------------------------------- preservation

  ghost predicate Grows(s: State, t: State) {
    Grown(s.runs, t.runs) && s.stacks <= t.stacks && s.approvals <= t.approvals
  }

  /** A step that logs no validation. */
  ghost predicate Kept(s: State, t: State) { Inv(t) && Grows(s, t) && t.passed == s.passed }

  /** A step that logs at most validations that passed. */
  ghost predicate Sound(c: Config, s: State, t: State) {
    && Inv(t) && Grows(s, t)
    && forall run, r | (run, r) in t.passed && (run, r) !in s.passed :: Substantiated(c, s, run, r)
  }

  // ----------------------------------------------------------- preservation

  lemma AppendKeepsRuns(s: State, uid: string, st: RunStatus)
    requires RunsOk(s.runs) && uid in s.runs && s.runs[uid].versions != []
    requires StatusOk(s.runs[uid].run, st) && Evolves(s.runs[uid].run.spec, Latest(s.runs[uid]), st)
    ensures RunsOk(Append(s, uid, st).runs) && Grown(s.runs, Append(s, uid, st).runs)
  {
    var runs, later := s.runs, Append(s, uid, st).runs;
    assert RecordOk(runs, uid);
    AppendKeepsHistory(runs[uid], st);
    forall u ensures RecordOk(later, u) { assert RecordOk(runs, u); }
    forall u, v ensures KeysApart(later, u, v) { assert KeysApart(runs, u, v); }
  }

  /** Later versions and later validations invalidate nothing that was established. */
  lemma GrowthKeeps(s: State, t: State)
    requires Inv(s) && RunsOk(t.runs) && Grown(s.runs, t.runs) && s.passed <= t.passed
    requires t.progress == s.progress && t.requests == s.requests && t.issued == s.issued && t.created == s.created
    ensures Inv(t)
  {
    forall u ensures ProgressAt(t, u) { assert ProgressAt(s, u) && GrownAt(s.runs, t.runs, u); }
    forall u ensures RequestAt(t, u) {
      assert RequestAt(s, u) && GrownAt(s.runs, t.runs, u);
      if u in s.requests { LatestKeepsJob(s.runs, t.runs, u); }
    }
    forall i ensures IssueAt(t, i) {
      assert IssueAt(s, i);
      if 0 <= i < |s.issued| { assert GrownAt(s.runs, t.runs, s.issued[i].run.uid); }
    }
  }

  lemma LatestKeepsJob(runs: map<string, Record>, later: map<string, Record>, u: string)
    requires RecordOk(later, u) && GrownAt(runs, later, u)
    requires u in runs && runs[u].versions != [] && Latest(runs[u]).jobRef.Some?
    ensures later[u].versions != [] && Latest(later[u]).jobRef == Latest(runs[u]).jobRef
  {
    var n, m := |runs[u].versions|, |later[u].versions|;
    assert runs[u].versions[n - 1] == later[u].versions[n - 1];
    assert VersionsEvolve(later[u], n - 1, m - 1);
  }

  lemma UpdateKeeps(s: State, uid: string, seen: nat, st: RunStatus, w: Write)
    requires Inv(s) && uid in s.runs && seen < |s.runs[uid].versions|
    requires StatusOk(s.runs[uid].run, st) && Evolves(s.runs[uid].run.spec, s.runs[uid].versions[seen], st)
    ensures Kept(s, Update(s, uid, seen, st, w))
  {
    if Takes(s.runs[uid], seen, w) {
      AppendKeepsRuns(s, uid, st);
      GrowthKeeps(s, Append(s, uid, st));
    }
  }

  /** The gate, the Jobs, the artifacts and the clock do not matter to safety, and forgetting a
      reconciliation does no harm. */
  lemma ForgetKeeps(s: State, t: State)
    requires Inv(s)
    requires t.runs == s.runs && t.passed == s.passed && s.stacks <= t.stacks && s.approvals <= t.approvals
    requires t.requests == s.requests && t.issued == s.issued && t.created == s.created
    requires forall u | u in t.progress :: u in s.progress && t.progress[u] == s.progress[u]
    ensures Kept(s, t)
  {
    forall u ensures ProgressAt(t, u) { assert ProgressAt(s, u); }
    forall u ensures RequestAt(t, u) { assert RequestAt(s, u); }
    forall i ensures IssueAt(t, i) { assert IssueAt(s, i); }
  }

  lemma AdvanceKeeps(s: State, uid: string, p: Progress)
    requires Inv(s) && uid in s.runs && ProgressOk(s.runs[uid], s.passed, uid in s.requests, p)
    ensures Kept(s, s.(progress := s.progress[uid := p]))
  {
    var t := s.(progress := s.progress[uid := p]);
    forall u ensures ProgressAt(t, u) { assert ProgressAt(s, u); }
    forall u ensures RequestAt(t, u) { assert RequestAt(s, u); }
    forall i ensures IssueAt(t, i) { assert IssueAt(s, i); }
  }

  lemma CreateRunKeeps(s: State, run: TerraformRun)
    requires Inv(s)
    ensures Kept(s, CreateRun(s, run))
  {
    ForgetKeeps(s, s);
    if run.uid != "" && run.uid !in s.runs && !KeyTaken(s, run.key) {
      var t := CreateRun(s, run);
      forall u ensures RecordOk(t.runs, u) { assert RecordOk(s.runs, u); }
      forall u, v ensures KeysApart(t.runs, u, v) { assert KeysApart(s.runs, u, v); }
      GrowthKeeps(s, t);
    }
  }

  /** What is known of the version a reconciliation works on. */
  lemma VersionKnown(s: State, uid: string, seen: nat)
    requires Inv(s) && uid in s.runs && seen < |s.runs[uid].versions|
    ensures StatusOk(s.runs[uid].run, s.runs[uid].versions[seen])
    ensures s.runs[uid].run.uid == uid && ProgressAt(s, uid) && RequestAt(s, uid)
    ensures s.runs[uid].versions[seen].jobRef.Some? ==> Latest(s.runs[uid]).jobRef.Some?
    ensures RecordOk(s.runs, uid)
  {
    var r := s.runs[uid];
    assert RecordOk(s.runs, uid) && VersionOk(r, seen) && VersionsEvolve(r, seen, |r.versions| - 1);
  }

  lemma AbortKeeps(s: State, uid: string, reject: bool, w: Write)
    requires Inv(s) && At(s, uid) && (s.progress[uid].Admitted? || s.progress[uid].Cleared?)
    ensures Kept(s, Abort(s, uid, reject, w))
  {
    var seen := s.progress[uid].seen;
    var released := ReleaseSlot(Leave(s, uid), uid);
    VersionKnown(s, uid, seen);
    ForgetKeeps(s, released);
    if reject {
      UpdateKeeps(released, uid, seen, s.runs[uid].versions[seen].(outcome := Rejected, ready := false), w);
    }
  }

  lemma ClearApplyKeeps(s: State, uid: string, r: Admission.Reads)
    requires Inv(s) && AtAdmitted(s, uid)
    ensures var t := Decide(s, uid, r, true, Refused); Inv(t) && Grows(s, t)
  {
    var t := s.(passed := s.passed + {(s.runs[uid].run, r)});
    VersionKnown(s, uid, s.progress[uid].seen);
    GrowthKeeps(s, t);
    AdvanceKeeps(t, uid, Cleared(s.progress[uid].seen, Some(r)));
  }

  lemma ClearPlanKeeps(s: State, uid: string)
    requires Inv(s) && AtAdmitted(s, uid) && !s.runs[uid].run.spec.operation.Apply?
    ensures Kept(s, s.(progress := s.progress[uid := Cleared(s.progress[uid].seen, None)]))
  {
    VersionKnown(s, uid, s.progress[uid].seen);
    AdvanceKeeps(s, uid, Cleared(s.progress[uid].seen, None));
  }

  lemma ValidateKeeps(c: Config, s: State, uid: string, r: Admission.Reads, w: Write)
    requires Inv(s)
    ensures Sound(c, s, Validate(c, s, uid, r, w))
  {
    if AtAdmitted(s, uid) {
      if !s.runs[uid].run.spec.operation.Apply? {
        ClearPlanKeeps(s, uid);
      } else if Admission.ValidateApplyApproval(c.names, s.runs[uid].run, r).Pass? {
        ClearApplyKeeps(s, uid, r);
      } else {
        AbortKeeps(s, uid, true, w);
      }
    }
  }

  lemma IntentKeeps(s: State, uid: string, w: Write)
    requires Inv(s) && AtCleared(s, uid)
    ensures var r, p := s.runs[uid], s.progress[uid];
            var stored := Update(s, uid, p.seen, r.versions[p.seen].(jobRef := Some(r.run.key.name)), w);
            Kept(s, stored) && ProgressAt(stored, uid)
  {
    var p, r := s.progress[uid], s.runs[uid];
    VersionKnown(s, uid, p.seen);
    UpdateKeeps(s, uid, p.seen, r.versions[p.seen].(jobRef := Some(r.run.key.name)), w);
  }

  lemma PersistIntentKeeps(s: State, uid: string, w: Write)
    requires Inv(s)
    ensures Kept(s, PersistIntent(s, uid, w))
  {
    ForgetKeeps(s, s);
    if AtCleared(s, uid) && !w.Skipped? {
      var p, r := s.progress[uid], s.runs[uid];
      var st := r.versions[p.seen].(jobRef := Some(r.run.key.name));
      var stored := Update(s, uid, p.seen, st, w);
      IntentKeeps(s, uid, w);
      if w.Answered? && Takes(r, p.seen, w) {
        VersionKnown(s, uid, p.seen);
        assert stored.runs[uid].versions[p.seen + 1] == st;
        AdvanceKeeps(stored, uid, Intended(p.seen + 1, p.basis));
      } else {
        ForgetKeeps(stored, ReleaseSlot(Leave(stored, uid), uid));
      }
    }
  }

  lemma SendCreateKeeps(s: State, uid: string)
    requires Inv(s)
    ensures Kept(s, SendCreate(s, uid))
  {
    ForgetKeeps(s, s);
    if At(s, uid) && s.progress[uid].Intended? {
      var p, t := s.progress[uid], SendCreate(s, uid);
      VersionKnown(s, uid, p.seen);
      forall u ensures ProgressAt(t, u) { assert ProgressAt(s, u); }
      forall u ensures RequestAt(t, u) { assert RequestAt(s, u); }
      forall i ensures IssueAt(t, i) { assert IssueAt(s, i); }
      forall i, j ensures IssuesApart(t.issued, i, j) { assert IssuesApart(s.issued, i, j) && IssueAt(s, i); }
      forall i ensures CreationAt(t.requests, t.created, i) { assert CreationAt(s.requests, s.created, i); }
    }
  }

  /** Changing the state of requests, but not who made one, does no harm. */
  lemma SameRequestersKeep(s: State, t: State)
    requires Inv(s) && t.runs == s.runs && t.passed == s.passed && t.issued == s.issued
    requires t.stacks == s.stacks && t.approvals == s.approvals
    requires t.requests.Keys == s.requests.Keys && CreatedOk(t.requests, t.created)
    requires forall u | u in t.progress :: u in s.progress && t.progress[u] == s.progress[u]
    ensures Kept(s, t)
  {
    forall u ensures ProgressAt(t, u) { assert ProgressAt(s, u) && (u in t.requests.Keys <==> u in s.requests.Keys); }
    forall u ensures RequestAt(t, u) { assert RequestAt(s, u) && (u in t.requests.Keys <==> u in s.requests.Keys); }
    forall i ensures IssueAt(t, i) {
      assert IssueAt(s, i);
      if 0 <= i < |s.issued| { assert s.issued[i].run.uid in t.requests.Keys; }
    }
  }

  lemma CreationKeeps(requests: map<string, Request>, created: seq<Job>, uid: string, job: Job)
    requires CreatedOk(requests, created) && uid in requests && !requests[uid].Executed? && job.labelUid == uid
    ensures CreatedOk(requests[uid := Executed], created) && CreatedOk(requests[uid := Executed], created + [job])
  {
    var after, more := requests[uid := Executed], created + [job];
    forall i ensures CreationAt(after, created, i) && CreationAt(after, more, i) { assert CreationAt(requests, created, i); }
    forall i, j ensures CreationsApart(more, i, j) {
      assert CreationsApart(created, i, j) && CreationAt(requests, created, i);
    }
  }

  lemma ExecuteCreateKeeps(s: State, uid: string, jobUid: string)
    requires Inv(s)
    ensures Kept(s, ExecuteCreate(s, uid, jobUid))
  {
    var t := ExecuteCreate(s, uid, jobUid);
    if uid in s.requests && !s.requests[uid].Executed? && uid in s.runs && jobUid != "" {
      CreationKeeps(s.requests, s.created, uid, Job(s.runs[uid].run.key, jobUid, uid, Some(uid), false));
      assert t.requests.Keys == s.requests.Keys;
      SameRequestersKeep(s, t);
    } else {
      ForgetKeeps(s, t);
    }
  }

  lemma CreateFailsKeeps(s: State, uid: string)
    requires Inv(s)
    ensures Kept(s, CreateFails(s, uid))
  {
    var t := CreateFails(s, uid);
    if AtSending(s, uid) && !s.requests[uid].Executed? {
      forall i ensures CreationAt(t.requests, t.created, i) { assert CreationAt(s.requests, s.created, i); }
      assert t.requests.Keys == s.requests.Keys;
      SameRequestersKeep(s, t);
    } else {
      ForgetKeeps(s, t);
    }
  }

  lemma ReconstructKeeps(s: State, order: seq<Job>)
    requires Inv(s)
    ensures Kept(s, Reconstruct(s, order))
  {
    var t := Reconstruct(s, order);
    if !s.gate.ready && Lists(s.jobs, order) {
      forall i ensures CreationAt(t.requests, t.created, i) { assert CreationAt(s.requests, s.created, i); }
      assert t.requests.Keys == s.requests.Keys;
      SameRequestersKeep(s, t);
    } else {
      ForgetKeeps(s, t);
    }
  }

  lemma FindJobKeeps(s: State, uid: string, job: Job, w: Write)
    requires Inv(s)
    ensures Kept(s, FindJob(s, uid, job, w))
  {
    ForgetKeeps(s, s);
    if AtCleared(s, uid) {
      var seen := s.progress[uid].seen;
      var run := ReadAt(s.runs[uid], seen);
      VersionKnown(s, uid, seen);
      ForgetKeeps(s, Leave(s, uid));
      if JobIdentity(run, job).Fail? {
        UpdateKeeps(Leave(s, uid), uid, seen, run.status.(outcome := Indeterminate, ready := false), w);
      } else {
        UpdateKeeps(Leave(s, uid), uid, seen, JobStarted(run.status, run.key.name, job), w);
      }
    }
  }

  lemma RecordStartKeeps(s: State, uid: string, w: Write)
    requires Inv(s)
    ensures Kept(s, RecordStart(s, uid, w))
  {
    ForgetKeeps(s, s);
    if At(s, uid) && s.progress[uid].Started? {
      var p, r := s.progress[uid], s.runs[uid];
      VersionKnown(s, uid, p.seen);
      ForgetKeeps(s, Leave(s, uid));
      UpdateKeeps(Leave(s, uid), uid, p.seen, JobStarted(r.versions[p.seen], r.run.key.name, p.job), w);
    }
  }

  lemma RejectKeeps(s: State, uid: string, seen: nat, w: Write)
    requires Inv(s)
    ensures Kept(s, RejectAtOnce(s, uid, seen, w))
  {
    ForgetKeeps(s, s);
    if uid in s.runs && seen < |s.runs[uid].versions| {
      VersionKnown(s, uid, seen);
      if OpensFresh(s, uid, seen) || Fenced(s.runs[uid].run.spec) {
        UpdateKeeps(s, uid, seen, s.runs[uid].versions[seen].(outcome := Rejected, ready := false), w);
      }
    }
  }

  lemma CaptureKeeps(s: State, uid: string, seen: nat, job: Option<string>, down: set<string>, w: Write)
    requires Inv(s) && Opens(s, uid, seen)
    ensures Kept(s, Update(s, uid, seen, Capture.Recorded(ReadAt(s.runs[uid], seen), s.bucket, job, down), w))
  {
    var run := ReadAt(s.runs[uid], seen);
    VersionKnown(s, uid, seen);
    Capture.RecordedKeepsJob(run, s.bucket, job, down);
    UpdateKeeps(s, uid, seen, Capture.Recorded(run, s.bucket, job, down), w);
  }

  /** A new outcome for an open run, whatever the outcome. */
  lemma OutcomeKeeps(s: State, uid: string, seen: nat, outcome: Outcome, w: Write)
    requires Inv(s) && Opens(s, uid, seen) && !outcome.Rejected?
    ensures Kept(s, Update(s, uid, seen, ReadAt(s.runs[uid], seen).status.(outcome := outcome, ready := false), w))
  {
    VersionKnown(s, uid, seen);
    UpdateKeeps(s, uid, seen, s.runs[uid].versions[seen].(outcome := outcome, ready := false), w);
  }

  lemma AskSlotKeeps(s: State, uid: string, seen: nat, w: Write)
    requires Inv(s)
    ensures Kept(s, AskSlot(s, uid, seen, w))
  {
    ForgetKeeps(s, s);
    if OpensFresh(s, uid, seen) {
      var run := ReadAt(s.runs[uid], seen);
      if Gate.Grants(s.gate, ItemOf(run)) {
        var granted := s.(gate := Gate.Admit(s.gate, ItemOf(run)));
        ForgetKeeps(s, granted);
        AdvanceKeeps(granted, uid, Admitted(seen));
      } else {
        OutcomeKeeps(s, uid, seen, Pending, w);
      }
    }
  }

  lemma ObserveFinishedKeeps(s: State, uid: string, seen: nat, st: RunStatus, w: Write)
    requires Inv(s) && Opens(s, uid, seen) && Kept(s, Update(s, uid, seen, st, w))
    ensures Kept(s, ObserveFinished(s, uid, seen, st, w))
  {
    var written := Update(s, uid, seen, st, w);
    ForgetKeeps(written, ReleaseSlot(written, uid));
  }

  lemma ObserveActiveKeeps(s: State, uid: string, seen: nat, active: bool, w: Write)
    requires Inv(s) && Opens(s, uid, seen)
    ensures Kept(s, ObserveActive(s, uid, seen, active, w))
  {
    var run := ReadAt(s.runs[uid], seen);
    if Gate.Grants(s.gate, ItemOf(run)) {
      var admitted := s.(gate := Gate.Admit(s.gate, ItemOf(run)));
      ForgetKeeps(s, admitted);
      OutcomeKeeps(admitted, uid, seen, if active then Running else Pending, w);
    } else {
      OutcomeKeeps(s, uid, seen, Pending, w);
    }
  }

  lemma ObserveKeeps(s: State, uid: string, seen: nat, found: Option<Job>, active: bool, down: set<string>, w: Write)
    requires Inv(s)
    ensures Kept(s, ObserveJob(s, uid, seen, found, active, down, w))
  {
    ForgetKeeps(s, s);
    if Opens(s, uid, seen) {
      var run := ReadAt(s.runs[uid], seen);
      if found.None? || JobIdentity(run, found.value).Fail? {
        OutcomeKeeps(s, uid, seen, Indeterminate, w);
      } else if found.value.finished {
        CaptureKeeps(s, uid, seen, Some(found.value.uid), down, w);
        ObserveFinishedKeeps(s, uid, seen, Capture.Recorded(run, s.bucket, Some(found.value.uid), down), w);
      } else {
        ObserveActiveKeeps(s, uid, seen, active, w);
      }
    }
  }

  lemma WorldKeeps(s: State, change: WorldStep)
    requires Inv(s)
    ensures Kept(s, NextWorld(s, change))
  {
    match change
    case CreatedRun(run) => CreateRunKeeps(s, run);
    case SupersededPlan(uid) => SupersedeKeeps(s, uid);
    case _ => ForgetKeeps(s, NextWorld(s, change));
  }

  lemma SupersedeKeeps(s: State, uid: string)
    requires Inv(s)
    ensures Kept(s, SupersedePlan(s, uid))
  {
    ForgetKeeps(s, s);
    if uid in s.runs && s.runs[uid].run.spec.operation.Plan? {
      var r := s.runs[uid];
      assert RecordOk(s.runs, uid);
      VersionKnown(s, uid, |r.versions| - 1);
      UpdateKeeps(s, uid, |r.versions| - 1, Latest(r).(outcome := Superseded, ready := false), Answered);
    }
  }

  lemma OpeningKeeps(s: State, uid: string, seen: nat, opening: Opening)
    requires Inv(s)
    ensures Kept(s, NextOpening(s, uid, seen, opening))
  {
    match opening
    case RejectedAtOnce(w) => RejectKeeps(s, uid, seen, w);
    case CapturedEarly(down, w) => if OpensFresh(s, uid, seen) { CaptureKeeps(s, uid, seen, None, down, w); }
    case AskedSlot(w) => AskSlotKeeps(s, uid, seen, w);
    case ObservedJob(found, active, down, w) => ObserveKeeps(s, uid, seen, found, active, down, w);
  }

  lemma ContinuationKeeps(c: Config, s: State, uid: string, next: Continuation)
    requires Inv(s)
    ensures Sound(c, s, NextContinuation(c, s, uid, next))
  {
    if next.Validated? {
      ValidateKeeps(c, s, uid, next.basis, next.w);
    } else {
      UnvalidatedKeeps(c, s, uid, next);
    }
  }

  lemma UnvalidatedKeeps(c: Config, s: State, uid: string, next: Continuation)
    requires Inv(s) && !next.Validated?
    ensures Kept(s, NextContinuation(c, s, uid, next))
  {
    match next
    case JobRefused(w) => AbortedKeeps(s, uid, w);
    case LookupFailed => AbortedKeeps(s, uid, Refused);
    case JobFound(job, w) => FindJobKeeps(s, uid, job, w);
    case PersistedIntent(w) => PersistIntentKeeps(s, uid, w);
    case SentCreate => SendCreateKeeps(s, uid);
    case CreateReturned(job) => CreateReturnsKeeps(s, uid, job);
    case CreateFailed => CreateFailsKeeps(s, uid);
    case RecordedStart(w) => RecordStartKeeps(s, uid, w);
  }

  lemma AbortedKeeps(s: State, uid: string, w: Write)
    requires Inv(s)
    ensures Kept(s, RefuseJob(s, uid, w)) && Kept(s, FailLookup(s, uid))
  {
    ForgetKeeps(s, s);
    if AtCleared(s, uid) {
      AbortKeeps(s, uid, true, w);
      AbortKeeps(s, uid, false, Refused);
    }
  }

  lemma CreateReturnsKeeps(s: State, uid: string, job: Job)
    requires Inv(s)
    ensures Kept(s, CreateReturns(s, uid, job))
  {
    ForgetKeeps(s, s);
    if AtSending(s, uid) {
      VersionKnown(s, uid, s.progress[uid].seen);
      AdvanceKeeps(s, uid, Started(s.progress[uid].seen, job));
    }
  }

  lemma NextKeeps(c: Config, s: State, step: Step)
    requires Inv(s)
    ensures Sound(c, s, Next(c, s, step))
  {
    match step
    case World(change) => WorldKeeps(s, change);
    case Opened(uid, seen, opening) => OpeningKeeps(s, uid, seen, opening);
    case Continued(uid, next) => ContinuationKeeps(c, s, uid, next);
    case ExecutedCreate(uid, jobUid) => ExecuteCreateKeeps(s, uid, jobUid);
    case Crashed => ForgetKeeps(s, Crash(c, s));
    case Reconstructed(order) => ReconstructKeeps(s, order);
  }

  // --------------------------------------------------- passed validations

  lemma PassedKeeps(c: Config, s: State, t: State)
    requires PassedOk(c, s) && Sound(c, s, t)
    ensures PassedOk(c, t)
  {
    forall run, r | (run, r) in t.passed ensures Substantiated(c, t, run, r) {
      assert Substantiated(c, s, run, r);
      if r.plan.Some? { assert GrownAt(s.runs, t.runs, r.plan.value.uid); }
    }
  }

  lemma {:induction false} RunKeeps(c: Config, steps: seq<Step>)
    ensures Inv(After(c, steps)) && PassedOk(c, After(c, steps))
  {
    if steps != [] {
      RunKeeps(c, steps[..|steps| - 1]);
      NextKeeps(c, After(c, steps[..|steps| - 1]), steps[|steps| - 1]);
      PassedKeeps(c, After(c, steps[..|steps| - 1]), After(c, steps));
    }
  }

  // ------------------------------------------------------------- the results

  /** No run has its Job created twice: at most one Create request is ever sent for it, and at
      most one Job ever comes of it. */
  lemma AtMostOnce(c: Config, steps: seq<Step>)
    ensures var s := After(c, steps);
      && (forall i, j | 0 <= i < j < |s.issued| :: s.issued[i].run.uid != s.issued[j].run.uid)
      && (forall i, j | 0 <= i < j < |s.created| :: s.created[i].labelUid != s.created[j].labelUid)
  {
    RunKeeps(c, steps);
    var s := After(c, steps);
    forall i, j | 0 <= i < j < |s.issued| ensures s.issued[i].run.uid != s.issued[j].run.uid {
      assert IssuesApart(s.issued, i, j);
    }
    forall i, j | 0 <= i < j < |s.created| ensures s.created[i].labelUid != s.created[j].labelUid {
      assert CreationsApart(s.created, i, j);
    }
  }

  /** Every Apply whose Create request is sent was authorised: the approval, the Plan and the
      stack its validation read were all in the API server, and bind it completely. */
  lemma OnlyAuthorisedApplies(c: Config, steps: seq<Step>, i: nat)
    requires i < |After(c, steps).issued| && After(c, steps).issued[i].run.spec.operation.Apply?
    ensures var s := After(c, steps);
      var apply, basis := s.issued[i].run, s.issued[i].basis;
      && basis.Some? && basis.value.approval.Some? && basis.value.plan.Some? && basis.value.stack.Some?
      && basis.value.approval.value in s.approvals && basis.value.stack.value in s.stacks
      && WasRun(s.runs, basis.value.plan.value)
      && AdmissionProofs.Authorised(apply, basis.value.stack.value, basis.value.plan.value, basis.value.approval.value, basis.value.now)
      && apply.spec == Admission.BuildApplyRun(basis.value.stack.value, basis.value.plan.value, basis.value.approval.value)
  {
    RunKeeps(c, steps);
    var s := After(c, steps);
    assert IssueAt(s, i);
    var apply, basis := s.issued[i].run, s.issued[i].basis.value;
    assert Substantiated(c, s, apply, basis);
    AdmissionProofs.ValidatedMeansAuthorised(c.names, apply, basis);
    AdmissionProofs.ApplyValidationIsExact(c.names, apply, basis);
  }

  /** An issued Apply carries the one name its Plan allows. */
  lemma ApplyKey(c: Config, s: State, i: nat)
    requires Inv(s) && PassedOk(c, s) && i < |s.issued| && s.issued[i].run.spec.operation.Apply?
    ensures var apply := s.issued[i].run;
      && apply.spec.planRunUID in s.runs
      && (var plan := s.runs[apply.spec.planRunUID].run;
          apply.key == Key(plan.key.ns, c.names.applyRun(plan.key.name, apply.spec.planRunUID)))
  {
    assert IssueAt(s, i);
    var apply, basis := s.issued[i].run, s.issued[i].basis.value;
    assert Substantiated(c, s, apply, basis);
    AdmissionProofs.ValidatedMeansAuthorised(c.names, apply, basis);
  }

  /** However many approvals match a Plan and however many runs claim to apply it, at most one
      Apply Job is ever requested for it. */
  lemma OneApplyPerPlan(c: Config, steps: seq<Step>, i: nat, j: nat)
    requires i < |After(c, steps).issued| && j < |After(c, steps).issued|
    requires After(c, steps).issued[i].run.spec.operation.Apply? && After(c, steps).issued[j].run.spec.operation.Apply?
    requires After(c, steps).issued[i].run.spec.planRunUID == After(c, steps).issued[j].run.spec.planRunUID
    ensures i == j
  {
    RunKeeps(c, steps);
    var s := After(c, steps);
    ApplyKey(c, s, i);
    ApplyKey(c, s, j);
    assert IssueAt(s, i) && IssueAt(s, j);
    assert KeysApart(s.runs, s.issued[i].run.uid, s.issued[j].run.uid);
    assert IssuesApart(s.issued, i, j) && IssuesApart(s.issued, j, i);
  }

  /** Whatever happens later, a status that names a Job goes on naming it, and a settled Apply
      keeps its status for ever. */
  lemma HistoryIsStable(c: Config, steps: seq<Step>, uid: string, i: nat, j: nat)
    requires uid in After(c, steps).runs && i <= j < |After(c, steps).runs[uid].versions|
    ensures var r := After(c, steps).runs[uid];
      && (r.versions[i].jobRef.Some? ==> r.versions[j].jobRef == r.versions[i].jobRef)
      && (r.run.spec.operation.Apply? && Terminal(r.versions[i].outcome) ==> r.versions[j] == r.versions[i])
  {
    RunKeeps(c, steps);
    HistoryAt(After(c, steps), uid, i, j);
  }

  lemma HistoryAt(s: State, uid: string, i: nat, j: nat)
    requires Inv(s) && uid in s.runs && i <= j < |s.runs[uid].versions|
    ensures var r := s.runs[uid];
      && (r.versions[i].jobRef.Some? ==> r.versions[j].jobRef == r.versions[i].jobRef)
      && (r.run.spec.operation.Apply? && Terminal(r.versions[i].outcome) ==> r.versions[j] == r.versions[i])
  {
    assert RecordOk(s.runs, uid) && VersionsEvolve(s.runs[uid], i, j);
  }

  lemma RejectedHasNoRequest(s: State, uid: string, i: nat, k: nat)
    requires Inv(s) && uid in s.runs && i < |s.runs[uid].versions| && s.runs[uid].versions[i].outcome.Rejected?
    requires k < |s.issued|
    ensures s.issued[k].run.uid != uid
  {
    var r := s.runs[uid];
    VersionKnown(s, uid, i);
    assert IssueAt(s, k) && RequestAt(s, uid) && VersionsEvolve(r, i, |r.versions| - 1);
  }

  /** A run that is ever recorded Rejected never had a Job requested. */
  lemma RejectedNeverRan(c: Config, steps: seq<Step>, uid: string, i: nat, k: nat)
    requires uid in After(c, steps).runs && i < |After(c, steps).runs[uid].versions|
    requires After(c, steps).runs[uid].versions[i].outcome.Rejected?
    requires k < |After(c, steps).issued|
    ensures After(c, steps).issued[k].run.uid != uid
  {
    RunKeeps(c, steps);
    RejectedHasNoRequest(After(c, steps), uid, i, k);
  }
}
