/** The TerraformRun reconciler (internal/controller/terraformrun_controller.go) as a state
    machine over the API server, its Jobs, one controller process and its execution gate.

    Every read of a run may be of an outdated version, every status update is a
    compare-and-swap on the version read, and a Create request may be executed at any time
    after it was sent, whether or not its sender still waits. `Next` is total: a step whose
    guard does not hold leaves the state alone, so every sequence of steps is a run. */
module Execution {
  import opened Api
  import opened RunHistory
  import Admission
  import ArtifactStore
  import Capture
  import Gate = ExecutionGate
  import Runner

  datatype Config = Config(names: Admission.Names, planLimit: nat, applyLimit: nat)

  /** `labelUid` is the terraform-run-uid label, `owner` the UID in the TerraformRun owner reference. */
  datatype Job = Job(key: Key, uid: string, labelUid: string, owner: Option<string>, finished: bool)

  /** How far the reconciliation of one run has come; `seen` is the status version it works on,
      `basis` what an Apply's validation read. */
  datatype Progress = Admitted(seen: nat)
                    | Cleared(seen: nat, basis: Option<Admission.Reads>)
                    | Intended(seen: nat, basis: Option<Admission.Reads>)
                    | Sending(seen: nat, basis: Option<Admission.Reads>)
                    | Started(seen: nat, job: Job)

  /** A Create request. It is abandoned once it is unexecuted and the gate no longer accounts for
      it: the sender got an error, or a reconstruction has happened since. */
  datatype Request = Flying | Abandoned | Executed

  datatype Issue = Issue(run: TerraformRun, basis: Option<Admission.Reads>)

  datatype State = State(
    runs: map<string, Record>,                        // by UID; runs are never deleted
    stacks: set<InfraStack>, approvals: set<ChangeApproval>, // every version there ever was
    bucket: ArtifactStore.Bucket, clock: nat,
    jobs: map<Key, Job>, observed: set<Job>,          // now, and every Job state there ever was
    gate: Gate.View, progress: map<string, Progress>, // the process
    requests: map<string, Request>,                   // the network
    passed: set<(TerraformRun, Admission.Reads)>,     // logs: validations an Apply passed,
    issued: seq<Issue>, created: seq<Job>)            // Create requests, created Jobs

  function ClosedGate(c: Config): Gate.View { Gate.Initial(c.planLimit, c.applyLimit).(ready := false) }

  function Init(c: Config): State {
    State(map[], {}, {}, map[], 0, map[], {}, ClosedGate(c), map[], map[], {}, [], [])
  }

  // ----------------------------------------------------------- the run itself

  function ItemOf(run: TerraformRun): Gate.WorkItem {
    Gate.WorkItem(if run.uid == "" then run.key.ns + "/" + run.key.name else run.uid,
                  if run.spec.operation.Apply? then Gate.Apply else Gate.Plan,
                  run.key.ns + "/" + run.spec.stackName,
                  run.spec.concurrencyGroup, run.spec.maxConcurrentPlans, run.spec.maxConcurrentApplies)
  }

  function JobIdentity(run: TerraformRun, job: Job): Check {
    if run.status.jobUID != "" && job.uid != "" && run.status.jobUID != job.uid then Fail(JobUIDChanged)
    else if run.uid != "" && job.labelUid != run.uid then Fail(JobLabelMismatch)
    else if job.owner.Some? && job.owner.value != run.uid then Fail(JobOwnerMismatch)
    else if run.uid != "" && job.owner.None? then Fail(JobNotOwned)
    else Pass
  }

  // ----------------------------------------------------------- status updates

  /** The fate of one status update: answered, taken without an answer, refused, or left out
      because some version read in between already says the same. */
  datatype Write = Answered | ReplyLost | Refused | Skipped

  predicate Takes(r: Record, seen: nat, w: Write) { (w.Answered? || w.ReplyLost?) && seen + 1 == |r.versions| }

  predicate Reports(r: Record, seen: nat, st: RunStatus, w: Write) {
    (w.Answered? && seen + 1 == |r.versions|) || (w.Skipped? && st in r.versions)
  }

  function Append(s: State, uid: string, st: RunStatus): State
    requires uid in s.runs
  {
    s.(runs := s.runs[uid := s.runs[uid].(versions := s.runs[uid].versions + [st])])
  }

  function Update(s: State, uid: string, seen: nat, st: RunStatus, w: Write): State
    requires uid in s.runs
  {
    if Takes(s.runs[uid], seen, w) then Append(s, uid, st) else s
  }

  function Leave(s: State, uid: string): State { s.(progress := s.progress - {uid}) }

  function ReleaseSlot(s: State, uid: string): State
    requires uid in s.runs
  {
    s.(gate := Gate.Released(s.gate, ItemOf(s.runs[uid].run).id))
  }

  // ------------------------------------------------------------ environment

  ghost predicate KeyTaken(s: State, key: Key) { exists u | u in s.runs :: s.runs[u].run.key == key }

  /** Anybody may create any run, in the stack reconciler's name or not; the API server gives it a
      new UID, refuses a taken name and starts it without status. */
  ghost function CreateRun(s: State, run: TerraformRun): State {
    if run.uid == "" || run.uid in s.runs || KeyTaken(s, run.key) then s
    else s.(runs := s.runs[run.uid := Record(run.(status := EmptyStatus), [EmptyStatus])])
  }

  /** ensurePlanRun marks an outdated Plan attempt. */
  function SupersedePlan(s: State, uid: string): State {
    if uid !in s.runs || !s.runs[uid].run.spec.operation.Plan? || s.runs[uid].versions == [] then s
    else Append(s, uid, Latest(s.runs[uid]).(outcome := Superseded, ready := false))
  }

  function AddJob(s: State, job: Job): State {
    if job.key in s.jobs then s else s.(jobs := s.jobs[job.key := job], observed := s.observed + {job})
  }

  function EndJob(s: State, key: Key): State {
    if key !in s.jobs then s else
    var job := s.jobs[key].(finished := true);
    s.(jobs := s.jobs[key := job], observed := s.observed + {job})
  }

  // ------------------------------------------------------------- reconciling

  /** A new reconciliation of `uid` that reads status version `seen` and is not done at once. */
  predicate Opens(s: State, uid: string, seen: nat) {
    && uid in s.runs && seen < |s.runs[uid].versions| && uid !in s.progress
    && !Fenced(s.runs[uid].run.spec) && !Terminal(s.runs[uid].versions[seen].outcome)
  }

  predicate OpensFresh(s: State, uid: string, seen: nat) {
    Opens(s, uid, seen) && s.runs[uid].versions[seen].jobRef.None?
  }

  /** The fence check, which comes first, and the checks of profile, image and backend. */
  function RejectAtOnce(s: State, uid: string, seen: nat, w: Write): State {
    if || OpensFresh(s, uid, seen)
       || (uid in s.runs && seen < |s.runs[uid].versions| && uid !in s.progress && Fenced(s.runs[uid].run.spec))
    then Update(s, uid, seen, s.runs[uid].versions[seen].(outcome := Rejected, ready := false), w) else s
  }

  /** A terminal result that is already in the store is taken before anything is started. */
  function CaptureEarly(s: State, uid: string, seen: nat, down: set<string>, w: Write): State {
    var key := Runner.RunKey(uid, Runner.TerminalResultFile);
    if OpensFresh(s, uid, seen) && key !in down && ArtifactStore.ReadByKey(s.bucket, key).Ok?
    then Update(s, uid, seen, Capture.Recorded(ReadAt(s.runs[uid], seen), s.bucket, None, down), w) else s
  }

  function AskSlot(s: State, uid: string, seen: nat, w: Write): State {
    if !OpensFresh(s, uid, seen) then s else
    var run := ReadAt(s.runs[uid], seen);
    if Gate.Grants(s.gate, ItemOf(run))
    then s.(gate := Gate.Admit(s.gate, ItemOf(run)), progress := s.progress[uid := Admitted(seen)])
    else Update(s, uid, seen, run.status.(outcome := Pending, ready := false), w)
  }

  predicate At(s: State, uid: string) {
    uid in s.progress && uid in s.runs && s.progress[uid].seen < |s.runs[uid].versions|
  }

  predicate WasRun(runs: map<string, Record>, run: TerraformRun) {
    && run.uid in runs && run.status in runs[run.uid].versions
    && run == runs[run.uid].run.(status := run.status)
  }

  /** Each object read is some version of it; the artifact store and the clock are read as they are. */
  predicate Readable(s: State, r: Admission.Reads) {
    && (r.approval.Some? ==> r.approval.value in s.approvals)
    && (r.stack.Some? ==> r.stack.value in s.stacks)
    && (r.plan.Some? ==> WasRun(s.runs, r.plan.value))
    && r.bucket == s.bucket && r.now == s.clock
  }

  /** Gives the slot back and, unless the source returns a bare error, rejects the run. */
  function Abort(s: State, uid: string, reject: bool, w: Write): State
    requires At(s, uid)
  {
    var seen := s.progress[uid].seen;
    var released := ReleaseSlot(Leave(s, uid), uid);
    if reject then Update(released, uid, seen, s.runs[uid].versions[seen].(outcome := Rejected, ready := false), w)
    else released
  }

  /** validateApplyApproval; it never looks at the Apply's own status. */
  function Validate(c: Config, s: State, uid: string, r: Admission.Reads, w: Write): State {
    if !AtAdmitted(s, uid) then s
    else if !s.runs[uid].run.spec.operation.Apply? then s.(progress := s.progress[uid := Cleared(s.progress[uid].seen, None)])
    else if !Readable(s, r) then s
    else Decide(s, uid, r, Admission.ValidateApplyApproval(c.names, s.runs[uid].run, r).Pass?, w)
  }

  predicate AtAdmitted(s: State, uid: string) { At(s, uid) && s.progress[uid].Admitted? }

  function Decide(s: State, uid: string, r: Admission.Reads, passes: bool, w: Write): State
    requires AtAdmitted(s, uid)
  {
    if passes then s.(progress := s.progress[uid := Cleared(s.progress[uid].seen, Some(r))],
                      passed := s.passed + {(s.runs[uid].run, r)})
    else Abort(s, uid, true, w)
  }

  predicate AtCleared(s: State, uid: string) { At(s, uid) && s.progress[uid].Cleared? }

  /** buildJob fails. */
  function RefuseJob(s: State, uid: string, w: Write): State {
    if AtCleared(s, uid) then Abort(s, uid, true, w) else s
  }

  /** The Job lookup fails, or the owner reference cannot be set. */
  function FailLookup(s: State, uid: string): State {
    if AtCleared(s, uid) then Abort(s, uid, false, Refused) else s
  }

  function JobStarted(st: RunStatus, name: string, job: Job): RunStatus {
    st.(jobRef := Some(name), jobUID := if job.uid != "" then job.uid else st.jobUID, ready := false)
  }

  /** The lookup finds some state of a Job of that name: it is adopted, or found foreign. */
  function FindJob(s: State, uid: string, job: Job, w: Write): State {
    if !AtCleared(s, uid) || job !in s.observed || job.key != s.runs[uid].run.key then s else
    var seen := s.progress[uid].seen;
    var run := ReadAt(s.runs[uid], seen);
    Update(Leave(s, uid), uid, seen,
           if JobIdentity(run, job).Fail? then run.status.(outcome := Indeterminate, ready := false)
           else JobStarted(run.status, run.key.name, job), w)
  }

  /** The intent is stored before the Create request is sent. */
  function PersistIntent(s: State, uid: string, w: Write): State {
    if !AtCleared(s, uid) || w.Skipped? then s else
    var p, r := s.progress[uid], s.runs[uid];
    var stored := Update(s, uid, p.seen, r.versions[p.seen].(jobRef := Some(r.run.key.name)), w);
    if w.Answered? && Takes(r, p.seen, w)
    then stored.(progress := s.progress[uid := Intended(p.seen + 1, p.basis)])
    else ReleaseSlot(Leave(stored, uid), uid)
  }

  function SendCreate(s: State, uid: string): State {
    if !At(s, uid) || !s.progress[uid].Intended? then s else
    var p := s.progress[uid];
    s.(progress := s.progress[uid := Sending(p.seen, p.basis)],
       requests := s.requests[uid := Flying],
       issued := s.issued + [Issue(s.runs[uid].run, p.basis)])
  }

  /** The API server executes a Create request it received, unless the name is taken. */
  function ExecuteCreate(s: State, uid: string, jobUid: string): State {
    if uid !in s.requests || s.requests[uid].Executed? || uid !in s.runs || jobUid == "" then s else
    var done := s.(requests := s.requests[uid := Executed]);
    var job := Job(s.runs[uid].run.key, jobUid, uid, Some(uid), false);
    if job.key in s.jobs then done else AddJob(done, job).(created := s.created + [job])
  }

  predicate AtSending(s: State, uid: string) { At(s, uid) && s.progress[uid].Sending? && uid in s.requests }

  /** The answer arrives: the Job of this run was created. */
  function CreateReturns(s: State, uid: string, job: Job): State {
    if !AtSending(s, uid) || job !in s.created || job.labelUid != uid then s
    else s.(progress := s.progress[uid := Started(s.progress[uid].seen, job)])
  }

  /** The sender gets an error: a refusal, a timeout, a lost answer. */
  function CreateFails(s: State, uid: string): State {
    if !AtSending(s, uid) then s else
    ReleaseSlot(Leave(s, uid), uid).(requests := if s.requests[uid].Executed? then s.requests else s.requests[uid := Abandoned])
  }

  function RecordStart(s: State, uid: string, w: Write): State {
    if !At(s, uid) || !s.progress[uid].Started? then s else
    var p, r := s.progress[uid], s.runs[uid];
    Update(Leave(s, uid), uid, p.seen, JobStarted(r.versions[p.seen], r.run.key.name, p.job), w)
  }

  /** A reconciliation of a run whose status names a Job. */
  function ObserveJob(s: State, uid: string, seen: nat, found: Option<Job>, active: bool, down: set<string>, w: Write): State {
    if !Opens(s, uid, seen) || s.runs[uid].versions[seen].jobRef.None? then s else
    var run := ReadAt(s.runs[uid], seen);
    if found.Some? && (found.value !in s.observed || found.value.key != Key(run.key.ns, run.status.jobRef.value)) then s
    else if found.None? || JobIdentity(run, found.value).Fail?
    then Update(s, uid, seen, run.status.(outcome := Indeterminate, ready := false), w)
    else if found.value.finished
    then ObserveFinished(s, uid, seen, Capture.Recorded(run, s.bucket, Some(found.value.uid), down), w)
    else ObserveActive(s, uid, seen, active, w)
  }

  /** The captured result is recorded; the slot goes back if that was reported to have worked. */
  function ObserveFinished(s: State, uid: string, seen: nat, st: RunStatus, w: Write): State
    requires Opens(s, uid, seen)
  {
    var written := Update(s, uid, seen, st, w);
    if Reports(s.runs[uid], seen, st, w) then ReleaseSlot(written, uid) else written
  }

  /** An unfinished Job takes its slot if it has none. */
  function ObserveActive(s: State, uid: string, seen: nat, active: bool, w: Write): State
    requires Opens(s, uid, seen)
  {
    var run := ReadAt(s.runs[uid], seen);
    if Gate.Grants(s.gate, ItemOf(run))
    then Update(s.(gate := Gate.Admit(s.gate, ItemOf(run))), uid, seen,
                run.status.(outcome := if active then Running else Pending, ready := false), w)
    else Update(s, uid, seen, run.status.(outcome := Pending, ready := false), w)
  }

  // ----------------------------------------------------- restart and recovery

  /** The process dies at any point; a new one starts with a closed gate. */
  function Crash(c: Config, s: State): State { s.(gate := ClosedGate(c), progress := map[]) }

  function Current(runs: map<string, Record>): map<string, TerraformRun> {
    map u | u in runs && runs[u].versions != [] :: runs[u].run.(status := Latest(runs[u]))
  }

  function RunOf(runs: map<string, TerraformRun>, job: Job): Option<TerraformRun> {
    if job.labelUid in runs then Some(runs[job.labelUid])
    else if job.owner.Some? && job.owner.value in runs then Some(runs[job.owner.value]) else None
  }

  function ItemForJob(runs: map<string, TerraformRun>, job: Job): Gate.WorkItem {
    var run := RunOf(runs, job);
    if run.None? || job.key != run.value.key || JobIdentity(run.value, job).Fail?
    then Gate.WorkItem(job.key.ns + "/" + job.key.name, Gate.Other, "", "", 0, 0)
    else ItemOf(run.value)
  }

  function ItemsOf(runs: map<string, TerraformRun>, jobs: seq<Job>): seq<Gate.WorkItem> {
    if jobs == [] then [] else
    var last, before := jobs[|jobs| - 1], ItemsOf(runs, jobs[..|jobs| - 1]);
    if last.finished then before else before + [ItemForJob(runs, last)]
  }

  /** Every Job exactly once, in some order. */
  ghost predicate Lists(jobs: map<Key, Job>, order: seq<Job>) {
    && (forall i | 0 <= i < |order| :: order[i].key in jobs && jobs[order[i].key] == order[i])
    && (forall k | k in jobs :: jobs[k] in order)
    && (forall i, j | 0 <= i < j < |order| :: order[i] != order[j])
  }

  ghost function Reconstruct(s: State, order: seq<Job>): State {
    if s.gate.ready || !Lists(s.jobs, order) then s else
    s.(gate := Gate.Rebuilt(s.gate, ItemsOf(Current(s.runs), order)),
       requests := map u | u in s.requests :: if s.requests[u].Flying? then Abandoned else s.requests[u])
  }

  // --------------------------------------------------------------------- runs

  datatype WorldStep = CreatedRun(run: TerraformRun)
                     | WrittenStack(stack: InfraStack)
                     | WrittenApproval(approval: ChangeApproval)
                     | StoredArtifact(path: string, content: Content)
                     | Tick
                     | SupersededPlan(uid: string)
                     | ForeignJob(job: Job)
                     | JobEnds(key: Key)
                     | JobVanishes(key: Key)

  /** How a reconciliation that has just read its run may go. */
  datatype Opening = RejectedAtOnce(w: Write)
                   | CapturedEarly(down: set<string>, w: Write)
                   | AskedSlot(w: Write)
                   | ObservedJob(found: Option<Job>, active: bool, down: set<string>, w: Write)

  /** How one that holds a slot may go on. */
  datatype Continuation = Validated(basis: Admission.Reads, w: Write)
                        | JobRefused(w: Write)
                        | LookupFailed
                        | JobFound(job: Job, w: Write)
                        | PersistedIntent(w: Write)
                        | SentCreate
                        | CreateReturned(job: Job)
                        | CreateFailed
                        | RecordedStart(w: Write)

  datatype Step = World(change: WorldStep)
                | Opened(uid: string, seen: nat, opening: Opening)
                | Continued(uid: string, next: Continuation)
                | ExecutedCreate(uid: string, jobUid: string)
                | Crashed
                | Reconstructed(order: seq<Job>)

  ghost function NextWorld(s: State, change: WorldStep): State {
    match change
    case CreatedRun(run) => CreateRun(s, run)
    case WrittenStack(stack) => s.(stacks := s.stacks + {stack})
    case WrittenApproval(approval) => s.(approvals := s.approvals + {approval})
    case StoredArtifact(path, content) => s.(bucket := ArtifactStore.Stored(s.bucket, path, content))
    case Tick => s.(clock := s.clock + 1)
    case SupersededPlan(uid) => SupersedePlan(s, uid)
    case ForeignJob(job) => AddJob(s, job)
    case JobEnds(key) => EndJob(s, key)
    case JobVanishes(key) => s.(jobs := s.jobs - {key})
  }

  function NextOpening(s: State, uid: string, seen: nat, opening: Opening): State {
    match opening
    case RejectedAtOnce(w) => RejectAtOnce(s, uid, seen, w)
    case CapturedEarly(down, w) => CaptureEarly(s, uid, seen, down, w)
    case AskedSlot(w) => AskSlot(s, uid, seen, w)
    case ObservedJob(found, active, down, w) => ObserveJob(s, uid, seen, found, active, down, w)
  }

  function NextContinuation(c: Config, s: State, uid: string, next: Continuation): State {
    match next
    case Validated(basis, w) => Validate(c, s, uid, basis, w)
    case JobRefused(w) => RefuseJob(s, uid, w)
    case LookupFailed => FailLookup(s, uid)
    case JobFound(job, w) => FindJob(s, uid, job, w)
    case PersistedIntent(w) => PersistIntent(s, uid, w)
    case SentCreate => SendCreate(s, uid)
    case CreateReturned(job) => CreateReturns(s, uid, job)
    case CreateFailed => CreateFails(s, uid)
    case RecordedStart(w) => RecordStart(s, uid, w)
  }

  ghost function Next(c: Config, s: State, step: Step): State {
    match step
    case World(change) => NextWorld(s, change)
    case Opened(uid, seen, opening) => NextOpening(s, uid, seen, opening)
    case Continued(uid, next) => NextContinuation(c, s, uid, next)
    case ExecutedCreate(uid, jobUid) => ExecuteCreate(s, uid, jobUid)
    case Crashed => Crash(c, s)
    case Reconstructed(order) => Reconstruct(s, order)
  }

  /** The state after `steps`, in order, on an empty cluster and a new process. */
  ghost function After(c: Config, steps: seq<Step>): State {
    if steps == [] then Init(c) else Next(c, After(c, steps[..|steps| - 1]), steps[|steps| - 1])
  }
}
