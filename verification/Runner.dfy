/** The Terraform runner: internal/terraform/executor.go and main, uploadPlanArtifacts and
    persistTerminalResult of cmd/terraform-runner/main.go.

    Everything the runner cannot control (command results, files, the fate of every
    upload) is a parameter; a killed runner is one whose remaining uploads are lost. */
module Runner {
  import opened Api
  import opened ArtifactStore

  datatype Command = CannotRun(deadline: bool) | Exited(code: int)

  /** One runner process: the identity it is given and how everything outside it behaves. */
  datatype World = World(
    uid: string, jobUID: Option<string>, startedAt: nat, finishedAt: nat,
    storeConfigured: bool, prepared: bool, inputs: Option<map<string, string>>, versionOk: bool,
    requestValid: bool, roleValid: bool,
    init: Command, select: Command, create: Command, terraform: Command,
    planFile: Option<Content>, report: Option<Content>, visualization: Option<Content>,
    backendPath: bool, backend: Option<Content>,
    sourceRoot: bool, bundle: Option<Content>,
    discovery: Option<Content>,
    destroy: bool, version: string, workspace: string,
    planRef: Ref, bundleRef: Ref, backendRef: Ref, retained: Ref,
    fate: Artifact -> Transport)

  /** The objects a runner may leave under its own prefix. */
  datatype Artifact = ModuleInputsFile | PlanBinary | PlanReport | Visualization | BackendConfig | SourceBundleFile
                    | TargetDiscovery | TerminalResultFile

  function FileName(a: Artifact): string {
    match a
    case ModuleInputsFile => "module-inputs.json"
    case PlanBinary => "plan.binary"
    case PlanReport => "plan-report.json"
    case Visualization => "plan-visualization.json"
    case BackendConfig => "backend-config.hcl"
    case SourceBundleFile => "source-bundle.tar.zst"
    case TargetDiscovery => "target-discovery.json"
    case TerminalResultFile => "terminal-result.json"
  }

  function RunKey(uid: string, a: Artifact): string { "runs/" + uid + "/" + FileName(a) }

  /** nil, a deadline error, or any other error. */
  datatype Error = Nil | Deadline | Other

  function ErrorOf(c: Command): Error {
    if c.CannotRun? then (if c.deadline then Deadline else Other) else if c.code == 0 then Nil else Other
  }

  /** Nothing stands in the way of Terraform's own command. */
  predicate Prepared(w: World) {
    && w.jobUID.Some? && w.jobUID.value != "" && w.storeConfigured && w.prepared && w.inputs.Some? && w.versionOk
    && w.requestValid && w.roleValid && w.init == Exited(0)
    && w.select.Exited? && (w.select.code == 0 || w.create == Exited(0))
    && 0 < w.startedAt <= w.finishedAt
  }

  /** All the files a Plan uploads are there. */
  predicate PlanFiles(w: World) {
    && w.planFile.Some? && w.report.Some? && w.backendPath && w.backend.Some? && w.sourceRoot && w.bundle.Some?
    && w.discovery.Some?
  }

  /** The place of an artifact in the order of uploads. */
  function Order(a: Artifact): nat {
    match a
    case ModuleInputsFile => 0
    case PlanBinary => 1
    case PlanReport => 2
    case Visualization => 3
    case BackendConfig => 4
    case SourceBundleFile => 5
    case TargetDiscovery => 6
    case TerminalResultFile => 7
  }

  /** An upload of this artifact will arrive, and be the first. */
  predicate Vacant(w: World, bucket: Bucket, a: Artifact) {
    ValidKey(RunKey(w.uid, a)) && w.fate(a).put.Delivered? && RunKey(w.uid, a) !in bucket
  }

  /** So will every upload from this place on. */
  predicate Clear(w: World, bucket: Bucket, from: nat) {
    forall a: Artifact :: Order(a) >= from ==> Vacant(w, bucket, a)
  }

  datatype PlanResult = PlanResult(outcome: Outcome, exitCode: int, hasPath: bool, hasChanges: bool)
  const NoPlanResult := PlanResult(NoOutcome, 0, false, false)

  /** The request was accepted, `init` went through, and the workspace asked for was selected or made. */
  predicate InWorkspace(w: World) {
    && w.requestValid && w.roleValid && w.init == Exited(0)
    && (w.select == Exited(0) || (w.select.Exited? && w.create == Exited(0)))
  }

  /** What comes before: a store, a prepared source and the expected Terraform version. */
  predicate Permitted(w: World) { w.storeConfigured && w.prepared && w.inputs.Some? && w.versionOk }

  /** The deadline passed while the last of the commands that were reached was being run. */
  predicate TimedOut(w: World) {
    && w.requestValid && w.roleValid
    && (|| w.init == CannotRun(true)
        || (w.init == Exited(0)
            && (|| w.select == CannotRun(true)
                || (w.select.Exited? && w.select != Exited(0) && w.create == CannotRun(true))
                || (InWorkspace(w) && w.terraform == CannotRun(true)))))
  }

  /** Everything Plan and Apply do before their own command: validate, init, select or create the workspace. */
  method Start(w: World) returns (err: Error)
    ensures err.Nil? <==> InWorkspace(w)
    ensures !InWorkspace(w) ==> (err.Deadline? <==> TimedOut(w))
  {
    if !w.requestValid || !w.roleValid { return Other; }
    if !ErrorOf(w.init).Nil? { return ErrorOf(w.init); }
    if w.select.CannotRun? { return ErrorOf(w.select); }
    if w.select.code == 0 { return Nil; }
    return ErrorOf(w.create);
  }

  method ExecutePlan(w: World) returns (r: PlanResult, err: Error)
    ensures err.Nil? <==> InWorkspace(w) && (w.terraform == Exited(0) || w.terraform == Exited(2))
    ensures err.Nil? ==> w.terraform == Exited(r.exitCode) && r.hasPath && r.hasChanges == (r.exitCode == 2)
    ensures err.Nil? ==> (r.outcome == NoChange && r.exitCode == 0) || (r.outcome == ChangesPresent && r.exitCode == 2)
    ensures !err.Nil? ==> r.outcome == Failed || (r.outcome == NoOutcome && r.exitCode == 0)
  {
    var started := Start(w);
    if !started.Nil? { return NoPlanResult, started; }
    if w.terraform.CannotRun? { return NoPlanResult, ErrorOf(w.terraform); }
    match w.terraform.code {
      case 0 => return PlanResult(NoChange, 0, true, false), Nil;
      case 2 => return PlanResult(ChangesPresent, 2, true, true), Nil;
      case _ => return PlanResult(Failed, w.terraform.code, true, false), Other;
    }
  }

  method ExecuteApply(w: World) returns (succeeded: bool, exitCode: int, err: Error)
    ensures succeeded <==> err.Nil?
    ensures succeeded <==> InWorkspace(w) && w.terraform == Exited(0)
    ensures succeeded ==> exitCode == 0
    ensures err.Deadline? <==> TimedOut(w)
  {
    var started := Start(w);
    if !started.Nil? { return false, 0, started; }
    if w.terraform.CannotRun? { return false, 0, ErrorOf(w.terraform); }
    if w.terraform.code != 0 { return false, w.terraform.code, Other; }
    return true, 0, Nil;
  }

  function Blank(w: World, op: Operation): TerminalResult {
    TerminalResult(w.uid, if w.jobUID.Some? then w.jobUID.value else "", w.startedAt, w.finishedAt, op, 0, Failed,
                   false, false, "", NoDigest, "", NoDigest, "", NoDigest, "", NoDigest, NoDigest, "", NoDigest,
                   "FailedPreMutation", false)
  }

  function EffectiveInput(w: World, bundle: Digest, backend: Digest, plan: Digest): Digest {
    OfInputs(bundle, backend, plan, w.version, w.workspace, w.destroy, if w.inputs.Some? then w.inputs.value else map[])
  }

  /** What a runner may put under the terminal-result key: the identity it was given, and
      an outcome that Terraform's own exit code supports. */
  predicate Honest(w: World, op: Operation, t: TerminalResult) {
    && t.runUID == w.uid && w.jobUID == Some(t.jobUID) && t.operation == op
    && t.startedAt == w.startedAt && t.finishedAt == w.finishedAt
    && (op.Plan? ==>
          && (t.outcome == NoChange || t.outcome == ChangesPresent ==> Permitted(w))
          && (t.outcome == NoChange ==> InWorkspace(w) && w.terraform == Exited(0) && t.exitCode == 0)
          && (t.outcome == ChangesPresent ==> InWorkspace(w) && w.terraform == Exited(2) && t.exitCode == 2)
          && !t.mutationMayHaveOccurred
          && (t.outcome.NoChange? || t.outcome.ChangesPresent? || t.outcome.Failed? || t.outcome.NoOutcome?))
    && (op.Apply? ==>
          && (t.artifactsReady ==> t.outcome == Succeeded)
          && (t.outcome == Succeeded ==> Permitted(w) && InWorkspace(w) && w.terraform == Exited(0) && !t.mutationMayHaveOccurred)
          && (t.outcome == Indeterminate ==> TimedOut(w) && t.mutationMayHaveOccurred && t.classification == "Indeterminate")
          && (t.outcome == Failed ==> if t.mutationMayHaveOccurred then t.classification == "FailedPostMutationPossible"
                                      else t.classification == "FailedPreMutation" && t.exitCode == 0)
          && (t.outcome.Succeeded? || t.outcome.Failed? || t.outcome.Indeterminate?))
  }

  predicate Grown(before: Bucket, after: Bucket) {
    forall k | k in before :: k in after && after[k] == before[k]
  }

  /** What one runner adds: nothing is overwritten, and a terminal result that was not there
      before is an honest one. */
  predicate Ran(w: World, op: Operation, before: Bucket, after: Bucket) {
    && Faithful(after) && Grown(before, after)
    && var key := RunKey(w.uid, TerminalResultFile);
       (key in after && key !in before ==>
         after[key].content.TerminalJson? && Honest(w, op, after[key].content.result))
  }

  method Persist(store: Store, w: World, t: TerminalResult) returns (ok: bool)
    requires Faithful(store.bucket)
    modifies store
    ensures store.bucket == PutEffect(old(store.bucket), RunKey(w.uid, TerminalResultFile), TerminalJson(t),
                                      w.fate(TerminalResultFile))
    ensures Faithful(store.bucket)
  {
    var r := store.PutImmutable(RunKey(w.uid, TerminalResultFile), TerminalJson(t), w.fate(TerminalResultFile));
    ok := r.Ok?;
  }

  /** An upload of any artifact but the terminal result: only that artifact's key may appear. */
  predicate Uploaded(w: World, before: Bucket, after: Bucket) {
    && Faithful(after) && Grown(before, after)
    && (RunKey(w.uid, TerminalResultFile) in after ==> RunKey(w.uid, TerminalResultFile) in before)
  }

  method Upload(store: Store, w: World, a: Artifact, content: Content) returns (r: ArtifactStore.Result<Ref>)
    requires Faithful(store.bucket) && a != TerminalResultFile
    modifies store
    ensures Uploaded(w, old(store.bucket), store.bucket)
    ensures r.Ok? ==> r.value == Ref(RunKey(w.uid, a), Sha(content)) && Readable(store.bucket, r.value)
    ensures Clear(w, old(store.bucket), Order(a)) ==> r.Ok? && Clear(w, store.bucket, Order(a) + 1)
  {
    PutUploads(w, a, store.bucket, content);
    r := store.PutImmutable(RunKey(w.uid, a), content, w.fate(a));
  }

  lemma PutUploads(w: World, a: Artifact, before: Bucket, content: Content)
    requires Faithful(before) && a != TerminalResultFile
    ensures var after := PutEffect(before, RunKey(w.uid, a), content, w.fate(a));
      && Uploaded(w, before, after)
      && (Clear(w, before, Order(a)) ==> Vacant(w, before, a) && Clear(w, after, Order(a) + 1))
  {
    KeysDiffer(w.uid, a, TerminalResultFile);
    var after := PutEffect(before, RunKey(w.uid, a), content, w.fate(a));
    if Clear(w, before, Order(a)) {
      assert Vacant(w, before, a);
      ClearAfter(w, a, before, after);
    }
  }

  /** An upload takes its own key only. */
  lemma ClearAfter(w: World, a: Artifact, before: Bucket, after: Bucket)
    requires Clear(w, before, Order(a)) && after.Keys <= before.Keys + {RunKey(w.uid, a)}
    ensures Clear(w, after, Order(a) + 1)
  {
    forall b: Artifact | Order(b) >= Order(a) + 1 ensures Vacant(w, after, b) {
      assert Vacant(w, before, b);
      KeysDiffer(w.uid, a, b);
    }
  }

  /** Uploads that are skipped do no harm to the later ones. */
  lemma ClearLater(w: World, bucket: Bucket, from: nat, later: nat)
    requires Clear(w, bucket, from) && from <= later
    ensures Clear(w, bucket, later)
  {
    forall a: Artifact | Order(a) >= later ensures Vacant(w, bucket, a) { }
  }

  /** Every artifact of the run has a key of its own. */
  lemma KeysDiffer(uid: string, a: Artifact, b: Artifact)
    requires a != b
    ensures RunKey(uid, a) != RunKey(uid, b)
  {
    NamesDiffer(a, b);
    var prefix := "runs/" + uid + "/";
    assert RunKey(uid, a) == prefix + FileName(a) && RunKey(uid, b) == prefix + FileName(b);
    assert (prefix + FileName(a))[|prefix|..] == FileName(a) && (prefix + FileName(b))[|prefix|..] == FileName(b);
  }

  lemma NamesDiffer(a: Artifact, b: Artifact)
    requires a != b
    ensures FileName(a) != FileName(b)
  {
    assert |FileName(a)| != |FileName(b)| || FileName(a)[0] != FileName(b)[0];
  }

  lemma StillReadable(before: Bucket, after: Bucket, ref: Ref)
    requires Grown(before, after) && Readable(before, ref)
    ensures Readable(after, ref)
  {
  }

  method UploadPlanAndReport(store: Store, w: World, terminal: TerminalResult) returns (t: TerminalResult, ok: bool)
    requires Faithful(store.bucket)
    modifies store
    ensures Uploaded(w, old(store.bucket), store.bucket)
    ensures t == terminal.(planRef := t.planRef, planDigest := t.planDigest, planReportRef := t.planReportRef,
                           planReportDigest := t.planReportDigest)
    ensures ok ==> w.planFile.Some? && w.report.Some?
    ensures ok ==> Ref(t.planRef, t.planDigest) == Ref(RunKey(w.uid, PlanBinary), Sha(w.planFile.value))
                   && Readable(store.bucket, Ref(t.planRef, t.planDigest))
    ensures ok ==> Ref(t.planReportRef, t.planReportDigest) == Ref(RunKey(w.uid, PlanReport), Sha(w.report.value))
                   && Readable(store.bucket, Ref(t.planReportRef, t.planReportDigest))
    ensures PlanFiles(w) && Clear(w, old(store.bucket), 1) ==> ok && Clear(w, store.bucket, 3)
  {
    t, ok := terminal, false;
    if w.planFile.None? { return; }
    var plan := Upload(store, w, PlanBinary, w.planFile.value);
    if plan.Err? { return; }
    t := t.(planRef := plan.value.key, planDigest := plan.value.digest);
    if w.report.None? { return; }
    ghost var before := store.bucket;
    var report := Upload(store, w, PlanReport, w.report.value);
    StillReadable(before, store.bucket, plan.value);
    if report.Err? { return; }
    t := t.(planReportRef := report.value.key, planReportDigest := report.value.digest);
    ok := true;
  }

  method UploadBackend(store: Store, w: World, terminal: TerminalResult) returns (t: TerminalResult, ok: bool)
    requires Faithful(store.bucket)
    modifies store
    ensures Uploaded(w, old(store.bucket), store.bucket)
    ensures t == terminal.(backendRef := t.backendRef, backendDigest := t.backendDigest)
    ensures ok && w.backendPath ==> Readable(store.bucket, Ref(t.backendRef, t.backendDigest))
    ensures PlanFiles(w) && Clear(w, old(store.bucket), 4) ==> ok && Clear(w, store.bucket, 5)
  {
    t, ok := terminal, true;
    if w.backendPath {
      if w.backend.None? { return t, false; }
      var backend := Upload(store, w, BackendConfig, w.backend.value);
      if backend.Err? { return t, false; }
      t := t.(backendRef := backend.value.key, backendDigest := backend.value.digest);
    }
  }

  method UploadBundle(store: Store, w: World, terminal: TerminalResult) returns (t: TerminalResult, ok: bool)
    requires Faithful(store.bucket)
    modifies store
    ensures Uploaded(w, old(store.bucket), store.bucket)
    ensures t == terminal.(sourceBundleRef := t.sourceBundleRef, sourceBundleDigest := t.sourceBundleDigest)
    ensures ok && w.sourceRoot ==> Readable(store.bucket, Ref(t.sourceBundleRef, t.sourceBundleDigest))
    ensures PlanFiles(w) && Clear(w, old(store.bucket), 5) ==> ok && Clear(w, store.bucket, 6)
  {
    t, ok := terminal, true;
    if w.sourceRoot {
      if w.bundle.None? { return t, false; }
      var bundle := Upload(store, w, SourceBundleFile, w.bundle.value);
      if bundle.Err? { return t, false; }
      t := t.(sourceBundleRef := bundle.value.key, sourceBundleDigest := bundle.value.digest);
    }
  }

  /** The backend, then the source bundle. */
  method UploadSnapshots(store: Store, w: World, terminal: TerminalResult) returns (t: TerminalResult, ok: bool)
    requires Faithful(store.bucket)
    modifies store
    ensures Uploaded(w, old(store.bucket), store.bucket)
    ensures t == terminal.(backendRef := t.backendRef, backendDigest := t.backendDigest,
                           sourceBundleRef := t.sourceBundleRef, sourceBundleDigest := t.sourceBundleDigest)
    ensures ok && w.backendPath ==> Readable(store.bucket, Ref(t.backendRef, t.backendDigest))
    ensures ok && w.sourceRoot ==> Readable(store.bucket, Ref(t.sourceBundleRef, t.sourceBundleDigest))
    ensures PlanFiles(w) && Clear(w, old(store.bucket), 4) ==> ok && Clear(w, store.bucket, 6)
  {
    t, ok := UploadBackend(store, w, terminal);
    if !ok { return; }
    ghost var before := store.bucket;
    t, ok := UploadBundle(store, w, t);
    UploadedTwice(w, old(store.bucket), before, store.bucket);
    if w.backendPath { StillReadable(before, store.bucket, Ref(t.backendRef, t.backendDigest)); }
  }

  /** Explanatory evidence only: whether it arrives does not matter. */
  method UploadVisualization(store: Store, w: World)
    requires Faithful(store.bucket)
    modifies store
    ensures Uploaded(w, old(store.bucket), store.bucket)
    ensures Clear(w, old(store.bucket), 3) ==> Clear(w, store.bucket, 4)
  {
    if w.visualization.Some? {
      var _ := Upload(store, w, Visualization, w.visualization.value);
    } else if Clear(w, store.bucket, 3) {
      ClearLater(w, store.bucket, 3, 4);
    }
  }

  /** The four artifacts every positive Plan needs. */
  predicate PlanEvidence(w: World, t: TerminalResult, bucket: Bucket) {
    && t.planRef == RunKey(w.uid, PlanBinary)
    && Readable(bucket, Ref(t.planRef, t.planDigest)) && Readable(bucket, Ref(t.planReportRef, t.planReportDigest))
    && Readable(bucket, Ref(t.backendRef, t.backendDigest)) && Readable(bucket, Ref(t.sourceBundleRef, t.sourceBundleDigest))
  }

  lemma EvidenceStays(w: World, t: TerminalResult, before: Bucket, after: Bucket)
    requires PlanEvidence(w, t, before) && Grown(before, after)
    ensures PlanEvidence(w, t, after)
  {
  }

  /** uploadPlanArtifacts: fills the references in order and stops at the first failure. */
  method UploadPlanArtifacts(store: Store, w: World, terminal: TerminalResult) returns (t: TerminalResult, ok: bool)
    requires Faithful(store.bucket)
    modifies store
    ensures Uploaded(w, old(store.bucket), store.bucket)
    ensures t == terminal.(planRef := t.planRef, planDigest := t.planDigest, planReportRef := t.planReportRef,
                           planReportDigest := t.planReportDigest, backendRef := t.backendRef, backendDigest := t.backendDigest,
                           sourceBundleRef := t.sourceBundleRef, sourceBundleDigest := t.sourceBundleDigest)
    ensures ok ==> Readable(store.bucket, Ref(t.planRef, t.planDigest))
                   && Readable(store.bucket, Ref(t.planReportRef, t.planReportDigest))
    ensures ok ==> t.planRef == "runs/" + w.uid + "/" + "plan.binary" && t.planReportRef == "runs/" + w.uid + "/" + "plan-report.json"
    ensures ok && w.backendPath ==> Readable(store.bucket, Ref(t.backendRef, t.backendDigest))
    ensures ok && w.sourceRoot ==> Readable(store.bucket, Ref(t.sourceBundleRef, t.sourceBundleDigest))
    ensures PlanFiles(w) && Clear(w, old(store.bucket), 1) ==> ok && PlanEvidence(w, t, store.bucket) && Clear(w, store.bucket, 6)
  {
    t, ok := UploadPlanAndReport(store, w, terminal);
    if !ok { return; }
    ghost var before := store.bucket;
    UploadVisualization(store, w);
    t, ok := UploadSnapshots(store, w, t);
    StillReadable(before, store.bucket, Ref(t.planRef, t.planDigest));
    StillReadable(before, store.bucket, Ref(t.planReportRef, t.planReportDigest));
  }

  /** The digests that target discovery evidence has to name. */
  predicate HasClosure(t: TerminalResult) {
    t.sourceBundleDigest != NoDigest && t.backendDigest != NoDigest && t.effectiveInputDigest != NoDigest
  }

  /** Target discovery under the run's own prefix: a failure makes the artifacts not ready,
      and a missing read-back leaves the digest empty. */
  method UploadDiscovery(store: Store, w: World, terminal: TerminalResult, readBack: bool) returns (t: TerminalResult)
    requires Faithful(store.bucket)
    modifies store
    ensures Uploaded(w, old(store.bucket), store.bucket)
    ensures t == terminal.(artifactsReady := t.artifactsReady, discoveryRef := t.discoveryRef, discoveryDigest := t.discoveryDigest)
    ensures t.artifactsReady ==> terminal.artifactsReady
    ensures !HasClosure(terminal) ==> !t.artifactsReady
    ensures w.discovery.Some? && HasClosure(terminal) && readBack && Clear(w, old(store.bucket), 6) ==>
      t.artifactsReady == terminal.artifactsReady && Readable(store.bucket, Ref(t.discoveryRef, t.discoveryDigest))
      && Clear(w, store.bucket, 7)
  {
    t := terminal;
    if w.discovery.None? || !HasClosure(terminal) { return t.(artifactsReady := false); }
    var r := Upload(store, w, TargetDiscovery, w.discovery.value);
    if r.Err? { return t.(artifactsReady := false); }
    t := t.(discoveryRef := RunKey(w.uid, TargetDiscovery));
    var found := store.GetVerifiedByKey(t.discoveryRef);
    if found.Ok? && readBack { t := t.(discoveryDigest := found.value.0.digest); }
  }

  /** Steps before the operation: identity, store, artifacts, inputs, version. */
  method Prologue(store: Store, w: World, op: Operation) returns (proceed: bool)
    requires Faithful(store.bucket)
    modifies store
    ensures Ran(w, op, old(store.bucket), store.bucket)
    ensures proceed ==> w.jobUID.Some? && Permitted(w)
    ensures proceed ==> Readable(store.bucket, Ref(RunKey(w.uid, ModuleInputsFile), Sha(InputsJson(w.inputs.value))))
    ensures proceed ==> Uploaded(w, old(store.bucket), store.bucket)
    ensures Prepared(w) && Clear(w, old(store.bucket), 0) ==> proceed && Clear(w, store.bucket, 1)
  {
    proceed := false;
    if w.jobUID.None? || !w.storeConfigured { return; } // reported on standard output only
    if !w.prepared || w.inputs.None? {
      var _ := Persist(store, w, Blank(w, op));
      return;
    }
    var put := Upload(store, w, ModuleInputsFile, InputsJson(w.inputs.value));
    if put.Err? || !w.versionOk {
      var _ := Persist(store, w, Blank(w, op));
      return;
    }
    proceed := true;
  }

  /** A Plan's terminal result with everything the controller will ask for. */
  predicate PlanComplete(w: World, t: TerminalResult, bucket: Bucket) {
    && Positive(t) && PlanEvidence(w, t, bucket) && t.effectiveInputDigest != NoDigest
    && (t.outcome.NoChange? ==> Readable(bucket, Ref(t.discoveryRef, t.discoveryDigest)))
  }

  function WithInputs(w: World, t: TerminalResult): TerminalResult {
    t.(effectiveInputDigest := EffectiveInput(w, t.sourceBundleDigest, t.backendDigest, t.planDigest))
  }

  predicate Positive(t: TerminalResult) {
    t.artifactsReady && (t.outcome.NoChange? || t.outcome.ChangesPresent?) && t.hasChanges == t.outcome.ChangesPresent?
  }

  /** The uploads of a Plan that Terraform ended with 0 or 2. */
  method DeliverPlan(store: Store, w: World, begun: TerminalResult, readBack: bool) returns (t: TerminalResult)
    requires Faithful(store.bucket)
    modifies store
    ensures Uploaded(w, old(store.bucket), store.bucket)
    ensures Honest(w, Plan, begun) ==> Honest(w, Plan, t)
    ensures t.exitCode == begun.exitCode
    ensures Positive(begun) && PlanFiles(w) && Clear(w, old(store.bucket), 1) && readBack ==>
      PlanComplete(w, WithInputs(w, t), store.bucket) && Clear(w, store.bucket, 7)
  {
    var uploaded;
    t, uploaded := UploadPlanArtifacts(store, w, begun);
    if !uploaded { t := t.(artifactsReady := false); }
    ghost var before := store.bucket;
    t := DeliverDiscovery(store, w, t, readBack);
    UploadedTwice(w, old(store.bucket), before, store.bucket);
  }

  lemma DiscoveryCompletes(w: World, sent: TerminalResult, before: Bucket, t: TerminalResult, after: Bucket)
    requires PlanEvidence(w, sent, before) && Grown(before, after)
    requires t == WithInputs(w, sent).(artifactsReady := t.artifactsReady, discoveryRef := t.discoveryRef, discoveryDigest := t.discoveryDigest)
    ensures HasClosure(WithInputs(w, sent))
    ensures Positive(sent) && t.artifactsReady && Readable(after, Ref(t.discoveryRef, t.discoveryDigest)) ==>
      PlanComplete(w, WithInputs(w, t), after)
  {
    EvidenceStays(w, sent, before, after);
  }

  /** The discovery that a Plan without changes adds. */
  method DeliverDiscovery(store: Store, w: World, sent: TerminalResult, readBack: bool) returns (t: TerminalResult)
    requires Faithful(store.bucket)
    modifies store
    ensures Uploaded(w, old(store.bucket), store.bucket)
    ensures Honest(w, Plan, sent) ==> Honest(w, Plan, t)
    ensures t.exitCode == sent.exitCode
    ensures (Positive(sent) && PlanEvidence(w, sent, old(store.bucket)) && w.discovery.Some? && readBack
             && Clear(w, old(store.bucket), 6)) ==>
      PlanComplete(w, WithInputs(w, t), store.bucket) && Clear(w, store.bucket, 7)
  {
    t := sent;
    if t.outcome.NoChange? && t.artifactsReady {
      t := UploadDiscovery(store, w, WithInputs(w, t), readBack);
      if PlanEvidence(w, sent, old(store.bucket)) { DiscoveryCompletes(w, sent, old(store.bucket), t, store.bucket); }
    } else if Clear(w, store.bucket, 6) {
      ClearLater(w, store.bucket, 6, 7);
    }
  }

  /** The Plan's terminal result, uploads included. */
  method ConcludePlan(store: Store, w: World, result: PlanResult, err: Error, readBack: bool) returns (t: TerminalResult)
    requires Faithful(store.bucket) && w.jobUID.Some? && Permitted(w)
    requires err.Nil? ==> InWorkspace(w) && w.terraform == Exited(result.exitCode) && result.hasChanges == (result.exitCode == 2)
    requires err.Nil? ==> (result.outcome == NoChange && result.exitCode == 0) || (result.outcome == ChangesPresent && result.exitCode == 2)
    requires !err.Nil? ==> result.outcome == Failed || (result.outcome == NoOutcome && result.exitCode == 0)
    modifies store
    ensures Uploaded(w, old(store.bucket), store.bucket)
    ensures Honest(w, Plan, t)
    ensures err.Nil? && PlanFiles(w) && Clear(w, old(store.bucket), 1) && readBack ==>
      PlanComplete(w, t, store.bucket) && t.exitCode == result.exitCode && Clear(w, store.bucket, 7)
  {
    t := Blank(w, Plan).(exitCode := result.exitCode, outcome := result.outcome, hasChanges := result.hasChanges,
                         artifactsReady := result.exitCode == 0 || result.exitCode == 2, classification := "NoMutation");
    if err.Nil? { t := DeliverPlan(store, w, t, readBack); }
    t := WithInputs(w, t);
    if result.hasPath && w.planFile.None? { t := t.(artifactsReady := false); }
  }

  /** The terminal result that is in the store, if one is. */
  function Terminal(w: World, bucket: Bucket): Option<TerminalResult> {
    var key := RunKey(w.uid, TerminalResultFile);
    if key in bucket && bucket[key].content.TerminalJson? then Some(bucket[key].content.result) else None
  }

  /** A Plan without faults, from an empty prefix. */
  predicate PlanSmooth(w: World, bucket: Bucket) {
    Prepared(w) && PlanFiles(w) && Clear(w, bucket, 0) && (w.terraform == Exited(0) || w.terraform == Exited(2))
  }

  /** persistTerminalResult, the last thing a runner does. */
  method Finish(store: Store, w: World, op: Operation, t: TerminalResult)
    requires Faithful(store.bucket) && Honest(w, op, t)
    modifies store
    ensures Ran(w, op, old(store.bucket), store.bucket)
    ensures Vacant(w, old(store.bucket), TerminalResultFile) ==> Terminal(w, store.bucket) == Some(t)
    ensures Vacant(w, old(store.bucket), TerminalResultFile) ==>
      var key := "runs/" + w.uid + "/" + "terminal-result.json";
      key in store.bucket && store.bucket[key].content == TerminalJson(t)
  {
    var _ := Persist(store, w, t);
  }

  lemma RanAfterUploads(w: World, op: Operation, before: Bucket, between: Bucket, after: Bucket)
    requires Uploaded(w, before, between) && Ran(w, op, between, after)
    ensures Ran(w, op, before, after)
  {
  }

  lemma UploadedTwice(w: World, before: Bucket, between: Bucket, after: Bucket)
    requires Uploaded(w, before, between) && Uploaded(w, between, after)
    ensures Uploaded(w, before, after)
  {
  }

  predicate ModuleInputsStored(w: World, bucket: Bucket) {
    w.inputs.Some? && Readable(bucket, Ref(RunKey(w.uid, ModuleInputsFile), Sha(InputsJson(w.inputs.value))))
  }

  /** What a faultless Plan leaves behind. */
  predicate PlanLeft(w: World, bucket: Bucket) {
    && ModuleInputsStored(w, bucket) && Terminal(w, bucket).Some?
    && var t := Terminal(w, bucket).value;
       PlanComplete(w, t, bucket) && w.terraform == Exited(t.exitCode)
  }

  lemma PlanStays(w: World, t: TerminalResult, before: Bucket, after: Bucket)
    requires PlanComplete(w, t, before) && Grown(before, after)
    ensures PlanComplete(w, t, after)
  {
  }

  method RunPlan(store: Store, w: World, readBack: bool)
    requires Faithful(store.bucket)
    modifies store
    ensures Ran(w, Plan, old(store.bucket), store.bucket)
    ensures PlanSmooth(w, old(store.bucket)) && readBack ==> PlanLeft(w, store.bucket)
  {
    var proceed := Prologue(store, w, Plan);
    if !proceed { return; }
    ghost var begun := store.bucket;
    var result, err := ExecutePlan(w);
    var t := ConcludePlan(store, w, result, err, readBack);
    ghost var delivered := store.bucket;
    UploadedTwice(w, old(store.bucket), begun, delivered);
    Finish(store, w, Plan, t);
    RanAfterUploads(w, Plan, old(store.bucket), delivered, store.bucket);
    if PlanSmooth(w, old(store.bucket)) && readBack {
      assert Vacant(w, delivered, TerminalResultFile);
      StillReadable(begun, store.bucket, Ref(RunKey(w.uid, ModuleInputsFile), Sha(InputsJson(w.inputs.value))));
      PlanStays(w, t, delivered, store.bucket);
    }
  }

  /** An Apply's terminal result with everything the controller will ask for. */
  predicate ApplyComplete(w: World, t: TerminalResult, bucket: Bucket) {
    && t.artifactsReady && t.outcome.Succeeded? && t.exitCode == 0 && t.effectiveInputDigest != NoDigest
    && Ref(t.planRef, t.planDigest) == w.planRef && Ref(t.sourceBundleRef, t.sourceBundleDigest) == w.bundleRef
    && Ref(t.backendRef, t.backendDigest) == w.backendRef
    && Readable(bucket, Ref(t.discoveryRef, t.discoveryDigest))
  }

  /** Where the evidence of an Apply comes from: its own discovery, or for a Destroy the retained one. */
  predicate DiscoveryAtHand(w: World, bucket: Bucket) {
    if w.destroy && w.retained.key != "" then w.retained.digest != NoDigest && Readable(bucket, w.retained)
    else w.discovery.Some? && w.bundleRef.digest != NoDigest && w.backendRef.digest != NoDigest
  }

  /** The Apply's terminal result, uploads included. */
  method ConcludeApply(store: Store, w: World, succeeded: bool, exitCode: int, err: Error, readBack: bool)
    returns (t: TerminalResult)
    requires Faithful(store.bucket) && w.jobUID.Some? && Permitted(w) && (succeeded <==> err.Nil?)
    requires succeeded ==> InWorkspace(w) && w.terraform == Exited(0) && exitCode == 0
    requires err.Deadline? ==> TimedOut(w)
    modifies store
    ensures Uploaded(w, old(store.bucket), store.bucket)
    ensures Honest(w, Apply, t)
    ensures succeeded && readBack && DiscoveryAtHand(w, old(store.bucket)) && Clear(w, old(store.bucket), 6) ==>
      ApplyComplete(w, t, store.bucket) && Clear(w, store.bucket, 7)
  {
    t := Blank(w, Apply).(
      exitCode := exitCode,
      outcome := if err.Nil? then Succeeded else if err.Deadline? then Indeterminate else Failed,
      artifactsReady := succeeded, classification := "SucceededPostMutation",
      planRef := w.planRef.key, planDigest := w.planRef.digest,
      sourceBundleRef := w.bundleRef.key, sourceBundleDigest := w.bundleRef.digest,
      backendRef := w.backendRef.key, backendDigest := w.backendRef.digest);
    if !err.Nil? {
      t := t.(mutationMayHaveOccurred := true,
              classification := if err.Deadline? then "Indeterminate" else "FailedPostMutationPossible");
    }
    var inputs := EffectiveInput(w, w.bundleRef.digest, w.backendRef.digest, w.planRef.digest);
    if succeeded {
      t := t.(effectiveInputDigest := inputs);
      if w.destroy && w.retained.key != "" {
        var kept := store.GetVerified(w.retained);
        if w.retained.digest == NoDigest || kept.Err? {
          t := t.(artifactsReady := false);
        } else {
          t := t.(discoveryRef := w.retained.key, discoveryDigest := w.retained.digest);
        }
        if Clear(w, store.bucket, 6) { ClearLater(w, store.bucket, 6, 7); }
      } else {
        t := UploadDiscovery(store, w, t, readBack);
      }
    }
    t := t.(effectiveInputDigest := inputs);
  }

  /** An Apply without faults, from an empty prefix. */
  predicate ApplySmooth(w: World, bucket: Bucket) {
    Prepared(w) && DiscoveryAtHand(w, bucket) && Clear(w, bucket, 0) && w.terraform == Exited(0)
  }

  /** What a faultless Apply leaves behind. */
  predicate ApplyLeft(w: World, bucket: Bucket) {
    && ModuleInputsStored(w, bucket) && Terminal(w, bucket).Some?
    && ApplyComplete(w, Terminal(w, bucket).value, bucket)
  }

  method RunApply(store: Store, w: World, readBack: bool)
    requires Faithful(store.bucket)
    modifies store
    ensures Ran(w, Apply, old(store.bucket), store.bucket)
    ensures ApplySmooth(w, old(store.bucket)) && readBack ==> ApplyLeft(w, store.bucket)
  {
    var proceed := Prologue(store, w, Apply);
    if !proceed { return; }
    ghost var begun := store.bucket;
    if Clear(w, begun, 1) { ClearLater(w, begun, 1, 6); }
    var succeeded, exitCode, err := ExecuteApply(w);
    var t := ConcludeApply(store, w, succeeded, exitCode, err, readBack);
    ghost var delivered := store.bucket;
    UploadedTwice(w, old(store.bucket), begun, delivered);
    Finish(store, w, Apply, t);
    RanAfterUploads(w, Apply, old(store.bucket), delivered, store.bucket);
    if ApplySmooth(w, old(store.bucket)) && readBack {
      AtHandStays(w, old(store.bucket), begun);
      StillReadable(begun, store.bucket, Ref(RunKey(w.uid, ModuleInputsFile), Sha(InputsJson(w.inputs.value))));
      StillReadable(delivered, store.bucket, Ref(t.discoveryRef, t.discoveryDigest));
      assert Vacant(w, delivered, TerminalResultFile);
    }
  }

  lemma AtHandStays(w: World, before: Bucket, after: Bucket)
    requires Grown(before, after) && DiscoveryAtHand(w, before)
    ensures DiscoveryAtHand(w, after)
  {
    if w.destroy && w.retained.key != "" { StillReadable(before, after, w.retained); }
  }
}
