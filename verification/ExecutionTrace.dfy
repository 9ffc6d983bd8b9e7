/** One concrete run of the TerraformRun machine, from an empty cluster to a running Plan Job.
    It meets the hypotheses of slot coverage, and an outdated read after it breaks coverage. */
module ExecutionTrace {
  import opened Api
  import opened RunHistory
  import opened Execution
  import opened ExecutionSafety
  import opened JobRecords
  import opened ExecutionSlots
  import opened SlotCoverage
  import Admission
  import Gate = ExecutionGate

  lemma Snoc(c: Config, steps: seq<Step>, step: Step)
    ensures After(c, steps + [step]) == Next(c, After(c, steps), step)
    ensures CarefulRun(c, steps + [step]) <==> CarefulRun(c, steps) && Careful(After(c, steps), step)
  {
    assert (steps + [step])[..|steps|] == steps;
  }

  /** A Plan run that nothing stands in the way of. */
  predicate Launchable(c: Config, run: TerraformRun) {
    run.uid != "" && !run.spec.operation.Apply? && c.planLimit > 0 && run.spec.concurrencyGroup == ""
  }

  function JobOf(run: TerraformRun): Job { Job(run.key, "job", run.uid, Some(run.uid), false) }

  function Fresh(run: TerraformRun): TerraformRun { run.(status := EmptyStatus) }

  function Intent(run: TerraformRun): RunStatus { EmptyStatus.(jobRef := Some(run.key.name)) }

  function Request(run: TerraformRun): seq<Step> {
    [Reconstructed([]), World(CreatedRun(run)), Opened(run.uid, 0, AskedSlot(Answered))]
  }

  function Start(run: TerraformRun, r: Admission.Reads): seq<Step> {
    [Continued(run.uid, Validated(r, Answered)), Continued(run.uid, PersistedIntent(Answered)), Continued(run.uid, SentCreate)]
  }

  function Finish(run: TerraformRun): seq<Step> {
    [ExecutedCreate(run.uid, "job"), Continued(run.uid, CreateReturned(JobOf(run))), Continued(run.uid, RecordedStart(Answered))]
  }

  function HoldingGate(c: Config, run: TerraformRun): Gate.View {
    Gate.Initial(c.planLimit, c.applyLimit).(active := map[run.uid := ItemOf(Fresh(run))])
  }

  function Admitting(c: Config, run: TerraformRun): State {
    Init(c).(runs := map[run.uid := Record(Fresh(run), [EmptyStatus])], gate := HoldingGate(c, run),
             progress := map[run.uid := Admitted(0)])
  }

  function Requested(c: Config, run: TerraformRun): State {
    Admitting(c, run).(runs := map[run.uid := Record(Fresh(run), [EmptyStatus, Intent(run)])],
                       progress := map[run.uid := Sending(1, None)], requests := map[run.uid := Flying],
                       issued := [Issue(Fresh(run), None)])
  }

  function Launched(c: Config, run: TerraformRun): State {
    Requested(c, run).(
      runs := map[run.uid := Record(Fresh(run), [EmptyStatus, Intent(run), JobStarted(Intent(run), run.key.name, JobOf(run))])],
      progress := map[], requests := map[run.uid := Executed],
      jobs := map[run.key := JobOf(run)], observed := {JobOf(run)}, created := [JobOf(run)])
  }

  /** Three more steps, whose states are known. */
  lemma Snoc3(c: Config, front: seq<Step>, steps: seq<Step>, s1: State, s2: State, s3: State)
    requires |steps| == 3
    requires Next(c, After(c, front), steps[0]) == s1 && Next(c, s1, steps[1]) == s2 && Next(c, s2, steps[2]) == s3
    ensures After(c, front + steps) == s3
    ensures CarefulRun(c, front + steps) <==>
      CarefulRun(c, front) && Careful(After(c, front), steps[0]) && Careful(s1, steps[1]) && Careful(s2, steps[2])
  {
    var one := front + [steps[0]];
    var two := one + [steps[1]];
    Snoc(c, front, steps[0]);
    Snoc(c, one, steps[1]);
    Snoc(c, two, steps[2]);
    assert front + steps == two + [steps[2]];
  }

  function OpenGate(c: Config): State { Init(c).(gate := Gate.Initial(c.planLimit, c.applyLimit)) }

  function Created(c: Config, run: TerraformRun): State {
    OpenGate(c).(runs := map[run.uid := Record(Fresh(run), [EmptyStatus])])
  }

  lemma GateOpens(c: Config)
    ensures Reconstruct(Init(c), []) == OpenGate(c)
  {
    Gate.EmptyCounts(OpenGate(c).gate);
    assert ItemsOf(Current(Init(c).runs), []) == [];
  }

  lemma SlotGranted(c: Config, run: TerraformRun)
    requires Launchable(c, run)
    ensures AskSlot(Created(c, run), run.uid, 0, Answered) == Admitting(c, run)
  {
    Gate.EmptyCounts(OpenGate(c).gate);
    assert Gate.Grants(OpenGate(c).gate, ItemOf(Fresh(run)));
  }

  lemma AfterRequest(c: Config, run: TerraformRun)
    requires Launchable(c, run)
    ensures After(c, Request(run)) == Admitting(c, run) && CarefulRun(c, Request(run))
  {
    GateOpens(c);
    assert CreateRun(OpenGate(c), run) == Created(c, run);
    SlotGranted(c, run);
    Snoc3(c, [], Request(run), OpenGate(c), Created(c, run), Admitting(c, run));
    assert [] + Request(run) == Request(run);
  }

  function ClearedState(c: Config, run: TerraformRun): State {
    Admitting(c, run).(progress := map[run.uid := Cleared(0, None)])
  }

  function IntendedState(c: Config, run: TerraformRun): State {
    Admitting(c, run).(runs := map[run.uid := Record(Fresh(run), [EmptyStatus, Intent(run)])],
                       progress := map[run.uid := Intended(1, None)])
  }

  lemma IntentStored(c: Config, run: TerraformRun)
    requires Launchable(c, run)
    ensures PersistIntent(ClearedState(c, run), run.uid, Answered) == IntendedState(c, run)
  {
    var s := ClearedState(c, run);
    assert [EmptyStatus] + [Intent(run)] == [EmptyStatus, Intent(run)];
    assert s.runs[run.uid := Record(Fresh(run), [EmptyStatus, Intent(run)])] == IntendedState(c, run).runs;
    assert s.progress[run.uid := Intended(1, None)] == IntendedState(c, run).progress;
  }

  lemma CreateSent(c: Config, run: TerraformRun)
    ensures SendCreate(IntendedState(c, run), run.uid) == Requested(c, run)
  {
    var s := IntendedState(c, run);
    assert s.progress[run.uid := Sending(1, None)] == Requested(c, run).progress;
  }

  lemma AfterStart(c: Config, run: TerraformRun, r: Admission.Reads)
    requires Launchable(c, run)
    ensures After(c, Request(run) + Start(run, r)) == Requested(c, run) && CarefulRun(c, Request(run) + Start(run, r))
  {
    AfterRequest(c, run);
    assert Validate(c, Admitting(c, run), run.uid, r, Answered) == ClearedState(c, run);
    IntentStored(c, run);
    CreateSent(c, run);
    Snoc3(c, Request(run), Start(run, r), ClearedState(c, run), IntendedState(c, run), Requested(c, run));
  }

  function ExecutedState(c: Config, run: TerraformRun): State {
    Requested(c, run).(requests := map[run.uid := Executed], jobs := map[run.key := JobOf(run)],
                       observed := {JobOf(run)}, created := [JobOf(run)])
  }

  function StartedState(c: Config, run: TerraformRun): State {
    ExecutedState(c, run).(progress := map[run.uid := Started(1, JobOf(run))])
  }

  lemma JobMade(c: Config, run: TerraformRun)
    ensures ExecuteCreate(Requested(c, run), run.uid, "job") == ExecutedState(c, run)
    ensures CreateReturns(ExecutedState(c, run), run.uid, JobOf(run)) == StartedState(c, run)
  {
    var s, t := Requested(c, run), ExecutedState(c, run);
    assert s.requests[run.uid := Executed] == t.requests && {} + {JobOf(run)} == t.observed;
    assert t.progress[run.uid := Started(1, JobOf(run))] == StartedState(c, run).progress;
  }

  lemma StartRecorded(c: Config, run: TerraformRun)
    ensures RecordStart(StartedState(c, run), run.uid, Answered) == Launched(c, run)
  {
    var s, t := StartedState(c, run), Launched(c, run);
    var st := JobStarted(Intent(run), run.key.name, JobOf(run));
    assert [EmptyStatus, Intent(run)] + [st] == [EmptyStatus, Intent(run), st];
    assert s.runs[run.uid := Record(Fresh(run), [EmptyStatus, Intent(run), st])] == t.runs;
    assert s.progress - {run.uid} == t.progress;
  }

  lemma CreateExecuted(c: Config, run: TerraformRun)
    ensures Next(c, Requested(c, run), Finish(run)[0]) == ExecutedState(c, run)
  {
    JobMade(c, run);
  }

  lemma CreateAnswered(c: Config, run: TerraformRun)
    ensures Next(c, ExecutedState(c, run), Finish(run)[1]) == StartedState(c, run)
  {
    JobMade(c, run);
  }

  lemma StartWritten(c: Config, run: TerraformRun)
    ensures Next(c, StartedState(c, run), Finish(run)[2]) == Launched(c, run)
  {
    StartRecorded(c, run);
  }

  lemma FinishIsCareful(c: Config, run: TerraformRun)
    ensures Careful(Requested(c, run), Finish(run)[0]) && Careful(ExecutedState(c, run), Finish(run)[1])
    ensures Careful(StartedState(c, run), Finish(run)[2])
  {
  }

  /** The Job runs, its run is recorded, and every hypothesis of slot coverage was met. */
  lemma AfterFinish(c: Config, run: TerraformRun, r: Admission.Reads)
    requires Launchable(c, run)
    ensures var steps := Request(run) + Start(run, r) + Finish(run);
            After(c, steps) == Launched(c, run) && CarefulRun(c, steps)
  {
    AfterStart(c, run, r);
    CreateExecuted(c, run);
    CreateAnswered(c, run);
    StartWritten(c, run);
    FinishIsCareful(c, run);
    Snoc3(c, Request(run) + Start(run, r), Finish(run), ExecutedState(c, run), StartedState(c, run), Launched(c, run));
  }

  lemma LaunchedIsRunning(c: Config, run: TerraformRun)
    requires Launchable(c, run)
    ensures var s := Launched(c, run);
            s.gate.ready && JobRunning(s, run.uid) && !IsApply(s, run.uid) && Outdated(s, run.uid, 0)
  {
  }

  /** The initial status is an outdated version now; a reconciliation that reads it from a cache
      gives away the slot of the running Job. */
  lemma OutdatedReadBreaksCoverage(c: Config, run: TerraformRun, r: Admission.Reads)
    requires Launchable(c, run)
    ensures var steps := Request(run) + Start(run, r) + Finish(run);
      && Covered(After(c, steps)) && JobRunning(After(c, steps), run.uid)
      && !Covered(After(c, steps + OutdatedReconcile(run.uid, 0, r)))
  {
    var front, steps := Request(run) + Start(run, r) + Finish(run), OutdatedReconcile(run.uid, 0, r);
    AfterFinish(c, run, r);
    LaunchedIsRunning(c, run);
    EveryJobHasItsSlot(c, front);
    RunHeld(c, front);
    RunKeeps(c, front);
    OutdatedReadLosesSlot(c, Launched(c, run), run.uid, 0, r);
    var s1 := Next(c, Launched(c, run), steps[0]);
    var s2 := Next(c, s1, steps[1]);
    Snoc3(c, front, steps, s1, s2, Next(c, s2, steps[2]));
  }
}
