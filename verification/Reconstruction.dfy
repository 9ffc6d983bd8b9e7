/** Rebuilding the execution gate after a restart:
    internal/controller/terraformrun_reconstruction.go. */
module Reconstruction {
  import opened Api
  import opened RunHistory
  import opened Execution
  import ExecutionSafety
  import ExecutionSlots
  import JobRecords
  import SlotCoverage
  import Gate = ExecutionGate

  /** The runs of a list by UID; of two with the same UID the later one stands. */
  function ByUid(runs: seq<TerraformRun>): map<string, TerraformRun> {
    if runs == [] then map[] else
    var last, before := runs[|runs| - 1], ByUid(runs[..|runs| - 1]);
    if last.uid != "" then before[last.uid := last] else before
  }

  predicate IsLastOf(runs: seq<TerraformRun>, i: int, u: string) {
    0 <= i < |runs| && runs[i].uid == u && forall j | i < j < |runs| :: runs[j].uid != u
  }

  method IndexRuns(runs: seq<TerraformRun>) returns (runsByUid: map<string, TerraformRun>)
    ensures runsByUid == ByUid(runs)
    ensures forall u | u in runsByUid :: u != "" && exists i :: IsLastOf(runs, i, u) && runsByUid[u] == runs[i]
    ensures forall i | 0 <= i < |runs| && runs[i].uid != "" :: runs[i].uid in runsByUid
  {
    runsByUid := map[];
    for i := 0 to |runs|
      invariant runsByUid == ByUid(runs[..i])
      invariant forall u | u in runsByUid :: u != "" && exists j :: IsLastOf(runs[..i], j, u) && runsByUid[u] == runs[j]
      invariant forall j | 0 <= j < i && runs[j].uid != "" :: runs[j].uid in runsByUid
    {
      assert runs[..i + 1][..i] == runs[..i];
      forall u | u in runsByUid && u != runs[i].uid
        ensures exists j :: IsLastOf(runs[..i + 1], j, u) && runsByUid[u] == runs[j]
      {
        var j :| IsLastOf(runs[..i], j, u) && runsByUid[u] == runs[j];
        assert IsLastOf(runs[..i + 1], j, u);
      }
      assert IsLastOf(runs[..i + 1], i, runs[i].uid);
      if runs[i].uid != "" { runsByUid := runsByUid[runs[i].uid := runs[i]]; }
    }
    assert runs[..|runs|] == runs;
  }

  /** Name, label, owner and recorded UID all tie the Job to the run. */
  predicate Belongs(job: Job, run: TerraformRun) {
    && job.key == run.key && job.labelUid == run.uid && job.owner == Some(run.uid)
    && (run.status.jobUID == "" || job.uid == "" || job.uid == run.status.jobUID)
  }

  predicate KeyedByUid(runsByUid: map<string, TerraformRun>) { forall u | u in runsByUid :: u != "" && runsByUid[u].uid == u }

  /** One unfinished Job. It becomes a valid item exactly if it belongs to a run, and then that run's;
      an active runner without a matching run is not safe to classify. */
  method Classify(runsByUid: map<string, TerraformRun>, job: Job) returns (item: Gate.WorkItem)
    ensures KeyedByUid(runsByUid) ==> (Gate.ValidItem(item) <==> exists u | u in runsByUid :: Belongs(job, runsByUid[u]))
    ensures KeyedByUid(runsByUid) ==> forall u | u in runsByUid && Belongs(job, runsByUid[u]) ::
      && item.id == u && item.stack == runsByUid[u].key.ns + "/" + runsByUid[u].spec.stackName
      && item.kind == (if runsByUid[u].spec.operation == Apply then Gate.Apply else Gate.Plan)
      && var spec := runsByUid[u].spec;
         (item.group, item.maxPlans, item.maxApplies) == (spec.concurrencyGroup, spec.maxConcurrentPlans, spec.maxConcurrentApplies)
    ensures item == ItemForJob(runsByUid, job)
  {
    var run := None;
    if job.labelUid in runsByUid {
      run := Some(runsByUid[job.labelUid]);
    } else if job.owner.Some? && job.owner.value in runsByUid {
      run := Some(runsByUid[job.owner.value]);
    }
    if run.None? || job.key != run.value.key || JobIdentity(run.value, job).Fail? {
      return Gate.WorkItem(job.key.ns + "/" + job.key.name, Gate.Other, "", "", 0, 0);
    }
    return ItemOf(run.value);
  }

  method CollectItems(runsByUid: map<string, TerraformRun>, jobs: seq<Job>) returns (items: seq<Gate.WorkItem>)
    ensures items == ItemsOf(runsByUid, jobs)
  {
    items := [];
    for i := 0 to |jobs|
      invariant items == ItemsOf(runsByUid, jobs[..i])
    {
      assert jobs[..i + 1][..i] == jobs[..i];
      if jobs[i].finished { continue; }
      var item := Classify(runsByUid, jobs[i]);
      items := items + [item];
    }
    assert jobs[..|jobs|] == jobs;
  }

  method ReconstructActiveTerraformRuns(runs: seq<TerraformRun>, jobs: seq<Job>, gate: Gate.Gate)
    returns (result: Gate.ReconstructionResult)
    modifies gate
    ensures gate.Valid() && gate.Abs() == Gate.Rebuilt(old(gate.Abs()), ItemsOf(ByUid(runs), jobs))
    ensures result.safetyViolation == gate.safetyViolation && result.overCapacity == gate.overCapacity
    ensures result.active == ItemsOf(ByUid(runs), jobs)
  {
    var runsByUid := IndexRuns(runs);
    var items := CollectItems(runsByUid, jobs);
    result := gate.Reconstruct(items);
  }

  /** Every run exactly as it is now, in some order. */
  ghost predicate ListsRuns(current: map<string, TerraformRun>, runs: seq<TerraformRun>) {
    && (forall i | 0 <= i < |runs| :: runs[i].uid in current && current[runs[i].uid] == runs[i])
    && (forall u | u in current :: current[u] in runs)
  }

  lemma {:induction false} ByUidIsKeyed(runs: seq<TerraformRun>)
    ensures KeyedByUid(ByUid(runs))
  {
    if runs != [] { ByUidIsKeyed(runs[..|runs| - 1]); }
  }

  lemma {:induction false} ByUidHas(runs: seq<TerraformRun>, i: nat)
    requires i < |runs| && runs[i].uid != ""
    ensures runs[i].uid in ByUid(runs)
  {
    if i < |runs| - 1 { ByUidHas(runs[..|runs| - 1], i); }
  }

  lemma {:induction false} ByUidSource(runs: seq<TerraformRun>, u: string) returns (i: nat)
    requires u in ByUid(runs)
    ensures i < |runs| && runs[i] == ByUid(runs)[u] && runs[i].uid == u
  {
    i := |runs| - 1;
    if runs[i].uid != u || u == "" { i := ByUidSource(runs[..|runs| - 1], u); }
  }

  /** A fresh list restores the map of current runs, whatever its order. */
  lemma ListedRuns(s: State, runs: seq<TerraformRun>)
    requires ExecutionSafety.Inv(s) && ListsRuns(Current(s.runs), runs)
    ensures ByUid(runs) == Current(s.runs)
  {
    var current := Current(s.runs);
    forall u | u in current ensures u in ByUid(runs) {
      assert RecordOk(s.runs, u);
      var i :| 0 <= i < |runs| && runs[i] == current[u];
      ByUidHas(runs, i);
    }
    forall u | u in ByUid(runs) ensures u in current && ByUid(runs)[u] == current[u] {
      var i := ByUidSource(runs, u);
    }
  }

  /** A restart, end to end: on a carefully reached cluster, the code's scan of freshly listed
      runs and Jobs gives the gate exactly the runs with unfinished Jobs, and no violation. */
  lemma RestartIsExact(c: Config, steps: seq<Step>, runs: seq<TerraformRun>, jobs: seq<Job>)
    requires ExecutionSlots.CarefulRun(c, steps)
    requires ListsRuns(Current(After(c, steps).runs), runs) && Lists(After(c, steps).jobs, jobs)
    ensures var s := After(c, steps);
            var v := Gate.Rebuilt(s.gate, ItemsOf(ByUid(runs), jobs));
            !v.violation && (forall u :: u in v.active <==> JobRecords.JobRunning(s, u))
  {
    ExecutionSafety.RunKeeps(c, steps);
    ListedRuns(After(c, steps), runs);
    SlotCoverage.ReconstructionIsExact(c, steps, jobs);
  }
}
