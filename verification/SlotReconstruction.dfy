/** Reconstruction of the gate on a cluster that keeps the slot invariant. */
module SlotReconstruction {
  import opened Api
  import opened RunHistory
  import opened Execution
  import opened ExecutionSafety
  import opened JobRecords
  import opened ExecutionSlots
  import Gate = ExecutionGate
  import GateRuns

  /** The unfinished Jobs, in the order listed. */
  function Unfinished(order: seq<Job>): seq<Job> {
    if order == [] then [] else
    var last, before := order[|order| - 1], Unfinished(order[..|order| - 1]);
    if last.finished then before else before + [last]
  }

  lemma {:induction false} ItemsOfUnfinished(runs: map<string, TerraformRun>, order: seq<Job>)
    ensures |ItemsOf(runs, order)| == |Unfinished(order)|
    ensures forall i | 0 <= i < |Unfinished(order)| :: ItemsOf(runs, order)[i] == ItemForJob(runs, Unfinished(order)[i])
  {
    if order != [] { ItemsOfUnfinished(runs, order[..|order| - 1]); }
  }

  lemma {:induction false} UnfinishedMembers(order: seq<Job>, job: Job)
    ensures job in Unfinished(order) <==> job in order && !job.finished
  {
    if order != [] {
      var n := |order| - 1;
      UnfinishedMembers(order[..n], job);
      assert order == order[..n] + [order[n]];
    }
  }

  lemma {:induction false} UnfinishedApart(order: seq<Job>)
    requires forall i, j | 0 <= i < j < |order| :: order[i] != order[j]
    ensures forall i, j | 0 <= i < j < |Unfinished(order)| :: Unfinished(order)[i] != Unfinished(order)[j]
  {
    if order != [] {
      var n := |order| - 1;
      var front, last := order[..n], order[n];
      UnfinishedApart(front);
      UnfinishedMembers(front, last);
      forall i | 0 <= i < n ensures front[i] != last {
        assert order[i] != order[n];
      }
    }
  }

  /** On a reachable cluster every Job is classified as its run's. */
  lemma ItemOfJob(s: State, job: Job)
    requires JobsOk(s) && Inv(s) && job in s.observed
    ensures job.labelUid in s.runs && ItemForJob(Current(s.runs), job) == ItemOf(s.runs[job.labelUid].run)
    ensures ItemOf(s.runs[job.labelUid].run).id == job.labelUid && Gate.ValidItem(ItemOf(s.runs[job.labelUid].run))
  {
    assert JobOk(s, job);
    var u := job.labelUid;
    assert RecordOk(s.runs, u);
    assert UidOk(s, u, |s.runs[u].versions| - 1, job);
  }

  /** The items a reconstruction observes: one for each run with an unfinished Job. */
  ghost predicate Observes(s: State, items: seq<Gate.WorkItem>) {
    && (forall i | 0 <= i < |items| :: JobRunning(s, items[i].id) && items[i] == ItemOf(s.runs[items[i].id].run) && Gate.ValidItem(items[i]))
    && (forall u | JobRunning(s, u) :: exists i | 0 <= i < |items| :: items[i].id == u)
    && (forall i, j | 0 <= i < j < |items| :: items[i].id != items[j].id)
  }

  lemma ListedJob(s: State, order: seq<Job>, job: Job)
    requires JobsOk(s) && Lists(s.jobs, order) && job in Unfinished(order)
    ensures job in s.observed && job.key in s.jobs && s.jobs[job.key] == job && JobRunning(s, job.labelUid)
  {
    UnfinishedMembers(order, job);
    assert KeyOk(s, job.key) && JobOk(s, job);
  }

  lemma ObservationExact(s: State, order: seq<Job>)
    requires JobsOk(s) && Inv(s) && Lists(s.jobs, order)
    ensures Observes(s, ItemsOf(Current(s.runs), order))
  {
    var items, jobs := ItemsOf(Current(s.runs), order), Unfinished(order);
    ItemsOfUnfinished(Current(s.runs), order);
    UnfinishedApart(order);
    forall i | 0 <= i < |items|
      ensures items[i].id == jobs[i].labelUid && JobRunning(s, items[i].id)
      ensures items[i] == ItemOf(s.runs[items[i].id].run) && Gate.ValidItem(items[i])
    {
      ListedJob(s, order, jobs[i]);
      ItemOfJob(s, jobs[i]);
    }
    forall u | JobRunning(s, u) ensures exists i | 0 <= i < |items| :: items[i].id == u {
      var job := s.jobs[s.runs[u].run.key];
      UnfinishedMembers(order, job);
      var i :| 0 <= i < |jobs| && jobs[i] == job;
      assert items[i].id == u;
    }
    forall i, j | 0 <= i < j < |items| ensures items[i].id != items[j].id {
      ListedJob(s, order, jobs[i]);
      ListedJob(s, order, jobs[j]);
      assert JobOk(s, jobs[i]) && JobOk(s, jobs[j]);
    }
  }

  lemma ObservedActive(s: State, items: seq<Gate.WorkItem>, u: string)
    requires Observes(s, items)
    ensures u in Gate.ActiveOf(items) <==> JobRunning(s, u)
    ensures u in Gate.ActiveOf(items) ==> Gate.ActiveOf(items)[u] == ItemOf(s.runs[u].run)
  {
    Gate.ActiveOfMembers(items, u);
    if u in Gate.ActiveOf(items) { Gate.ActiveOfSource(items, u); }
  }

  lemma ObservedApart(s: State, items: seq<Gate.WorkItem>, i: int, j: int)
    requires Slots(s) && Observes(s, items) && 0 <= i < j < |items|
    ensures items[i].kind.Apply? && items[j].kind.Apply? ==> items[i].stack != items[j].stack
  {
    assert ApartOk(s, items[i].id, items[j].id);
  }

  lemma ObservationIsSafe(s: State, items: seq<Gate.WorkItem>)
    requires Slots(s) && Observes(s, items)
    ensures !Gate.Conflicting(items)
  {
    forall i, j | 0 <= i < j < |items|
      ensures items[i].kind.Apply? && items[j].kind.Apply? ==> items[i].stack != items[j].stack
    {
      ObservedApart(s, items, i, j);
    }
  }

  /** Reconstruction on a reachable cluster: exactly the runs with unfinished Jobs, no violation. */
  lemma RebuiltExact(s: State, items: seq<Gate.WorkItem>)
    requires Slots(s) && Observes(s, items)
    ensures var v := Gate.Rebuilt(s.gate, items);
      && v.ready && !v.violation && v.shadow == []
      && (forall u :: u in v.active <==> JobRunning(s, u))
      && (forall u | u in v.active :: v.active[u] == ItemOf(s.runs[u].run))
  {
    forall u ensures u in Gate.ActiveOf(items) <==> JobRunning(s, u) { ObservedActive(s, items, u); }
    forall u | u in Gate.ActiveOf(items) ensures Gate.ActiveOf(items)[u] == ItemOf(s.runs[u].run) {
      ObservedActive(s, items, u);
    }
    ObservationIsSafe(s, items);
    GateRuns.ShadowsAreRepeats(items);
  }

  lemma ReconstructSlots(s: State, order: seq<Job>)
    requires Slots(s) && Inv(s)
    ensures Slots(Reconstruct(s, order))
  {
    if !s.gate.ready && Lists(s.jobs, order) {
      var t := Reconstruct(s, order);
      ObservationExact(s, order);
      RebuiltExact(s, ItemsOf(Current(s.runs), order));
      RebuiltSlots(s, t);
    }
  }

  lemma RebuiltSlots(s: State, t: State)
    requires Slots(s) && !s.gate.ready
    requires t == s.(gate := t.gate, requests := t.requests)
    requires forall u :: u in t.requests <==> u in s.requests
    requires forall u | u in t.requests :: !InFlight(t, u) && (HasMadeJob(t, u) <==> HasMadeJob(s, u))
    requires t.gate.ready && !t.gate.violation && t.gate.shadow == []
    requires forall u :: u in t.gate.active <==> JobRunning(s, u)
    requires forall u | u in t.gate.active :: u in s.runs && t.gate.active[u] == ItemOf(s.runs[u].run)
    ensures Slots(t)
  {
    JobsStay(s, t);
    forall u ensures RunOk(t, u) { assert RunOk(s, u); }
    forall u, v ensures ApartOk(t, u, v) { assert ApartOk(s, u, v); }
  }
}
