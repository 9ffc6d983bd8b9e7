/** The controller process itself: the steps of the TerraformRun reconciler that take and give
    back slots, on the mutable gate, each proved against the machine of module Execution. */
module ExecutionProcess {
  import opened Api
  import opened RunHistory
  import opened Execution
  import Admission
  import Capture
  import Gate = ExecutionGate
  import Reconstruction

  /** A status update does not look at the gate. */
  lemma UpdateIgnoresGate(s: State, g: Gate.View, uid: string, seen: nat, st: RunStatus, w: Write)
    requires uid in s.runs
    ensures Update(s.(gate := g), uid, seen, st, w) == Update(s, uid, seen, st, w).(gate := g)
  {
  }

  class Process {
    const gate: Gate.Gate
    var rest: State // the API server and this process's reconciliations; its `gate` is not used

    ghost function Abs(): State reads this, gate { rest.(gate := gate.Abs()) }

    ghost predicate Valid() reads this, gate { gate.Valid() }

    /** A new process on an existing cluster: the gate is made and closed before anything runs. */
    constructor (c: Config, s: State)
      ensures Valid() && fresh(gate) && Abs() == Crash(c, s)
    {
      var g := new Gate.Gate(c.planLimit, c.applyLimit);
      g.CloseAdmission();
      gate, rest := g, s.(progress := map[]);
    }

    method EnsureExecutionSlot(run: TerraformRun, existingJob: bool) returns (ok: bool)
      requires Valid()
      modifies gate
      ensures Valid() && ok == Gate.Grants(old(gate.Abs()), ItemOf(run)) && gate.Abs() == Gate.Admit(old(gate.Abs()), ItemOf(run))
    {
      if existingJob {
        ok := gate.EnsureActive(ItemOf(run));
      } else {
        ok := gate.TryAcquire(ItemOf(run));
      }
    }

    method ReleaseExecutionSlot(uid: string)
      requires Valid() && uid in rest.runs
      modifies gate
      ensures Valid() && gate.Abs() == Gate.Released(old(gate.Abs()), ItemOf(rest.runs[uid].run).id)
    {
      gate.Release(ItemOf(rest.runs[uid].run));
    }

    /** updateExecutionStatus: reads some version of the run once more and leaves the update out
        if that version says the same already. */
    method UpdateExecutionStatus(uid: string, seen: nat, st: RunStatus, previous: nat, w: Write) returns (ok: bool, ghost did: Write)
      requires Valid() && uid in rest.runs && seen < |rest.runs[uid].versions| && previous < |rest.runs[uid].versions|
      requires !w.Skipped?
      modifies this`rest
      ensures Valid() && did == if st == old(rest).runs[uid].versions[previous] then Skipped else w
      ensures ok == Reports(old(rest).runs[uid], seen, st, did)
      ensures Abs() == Update(old(Abs()), uid, seen, st, did)
    {
      if rest.runs[uid].versions[previous] == st { return true, Skipped; }
      did := w;
      ok := w.Answered? && seen + 1 == |rest.runs[uid].versions|;
      UpdateIgnoresGate(rest, gate.Abs(), uid, seen, st, w);
      rest := Update(rest, uid, seen, st, w);
    }

    /** The slot request of a run that names no Job yet. */
    method AskSlot(uid: string, seen: nat, previous: nat, w: Write) returns (ghost did: Write)
      requires Valid() && OpensFresh(rest, uid, seen) && previous < |rest.runs[uid].versions| && !w.Skipped?
      modifies this`rest, gate
      ensures Valid() && Abs() == Execution.AskSlot(old(Abs()), uid, seen, did)
    {
      var run := ReadAt(rest.runs[uid], seen);
      did := w;
      var ok := EnsureExecutionSlot(run, false);
      if ok {
        rest := rest.(progress := rest.progress[uid := Admitted(seen)]);
      } else {
        assert Abs() == old(Abs());
        var _, d := UpdateExecutionStatus(uid, seen, run.status.(outcome := Pending, ready := false), previous, w);
        did := d;
      }
    }

    /** The exits between the slot request and the intent. */
    method Abort(uid: string, reject: bool, w: Write)
      requires Valid() && At(rest, uid)
      modifies this`rest, gate
      ensures Valid() && Abs() == Execution.Abort(old(Abs()), uid, reject, w)
    {
      var seen := rest.progress[uid].seen;
      ReleaseExecutionSlot(uid);
      rest := Leave(rest, uid);
      if reject {
        rest := Update(rest, uid, seen, rest.runs[uid].versions[seen].(outcome := Rejected, ready := false), w);
      }
    }

    /** An Apply is validated against the objects read; a Plan has nothing to validate. */
    method Validate(c: Config, uid: string, r: Admission.Reads, w: Write)
      requires Valid() && AtAdmitted(rest, uid) && (rest.runs[uid].run.spec.operation.Apply? ==> Readable(rest, r))
      modifies this`rest, gate
      ensures Valid() && Abs() == Execution.Validate(c, old(Abs()), uid, r, w)
    {
      if rest.runs[uid].run.spec.operation.Apply? {
        var verdict := Admission.ValidateApplyApproval(c.names, rest.runs[uid].run, r);
        Decide(uid, r, verdict.Pass?, w);
      } else {
        rest := rest.(progress := rest.progress[uid := Cleared(rest.progress[uid].seen, None)]);
      }
    }

    method Decide(uid: string, r: Admission.Reads, passes: bool, w: Write)
      requires Valid() && AtAdmitted(rest, uid)
      modifies this`rest, gate
      ensures Valid() && Abs() == Execution.Decide(old(Abs()), uid, r, passes, w)
    {
      if passes {
        rest := rest.(passed := rest.passed + {(rest.runs[uid].run, r)});
        rest := rest.(progress := rest.progress[uid := Cleared(rest.progress[uid].seen, Some(r))]);
      } else {
        Abort(uid, true, w);
      }
    }

    /** The lookup found a Job of the run's name; without an intent of its own the slot stays taken. */
    method FindJob(uid: string, job: Job, w: Write)
      requires Valid() && AtCleared(rest, uid) && job in rest.observed && job.key == rest.runs[uid].run.key
      modifies this`rest
      ensures Valid() && Abs() == Execution.FindJob(old(Abs()), uid, job, w)
    {
      var seen := rest.progress[uid].seen;
      var run := ReadAt(rest.runs[uid], seen);
      rest := Leave(rest, uid);
      if JobIdentity(run, job).Fail? {
        SetOutcome(uid, seen, run.status, Indeterminate, w);
      } else {
        StatusUpdate(uid, seen, JobStarted(run.status, run.key.name, job), w);
      }
    }

    /** The Create request goes out; from here on the API server may execute it at any time. */
    method SendCreate(uid: string)
      requires Valid() && At(rest, uid) && rest.progress[uid].Intended?
      modifies this`rest
      ensures Valid() && Abs() == Execution.SendCreate(old(Abs()), uid)
    {
      var p := rest.progress[uid];
      rest := rest.(requests := rest.requests[uid := Flying], issued := rest.issued + [Issue(rest.runs[uid].run, p.basis)]);
      rest := rest.(progress := rest.progress[uid := Sending(p.seen, p.basis)]);
    }

    /** The Job that was created goes into the status. */
    method RecordStart(uid: string, w: Write)
      requires Valid() && At(rest, uid) && rest.progress[uid].Started?
      modifies this`rest
      ensures Valid() && Abs() == Execution.RecordStart(old(Abs()), uid, w)
    {
      var p, r := rest.progress[uid], rest.runs[uid];
      rest := Leave(rest, uid);
      StatusUpdate(uid, p.seen, JobStarted(r.versions[p.seen], r.run.key.name, p.job), w);
    }

    /** The intent is stored first; only an answered update lets the Create go out. */
    method PersistIntent(uid: string, w: Write)
      requires Valid() && AtCleared(rest, uid) && !w.Skipped?
      modifies this`rest, gate
      ensures Valid() && Abs() == Execution.PersistIntent(old(Abs()), uid, w)
    {
      var p, r := rest.progress[uid], rest.runs[uid];
      var taken := w.Answered? && Takes(r, p.seen, w);
      StatusUpdate(uid, p.seen, r.versions[p.seen].(jobRef := Some(r.run.key.name)), w);
      if taken {
        rest := rest.(progress := rest.progress[uid := Intended(p.seen + 1, p.basis)]);
      } else {
        ReleaseExecutionSlot(uid);
        rest := Leave(rest, uid);
      }
    }

    method CreateFails(uid: string)
      requires Valid() && AtSending(rest, uid)
      modifies this`rest, gate
      ensures Valid() && Abs() == Execution.CreateFails(old(Abs()), uid)
    {
      ReleaseExecutionSlot(uid);
      rest := Leave(rest, uid);
      if !rest.requests[uid].Executed? { rest := rest.(requests := rest.requests[uid := Abandoned]); }
    }

    /** A Job that still runs takes its slot, or waits for one to be reconstructed. */
    method ObserveActive(uid: string, seen: nat, active: bool, w: Write)
      requires Valid() && Opens(rest, uid, seen)
      modifies this`rest, gate
      ensures Valid() && Abs() == Execution.ObserveActive(old(Abs()), uid, seen, active, w)
    {
      var run := ReadAt(rest.runs[uid], seen);
      var ok := EnsureExecutionSlot(run, true);
      var outcome := if !ok then Pending else if active then Running else Pending;
      SetOutcome(uid, seen, run.status, outcome, w);
    }

    method SetOutcome(uid: string, seen: nat, st: RunStatus, outcome: Outcome, w: Write)
      requires Valid() && uid in rest.runs
      modifies this`rest
      ensures Valid() && Abs() == Update(old(Abs()), uid, seen, st.(outcome := outcome, ready := false), w)
    {
      StatusUpdate(uid, seen, st.(outcome := outcome, ready := false), w);
    }

    /** Status().Update. */
    method StatusUpdate(uid: string, seen: nat, st: RunStatus, w: Write)
      requires Valid() && uid in rest.runs
      modifies this`rest
      ensures Valid() && Abs() == Update(old(Abs()), uid, seen, st, w) && rest == Update(old(rest), uid, seen, st, w)
    {
      UpdateIgnoresGate(rest, gate.Abs(), uid, seen, st, w);
      rest := Update(rest, uid, seen, st, w);
    }

    /** A finished Job gives its slot back once its result is recorded. */
    method ObserveFinished(uid: string, seen: nat, st: RunStatus, previous: nat, w: Write) returns (ghost did: Write)
      requires Valid() && Opens(rest, uid, seen) && previous < |rest.runs[uid].versions| && !w.Skipped?
      modifies this`rest, gate
      ensures Valid() && Abs() == Execution.ObserveFinished(old(Abs()), uid, seen, st, did)
    {
      var ok, d := UpdateExecutionStatus(uid, seen, st, previous, w);
      did := d;
      if ok { ReleaseExecutionSlot(uid); }
    }

    /** Recovery: the gate is rebuilt from freshly listed runs and Jobs. */
    method Recover(runs: seq<TerraformRun>, order: seq<Job>) returns (result: Gate.ReconstructionResult)
      requires Valid() && !Abs().gate.ready && Lists(rest.jobs, order) && Reconstruction.ByUid(runs) == Current(rest.runs)
      modifies this`rest, gate
      ensures Valid() && Abs() == Execution.Reconstruct(old(Abs()), order)
    {
      result := Reconstruction.ReconstructActiveTerraformRuns(runs, order, gate);
      rest := rest.(requests := map u | u in rest.requests :: if rest.requests[u].Flying? then Abandoned else rest.requests[u]);
    }
  }
}
