/** What the guards of the TerraformRun reconciler let through, field by field. */
module ExecutionGuards {
  import opened Api
  import opened RunHistory
  import opened Execution
  import Gate = ExecutionGate

  /** A reconciliation goes to work exactly on a version without a terminal outcome, of a run that is no
      fenced Apply unless it destroys, and that no other reconciliation is at. */
  lemma OpensExactly(s: State, uid: string, seen: nat)
    ensures Opens(s, uid, seen) <==>
      && uid in s.runs && seen < |s.runs[uid].versions| && uid !in s.progress
      && s.runs[uid].versions[seen].outcome in {NoOutcome, Pending, Running, Unrecognized}
      && var spec := s.runs[uid].run.spec; (spec.operation == Apply && spec.mutationFence ==> spec.planMode == Destroy)
  {
  }

  /** An Apply behind the fence is rejected, and nothing else is done for it. */
  lemma FencedIsRejected(s: State, uid: string, seen: nat, opening: Opening)
    requires uid in s.runs && seen < |s.runs[uid].versions| && uid !in s.progress
    requires var spec := s.runs[uid].run.spec; spec.operation == Apply && spec.mutationFence && spec.planMode != Destroy
    ensures var t := NextOpening(s, uid, seen, opening);
      t == s || (opening.RejectedAtOnce?
                 && t == s.(runs := t.runs) && t.runs.Keys == s.runs.Keys
                 && t.runs[uid].versions == s.runs[uid].versions + [s.runs[uid].versions[seen].(outcome := Rejected, ready := false)])
  {
  }

  /** A run that holds no slot gets one exactly when the gate is open and there is room, for one more
      Plan or Apply, in the run's own group under its own limits, and for an Apply on its own stack. */
  lemma SlotIsGrantedExactly(s: State, uid: string, seen: nat, w: Write)
    requires OpensFresh(s, uid, seen) && s.runs[uid].run.uid == uid != "" && uid !in s.gate.active
    ensures uid in AskSlot(s, uid, seen, w).progress <==>
      && s.gate.ready && !s.gate.over && !s.gate.violation
      && var run := s.runs[uid].run; var spec := run.spec;
         if spec.operation == Apply then
           && Gate.Count(Gate.AllApplies, s.gate) < s.gate.applyLimit
           && Gate.Count(Gate.OnStack(run.key.ns + "/" + spec.stackName), s.gate) == 0
           && (spec.concurrencyGroup != "" && spec.maxConcurrentApplies > 0 ==>
                 Gate.Count(Gate.AppliesIn(spec.concurrencyGroup), s.gate) < spec.maxConcurrentApplies)
         else
           && Gate.Count(Gate.AllPlans, s.gate) < s.gate.planLimit
           && (spec.concurrencyGroup != "" && spec.maxConcurrentPlans > 0 ==>
                 Gate.Count(Gate.PlansIn(spec.concurrencyGroup), s.gate) < spec.maxConcurrentPlans)
  {
    var run := ReadAt(s.runs[uid], seen);
    Gate.NewItemGrantedExactly(s.gate, ItemOf(run));
    assert ItemOf(run).id == uid;
  }

  /** What the slot stands for. */
  lemma SlotNamesTheRun(s: State, uid: string, seen: nat, w: Write)
    requires OpensFresh(s, uid, seen) && s.runs[uid].run.uid == uid != "" && uid !in s.gate.active
    requires uid in AskSlot(s, uid, seen, w).progress
    ensures var t, run := AskSlot(s, uid, seen, w), s.runs[uid].run;
      && uid in t.gate.active
      && t.gate.active[uid] == Gate.WorkItem(uid, if run.spec.operation == Apply then Gate.Apply else Gate.Plan,
                                             run.key.ns + "/" + run.spec.stackName, run.spec.concurrencyGroup,
                                             run.spec.maxConcurrentPlans, run.spec.maxConcurrentApplies)
  {
    assert ItemOf(ReadAt(s.runs[uid], seen)).id == uid;
  }

  /** The Job carries the run's UID as label and owner, and no other UID than the one on record. */
  predicate IsOwn(run: TerraformRun, job: Job) {
    job.labelUid == run.uid && job.owner == Some(run.uid) && (job.uid == "" || run.status.jobUID in {"", job.uid})
  }

  /** A Job found under the run's name is adopted exactly when it is the run's own; any other makes the
      outcome Indeterminate and leaves the Job's identity on record as it was. */
  lemma OnlyOwnJobsAreAdopted(s: State, uid: string, job: Job)
    requires AtCleared(s, uid) && job in s.observed && job.key == s.runs[uid].run.key && s.runs[uid].run.uid == uid != ""
    requires s.progress[uid].seen + 1 == |s.runs[uid].versions|
    ensures var t, was := FindJob(s, uid, job, Answered), s.runs[uid].versions[s.progress[uid].seen];
            var st := Latest(t.runs[uid]);
      if IsOwn(s.runs[uid].run.(status := was), job)
      then st == was.(jobRef := Some(s.runs[uid].run.key.name), jobUID := if job.uid == "" then was.jobUID else job.uid, ready := false)
      else st == was.(outcome := Indeterminate, ready := false)
  {
  }

  /** The same when a recorded Job is looked at again: without it, or with another's, the outcome is in doubt. */
  lemma OnlyOwnJobsAreObserved(s: State, uid: string, seen: nat, found: Option<Job>, active: bool, down: set<string>)
    requires Opens(s, uid, seen) && s.runs[uid].versions[seen].jobRef.Some? && s.runs[uid].run.uid == uid != ""
    requires found.Some? ==> found.value in s.observed
                             && found.value.key == Key(s.runs[uid].run.key.ns, s.runs[uid].versions[seen].jobRef.value)
    requires found.None? || !IsOwn(ReadAt(s.runs[uid], seen), found.value)
    ensures ObserveJob(s, uid, seen, found, active, down, Answered)
         == Update(s, uid, seen, s.runs[uid].versions[seen].(outcome := Indeterminate, ready := false), Answered)
  {
  }

  /** And its own running Job is Running if it is active, and Pending if it waits for its pod or a slot. */
  lemma RunningIsRecorded(s: State, uid: string, seen: nat, job: Job, active: bool, down: set<string>)
    requires Opens(s, uid, seen) && s.runs[uid].versions[seen].jobRef.Some? && s.runs[uid].run.uid == uid != ""
    requires job in s.observed && job.key == Key(s.runs[uid].run.key.ns, s.runs[uid].versions[seen].jobRef.value)
    requires IsOwn(ReadAt(s.runs[uid], seen), job) && !job.finished && seen + 1 == |s.runs[uid].versions|
    requires uid in s.gate.active && s.gate.active[uid] == ItemOf(s.runs[uid].run)
    ensures Latest(ObserveJob(s, uid, seen, Some(job), active, down, Answered).runs[uid])
         == s.runs[uid].versions[seen].(outcome := if active then Running else Pending, ready := false)
  {
    assert ItemOf(ReadAt(s.runs[uid], seen)) == ItemOf(s.runs[uid].run);
  }
}
