/** The status history of a TerraformRun: what its versions may be, and how they may change. */
module RunHistory {
  import opened Api

  /** A run with every version its status has had; spec, key and owner never change. */
  datatype Record = Record(run: TerraformRun, versions: seq<RunStatus>)

  function ReadAt(r: Record, seen: nat): TerraformRun
    requires seen < |r.versions|
  {
    r.run.(status := r.versions[seen])
  }

  function Latest(r: Record): RunStatus
    requires r.versions != []
  {
    r.versions[|r.versions| - 1]
  }

  predicate Fenced(spec: RunSpec) {
    spec.operation.Apply? && spec.mutationFence && !spec.planMode.Destroy?
  }

  predicate Terminal(o: Outcome) {
    || o.Succeeded? || o.NoChange? || o.ChangesPresent? || o.Indeterminate? || o.Rejected? || o.Failed?
    || o.Expired? || o.Superseded?
  }

  predicate StatusOk(run: TerraformRun, st: RunStatus) {
    && (st.jobRef.Some? ==> st.jobRef.value == run.key.name)
    && (st.outcome.Rejected? ==> st.jobRef.None? && !st.ready)
    && (Fenced(run.spec) ==> (st.outcome.NoOutcome? || st.outcome.Rejected?) && st.jobRef.None?)
  }

  /** How a later status may differ from an earlier one. */
  predicate Evolves(spec: RunSpec, a: RunStatus, b: RunStatus) {
    && (a.jobRef.Some? ==> b.jobRef == a.jobRef)
    && (Terminal(a.outcome) ==> b == a || (!spec.operation.Apply? && b == a.(outcome := Superseded, ready := false)))
  }

  predicate VersionOk(r: Record, i: int) { 0 <= i < |r.versions| ==> StatusOk(r.run, r.versions[i]) }

  predicate VersionsEvolve(r: Record, i: int, j: int) {
    0 <= i < j < |r.versions| ==> Evolves(r.run.spec, r.versions[i], r.versions[j])
  }

  ghost predicate RecordOk(runs: map<string, Record>, u: string) {
    u in runs ==>
      && runs[u].run.uid == u != "" && runs[u].versions != [] && runs[u].versions[0] == EmptyStatus
      && (forall i :: VersionOk(runs[u], i))
      && (forall i, j :: VersionsEvolve(runs[u], i, j))
  }

  lemma AppendKeepsHistory(r: Record, st: RunStatus)
    requires (forall i :: VersionOk(r, i)) && (forall i, j :: VersionsEvolve(r, i, j))
    requires r.versions != [] && StatusOk(r.run, st) && Evolves(r.run.spec, Latest(r), st)
    ensures var later := r.(versions := r.versions + [st]);
            (forall i :: VersionOk(later, i)) && (forall i, j :: VersionsEvolve(later, i, j))
  {
    var later, n := r.(versions := r.versions + [st]), |r.versions|;
    forall i ensures VersionOk(later, i) { assert VersionOk(r, i); }
    forall i, j ensures VersionsEvolve(later, i, j) {
      assert VersionsEvolve(r, i, j) && VersionsEvolve(r, i, n - 1);
    }
  }
}
