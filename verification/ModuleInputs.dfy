/** Module inputs: BindModuleInputs of internal/terraform/module.go, and why the inputs frozen in
    the run, bound again for the Job (job.go) and once more by the runner (main.go) agree. */
module ModuleInputs {
  import opened Api
  import Admission
  import AdmissionProofs

  datatype Result<+T> = Ok(value: T) | Err

  /** What the execution identity fixes, whatever the user supplied. */
  function Fixed(p: ExecutionProfile, role: string): map<string, string> {
    map["s3_endpoint" := p.s3Endpoint, "sts_endpoint" := p.stsEndpoint, "region" := p.region, "execution_role_arn" := role]
  }

  predicate Conflicts(inputs: map<string, string>, fixed: map<string, string>) {
    exists k | k in fixed :: k in inputs && inputs[k] != fixed[k]
  }

  /** The result of binding; `valid` stands for the checks on the profile itself. */
  function Bound(inputs: map<string, string>, profile: Option<ExecutionProfile>, role: string, valid: bool): Result<map<string, string>> {
    if profile.None? || !valid || Conflicts(inputs, Fixed(profile.value, role)) then Err
    else Ok(inputs + Fixed(profile.value, role))
  }

  /** The first loop copies the user's inputs, in any order. */
  method Copy(inputs: map<string, string>) returns (result: map<string, string>)
    ensures result == inputs
  {
    result := map[];
    var rest := inputs.Keys;
    while rest != {}
      invariant rest <= inputs.Keys
      invariant forall k :: k in result <==> k in inputs && k !in rest
      invariant forall k | k in result :: result[k] == inputs[k]
      decreases |rest|
    {
      var key :| key in rest;
      result := result[key := inputs[key]];
      rest := rest - {key};
    }
  }

  predicate OverlaidAt(inputs: map<string, string>, fixed: map<string, string>, rest: set<string>, result: map<string, string>, k: string) {
    var laid := k in fixed && k !in rest;
    && (k in result <==> k in inputs || laid)
    && (k in result ==> result[k] == if laid then fixed[k] else inputs[k])
    && (laid && k in inputs ==> inputs[k] == fixed[k])
  }

  /** The second loop lays the fixed values over it, in any order, unless one is contradicted. */
  method Overlay(inputs: map<string, string>, fixed: map<string, string>) returns (r: Result<map<string, string>>)
    ensures r == if Conflicts(inputs, fixed) then Err else Ok(inputs + fixed)
  {
    var result := inputs;
    var rest := fixed.Keys;
    while rest != {}
      invariant rest <= fixed.Keys && forall k :: OverlaidAt(inputs, fixed, rest, result, k)
      decreases |rest|
    {
      var key :| key in rest;
      assert OverlaidAt(inputs, fixed, rest, result, key);
      if key in result && result[key] != fixed[key] { return Err; }
      ghost var before, more := result, rest;
      result := result[key := fixed[key]];
      rest := rest - {key};
      forall k ensures OverlaidAt(inputs, fixed, rest, result, k) { assert OverlaidAt(inputs, fixed, more, before, k); }
    }
    Overlaid(inputs, fixed, result);
    return Ok(result);
  }

  lemma Overlaid(inputs: map<string, string>, fixed: map<string, string>, result: map<string, string>)
    requires forall k :: OverlaidAt(inputs, fixed, {}, result, k)
    ensures !Conflicts(inputs, fixed) && result == inputs + fixed
  {
    forall k ensures (k in result <==> k in inputs + fixed) && (k in fixed && k in inputs ==> inputs[k] == fixed[k]) {
      assert OverlaidAt(inputs, fixed, {}, result, k);
    }
    forall k | k in result ensures result[k] == (inputs + fixed)[k] { assert OverlaidAt(inputs, fixed, {}, result, k); }
  }

  method BindModuleInputs(inputs: map<string, string>, profile: Option<ExecutionProfile>, role: string, valid: bool)
    returns (r: Result<map<string, string>>)
    ensures r == Bound(inputs, profile, role, valid)
    ensures r.Ok? ==>
      && profile.Some? && valid
      && (forall k :: k in r.value <==> k in inputs || k in {"s3_endpoint", "sts_endpoint", "region", "execution_role_arn"})
      && r.value["s3_endpoint"] == profile.value.s3Endpoint && r.value["sts_endpoint"] == profile.value.stsEndpoint
      && r.value["region"] == profile.value.region && r.value["execution_role_arn"] == role
      && (forall k | k in inputs :: r.value[k] == inputs[k])
    ensures r.Err? ==>
      || profile.None? || !valid
      || ("s3_endpoint" in inputs && inputs["s3_endpoint"] != profile.value.s3Endpoint)
      || ("sts_endpoint" in inputs && inputs["sts_endpoint"] != profile.value.stsEndpoint)
      || ("region" in inputs && inputs["region"] != profile.value.region)
      || ("execution_role_arn" in inputs && inputs["execution_role_arn"] != role)
  {
    if profile.None? || !valid { return Err; }
    var result := Copy(inputs);
    r := Overlay(result, Fixed(profile.value, role));
  }

  /** Bound inputs bind to themselves. */
  lemma BindingIsIdempotent(inputs: map<string, string>, profile: Option<ExecutionProfile>, role: string)
    requires Bound(inputs, profile, role, true).Ok?
    ensures Bound(Bound(inputs, profile, role, true).value, profile, role, true) == Bound(inputs, profile, role, true)
  {
    var fixed := Fixed(profile.value, role);
    assert inputs + fixed + fixed == inputs + fixed;
  }

  // -------------------------------------------------------------- end to end

  /** BuildJob hands the run's inputs, bound, to the runner; the runner binds what it decodes and
      uploads it. */
  function Uploaded(run: TerraformRun): Result<Content> {
    var job := Bound(run.spec.inputs, run.spec.executionProfile, run.spec.executionRoleARN, true);
    if job.Err? then Err else
    var runner := Bound(job.value, run.spec.executionProfile, run.spec.executionRoleARN, true);
    if runner.Err? then Err else Ok(InputsJson(runner.value))
  }

  /** The controller's digest is that of the runner's upload exactly when the run's inputs carry
      what the execution identity fixes. */
  lemma DigestsAgreeExactly(run: TerraformRun)
    ensures Uploaded(run).Ok? && Sha(Uploaded(run).value) == Admission.ModuleInputsRef(run).digest <==>
      && run.spec.executionProfile.Some?
      && forall k | k in Fixed(run.spec.executionProfile.value, run.spec.executionRoleARN) ::
           k in run.spec.inputs && run.spec.inputs[k] == Fixed(run.spec.executionProfile.value, run.spec.executionRoleARN)[k]
  {
    if run.spec.executionProfile.Some? {
      var inputs, fixed := run.spec.inputs, Fixed(run.spec.executionProfile.value, run.spec.executionRoleARN);
      if !Conflicts(inputs, fixed) {
        BindingIsIdempotent(inputs, run.spec.executionProfile, run.spec.executionRoleARN);
        if forall k | k in fixed :: k in inputs && inputs[k] == fixed[k] { assert inputs + fixed == inputs; }
        if inputs + fixed == inputs {
          forall k | k in fixed ensures k in inputs && inputs[k] == fixed[k] { assert k in inputs + fixed; }
        }
      }
    }
  }

  /** What ensurePlanRun freezes in a Plan's inputs. */
  predicate FrozenIn(spec: RunSpec, given: map<string, string>) {
    spec.executionProfile.Some? && Bound(given, spec.executionProfile, spec.executionRoleARN, true) == Ok(spec.inputs)
  }

  /** A Plan, and the Apply made from it, upload the very inputs the controller expects. */
  lemma FrozenInputsAgree(stack: InfraStack, plan: TerraformRun, approval: ChangeApproval, apply: TerraformRun, given: map<string, string>)
    requires FrozenIn(plan.spec, given) && apply.spec == Admission.BuildApplyRun(stack, plan, approval)
    ensures Uploaded(plan).Ok? && Sha(Uploaded(plan).value) == Admission.ModuleInputsRef(plan).digest
    ensures Uploaded(apply).Ok? && Sha(Uploaded(apply).value) == Admission.ModuleInputsRef(apply).digest
    ensures Uploaded(apply) == Uploaded(plan)
  {
    FrozenCarries(plan.spec, given);
    DigestsAgreeExactly(plan);
    DigestsAgreeExactly(apply);
  }

  lemma FrozenCarries(spec: RunSpec, given: map<string, string>)
    requires FrozenIn(spec, given)
    ensures forall k | k in Fixed(spec.executionProfile.value, spec.executionRoleARN) ::
      k in spec.inputs && spec.inputs[k] == Fixed(spec.executionProfile.value, spec.executionRoleARN)[k]
  {
  }

  /** A Destroy Plan rebuilt from the record of a converged Apply, after any edit of the stack and with
      its profile resolved anew, is bound again without an error, and uploads what the Apply uploaded. */
  lemma DestroyInputsUnchanged(then': InfraStack, plan: TerraformRun, approval: ChangeApproval, apply: TerraformRun,
                               now: InfraStack, destroy: TerraformRun, given: map<string, string>, resolved: ExecutionProfile)
    requires FrozenIn(plan.spec, given) && apply.spec == Admission.BuildApplyRun(then', plan, approval)
    requires AdmissionProofs.ConvergenceClosure(then', plan, apply).Some?
    requires var closure := AdmissionProofs.ConvergenceClosure(then', plan, apply).value;
             var rebuilt := Admission.BuildDestroyPlanRun(now, AdmissionProofs.RetainedRunFromClosure(now, closure).value);
      && rebuilt.executionProfile.Some? && resolved == rebuilt.executionProfile.value.(credentialsIdentity := resolved.credentialsIdentity)
      && destroy.spec == rebuilt.(executionProfile := Some(resolved))
    ensures Bound(destroy.spec.inputs, destroy.spec.executionProfile, destroy.spec.executionRoleARN, true) == Ok(apply.spec.inputs)
    ensures Uploaded(destroy) == Uploaded(apply) && Uploaded(destroy).Ok?
    ensures Sha(Uploaded(destroy).value) == Admission.ModuleInputsRef(destroy).digest
  {
    AdmissionProofs.DestroyRebuildsConvergedRun(then', plan, apply, now);
    FrozenInputsAgree(then', plan, approval, apply, given);
    BindingIsIdempotent(given, plan.spec.executionProfile, plan.spec.executionRoleARN);
    DigestsAgreeExactly(destroy);
  }
}
