/** What the execution gate guarantees over every sequence of calls. */
module GateRuns {
  import opened ExecutionGate

  datatype Op = TryAcquire(item: WorkItem) | EnsureActive(item: WorkItem) | Release(item: WorkItem)
              | CloseAdmission | Reconstruct(items: seq<WorkItem>)

  ghost function Step(v: View, op: Op): View {
    match op
    case TryAcquire(item) => Admit(v, item)
    case EnsureActive(item) => Admit(v, item)
    case Release(item) => ExecutionGate.Released(v, item.id)
    case CloseAdmission => v.(ready := false)
    case Reconstruct(items) => Rebuilt(v, items)
  }

  /** The gate after `ops`, in order, on a new gate. */
  ghost function After(planLimit: nat, applyLimit: nat, ops: seq<Op>): View {
    if ops == [] then Initial(planLimit, applyLimit)
    else Step(After(planLimit, applyLimit, ops[..|ops| - 1]), ops[|ops| - 1])
  }

  /** What the latest reconstruction observed; nothing if there was none. */
  function LastObserved(ops: seq<Op>): seq<WorkItem> {
    if ops == [] then []
    else if ops[|ops| - 1].Reconstruct? then ops[|ops| - 1].items
    else LastObserved(ops[..|ops| - 1])
  }

  function Max(a: int, b: int): int { if a < b then b else a }

  // -------------------------------------------------- counters and the set

  /** Across every run, shadows and the safety flag are what the last reconstruction left. */
  lemma {:induction false} RunOrigin(p: nat, a: nat, ops: seq<Op>)
    ensures var v := After(p, a, ops);
            && v.planLimit == p && v.applyLimit == a
            && v.shadow == ShadowOf(LastObserved(ops))
            && v.violation == Conflicting(LastObserved(ops))
            && ItemsWellKeyed(v.active)
  {
    if ops != [] {
      var n := |ops| - 1;
      RunOrigin(p, a, ops[..n]);
      StepOrigin(After(p, a, ops[..n]), ops[n]);
    }
  }

  lemma StepOrigin(v: View, op: Op)
    requires ItemsWellKeyed(v.active)
    ensures var w := Step(v, op);
            && w.planLimit == v.planLimit && w.applyLimit == v.applyLimit
            && ItemsWellKeyed(w.active)
            && (op.Reconstruct? ==> w.shadow == ShadowOf(op.items) && w.violation == Conflicting(op.items))
            && (!op.Reconstruct? ==> w.shadow == v.shadow && w.violation == v.violation)
  {
    if op.Reconstruct? { ActiveOfMembers(op.items, ""); }
  }

  lemma RepeatIsLast(items: seq<WorkItem>)
    requires items != [] && HasRepeatedId(items) && !HasRepeatedId(items[..|items| - 1])
    ensures ValidItem(items[|items| - 1])
    ensures exists i | 0 <= i < |items| - 1 :: ValidItem(items[i]) && items[i].id == items[|items| - 1].id
  {
    var front := items[..|items| - 1];
    var i, j :| 0 <= i < j < |items| && ValidItem(items[i]) && ValidItem(items[j]) && items[i].id == items[j].id;
    assert forall k | 0 <= k < |front| :: front[k] == items[k];
    assert j == |front|;
  }

  lemma {:induction false} ShadowsAreRepeats(items: seq<WorkItem>)
    ensures ShadowOf(items) == [] <==> !HasRepeatedId(items)
    ensures forall i | 0 <= i < |ShadowOf(items)| :: ValidItem(ShadowOf(items)[i])
  {
    if items != [] {
      var n := |items| - 1;
      var front, last := items[..n], items[n];
      ShadowsAreRepeats(front);
      ActiveOfMembers(front, last.id);
      if HasRepeatedId(front) {
        var i, j :| 0 <= i < j < n && ValidItem(front[i]) && ValidItem(front[j]) && front[i].id == front[j].id;
        assert ValidItem(items[i]) && ValidItem(items[j]) && items[i].id == items[j].id;
      }
      if ValidItem(last) && last.id in ActiveOf(front) {
        var i :| 0 <= i < n && ValidItem(front[i]) && front[i].id == last.id;
        assert ValidItem(items[i]) && ValidItem(items[n]) && items[i].id == items[n].id;
      }
      if HasRepeatedId(items) && !HasRepeatedId(front) { RepeatIsLast(items); }
    }
  }

  /** A counter is never below the active items it counts, and all of them are
      exact just when the last reconstruction saw no ID twice. */
  lemma CountersMatchActiveItems(p: nat, a: nat, ops: seq<Op>)
    ensures var v := After(p, a, ops);
            && (forall q :: Count(q, v) >= |MatchingIds(q, v.active)|)
            && ((forall q :: Count(q, v) == |MatchingIds(q, v.active)|) <==> !HasRepeatedId(LastObserved(ops)))
  {
    var v := After(p, a, ops);
    RunOrigin(p, a, ops);
    ShadowsAreRepeats(LastObserved(ops));
    if v.shadow == [] {
      forall q ensures Count(q, v) == |MatchingIds(q, v.active)| {
        assert MatchingShadows(q, v.shadow) == {};
      }
    } else {
      var q := if v.shadow[0].kind.Plan? then AllPlans else AllApplies;
      assert ValidItem(v.shadow[0]);
      assert 0 in MatchingShadows(q, v.shadow);
      assert Count(q, v) > |MatchingIds(q, v.active)|;
    }
  }

  // --------------------------------------------------------------- capacity

  /** A call changes a counter by at most one, and only upward through an admission. */
  lemma StepCount(q: Query, v: View, op: Op)
    requires !op.Reconstruct?
    ensures op.Release? || op.CloseAdmission? ==> Count(q, Step(v, op)) <= Count(q, v)
    ensures op.TryAcquire? || op.EnsureActive? ==>
      Count(q, Step(v, op)) == Count(q, v) +
        (if Grants(v, op.item) && op.item.id !in v.active then Tally(q, op.item) else 0)
  {
    match op
    case TryAcquire(item) => if item.id !in v.active { CountInsert(q, v, item); }
    case EnsureActive(item) => if item.id !in v.active { CountInsert(q, v, item); }
    case Release(item) =>
      if item.id in v.active {
        CountRemove(q, v, item.id);
        CountsIgnoreFlags(v.(active := v.active - {item.id}), Step(v, op));
      }
    case CloseAdmission => CountsIgnoreFlags(v, Step(v, op));
  }

  /** The over-capacity flag says exactly that a total exceeds its limit: it cannot
      clear early, and it cannot stay set once both totals are back within limits. */
  lemma OverCapacityIsExact(p: nat, a: nat, ops: seq<Op>)
    ensures var v := After(p, a, ops); v.over <==> Count(AllPlans, v) > p || Count(AllApplies, v) > a
  {
    RunOrigin(p, a, ops);
    OverOutsideLimits(p, a, ops);
  }

  lemma {:induction false} OverOutsideLimits(p: nat, a: nat, ops: seq<Op>)
    ensures var v := After(p, a, ops); v.over <==> !WithinLimits(v)
  {
    RunOrigin(p, a, ops);
    if ops == [] {
      EmptyCounts(After(p, a, ops));
    } else {
      var n := |ops| - 1;
      var v, op := After(p, a, ops[..n]), ops[n];
      OverOutsideLimits(p, a, ops[..n]);
      RunOrigin(p, a, ops[..n]);
      match op
      case Reconstruct(items) => CountsIgnoreFlags(Rebuilt(v, items).(over := false), Rebuilt(v, items));
      case CloseAdmission => CountsIgnoreFlags(v, Step(v, op));
      case Release(item) =>
        if item.id in v.active {
          StepCount(AllPlans, v, op);
          StepCount(AllApplies, v, op);
          CountsIgnoreFlags(v.(active := v.active - {item.id}), Step(v, op));
        }
      case _ =>
        StepCount(AllPlans, v, op);
        StepCount(AllApplies, v, op);
    }
  }

  /** Active Plans and Applies never exceed the larger of the limit and what the
      last reconstruction found running. */
  lemma {:induction false} CapacityBound(p: nat, a: nat, ops: seq<Op>)
    ensures Count(AllPlans, After(p, a, ops)) <= Max(p, |Hits(AllPlans, LastObserved(ops))|)
    ensures Count(AllApplies, After(p, a, ops)) <= Max(a, |Hits(AllApplies, LastObserved(ops))|)
  {
    if ops == [] {
      EmptyCounts(After(p, a, ops));
    } else {
      var n := |ops| - 1;
      var v, op := After(p, a, ops[..n]), ops[n];
      RunOrigin(p, a, ops[..n]);
      CapacityBound(p, a, ops[..n]);
      if op.Reconstruct? {
        CountAfterRebuild(AllPlans, Rebuilt(v, op.items), op.items);
        CountAfterRebuild(AllApplies, Rebuilt(v, op.items), op.items);
      } else {
        StepCount(AllPlans, v, op);
        StepCount(AllApplies, v, op);
      }
    }
  }

  function CapOf(item: WorkItem): int { if item.kind.Plan? then item.maxPlans else item.maxApplies }

  function GroupQuery(kind: Kind, g: string): Query { if kind.Plan? then PlansIn(g) else AppliesIn(g) }

  /** Every item of this kind and group that a call asks for carries the same limit. */
  ghost predicate UniformGroup(ops: seq<Op>, g: string, kind: Kind, cap: int) {
    forall n | 0 <= n < |ops| && (ops[n].TryAcquire? || ops[n].EnsureActive?) && ops[n].item.group == g && ops[n].item.kind == kind ::
      CapOf(ops[n].item) == cap
  }

  /** Where a group's items of one kind agree on a positive limit, they obey the same bound. */
  lemma {:induction false} GroupBound(p: nat, a: nat, ops: seq<Op>, g: string, kind: Kind, cap: int)
    requires g != "" && !kind.Other? && cap > 0 && UniformGroup(ops, g, kind, cap)
    ensures Count(GroupQuery(kind, g), After(p, a, ops)) <= Max(cap, |Hits(GroupQuery(kind, g), LastObserved(ops))|)
  {
    if ops == [] {
      EmptyCounts(After(p, a, ops));
    } else {
      var n := |ops| - 1;
      var v, op := After(p, a, ops[..n]), ops[n];
      assert forall k | 0 <= k < n :: ops[..n][k] == ops[k];
      GroupBound(p, a, ops[..n], g, kind, cap);
      if op.Reconstruct? {
        CountAfterRebuild(GroupQuery(kind, g), Rebuilt(v, op.items), op.items);
      } else {
        StepCount(GroupQuery(kind, g), v, op);
      }
    }
  }

  // --------------------------------------------------- exactly what is granted

  /** Open since the start or the last reconstruction. */
  predicate IsReady(ops: seq<Op>) {
    ops == [] || ops[|ops| - 1].Reconstruct? || (!ops[|ops| - 1].CloseAdmission? && IsReady(ops[..|ops| - 1]))
  }

  lemma {:induction false} ReadyExactly(p: nat, a: nat, ops: seq<Op>)
    ensures After(p, a, ops).ready <==> IsReady(ops)
  {
    if ops != [] { ReadyExactly(p, a, ops[..|ops| - 1]); }
  }

  /** After every sequence of calls, an ID that is not held is granted exactly when the gate was not
      closed since the last reconstruction, that saw no conflict, neither total exceeds its limit, and
      there is room for one more of its kind: in total, in its group, and for an Apply on its stack. */
  lemma GrantedExactly(p: nat, a: nat, ops: seq<Op>, item: WorkItem)
    requires item.id !in After(p, a, ops).active
    ensures var v := After(p, a, ops);
      Grants(v, item) <==>
        && item.id != "" && IsReady(ops) && !Conflicting(LastObserved(ops))
        && Count(AllPlans, v) <= p && Count(AllApplies, v) <= a
        && match item.kind
           case Plan => Count(AllPlans, v) + 1 <= p && (item.group != "" && item.maxPlans > 0 ==> Count(PlansIn(item.group), v) + 1 <= item.maxPlans)
           case Apply => && Count(AllApplies, v) + 1 <= a && Count(OnStack(item.stack), v) == 0
                         && (item.group != "" && item.maxApplies > 0 ==> Count(AppliesIn(item.group), v) + 1 <= item.maxApplies)
           case Other => false
  {
    RunOrigin(p, a, ops);
    OverCapacityIsExact(p, a, ops);
    ReadyExactly(p, a, ops);
    NewItemGrantedExactly(After(p, a, ops), item);
  }

  function KindCount(items: seq<WorkItem>, kind: Kind): nat {
    if items == [] then 0 else KindCount(items[..|items| - 1], kind) + (if items[|items| - 1].kind == kind then 1 else 0)
  }

  /** Proper items without a group, no ID twice, no two Applies on one stack. */
  ghost predicate Apart(items: seq<WorkItem>) {
    && (forall i | 0 <= i < |items| :: items[i].id != "" && items[i].kind != Other && items[i].group == "")
    && (forall i, j | 0 <= i < j < |items| ::
          items[i].id != items[j].id && (items[i].kind == Apply && items[j].kind == Apply ==> items[i].stack != items[j].stack))
  }

  function Requests(items: seq<WorkItem>): seq<Op> {
    if items == [] then [] else Requests(items[..|items| - 1]) + [TryAcquire(items[|items| - 1])]
  }

  /** The gate holds these items, and nothing stands in the way of more. */
  ghost predicate Filled(v: View, items: seq<WorkItem>) {
    && v.ready && !v.over && !v.violation && v.shadow == [] && v.active == ActiveOf(items)
    && Count(AllPlans, v) == KindCount(items, Plan) && Count(AllApplies, v) == KindCount(items, Apply)
  }

  /** A new gate can be filled up to its limits: all of up to `p` Plans and up to `a` Applies on
      different stacks are granted, in any order. */
  lemma {:induction false} FillsUp(p: nat, a: nat, items: seq<WorkItem>)
    requires Apart(items) && KindCount(items, Plan) <= p && KindCount(items, Apply) <= a
    ensures Filled(After(p, a, Requests(items)), items)
    ensures forall i | 0 <= i < |items| :: items[i].id in After(p, a, Requests(items)).active
  {
    if items == [] {
      EmptyCounts(After(p, a, []));
    } else {
      var front, last := items[..|items| - 1], items[|items| - 1];
      FillsUp(p, a, front);
      RunOrigin(p, a, Requests(front));
      assert Requests(items) == Requests(front) + [TryAcquire(last)];
      Snoc(p, a, Requests(front), TryAcquire(last));
      OneMoreFits(items, After(p, a, Requests(front)));
    }
    forall i | 0 <= i < |items| ensures items[i].id in After(p, a, Requests(items)).active { ActiveOfMembers(items, items[i].id); }
  }

  lemma Snoc(p: nat, a: nat, ops: seq<Op>, op: Op)
    ensures After(p, a, ops + [op]) == Step(After(p, a, ops), op)
  {
    assert (ops + [op])[..|ops|] == ops;
  }

  lemma OneMoreFits(items: seq<WorkItem>, v: View)
    requires items != [] && Apart(items) && KindCount(items, Plan) <= v.planLimit && KindCount(items, Apply) <= v.applyLimit
    requires Filled(v, items[..|items| - 1])
    ensures Filled(Admit(v, items[|items| - 1]), items)
  {
    var item := items[|items| - 1];
    OneMoreGranted(items, v);
    CountInsert(AllPlans, v, item);
    CountInsert(AllApplies, v, item);
  }

  lemma OneMoreGranted(items: seq<WorkItem>, v: View)
    requires items != [] && Apart(items) && KindCount(items, Plan) <= v.planLimit && KindCount(items, Apply) <= v.applyLimit
    requires Filled(v, items[..|items| - 1])
    ensures Grants(v, items[|items| - 1]) && items[|items| - 1].id !in v.active
  {
    var front, item := items[..|items| - 1], items[|items| - 1];
    ActiveOfMembers(front, item.id);
    if item.kind.Apply? { NoneOnStack(items, v); }
    NewItemGrantedExactly(v, item);
  }

  lemma NoneOnStack(items: seq<WorkItem>, v: View)
    requires items != [] && Apart(items) && items[|items| - 1].kind.Apply?
    requires v.active == ActiveOf(items[..|items| - 1]) && v.shadow == []
    ensures Count(OnStack(items[|items| - 1].stack), v) == 0
  {
    var front, item := items[..|items| - 1], items[|items| - 1];
    forall id | id in v.active ensures !Matches(OnStack(item.stack), v.active[id]) {
      ActiveOfSource(front, id);
    }
    assert MatchingIds(OnStack(item.stack), v.active) == {} && MatchingShadows(OnStack(item.stack), v.shadow) == {};
  }

  /** In particular, an empty open gate with positive limits grants every proper item without a group. */
  lemma EmptyGateGrants(p: nat, a: nat, item: WorkItem)
    requires p > 0 && a > 0 && item.id != "" && item.kind != Other && item.group == ""
    ensures Grants(After(p, a, []), item)
  {
    EmptyCounts(After(p, a, []));
    NewItemGrantedExactly(After(p, a, []), item);
  }

  // ------------------------------------------------------ exclusion, safety

  /** A new ID becomes active only while the gate is ready, within capacity and free
      of safety violations, or because a reconstruction observed it. */
  lemma AdmissionsAreGuarded(v: View, op: Op, id: string)
    requires !op.Reconstruct? && id !in v.active && id in Step(v, op).active
    ensures (op.TryAcquire? || op.EnsureActive?) && op.item.id == id && Step(v, op).active[id] == op.item
    ensures Open(v) && Available(v, op.item) && Grants(v, op.item)
  {
  }

  lemma {:induction false} ViolationBlocks(p: nat, a: nat, before: seq<Op>, calls: seq<Op>)
    requires Conflicting(LastObserved(before))
    requires forall n | 0 <= n < |calls| :: !calls[n].Reconstruct?
    ensures After(p, a, before + calls).active.Keys <= After(p, a, before).active.Keys
  {
    if calls == [] {
      assert before + calls == before;
    } else {
      var n := |calls| - 1;
      var all := before + calls;
      assert all[..|all| - 1] == before + calls[..n];
      ViolationBlocks(p, a, before, calls[..n]);
      RunOrigin(p, a, before + calls[..n]);
      LastObservedUnchanged(before, calls[..n]);
    }
  }

  lemma {:induction false} LastObservedUnchanged(before: seq<Op>, calls: seq<Op>)
    requires forall n | 0 <= n < |calls| :: !calls[n].Reconstruct?
    ensures LastObserved(before + calls) == LastObserved(before)
  {
    if calls == [] {
      assert before + calls == before;
    } else {
      var n := |calls| - 1;
      var all := before + calls;
      assert all[..|all| - 1] == before + calls[..n];
      LastObservedUnchanged(before, calls[..n]);
    }
  }

  /** Two observations on one stack are what `HasSharedStack` forbids. */
  lemma SharedStackCount(items: seq<WorkItem>, s: string)
    ensures |Hits(OnStack(s), items)| <= 1 || HasSharedStack(items)
  {
    var hits := Hits(OnStack(s), items);
    if i :| i in hits {
      if j :| j in hits && j != i {
        assert ValidItem(items[i]) && ValidItem(items[j]) && items[i].stack == items[j].stack;
        if i < j { assert HasSharedStack(items); } else { assert HasSharedStack(items); }
      } else {
        assert hits == {i};
      }
    }
  }

  /** Unless the last reconstruction reported a violation, no stack ever has two
      Applies in the gate. */
  lemma {:induction false} OneApplyPerStack(p: nat, a: nat, ops: seq<Op>, s: string)
    requires !Conflicting(LastObserved(ops))
    ensures Count(OnStack(s), After(p, a, ops)) <= 1
  {
    if ops == [] {
      EmptyCounts(After(p, a, ops));
    } else {
      var n := |ops| - 1;
      var v, op := After(p, a, ops[..n]), ops[n];
      if op.Reconstruct? {
        CountAfterRebuild(OnStack(s), Rebuilt(v, op.items), op.items);
        SharedStackCount(op.items, s);
      } else {
        OneApplyPerStack(p, a, ops[..n], s);
        StepCount(OnStack(s), v, op);
      }
    }
  }
}
