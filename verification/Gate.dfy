/** The execution gate of internal/reliability/gate.go.

    The gate keeps redundant counters (totals, per stack, per concurrency group)
    beside the set of active work items. `View` is its abstract value: only the
    items, no counters. Class `Gate` mutates the counters as the source does and
    is proved against functions on `View`; the lemmas below are about those
    functions and about whole sequences of calls. */
module ExecutionGate {

  datatype Kind = Plan | Apply | Other

  datatype WorkItem = WorkItem(id: string, kind: Kind, stack: string, group: string,
                               maxPlans: int, maxApplies: int)

  predicate ValidItem(item: WorkItem) {
    item.id != "" && !item.kind.Other?
  }

  /** What one of the gate's counters counts. */
  datatype Query = AllPlans | AllApplies | OnStack(stack: string)
                 | PlansIn(group: string) | AppliesIn(group: string)

  predicate Matches(q: Query, item: WorkItem) {
    match q
    case AllPlans => item.kind.Plan?
    case AllApplies => item.kind.Apply?
    case OnStack(s) => item.kind.Apply? && item.stack == s
    case PlansIn(g) => item.kind.Plan? && g != "" && item.group == g
    case AppliesIn(g) => item.kind.Apply? && g != "" && item.group == g
  }

  function Tally(q: Query, item: WorkItem): nat { if Matches(q, item) then 1 else 0 }

  /** The abstract gate. `shadow` holds the items that the last reconstruction
      observed under an ID it then observed again: they are no longer in
      `active`, but they stay counted until the next reconstruction. */
  datatype View = View(planLimit: int, applyLimit: int,
                       active: map<string, WorkItem>, shadow: seq<WorkItem>,
                       ready: bool, over: bool, violation: bool)

  function MatchingIds(q: Query, active: map<string, WorkItem>): set<string> {
    set id | id in active && Matches(q, active[id])
  }

  function MatchingShadows(q: Query, shadow: seq<WorkItem>): set<int> {
    set i | 0 <= i < |shadow| && Matches(q, shadow[i])
  }

  /** The exact value of every counter: matching active items plus matching shadows. */
  function Count(q: Query, v: View): nat {
    |MatchingIds(q, v.active)| + |MatchingShadows(q, v.shadow)|
  }

  predicate ItemsWellKeyed(active: map<string, WorkItem>) {
    forall id | id in active :: active[id].id == id && ValidItem(active[id])
  }

  function Initial(planLimit: int, applyLimit: int): View {
    View(planLimit, applyLimit, map[], [], true, false, false)
  }

  // ---------------------------------------------------------------- admission

  predicate Available(v: View, item: WorkItem) {
    if item.kind.Plan? then
      && Count(AllPlans, v) < v.planLimit
      && (item.group == "" || item.maxPlans <= 0 || Count(PlansIn(item.group), v) < item.maxPlans)
    else
      && Count(AllApplies, v) < v.applyLimit
      && Count(OnStack(item.stack), v) == 0
      && (item.group == "" || item.maxApplies <= 0 || Count(AppliesIn(item.group), v) < item.maxApplies)
  }

  predicate Open(v: View) { v.ready && !v.over && !v.violation }

  /** Whether a call for `item` returns true. */
  predicate Grants(v: View, item: WorkItem) {
    && ValidItem(item)
    && (if item.id in v.active
        then v.active[item.id].kind == item.kind && v.active[item.id].stack == item.stack
        else Open(v) && Available(v, item))
  }

  function Admit(v: View, item: WorkItem): View {
    if Grants(v, item) && item.id !in v.active then v.(active := v.active[item.id := item]) else v
  }

  predicate WithinLimits(v: View) {
    Count(AllPlans, v) <= v.planLimit && Count(AllApplies, v) <= v.applyLimit
  }

  function Released(v: View, id: string): View {
    if id !in v.active then v else
    var w := v.(active := v.active - {id});
    if WithinLimits(w) then w.(over := false) else w
  }

  /** When an item that is not held is granted, in terms of the counters and the flags alone. */
  lemma NewItemGrantedExactly(v: View, item: WorkItem)
    requires item.id !in v.active
    ensures Grants(v, item) <==>
      && item.id != "" && v.ready && !v.over && !v.violation
      && match item.kind
         case Plan =>
           && Count(AllPlans, v) < v.planLimit
           && (item.group != "" && item.maxPlans > 0 ==> Count(PlansIn(item.group), v) < item.maxPlans)
         case Apply =>
           && Count(AllApplies, v) < v.applyLimit && Count(OnStack(item.stack), v) == 0
           && (item.group != "" && item.maxApplies > 0 ==> Count(AppliesIn(item.group), v) < item.maxApplies)
         case Other => false
  {
  }

  /** A held ID is granted again to the same kind and stack, whatever the gate's flags and counters. */
  lemma HeldItemGrantedExactly(v: View, item: WorkItem)
    requires ItemsWellKeyed(v.active) && item.id in v.active
    ensures Grants(v, item) <==> (item.kind, item.stack) == (v.active[item.id].kind, v.active[item.id].stack)
  {
  }

  /** What the counters count, item by item. */
  lemma CountsAre(v: View, s: string, g: string)
    requires g != ""
    ensures Count(AllPlans, v) == |set id | id in v.active && v.active[id].kind == Plan|
                                  + |set i | 0 <= i < |v.shadow| && v.shadow[i].kind == Plan|
    ensures Count(AllApplies, v) == |set id | id in v.active && v.active[id].kind == Apply|
                                    + |set i | 0 <= i < |v.shadow| && v.shadow[i].kind == Apply|
    ensures Count(OnStack(s), v) == |set id | id in v.active && (v.active[id].kind, v.active[id].stack) == (Apply, s)|
                                    + |set i | 0 <= i < |v.shadow| && (v.shadow[i].kind, v.shadow[i].stack) == (Apply, s)|
    ensures Count(PlansIn(g), v) == |set id | id in v.active && (v.active[id].kind, v.active[id].group) == (Plan, g)|
                                    + |set i | 0 <= i < |v.shadow| && (v.shadow[i].kind, v.shadow[i].group) == (Plan, g)|
    ensures Count(AppliesIn(g), v) == |set id | id in v.active && (v.active[id].kind, v.active[id].group) == (Apply, g)|
                                      + |set i | 0 <= i < |v.shadow| && (v.shadow[i].kind, v.shadow[i].group) == (Apply, g)|
  {
    assert MatchingIds(AllPlans, v.active) == set id | id in v.active && v.active[id].kind == Plan;
    assert MatchingShadows(AllPlans, v.shadow) == set i | 0 <= i < |v.shadow| && v.shadow[i].kind == Plan;
    assert MatchingIds(AllApplies, v.active) == set id | id in v.active && v.active[id].kind == Apply;
    assert MatchingShadows(AllApplies, v.shadow) == set i | 0 <= i < |v.shadow| && v.shadow[i].kind == Apply;
    assert MatchingIds(OnStack(s), v.active) == set id | id in v.active && (v.active[id].kind, v.active[id].stack) == (Apply, s);
    assert MatchingShadows(OnStack(s), v.shadow) == set i | 0 <= i < |v.shadow| && (v.shadow[i].kind, v.shadow[i].stack) == (Apply, s);
    assert MatchingIds(PlansIn(g), v.active) == set id | id in v.active && (v.active[id].kind, v.active[id].group) == (Plan, g);
    assert MatchingShadows(PlansIn(g), v.shadow) == set i | 0 <= i < |v.shadow| && (v.shadow[i].kind, v.shadow[i].group) == (Plan, g);
    assert MatchingIds(AppliesIn(g), v.active) == set id | id in v.active && (v.active[id].kind, v.active[id].group) == (Apply, g);
    assert MatchingShadows(AppliesIn(g), v.shadow) == set i | 0 <= i < |v.shadow| && (v.shadow[i].kind, v.shadow[i].group) == (Apply, g);
  }

  // ----------------------------------------------------------- reconstruction

  function ActiveOf(items: seq<WorkItem>): map<string, WorkItem> {
    if items == [] then map[] else
    var last, before := items[|items| - 1], ActiveOf(items[..|items| - 1]);
    if ValidItem(last) then before[last.id := last] else before
  }

  function ShadowOf(items: seq<WorkItem>): seq<WorkItem> {
    if items == [] then [] else
    var last, front := items[|items| - 1], items[..|items| - 1];
    if ValidItem(last) && last.id in ActiveOf(front)
    then ShadowOf(front) + [ActiveOf(front)[last.id]] else ShadowOf(front)
  }

  ghost predicate HasInvalid(items: seq<WorkItem>) {
    exists i | 0 <= i < |items| :: !ValidItem(items[i])
  }

  ghost predicate HasRepeatedId(items: seq<WorkItem>) {
    exists i, j | 0 <= i < j < |items| ::
      ValidItem(items[i]) && ValidItem(items[j]) && items[i].id == items[j].id
  }

  ghost predicate HasSharedStack(items: seq<WorkItem>) {
    exists i, j | 0 <= i < j < |items| ::
      && ValidItem(items[i]) && ValidItem(items[j])
      && items[i].kind.Apply? && items[j].kind.Apply? && items[i].stack == items[j].stack
  }

  ghost predicate Conflicting(items: seq<WorkItem>) {
    HasInvalid(items) || HasRepeatedId(items) || HasSharedStack(items)
  }

  /** A list is a safety violation exactly when an item has no ID or no known kind, or two proper items
      share an ID or, both being Applies, a stack. */
  lemma ConflictingExactly(items: seq<WorkItem>)
    ensures Conflicting(items) <==>
      || (exists i | 0 <= i < |items| :: items[i].id == "" || items[i].kind == Other)
      || (exists i, j | 0 <= i < j < |items| ::
            && items[i].id != "" && items[i].kind != Other && items[j].id != "" && items[j].kind != Other
            && (items[i].id == items[j].id
                || (items[i].kind == Apply && items[j].kind == Apply && items[i].stack == items[j].stack)))
  {
  }

  ghost function Rebuilt(v: View, items: seq<WorkItem>): View {
    var w := View(v.planLimit, v.applyLimit, ActiveOf(items), ShadowOf(items), true, false, Conflicting(items));
    w.(over := !WithinLimits(w))
  }

  // --------------------------------------------------------- counting lemmas

  lemma CountInsert(q: Query, v: View, item: WorkItem)
    requires item.id !in v.active
    ensures Count(q, v.(active := v.active[item.id := item])) == Count(q, v) + Tally(q, item)
  {
    IdsInsert(q, v.active, item);
  }

  lemma IdsInsert(q: Query, active: map<string, WorkItem>, item: WorkItem)
    requires item.id !in active
    ensures item.id !in MatchingIds(q, active)
    ensures MatchingIds(q, active[item.id := item]) == MatchingIds(q, active) + (if Matches(q, item) then {item.id} else {})
  {
  }

  lemma CountRemove(q: Query, v: View, id: string)
    requires id in v.active
    ensures Count(q, v.(active := v.active - {id})) == Count(q, v) - Tally(q, v.active[id])
  {
    var after := v.active - {id};
    if Matches(q, v.active[id]) {
      assert MatchingIds(q, v.active) == MatchingIds(q, after) + {id};
    } else {
      assert MatchingIds(q, after) == MatchingIds(q, v.active);
    }
  }

  lemma CountShadow(q: Query, v: View, item: WorkItem)
    ensures Count(q, v.(shadow := v.shadow + [item])) == Count(q, v) + Tally(q, item)
  {
    var after := v.shadow + [item];
    if Matches(q, item) {
      assert MatchingShadows(q, after) == MatchingShadows(q, v.shadow) + {|v.shadow|};
    } else {
      assert MatchingShadows(q, after) == MatchingShadows(q, v.shadow);
    }
  }

  /** A repeated ID replaces the active item, but the replaced one stays counted. */
  lemma CountReplace(q: Query, v: View, item: WorkItem)
    requires item.id in v.active
    ensures Count(q, v.(active := v.active[item.id := item], shadow := v.shadow + [v.active[item.id]]))
         == Count(q, v) + Tally(q, item)
  {
    var old' := v.active[item.id];
    var without := v.(active := v.active - {item.id});
    CountRemove(q, v, item.id);
    CountInsert(q, without, item);
    assert without.active[item.id := item] == v.active[item.id := item];
    CountShadow(q, v.(active := v.active[item.id := item]), old');
  }

  function Observed(v: View, item: WorkItem): View {
    v.(active := v.active[item.id := item],
       shadow := if item.id in v.active then v.shadow + [v.active[item.id]] else v.shadow)
  }

  lemma CountObserved(v: View, w: View, item: WorkItem)
    requires w == Observed(v, item)
    ensures forall q :: Count(q, w) == Count(q, v) + Tally(q, item)
  {
    forall q ensures Count(q, w) == Count(q, v) + Tally(q, item) {
      if item.id in v.active { CountReplace(q, v, item); } else { CountInsert(q, v, item); }
    }
  }

  // -------------------------------------------------------------- the class

  function At(m: map<string, int>, k: string): int { if k in m then m[k] else 0 }

  datatype ReconstructionResult =
    ReconstructionResult(gateReady: bool, overCapacity: bool, safetyViolation: bool, active: seq<WorkItem>)

  class Gate {
    const maxPlans: int
    const maxApplies: int
    var activePlans: int
    var activeApplies: int
    var activeByStack: map<string, int>
    var activeByPlanGroup: map<string, int>
    var activeByApplyGroup: map<string, int>
    var startedIDs: set<string>
    var activeItems: map<string, WorkItem>
    var gateReady: bool
    var overCapacity: bool
    var safetyViolation: bool
    ghost var shadow: seq<WorkItem>

    ghost function Abs(): View reads this {
      View(maxPlans, maxApplies, activeItems, shadow, gateReady, overCapacity, safetyViolation)
    }

    /** Every counter equals the number of items it stands for. */
    ghost predicate CountersExact() reads this {
      && activePlans == Count(AllPlans, Abs())
      && activeApplies == Count(AllApplies, Abs())
      && (forall s :: At(activeByStack, s) == Count(OnStack(s), Abs()))
      && (forall g :: At(activeByPlanGroup, g) == Count(PlansIn(g), Abs()))
      && (forall g :: At(activeByApplyGroup, g) == Count(AppliesIn(g), Abs()))
    }

    ghost predicate Valid() reads this {
      CountersExact() && ItemsWellKeyed(activeItems)
    }

    constructor (planLimit: int, applyLimit: int)
      ensures Valid() && Abs() == Initial(planLimit, applyLimit)
    {
      maxPlans, maxApplies := planLimit, applyLimit;
      activePlans, activeApplies := 0, 0;
      activeByStack, activeByPlanGroup, activeByApplyGroup := map[], map[], map[];
      startedIDs, activeItems := {}, map[];
      gateReady, overCapacity, safetyViolation := true, false, false;
      shadow := [];
      new;
      EmptyCounts(Abs());
    }

    method CloseAdmission()
      requires Valid()
      modifies this`gateReady
      ensures Valid() && Abs() == old(Abs()).(ready := false)
    {
      gateReady := false;
      CountsIgnoreFlags(old(Abs()), Abs());
    }

    method HasCapacity(item: WorkItem) returns (free: bool)
      requires Valid()
      ensures free == Available(Abs(), item)
      ensures item.kind.Plan? ==>
        (free <==> Count(AllPlans, Abs()) < maxPlans
                   && (item.group == "" || item.maxPlans <= 0 || Count(PlansIn(item.group), Abs()) < item.maxPlans))
      ensures !item.kind.Plan? ==>
        (free <==> Count(AllApplies, Abs()) < maxApplies && Count(OnStack(item.stack), Abs()) == 0
                   && (item.group == "" || item.maxApplies <= 0 || Count(AppliesIn(item.group), Abs()) < item.maxApplies))
    {
      if item.kind.Plan? {
        if activePlans >= maxPlans { return false; }
        return item.group == "" || item.maxPlans <= 0 || At(activeByPlanGroup, item.group) < item.maxPlans;
      }
      if activeApplies >= maxApplies || At(activeByStack, item.stack) != 0 { return false; }
      return item.group == "" || item.maxApplies <= 0 || At(activeByApplyGroup, item.group) < item.maxApplies;
    }

    /** Reserves a slot without blocking; a run that already holds one keeps it. */
    method TryAcquire(item: WorkItem) returns (ok: bool)
      requires Valid()
      modifies this
      ensures Valid() && ok == Grants(old(Abs()), item) && Abs() == Admit(old(Abs()), item)
      ensures item.id !in old(activeItems) ==>
        (ok <==> && item.id != "" && old(gateReady) && !old(overCapacity) && !old(safetyViolation)
                 && match item.kind
                    case Plan =>
                      && Count(AllPlans, old(Abs())) < maxPlans
                      && (item.group != "" && item.maxPlans > 0 ==> Count(PlansIn(item.group), old(Abs())) < item.maxPlans)
                    case Apply =>
                      && Count(AllApplies, old(Abs())) < maxApplies && Count(OnStack(item.stack), old(Abs())) == 0
                      && (item.group != "" && item.maxApplies > 0 ==> Count(AppliesIn(item.group), old(Abs())) < item.maxApplies)
                    case Other => false)
    {
      if item.id == "" || item.kind.Other? { return false; }
      if item.id in activeItems {
        var current := activeItems[item.id];
        return current.kind == item.kind && current.stack == item.stack;
      }
      var free := HasCapacity(item);
      if !gateReady || overCapacity || safetyViolation || !free { return false; }
      Reserve(item);
      return true;
    }

    /** Used for a Job that is already running; the source repeats TryAcquire's checks. */
    method EnsureActive(item: WorkItem) returns (ok: bool)
      requires Valid()
      modifies this
      ensures Valid() && ok == Grants(old(Abs()), item) && Abs() == Admit(old(Abs()), item)
      ensures item.id !in old(activeItems) ==>
        (ok <==> && item.id != "" && old(gateReady) && !old(overCapacity) && !old(safetyViolation)
                 && match item.kind
                    case Plan =>
                      && Count(AllPlans, old(Abs())) < maxPlans
                      && (item.group != "" && item.maxPlans > 0 ==> Count(PlansIn(item.group), old(Abs())) < item.maxPlans)
                    case Apply =>
                      && Count(AllApplies, old(Abs())) < maxApplies && Count(OnStack(item.stack), old(Abs())) == 0
                      && (item.group != "" && item.maxApplies > 0 ==> Count(AppliesIn(item.group), old(Abs())) < item.maxApplies)
                    case Other => false)
    {
      if item.id == "" || item.kind.Other? { return false; }
      if item.id in activeItems {
        var current := activeItems[item.id];
        return current.kind == item.kind && current.stack == item.stack;
      }
      var free := HasCapacity(item);
      if !gateReady || overCapacity || safetyViolation || !free { return false; }
      Reserve(item);
      return true;
    }

    method Reserve(item: WorkItem)
      requires Valid() && ValidItem(item) && item.id !in activeItems
      modifies this
      ensures Valid() && Abs() == old(Abs()).(active := old(activeItems)[item.id := item])
      ensures startedIDs == old(startedIDs) + {item.id}
    {
      forall q { CountInsert(q, Abs(), item); }
      CountItem(item);
      activeItems := activeItems[item.id := item];
      startedIDs := startedIDs + {item.id};
    }

    /** The source's Reconstruct may observe an ID twice; the count still grows. */
    method ReserveObserved(item: WorkItem)
      requires Valid() && ValidItem(item)
      modifies this
      ensures Valid() && startedIDs == old(startedIDs) + {item.id}
      ensures Abs() == Observed(old(Abs()), item)
    {
      ghost var w := Observed(Abs(), item);
      CountObserved(Abs(), w, item);
      if item.id in activeItems { shadow := shadow + [activeItems[item.id]]; }
      CountItem(item);
      activeItems := activeItems[item.id := item];
      startedIDs := startedIDs + {item.id};
      assert Abs() == w;
      forall s ensures At(activeByStack, s) == Count(OnStack(s), w) { }
      forall g ensures At(activeByPlanGroup, g) == Count(PlansIn(g), w) { }
      forall g ensures At(activeByApplyGroup, g) == Count(AppliesIn(g), w) { }
    }

    method CountItem(item: WorkItem)
      requires ValidItem(item)
      modifies this`activePlans, this`activeApplies, this`activeByStack, this`activeByPlanGroup, this`activeByApplyGroup
      ensures activePlans == old(activePlans) + Tally(AllPlans, item)
      ensures activeApplies == old(activeApplies) + Tally(AllApplies, item)
      ensures forall s :: At(activeByStack, s) == At(old(activeByStack), s) + Tally(OnStack(s), item)
      ensures forall g :: At(activeByPlanGroup, g) == At(old(activeByPlanGroup), g) + Tally(PlansIn(g), item)
      ensures forall g :: At(activeByApplyGroup, g) == At(old(activeByApplyGroup), g) + Tally(AppliesIn(g), item)
    {
      if item.kind.Plan? {
        activePlans := activePlans + 1;
        if item.group != "" {
          activeByPlanGroup := activeByPlanGroup[item.group := At(activeByPlanGroup, item.group) + 1];
        }
        return;
      }
      activeApplies := activeApplies + 1;
      activeByStack := activeByStack[item.stack := At(activeByStack, item.stack) + 1];
      if item.group != "" {
        activeByApplyGroup := activeByApplyGroup[item.group := At(activeByApplyGroup, item.group) + 1];
      }
    }

    method UncountItem(item: WorkItem)
      requires ValidItem(item)
      modifies this`activePlans, this`activeApplies, this`activeByStack, this`activeByPlanGroup, this`activeByApplyGroup
      ensures activePlans == old(activePlans) - Tally(AllPlans, item)
      ensures activeApplies == old(activeApplies) - Tally(AllApplies, item)
      ensures forall s :: At(activeByStack, s) == At(old(activeByStack), s) - Tally(OnStack(s), item)
      ensures forall g :: At(activeByPlanGroup, g) == At(old(activeByPlanGroup), g) - Tally(PlansIn(g), item)
      ensures forall g :: At(activeByApplyGroup, g) == At(old(activeByApplyGroup), g) - Tally(AppliesIn(g), item)
    {
      if item.kind.Plan? {
        activePlans := activePlans - 1;
        if item.group != "" {
          activeByPlanGroup := activeByPlanGroup[item.group := At(activeByPlanGroup, item.group) - 1];
        }
        return;
      }
      activeApplies := activeApplies - 1;
      activeByStack := activeByStack[item.stack := At(activeByStack, item.stack) - 1];
      if item.group != "" {
        activeByApplyGroup := activeByApplyGroup[item.group := At(activeByApplyGroup, item.group) - 1];
      }
    }

    /** Gives back the slot held under the item's ID, whatever else the argument says. */
    method Release(item: WorkItem)
      requires Valid()
      modifies this
      ensures Valid() && Abs() == Released(old(Abs()), item.id)
      ensures activeItems == old(activeItems) - {item.id}
      ensures (gateReady, safetyViolation) == (old(gateReady), old(safetyViolation))
      ensures overCapacity <==>
        old(overCapacity) && (item.id !in old(activeItems) || Count(AllPlans, Abs()) > maxPlans || Count(AllApplies, Abs()) > maxApplies)
    {
      if item.id !in activeItems { return; }
      Forget(item.id);
      if activePlans <= maxPlans && activeApplies <= maxApplies {
        ghost var counted := Abs();
        overCapacity := false;
        CountsIgnoreFlags(counted, Abs());
      }
    }

    method Forget(id: string)
      requires Valid() && id in activeItems
      modifies this
      ensures Valid() && Abs() == old(Abs()).(active := old(activeItems) - {id})
    {
      ghost var w := Abs().(active := activeItems - {id});
      forall q { CountRemove(q, Abs(), id); }
      UncountItem(activeItems[id]);
      activeItems := activeItems - {id};
      assert Abs() == w;
    }

    ghost predicate Observing(seen: seq<WorkItem>) reads this {
      && Valid()
      && activeItems == ActiveOf(seen) && shadow == ShadowOf(seen)
      && startedIDs == activeItems.Keys
    }

    /** Whether observing `item` after `seen` is a safety violation. */
    method Clashes(item: WorkItem, ghost seen: seq<WorkItem>) returns (clash: bool)
      requires Observing(seen) && ValidItem(item)
      ensures clash == ConflictsWith(seen, item)
    {
      ActiveOfMembers(seen, item.id);
      StackOccupied(Abs(), seen, item.stack);
      clash := item.id in startedIDs || (item.kind.Apply? && At(activeByStack, item.stack) > 0);
    }

    /** One turn of Reconstruct's loop. */
    method Observe(item: WorkItem, ghost seen: seq<WorkItem>)
      requires Observing(seen)
      modifies this
      ensures Observing(seen + [item])
      ensures safetyViolation == (old(safetyViolation) || !ValidItem(item) || ConflictsWith(seen, item))
      ensures gateReady == old(gateReady) && overCapacity == old(overCapacity)
    {
      assert (seen + [item])[..|seen|] == seen;
      ghost var before := Abs();
      if item.id == "" || item.kind.Other? {
        safetyViolation := true;
        CountsIgnoreFlags(before, Abs());
        return;
      }
      var clash := Clashes(item, seen);
      safetyViolation := safetyViolation || clash;
      CountsIgnoreFlags(before, Abs());
      ReserveObserved(item);
    }

    method Reset()
      modifies this
      ensures Observing([]) && !gateReady && !overCapacity && !safetyViolation
    {
      gateReady, overCapacity, safetyViolation := false, false, false;
      activePlans, activeApplies := 0, 0;
      activeByStack, activeByPlanGroup, activeByApplyGroup := map[], map[], map[];
      activeItems, startedIDs := map[], {};
      shadow := [];
      EmptyCounts(Abs());
    }

    method ObserveAll(items: seq<WorkItem>)
      modifies this
      ensures Observing(items) && safetyViolation == Conflicting(items)
    {
      Reset();
      for i := 0 to |items|
        invariant Observing(items[..i])
        invariant safetyViolation == Conflicting(items[..i])
      {
        ConflictGrows(items[..i], items[i]);
        assert items[..i] + [items[i]] == items[..i + 1];
        Observe(items[i], items[..i]);
      }
      assert items[..|items|] == items;
    }

    /** Rebuilds every counter from the executions observed after a restart. */
    method Reconstruct(items: seq<WorkItem>) returns (result: ReconstructionResult)
      modifies this
      ensures Valid() && Abs() == Rebuilt(old(Abs()), items)
      ensures gateReady && (safetyViolation <==> Conflicting(items))
      ensures overCapacity <==> Count(AllPlans, Abs()) > maxPlans || Count(AllApplies, Abs()) > maxApplies
      ensures result == ReconstructionResult(gateReady, overCapacity, safetyViolation, items)
    {
      ObserveAll(items);
      ghost var before := Abs();
      overCapacity := activePlans > maxPlans || activeApplies > maxApplies;
      gateReady := true;
      CountsIgnoreFlags(before, Abs());
      result := ReconstructionResult(gateReady, overCapacity, safetyViolation, items);
    }

    method Ready() returns (ready: bool)
      ensures ready == Open(Abs())
    {
      ready := gateReady && !safetyViolation && !overCapacity;
    }
  }

  lemma EmptyCounts(v: View)
    requires v.active == map[] && v.shadow == []
    ensures forall q :: Count(q, v) == 0
  {
    forall q ensures Count(q, v) == 0 {
      assert MatchingIds(q, v.active) == {};
      assert MatchingShadows(q, v.shadow) == {};
    }
  }

  lemma CountsIgnoreFlags(v: View, w: View)
    requires v.active == w.active && v.shadow == w.shadow
    ensures forall q :: Count(q, v) == Count(q, w)
  {
  }

  // -------------------------------------------- what reconstruction observes

  /** An ID is active after reconstruction exactly when some valid item carried it. */
  lemma {:induction false} ActiveOfSource(items: seq<WorkItem>, id: string)
    requires id in ActiveOf(items)
    ensures exists i | 0 <= i < |items| :: items[i] == ActiveOf(items)[id]
  {
    var n := |items| - 1;
    if !ValidItem(items[n]) || items[n].id != id {
      ActiveOfSource(items[..n], id);
      var i :| 0 <= i < n && items[..n][i] == ActiveOf(items[..n])[id];
      assert items[i] == ActiveOf(items)[id];
    }
  }

  lemma {:induction false} ActiveOfMembers(items: seq<WorkItem>, id: string)
    ensures id in ActiveOf(items) <==> exists i | 0 <= i < |items| :: ValidItem(items[i]) && items[i].id == id
    ensures ItemsWellKeyed(ActiveOf(items))
  {
    if items != [] {
      var n := |items| - 1;
      ActiveOfMembers(items[..n], id);
      if id in ActiveOf(items) {
        if ValidItem(items[n]) && items[n].id == id {
        } else {
          var i :| 0 <= i < n && ValidItem(items[..n][i]) && items[..n][i].id == id;
          assert ValidItem(items[i]);
        }
      }
      if i :| 0 <= i < |items| && ValidItem(items[i]) && items[i].id == id {
        if i < n { assert items[..n][i] == items[i]; }
      }
    }
  }

  /** The positions at which `items` holds a valid item the query counts. */
  function Hits(q: Query, items: seq<WorkItem>): set<int> {
    set i | 0 <= i < |items| && ValidItem(items[i]) && Matches(q, items[i])
  }

  lemma HitsGrow(q: Query, front: seq<WorkItem>, last: WorkItem)
    ensures |Hits(q, front + [last])| == |Hits(q, front)| + (if ValidItem(last) then Tally(q, last) else 0)
  {
    if ValidItem(last) && Matches(q, last) {
      assert Hits(q, front + [last]) == Hits(q, front) + {|front|};
    } else {
      assert Hits(q, front + [last]) == Hits(q, front);
    }
  }

  lemma CountGrows(q: Query, v: View, front: seq<WorkItem>, last: WorkItem)
    requires v.active == ActiveOf(front) && v.shadow == ShadowOf(front)
    ensures Count(q, v.(active := ActiveOf(front + [last]), shadow := ShadowOf(front + [last])))
         == Count(q, v) + (if ValidItem(last) then Tally(q, last) else 0)
  {
    var all := front + [last];
    assert all[..|all| - 1] == front && all[|all| - 1] == last;
    if ValidItem(last) {
      if last.id in v.active { CountReplace(q, v, last); } else { CountInsert(q, v, last); }
    }
  }

  /** Every counter after reconstruction counts every valid observation, repeats included. */
  lemma {:induction false} CountAfterRebuild(q: Query, v: View, items: seq<WorkItem>)
    requires v.active == ActiveOf(items) && v.shadow == ShadowOf(items)
    ensures Count(q, v) == |Hits(q, items)|
    decreases |items|
  {
    if items == [] {
      EmptyCounts(v);
    } else {
      var n := |items| - 1;
      var front, last := items[..n], items[n];
      var base := v.(active := ActiveOf(front), shadow := ShadowOf(front));
      assert front + [last] == items;
      CountAfterRebuild(q, base, front);
      CountGrows(q, base, front, last);
      HitsGrow(q, front, last);
    }
  }

  lemma StackOccupied(v: View, items: seq<WorkItem>, stack: string)
    requires v.active == ActiveOf(items) && v.shadow == ShadowOf(items)
    ensures Count(OnStack(stack), v) > 0 <==>
            exists i | 0 <= i < |items| :: ValidItem(items[i]) && items[i].kind.Apply? && items[i].stack == stack
  {
    CountAfterRebuild(OnStack(stack), v, items);
    if i :| i in Hits(OnStack(stack), items) {
      assert ValidItem(items[i]);
    }
    if i :| 0 <= i < |items| && ValidItem(items[i]) && items[i].kind.Apply? && items[i].stack == stack {
      assert i in Hits(OnStack(stack), items);
    }
  }

  ghost predicate ConflictsWith(front: seq<WorkItem>, item: WorkItem) {
    exists i | 0 <= i < |front| :: ValidItem(front[i]) &&
      (front[i].id == item.id || (front[i].kind.Apply? && item.kind.Apply? && front[i].stack == item.stack))
  }

  lemma ConflictGrows(front: seq<WorkItem>, item: WorkItem)
    ensures Conflicting(front + [item]) <==>
            Conflicting(front) || !ValidItem(item) || ConflictsWith(front, item)
  {
    var all, n := front + [item], |front|;
    assert all[n] == item;
    assert forall i | 0 <= i < n :: all[i] == front[i];
    if Conflicting(front) {
      if HasInvalid(front) {
        var i :| 0 <= i < n && !ValidItem(front[i]);
        assert !ValidItem(all[i]);
      } else if HasRepeatedId(front) {
        var i, j :| 0 <= i < j < n && ValidItem(front[i]) && ValidItem(front[j]) && front[i].id == front[j].id;
        assert ValidItem(all[i]) && ValidItem(all[j]) && all[i].id == all[j].id;
      } else {
        var i, j :| 0 <= i < j < n && ValidItem(front[i]) && ValidItem(front[j])
          && front[i].kind.Apply? && front[j].kind.Apply? && front[i].stack == front[j].stack;
        assert ValidItem(all[i]) && ValidItem(all[j]) && all[i].stack == all[j].stack;
      }
    }
    if ValidItem(item) && ConflictsWith(front, item) {
      var i :| 0 <= i < n && ValidItem(front[i]) &&
        (front[i].id == item.id || (front[i].kind.Apply? && item.kind.Apply? && front[i].stack == item.stack));
      assert ValidItem(all[i]) && ValidItem(all[n]);
    }
  }
}
