/** Deleting a PlatformEnvironment: reconcileDelete and hasActiveMutatingApply of
    internal/controller/platformenvironment_controller.go, beside the controllers of the
    InfraStack and the ResourceSet. Nobody else touches the three objects. The stack, the child and
    the list of Applies come from a cache, which may not show an object yet or show any version it
    has had since the deletion began; updates go through only against the current version, deletes
    against any. */
module EnvironmentDeletion {
  import opened Api

  datatype Stack = Stack(ownerUid: string, fence: bool, destroy: bool, deleting: bool, finalizer: bool, ready: Option<Condition>)

  datatype Child = Child(fence: bool, mutationAllowed: bool, deleting: bool, finalizer: bool)

  datatype EnvReason = DeletingReason | OwnershipConflict | RecoveryNeeded | OtherReason

  /** The environment being deleted, its two children and the outcomes of the stack's Applies. */
  datatype World = World(uid: string, reason: EnvReason, finalizer: bool, named: bool,
                         stack: Option<Stack>, child: Option<Child>, applies: seq<Outcome>)

  /** What the cache shows one pass. */
  datatype View = View(stack: Option<Stack>, child: Option<Child>, applies: seq<Outcome>)

  function Fresh(w: World): View { View(w.stack, w.child, w.applies) }

  /** The writes that move the deletion forward. */
  datatype Event = StackFenced | ChildFenced | ChildDeleted | DestroyAsked | StackDeleted | Released

  datatype Chance = Chance(stackReadFails: bool, childReadFails: bool, listFails: bool, status: Fate, write: Fate)

  // ---------------------------------------------------------------- one pass

  predicate Active(o: Outcome) { o.NoOutcome? || o.Pending? || o.Running? }

  method HasActiveMutatingApply(applies: seq<Outcome>, listFails: bool) returns (active: bool)
    ensures active <==> listFails || exists k | 0 <= k < |applies| :: applies[k] in {NoOutcome, Pending, Running}
  {
    if listFails { return true; }
    for n := 0 to |applies|
      invariant forall k | 0 <= k < n :: !Active(applies[k])
    {
      assert Active(applies[n]) <==> applies[n] in {NoOutcome, Pending, Running};
      if Active(applies[n]) { return true; }
    }
    return false;
  }

  predicate Busy(v: View, ch: Chance) { ch.listFails || exists k | 0 <= k < |v.applies| :: Active(v.applies[k]) }

  predicate Removed(s: Stack) { s.ready.Some? && s.ready.value.status.IsTrue? && s.ready.value.reason.InfrastructureRemoved? }

  predicate Recovering(s: Stack) { s.ready.Some? && s.ready.value.reason.RecoveryRequired? }

  /** The stack there is, if the environment names one, and the one this pass sees. */
  function Named(w: World): Option<Stack> { if w.named then w.stack else None }

  function Seen(w: World, v: View): Option<Stack> { if w.named then v.stack else None }

  predicate Foreign(w: World, v: View) { Seen(w, v).Some? && Seen(w, v).value.ownerUid != "" && Seen(w, v).value.ownerUid != w.uid }

  predicate StackHolds(w: World, v: View, ch: Chance) { Seen(w, v).Some? && (Busy(v, ch) || Recovering(Seen(w, v).value)) }

  /** The write the pass decides on, if it decides on one. */
  function Decision(w: World, v: View, ch: Chance): Option<Event> {
    if ch.stackReadFails || Foreign(w, v) then None
    else if Seen(w, v).Some? && !Seen(w, v).value.fence then Some(StackFenced)
    else if ch.childReadFails then None
    else if v.child.Some? then
      if !v.child.value.fence || v.child.value.mutationAllowed then Some(ChildFenced)
      else if StackHolds(w, v, ch) || v.child.value.deleting then None
      else Some(ChildDeleted)
    else if Seen(w, v).Some? then
      if !Seen(w, v).value.destroy && !Seen(w, v).value.deleting then Some(DestroyAsked)
      else if !Removed(Seen(w, v).value) || Seen(w, v).value.deleting then None
      else Some(StackDeleted)
    else if w.finalizer then Some(Released)
    else None
  }

  /** Whether the write changes anything: an update of another version is refused, and a delete of
      what is gone or going already does nothing. */
  predicate Applies(w: World, v: View, e: Event) {
    match e
    case StackFenced => v.stack == w.stack
    case DestroyAsked => v.stack == w.stack
    case ChildFenced => v.child == w.child
    case ChildDeleted => w.child.Some? && !w.child.value.deleting
    case StackDeleted => w.stack.Some? && !w.stack.value.deleting
    case Released => true
  }

  /** What a write does to the objects; deleting an object without finalizers removes it. */
  function Effect(w: World, e: Event): World {
    match e
    case StackFenced => if w.stack.Some? then w.(stack := Some(w.stack.value.(fence := true))) else w
    case ChildFenced => if w.child.Some? then w.(child := Some(w.child.value.(fence := true, mutationAllowed := false))) else w
    case ChildDeleted => w.(child := Deleted(w.child))
    case DestroyAsked => if w.stack.Some? then w.(stack := Some(w.stack.value.(destroy := true))) else w
    case StackDeleted =>
      if w.stack.Some? then w.(stack := if w.stack.value.finalizer then Some(w.stack.value.(deleting := true)) else None) else w
    case Released => w.(finalizer := false)
  }

  function Deleted(child: Option<Child>): Option<Child> {
    if child.Some? && child.value.finalizer then Some(child.value.(deleting := true)) else None
  }

  function EndReason(w: World, v: View, ch: Chance): EnvReason {
    if ch.stackReadFails then DeletingReason
    else if Foreign(w, v) then OwnershipConflict
    else if && !ch.childReadFails && Seen(w, v).Some? && Seen(w, v).value.fence && v.child.Some? && v.child.value.fence
            && !v.child.value.mutationAllowed && !Busy(v, ch) && StackHolds(w, v, ch) then RecoveryNeeded
    else DeletingReason
  }

  /** One pass of reconcileDelete, with the event it logs. */
  function DeletePass(w: World, v: View, ch: Chance): (World, Option<Event>) {
    if w.reason != DeletingReason && ch.status.Failing? then (w, None)
    else if w.reason != DeletingReason && ch.status.AnswerLost? then (w.(reason := DeletingReason), None)
    else
      var noted := w.(reason := DeletingReason);
      var d := Decision(noted, v, ch);
      if d.Some? && Lands(ch.write) && Applies(w, v, d.value) then (Effect(noted, d.value), d)
      else if d.None? && EndReason(noted, v, ch) != DeletingReason && Lands(ch.write) then (noted.(reason := EndReason(noted, v, ch)), None)
      else (noted, None)
  }

  /** The API objects as the reconciler updates them. */
  class Cluster {
    var world: World

    constructor (w: World)
      ensures world == w
    {
      world := w;
    }

    method SetCondition(reason: EnvReason, f: Fate)
      modifies this
      ensures world == if Lands(f) then old(world).(reason := reason) else old(world)
    {
      if Lands(f) { world := world.(reason := reason); }
    }

    /** Update: a compare-and-swap on the version read. */
    method UpdateStack(read: Stack, stack: Stack, f: Fate) returns (done: bool)
      modifies this
      ensures done == (Lands(f) && old(world).stack == Some(read))
      ensures world == if done then old(world).(stack := Some(stack)) else old(world)
    {
      done := Lands(f) && world.stack == Some(read);
      if done { world := world.(stack := Some(stack)); }
    }

    /** The child is seen: fence it, wait for the Applies, delete it. */
    method DeleteChild(child: Child, stack: Option<Stack>, v: View, ch: Chance) returns (event: Option<Event>)
      requires v.child == Some(child) && stack == Seen(world, v) && world.reason == DeletingReason
      requires !ch.stackReadFails && !ch.childReadFails && !Foreign(world, v) && (stack.Some? ==> stack.value.fence)
      modifies this
      ensures (world, event) == DeletePass(old(world), v, ch)
    {
      event := None;
      if !child.fence || child.mutationAllowed {
        if ch.write.Failing? || world.child != Some(child) { return; }
        world := world.(child := Some(child.(fence := true, mutationAllowed := false)));
        return Some(ChildFenced);
      }
      var busy := HasActiveMutatingApply(v.applies, ch.listFails);
      if stack.Some? && busy { return; }
      if stack.Some? && stack.value.ready.Some? && stack.value.ready.value.reason.RecoveryRequired? {
        SetCondition(RecoveryNeeded, ch.write);
        return;
      }
      if child.deleting || ch.write.Failing? || world.child.None? || world.child.value.deleting { return; }
      world := world.(child := Deleted(world.child));
      return Some(ChildDeleted);
    }

    /** No child is seen: request Destroy, wait for it, delete the stack. */
    method DeleteStack(stack: Stack, v: View, ch: Chance) returns (event: Option<Event>)
      requires v.child.None? && Seen(world, v) == Some(stack) && stack.fence && world.reason == DeletingReason
      requires !ch.stackReadFails && !ch.childReadFails && !Foreign(world, v)
      modifies this
      ensures (world, event) == DeletePass(old(world), v, ch)
    {
      event := None;
      if !stack.destroy && !stack.deleting {
        var done := UpdateStack(stack, stack.(destroy := true), ch.write);
        return if done then Some(DestroyAsked) else None;
      }
      if stack.ready.None? || !stack.ready.value.status.IsTrue? || !stack.ready.value.reason.InfrastructureRemoved? { return; }
      if stack.deleting || ch.write.Failing? || world.stack.None? || world.stack.value.deleting { return; }
      world := world.(stack := if world.stack.value.finalizer then Some(world.stack.value.(deleting := true)) else None);
      return Some(StackDeleted);
    }

    method ReconcileDelete(v: View, ch: Chance) returns (event: Option<Event>)
      modifies this
      ensures (world, event) == DeletePass(old(world), v, ch)
    {
      event := None;
      if world.reason != DeletingReason {
        if ch.status.Failing? { return; }
        world := world.(reason := DeletingReason);
        if ch.status.AnswerLost? { return; }
      }
      if ch.stackReadFails { return; }
      var stack := if world.named then v.stack else None;
      if stack.Some? {
        if stack.value.ownerUid != "" && stack.value.ownerUid != world.uid {
          SetCondition(OwnershipConflict, ch.write);
          return;
        }
        if !stack.value.fence {
          var done := UpdateStack(stack.value, stack.value.(fence := true), ch.write);
          return if done then Some(StackFenced) else None;
        }
      }
      if ch.childReadFails { return; }
      if v.child.Some? {
        event := DeleteChild(v.child.value, stack, v, ch);
      } else if stack.Some? {
        event := DeleteStack(stack.value, v, ch);
      } else if world.finalizer && Lands(ch.write) {
        world := world.(finalizer := false);
        event := Some(Released);
      }
    }
  }

  // ------------------------------------------------------- other controllers

  /** The InfraStack reconciler sets its fence when destroying, sets conditions, and lets a
      deleted stack go; the ResourceSet reconciler lets a deleted child go; Applies move on. */
  datatype Step = Reconciled(view: View, ch: Chance)
                | StackFences
                | StackReports(status: CondStatus, reason: ReadyReason)
                | StackGoes
                | ChildGoes
                | AppliesMove(applies: seq<Outcome>)

  predicate Destroying(s: Stack) { s.destroy || s.deleting }

  /** The conditions the InfraStack reconciler writes in each of its modes. */
  predicate MayReport(s: Stack, reason: ReadyReason) {
    if Destroying(s) then s.fence && !reason.InfrastructureReady? && !reason.MutationFence?
    else if s.fence then reason.MutationFence?
    else !reason.RecoveryRequired? && !reason.DeletionHeld? && !reason.InfrastructureRemoved?
  }

  function Next(w: World, step: Step): World {
    match step
    case Reconciled(v, ch) => DeletePass(w, v, ch).0
    case StackFences => if w.stack.Some? && Destroying(w.stack.value) then w.(stack := Some(w.stack.value.(fence := true))) else w
    case StackReports(status, reason) =>
      if w.stack.Some? && MayReport(w.stack.value, reason)
      then w.(stack := Some(w.stack.value.(ready := Some(Condition(status, reason, 0))))) else w
    case StackGoes => if w.stack.Some? && w.stack.value.deleting then w.(stack := None) else w
    case ChildGoes => if w.child.Some? && w.child.value.deleting then w.(child := None) else w
    case AppliesMove(applies) => w.(applies := applies)
  }

  function Logged(w: World, step: Step): seq<Event> {
    if step.Reconciled? && DeletePass(w, step.view, step.ch).1.Some? then [DeletePass(w, step.view, step.ch).1.value] else []
  }

  function After(w: World, steps: seq<Step>): World {
    if steps == [] then w else Next(After(w, steps[..|steps| - 1]), steps[|steps| - 1])
  }

  function Log(w: World, steps: seq<Step>): seq<Event> {
    if steps == [] then []
    else Log(w, steps[..|steps| - 1]) + Logged(After(w, steps[..|steps| - 1]), steps[|steps| - 1])
  }

  // ------------------------------------------------------------ what is read

  /** An earlier state of a stack, which is still there or gone by now. */
  predicate StackEarlier(was: Option<Stack>, now: Option<Stack>) {
    now.Some? ==>
      && was.Some? && was.value.ownerUid == now.value.ownerUid && (was.value.fence ==> now.value.fence)
      && (was.value.destroy ==> now.value.destroy) && (was.value.deleting ==> now.value.deleting)
  }

  predicate ChildEarlier(was: Option<Child>, now: Option<Child>) {
    now.Some? ==>
      && was.Some? && (was.value.fence && !was.value.mutationAllowed ==> now.value.fence && !now.value.mutationAllowed)
      && (was.value.deleting ==> now.value.deleting)
  }

  predicate Earlier(was: World, now: World) { StackEarlier(was.stack, now.stack) && ChildEarlier(was.child, now.child) }

  lemma NextIsLater(w: World, step: Step)
    ensures Earlier(w, Next(w, step))
  {
    if step.Reconciled? { PassIsLater(w, step.view, step.ch); }
  }

  lemma PassIsLater(w: World, v: View, ch: Chance)
    ensures Earlier(w, DeletePass(w, v, ch).0)
  {
    var noted := w.(reason := DeletingReason);
    var d := Decision(noted, v, ch);
    if d.Some? { EffectIsLater(noted, d.value); }
  }

  lemma EffectIsLater(w: World, e: Event)
    ensures Earlier(w, Effect(w, e))
  {
  }

  lemma {:induction false} PastIsEarlier(w: World, steps: seq<Step>, k: nat)
    requires k <= |steps|
    ensures Earlier(After(w, steps[..k]), After(w, steps))
    decreases |steps|
  {
    if k == |steps| {
      assert steps[..k] == steps;
    } else {
      var front := steps[..|steps| - 1];
      assert front[..k] == steps[..k];
      PastIsEarlier(w, front, k);
      NextIsLater(After(w, front), steps[|steps| - 1]);
    }
  }

  /** The cache shows each object as it was at some point of the run, or not yet. */
  ghost predicate Shows(w: World, front: seq<Step>, v: View) {
    && (v.stack.Some? ==> exists k: nat :: k <= |front| && v.stack == After(w, front[..k]).stack)
    && (v.child.Some? ==> exists k: nat :: k <= |front| && v.child == After(w, front[..k]).child)
  }

  ghost predicate Cached(w: World, steps: seq<Step>) {
    steps == [] || (Cached(w, steps[..|steps| - 1])
                    && (steps[|steps| - 1].Reconciled? ==> Shows(w, steps[..|steps| - 1], steps[|steps| - 1].view)))
  }

  /** What a pass sees is what there was, whatever has become of it. */
  predicate Sound(w: World, v: View) {
    (v.stack.Some? ==> StackEarlier(v.stack, w.stack)) && (v.child.Some? ==> ChildEarlier(v.child, w.child))
  }

  lemma ShownIsSound(w: World, front: seq<Step>, v: View)
    requires Shows(w, front, v)
    ensures Sound(After(w, front), v)
  {
    if v.stack.Some? {
      var k: nat :| k <= |front| && v.stack == After(w, front[..k]).stack;
      PastIsEarlier(w, front, k);
    }
    if v.child.Some? {
      var k: nat :| k <= |front| && v.child == After(w, front[..k]).child;
      PastIsEarlier(w, front, k);
    }
  }

  /** An object is there and the pass does not see it. */
  predicate Misses(w: World, v: View) { (Named(w).Some? && v.stack.None?) || (w.child.Some? && v.child.None?) }

  ghost predicate Vigilant(w: World, steps: seq<Step>) {
    steps == [] || (Vigilant(w, steps[..|steps| - 1])
                    && (steps[|steps| - 1].Reconciled? ==> !Misses(After(w, steps[..|steps| - 1]), steps[|steps| - 1].view)))
  }

  // ------------------------------------------------------------------- order

  function Rank(e: Event): nat {
    match e
    case StackFenced => 0 case ChildFenced => 1 case ChildDeleted => 2
    case DestroyAsked => 3 case StackDeleted => 4 case Released => 5
  }

  predicate StackStage(w: World, e: Event) {
    w.named && w.stack.Some? ==>
      && w.stack.value.fence
      && (Rank(e) >= 3 ==> Destroying(w.stack.value))
      && (Rank(e) >= 4 ==> w.stack.value.deleting)
      && Rank(e) < 5
  }

  predicate ChildStage(w: World, e: Event) {
    w.child.Some? && Rank(e) >= 1 ==>
      w.child.value.fence && !w.child.value.mutationAllowed && (Rank(e) >= 2 ==> w.child.value.deleting) && Rank(e) < 3
  }

  /** What holds for ever once `e` has happened. */
  predicate Reached(w: World, e: Event) {
    && StackStage(w, e) && ChildStage(w, e) && (Rank(e) >= 5 ==> !w.finalizer)
  }

  /** The objects the pass does not see have come as far as the event needs. */
  predicate UnseenAtStage(w: World, v: View, e: Event) {
    && (v.stack.None? ==> StackStage(w, e)) && (v.child.None? ==> ChildStage(w, e))
  }

  /** An event leaves its stage reached exactly when what the pass does not see is there already;
      and it comes only where no such stage was. */
  lemma EventReachesExactly(w: World, v: View, ch: Chance)
    requires Sound(w, v) && DeletePass(w, v, ch).1.Some?
    ensures var p := DeletePass(w, v, ch); Reached(p.0, p.1.value) <==> UnseenAtStage(w, v, p.1.value)
    ensures forall e: Event | Reached(w, e) :: Rank(e) < Rank(DeletePass(w, v, ch).1.value)
  {
  }

  lemma ReachedStays(w: World, step: Step, e: Event)
    requires Reached(w, e)
    ensures Reached(Next(w, step), e)
  {
  }

  /** Over every run with a cache that lags behind but misses no object, the events come in the fixed
      order, each at most once: stack fence, child fence, child deletion, Destroy, stack deletion,
      finalizer. */
  lemma {:induction false} EventsInOrder(w: World, steps: seq<Step>)
    requires Cached(w, steps) && Vigilant(w, steps)
    ensures forall i, j | 0 <= i < j < |Log(w, steps)| :: Rank(Log(w, steps)[i]) < Rank(Log(w, steps)[j])
    ensures forall i | 0 <= i < |Log(w, steps)| :: Reached(After(w, steps), Log(w, steps)[i])
  {
    if steps != [] {
      var front, last := steps[..|steps| - 1], steps[|steps| - 1];
      var before, log := After(w, front), Log(w, front);
      EventsInOrder(w, front);
      forall i | 0 <= i < |log| ensures Reached(Next(before, last), log[i]) { ReachedStays(before, last, log[i]); }
      if last.Reconciled? && DeletePass(before, last.view, last.ch).1.Some? {
        ShownIsSound(w, front, last.view);
        EventReachesExactly(before, last.view, last.ch);
      }
    }
  }

  /** Each event follows what has to come before it, whoever brought that about: as far as the pass
      sees the objects, it is so still. */
  lemma EventsAreJustified(w: World, v: View, ch: Chance)
    requires Sound(w, v) && DeletePass(w, v, ch).1.Some?
    ensures match DeletePass(w, v, ch).1.value
      case StackFenced => true
      case ChildFenced => Seen(w, v).None? || Named(w).None? || Named(w).value.fence
      case ChildDeleted => && (Seen(w, v).None? || Named(w).None? || Named(w).value.fence)
                           && w.child.Some? && w.child.value.fence && !w.child.value.mutationAllowed
      case DestroyAsked => v.child.None? && Named(w).Some? && Named(w).value.fence
      case StackDeleted => v.child.None? && Seen(w, v).Some? && Named(w).Some? && (Named(w).value.destroy || Named(w).value.deleting)
      case Released => v.child.None? && Seen(w, v).None? && w.finalizer
  {
  }

  /** What a pass without faults reports when it writes no stage: a conflict beside a foreign stack, the
      need of recovery when only that holds the ResourceSet back, and else that it is deleting. */
  lemma ReasonIsGivenExactly(w: World, v: View, ch: Chance)
    requires ch.status == Done && ch.write == Done && DeletePass(w, v, ch).1 == None
    ensures var (t, stack) := (DeletePass(w, v, ch).0, if w.named then v.stack else None);
      && t == w.(reason := t.reason)
      && t.reason ==
         if ch.stackReadFails || stack.None? then DeletingReason
         else if stack.value.ownerUid !in {"", w.uid} then OwnershipConflict
         else if && !ch.childReadFails && v.child.Some? && !ch.listFails
                 && stack.value.fence && v.child.value.fence && !v.child.value.mutationAllowed
                 && (forall k | 0 <= k < |v.applies| :: v.applies[k] !in {NoOutcome, Pending, Running})
                 && stack.value.ready.Some? && stack.value.ready.value.reason == RecoveryRequired then RecoveryNeeded
         else DeletingReason
  {
    assert (forall k | 0 <= k < |v.applies| :: !Active(v.applies[k]))
      <==> forall k | 0 <= k < |v.applies| :: v.applies[k] !in {NoOutcome, Pending, Running};
  }

  /** Nothing is written past a stack that somebody else owns. A ResourceSet is deleted beside a stack
      only if the list of Applies was read, none in it is without outcome, Pending or Running, and the
      stack does not ask for recovery; a stack only once it reports its infrastructure removed. */
  lemma StackAllows(w: World, v: View, ch: Chance)
    requires DeletePass(w, v, ch).1.Some? && w.named && v.stack.Some?
    ensures v.stack.value.ownerUid in {"", w.uid} && !ch.stackReadFails
    ensures DeletePass(w, v, ch).1 == Some(ChildDeleted) ==>
      && !ch.listFails && (forall k | 0 <= k < |v.applies| :: v.applies[k] !in {NoOutcome, Pending, Running})
      && v.stack.value.fence && (v.stack.value.ready.Some? ==> v.stack.value.ready.value.reason != RecoveryRequired)
    ensures DeletePass(w, v, ch).1 == Some(StackDeleted) ==>
      && v.stack.value.ready.Some? && v.stack.value.ready.value.status == IsTrue
      && v.stack.value.ready.value.reason == InfrastructureRemoved
    ensures DeletePass(w, v, ch).1 != Some(Released)
  {
    if DeletePass(w, v, ch).1 == Some(ChildDeleted) {
      forall k | 0 <= k < |v.applies| ensures v.applies[k] !in {NoOutcome, Pending, Running} { assert !Active(v.applies[k]); }
    }
  }

  /** The finalizer goes with both children gone exactly when the pass misses none. */
  lemma ReleaseIsRightExactly(w: World, v: View, ch: Chance)
    requires DeletePass(w, v, ch).1 == Some(Released)
    ensures var t := DeletePass(w, v, ch).0; t.child.None? && Named(t).None? <==> !Misses(w, v)
  {
  }

  /** Over runs that miss nothing, the finalizer goes only when both children are gone. */
  lemma {:induction false} ReleasedMeansGone(w: World, steps: seq<Step>)
    requires w.finalizer && !After(w, steps).finalizer && Vigilant(w, steps)
    ensures After(w, steps).child.None? && Named(After(w, steps)).None?
  {
    var front, last := steps[..|steps| - 1], steps[|steps| - 1];
    if After(w, front).finalizer {
      ReleaseIsRightExactly(After(w, front), last.view, last.ch);
    } else {
      ReleasedMeansGone(w, front);
    }
  }

  /** A pass that does not see a ResourceSet yet asks for Destroy before its deletion. */
  lemma UnseenChildIsOvertaken(w: World, v: View, ch: Chance)
    requires w.reason == DeletingReason && w.child.Some? && v.child.None? && Lands(ch.write) && !ch.stackReadFails && !ch.childReadFails
    requires v.stack == w.stack && Named(w).Some? && !Foreign(w, v) && w.stack.value.fence && !Destroying(w.stack.value)
    ensures DeletePass(w, v, ch).1 == Some(DestroyAsked) && DeletePass(w, v, ch).0.child == w.child
  {
  }

  // ------------------------------------------------------------ termination

  function Bit(b: bool): nat { if b then 1 else 0 }

  /** What is left to do. */
  function Measure(w: World): nat {
    Bit(w.finalizer)
    + (match w.stack case None => 0
       case Some(s) => 1 + Bit(!s.fence) + Bit(!s.destroy) + Bit(!s.deleting))
    + (match w.child case None => 0
       case Some(c) => 1 + Bit(!c.fence || c.mutationAllowed) + Bit(!c.deleting))
  }

  lemma {:induction false} MeasureOverRuns(w: World, steps: seq<Step>)
    ensures Measure(After(w, steps)) + |Log(w, steps)| <= Measure(w)
  {
    if steps != [] {
      MeasureOverRuns(w, steps[..|steps| - 1]);
      MeasureStep(After(w, steps[..|steps| - 1]), steps[|steps| - 1]);
    }
  }

  lemma MeasureEffect(w: World, v: View, ch: Chance)
    requires Decision(w, v, ch).Some? && Applies(w, v, Decision(w, v, ch).value)
    ensures Measure(Effect(w, Decision(w, v, ch).value)) < Measure(w)
  {
  }

  lemma MeasureIgnoresReason(w: World, reason: EnvReason)
    ensures Measure(w.(reason := reason)) == Measure(w)
  {
  }

  lemma MeasurePass(w: World, v: View, ch: Chance)
    ensures Measure(DeletePass(w, v, ch).0) + (if DeletePass(w, v, ch).1.Some? then 1 else 0) <= Measure(w)
  {
    var noted := w.(reason := DeletingReason);
    MeasureIgnoresReason(w, DeletingReason);
    MeasureIgnoresReason(noted, EndReason(noted, v, ch));
    var d := Decision(noted, v, ch);
    if d.Some? && Applies(noted, v, d.value) { MeasureEffect(noted, v, ch); }
  }

  /** Whatever the cache shows, every logged write lowers the measure, and no controller ever raises it. */
  lemma MeasureStep(w: World, step: Step)
    ensures Measure(Next(w, step)) + |Logged(w, step)| <= Measure(w)
  {
    if step.Reconciled? { MeasurePass(w, step.view, step.ch); }
  }

  /** The stack belongs to another environment. */
  predicate OthersStack(w: World) { Named(w).Some? && Named(w).value.ownerUid !in {"", w.uid} }

  /** An Apply under way, or a stack that asks for recovery. */
  predicate Held(w: World) {
    || (exists k | 0 <= k < |w.applies| :: w.applies[k] in {NoOutcome, Pending, Running})
    || (Named(w).Some? && Named(w).value.ready.Some? && Named(w).value.ready.value.reason == RecoveryRequired)
  }

  predicate SaysGone(s: Stack) { s.ready.Some? && s.ready.value.status == IsTrue && s.ready.value.reason == InfrastructureRemoved }

  /** What a pass without faults can be waiting for. */
  predicate Waits(w: World) {
    || OthersStack(w)
    || (w.child.Some? && w.child.value.deleting)
    || (w.child.Some? && Named(w).Some? && Named(w).value.fence && Held(w))
    || (w.child.None? && Named(w).Some? && Destroying(Named(w).value) && (!SaysGone(Named(w).value) || Named(w).value.deleting))
    || (w.child.None? && Named(w).None? && !w.finalizer)
  }

  lemma HeldExactly(w: World)
    requires Named(w).Some?
    ensures StackHolds(w, Fresh(w), NoFaults) <==> Held(w)
  {
    assert forall k | 0 <= k < |w.applies| :: Active(w.applies[k]) <==> w.applies[k] in {NoOutcome, Pending, Running};
  }

  const NoFaults := Chance(false, false, false, Done, Done)

  /** A pass without faults, on what there is, logs an event exactly when there is nothing to wait for,
      except that an unfinished fence is put up first. */
  lemma PassProgressesUnlessWaiting(w: World)
    ensures var p := DeletePass(w, Fresh(w), NoFaults);
      p.1.Some? <==> !Waits(w) || (!OthersStack(w) && ((Named(w).Some? && !Named(w).value.fence)
                                                   || (w.child.Some? && (!w.child.value.fence || w.child.value.mutationAllowed))))
  {
    if Named(w).Some? { HeldExactly(w); }
  }

  // ------------------------------------------------- a guard that cannot hold

  predicate NotYetDestroying(w: World) {
    w.child.Some? && w.stack.Some? ==>
      && !w.stack.value.destroy && !w.stack.value.deleting
      && (w.stack.value.ready.Some? ==> w.stack.value.ready.value.reason != RecoveryRequired)
  }

  /** Destroy is requested only once the child is gone, and only a destroying stack reports
      RecoveryRequired: in a deletion that misses no object and finds its stack in present mode, the
      guard that should keep the child while an Apply's outcome is unknown never holds while there is
      a child, whatever version of the stack is read. */
  lemma {:induction false} RecoveryGuardNeverHolds(w: World, steps: seq<Step>, v: View, ch: Chance)
    requires NotYetDestroying(w) && Vigilant(w, steps) && Shows(w, steps, v)
    ensures NotYetDestroying(After(w, steps))
    ensures After(w, steps).child.Some? ==> EndReason(After(w, steps), v, ch) != RecoveryNeeded
  {
    StaysPresent(w, steps);
    if v.stack.Some? && After(w, steps).child.Some? {
      var k: nat :| k <= |steps| && v.stack == After(w, steps[..k]).stack;
      PastIsEarlier(w, steps, k);
      VigilantBefore(w, steps, k);
      StaysPresent(w, steps[..k]);
    }
  }

  lemma {:induction false} StaysPresent(w: World, steps: seq<Step>)
    requires NotYetDestroying(w) && Vigilant(w, steps)
    ensures NotYetDestroying(After(w, steps))
  {
    if steps != [] {
      StaysPresent(w, steps[..|steps| - 1]);
      PresentNext(After(w, steps[..|steps| - 1]), steps[|steps| - 1]);
    }
  }

  lemma PresentNext(w: World, step: Step)
    requires NotYetDestroying(w) && (step.Reconciled? ==> !Misses(w, step.view))
    ensures NotYetDestroying(Next(w, step))
  {
  }

  lemma {:induction false} VigilantBefore(w: World, steps: seq<Step>, k: nat)
    requires Vigilant(w, steps) && k <= |steps|
    ensures Vigilant(w, steps[..k])
    decreases |steps|
  {
    if k == |steps| {
      assert steps[..k] == steps;
    } else {
      assert steps[..|steps| - 1][..k] == steps[..k];
      VigilantBefore(w, steps[..|steps| - 1], k);
    }
  }

  /** So a child is deleted although an Apply of its stack ended Indeterminate, if none is active. */
  lemma IndeterminateDoesNotHoldTheChild(w: World, steps: seq<Step>)
    requires NotYetDestroying(w) && Vigilant(w, steps)
    requires var t := After(w, steps);
      && !OthersStack(t) && Indeterminate in t.applies
      && (forall k | 0 <= k < |t.applies| :: t.applies[k] !in {NoOutcome, Pending, Running})
      && t.stack.Some? && t.stack.value.fence
      && t.child.Some? && t.child.value.fence && !t.child.value.mutationAllowed && !t.child.value.deleting
    ensures DeletePass(After(w, steps), Fresh(After(w, steps)), NoFaults).1 == Some(ChildDeleted)
  {
    StaysPresent(w, steps);
  }
}
