/** Guarded pruning: pruneItem, pruneRemoved and pruneInventory of
    internal/controller/resourceset_controller.go with ValidatePrune and IsProtected of
    internal/runtime/runtime.go.

    Other actors may change the cluster in any way before each call; only an object's UID and
    resource version together identify one state of it. */
module Pruning {
  import Paths

  datatype Item = Item(targetDigest: string, group: string, version: string, resource: string, kind: string,
                       ns: string, name: string, uid: string, ownershipId: string, deletion: string)

  /** Where an object is found: one served version per object. */
  datatype Address = Address(group: string, version: string, resource: string, ns: string, name: string)

  datatype Live = Live(uid: string, rv: string, managedBy: string, owner: string)

  type Cluster = map<Address, Live>

  /** The cluster when the n-th call reaches it, whether that call fails for other reasons, and
      whether it took effect although it is reported as failed. */
  datatype World = World(at: nat -> Cluster, faulty: nat -> bool, tookEffect: nat -> bool)

  function AddressOf(item: Item): Address { Address(item.group, item.version, item.resource, item.ns, item.name) }

  // ------------------------------------------------------------------ guards

  function Lower(c: char): char { if 'A' <= c <= 'Z' then c - 'A' + 'a' else c }

  /** strings.EqualFold on ASCII. */
  predicate EqualFold(a: string, b: string) { |a| == |b| && forall i | 0 <= i < |a| :: Lower(a[i]) == Lower(b[i]) }

  predicate IsProtected(item: Item) {
    || item.deletion == "Retain"
    || item.kind == "Namespace" || item.kind == "PersistentVolumeClaim" || item.kind == "CustomResourceDefinition"
    || EqualFold(item.ns, "kube-system")
  }

  predicate ValidatePrune(item: Item, target: string, live: Live) {
    && item.targetDigest == target
    && live.uid == item.uid
    && live.managedBy == "platform-control-plane"
    && (item.ownershipId == "" || live.owner == item.ownershipId)
    && !IsProtected(item)
  }

  // ------------------------------------------------------------- the client

  datatype Error = NotFound | CleanupPending | OtherError
  datatype Result = Ok | Err(error: Error)
  datatype Lookup = Found(live: Live) | Failed(error: Error)

  datatype Deletion = Deletion(address: Address, live: Live)

  class Client {
    const world: World
    var calls: nat
    var deleted: seq<Deletion> // what this client's deletes removed, in the state they removed it

    constructor (world: World)
      ensures this.world == world && calls == 0 && deleted == []
    {
      this.world, calls, deleted := world, 0, [];
    }

    method Get(address: Address) returns (r: Lookup)
      modifies this`calls
      ensures calls == old(calls) + 1 && r == LookupAt(world, old(calls), address)
    {
      var n := calls;
      calls := calls + 1;
      if world.faulty(n) { return Failed(OtherError); }
      if address !in world.at(n) { return Failed(NotFound); }
      return Found(world.at(n)[address]);
    }

    /** A delete with preconditions on UID and resource version. */
    method Delete(address: Address, uid: string, rv: string) returns (r: Result)
      modifies this
      ensures calls == old(calls) + 1 && r == DeleteAnswer(world, old(calls), address, uid, rv)
      ensures deleted == old(deleted) + DeleteEffect(world, old(calls), address, uid, rv)
    {
      var n := calls;
      calls := calls + 1;
      if world.faulty(n) && !world.tookEffect(n) { return Err(OtherError); }
      if address !in world.at(n) { return Err(if world.faulty(n) then OtherError else NotFound); }
      var live := world.at(n)[address];
      if live.uid != uid || live.rv != rv { return Err(OtherError); }
      deleted := deleted + [Deletion(address, live)];
      return if world.faulty(n) then Err(OtherError) else Ok;
    }

    method PruneItem(item: Item, target: string) returns (r: Result)
      requires Identified(world)
      modifies this
      ensures calls >= old(calls)
      ensures r == PruneAnswer(world, old(calls), item, target)
      ensures deleted == old(deleted) + PruneEffect(world, old(calls), item, target)
      ensures |deleted| <= |old(deleted)| + 1 && (|deleted| > |old(deleted)| ==> Justified(deleted[|old(deleted)|], item, target))
      ensures r.Ok? ==> calls == old(calls) + 3 && !world.faulty(old(calls) + 2) && AddressOf(item) !in world.at(old(calls) + 2)
      ensures r == Err(NotFound) ==> calls > old(calls)
    {
      PruneIsJustified(world, calls, item, target);
      if item.resource == "" { return Err(OtherError); }
      var address := AddressOf(item);
      var found := Get(address);
      if found.Failed? { return Err(found.error); }
      if !ValidatePrune(item, target, found.live) { return Err(OtherError); }
      var gone := Delete(address, found.live.uid, found.live.rv);
      if gone.Err? && gone.error != NotFound { return gone; }
      var still := Get(address);
      if still.Found? { return Err(CleanupPending); }
      if still.error != NotFound { return Err(still.error); }
      return Ok;
    }

    /** The keys of the current inventory. */
    method KeysOf(items: seq<Item>) returns (keys: set<string>)
      ensures forall key :: key in keys <==> exists j | 0 <= j < |items| :: InventoryKey(AddressOf(items[j])) == key
    {
      keys := {};
      for i := 0 to |items|
        invariant forall key :: key in keys <==> exists j | 0 <= j < i :: InventoryKey(AddressOf(items[j])) == key
      {
        keys := keys + {InventoryKey(AddressOf(items[i]))};
      }
    }

    /** One turn of pruneRemoved's loop. */
    method PruneIfRemoved(previous: Item, new': seq<Item>, currentKeys: set<string>, target: string) returns (r: Result)
      requires Identified(world) && SlashFree(AddressOf(previous)) && (forall i | i in new' :: SlashFree(AddressOf(i)))
      requires forall key :: key in currentKeys <==> exists j | 0 <= j < |new'| :: InventoryKey(AddressOf(new'[j])) == key
      modifies this
      ensures calls >= old(calls)
      ensures !IsPrunable(previous, new') ==> r.Ok? && calls == old(calls) && deleted == old(deleted)
      ensures IsPrunable(previous, new') ==> r == PruneAnswer(world, old(calls), previous, target) && (r.Ok? ==> calls == old(calls) + 3)
      ensures IsPrunable(previous, new') ==> deleted == old(deleted) + PruneEffect(world, old(calls), previous, target)
    {
      if IsProtected(previous) { return Ok; }
      KeysDecide(previous, new');
      if InventoryKey(AddressOf(previous)) in currentKeys { return Ok; }
      r := PruneItem(previous, target);
    }

    /** Prunes what the old inventory has and the new one has not; any error ends the pass. */
    method PruneRemoved(old': seq<Item>, new': seq<Item>, target: string) returns (r: Result)
      requires Identified(world) && (forall i | i in old' + new' :: SlashFree(AddressOf(i)))
      modifies this
      ensures old(deleted) <= deleted
      ensures forall n | |old(deleted)| <= n < |deleted| :: JustifiedBy(deleted[n], Removed(old', new'), target)
      ensures r.Ok? ==> forall item | item in old' && IsRemoved(item, new') && !Exempt(item) ::
        SeenGone(world, old(calls), calls, AddressOf(item))
      ensures r == PassAnswer(world, old(calls), Prunable(old', new'), target)
    {
      var currentKeys := KeysOf(new');
      for i := 0 to |old'|
        invariant old(calls) <= calls && old(deleted) <= deleted
        invariant AllJustified(deleted, |old(deleted)|, Removed(old', new'), target)
        invariant GoneSoFar(world, old(calls), calls, old', new', i)
        invariant PassAnswer(world, old(calls), Prunable(old', new'), target) == PassAnswer(world, calls, Prunable(old'[i..], new'), target)
      {
        var previous := old'[i];
        ghost var start, before := calls, deleted;
        r := PruneIfRemoved(previous, new', currentKeys, target);
        PassStep(world, start, old', new', i, target);
        if IsPrunable(previous, new') {
          EffectIsJustified(world, start, previous, target, before, |old(deleted)|, Removed(old', new'));
        }
        if r.Err? { return; }
        if IsPrunable(previous, new') { GoneIsSeen(world, start, previous, target); }
        GoneNext(world, old(calls), start, calls, old', new', i);
      }
      AllGone(world, old(calls), calls, old', new');
      return Ok;
    }

    /** On deletion of the whole set: an item that is not there any more is no error. */
    method PruneInventory(inventory: seq<Item>, target: string) returns (r: Result)
      requires Identified(world)
      modifies this
      ensures old(deleted) <= deleted
      ensures forall n | |old(deleted)| <= n < |deleted| :: JustifiedBy(deleted[n], inventory, target)
      ensures r.Ok? ==> forall item | item in inventory && !Exempt(item) :: SeenGone(world, old(calls), calls, AddressOf(item))
      ensures r != Err(NotFound)
    {
      for i := 0 to |inventory|
        invariant old(calls) <= calls && old(deleted) <= deleted
        invariant forall n | |old(deleted)| <= n < |deleted| :: JustifiedBy(deleted[n], inventory, target)
        invariant forall j | 0 <= j < i && !IsProtected(inventory[j]) :: SeenGone(world, old(calls), calls, AddressOf(inventory[j]))
      {
        var item := inventory[i];
        if IsProtected(item) { continue; }
        ghost var start := calls;
        var outcome := PruneItem(item, target);
        PruneIsJustified(world, start, item, target);
        if outcome.Err? && outcome.error != NotFound { return outcome; }
        GoneIsSeen(world, start, item, target);
        ghost var seen := if outcome.Ok? then start + 2 else start;
        assert !world.faulty(seen) && AddressOf(item) !in world.at(seen) && seen < calls;
      }
      forall item | item in inventory && !Exempt(item) ensures SeenGone(world, old(calls), calls, AddressOf(item)) { ExemptIsProtected(item); }
      return Ok;
    }
  }

  // ----------------------------------------------------------- specification

  function LookupAt(w: World, n: nat, address: Address): Lookup {
    if w.faulty(n) then Failed(OtherError)
    else if address !in w.at(n) then Failed(NotFound)
    else Found(w.at(n)[address])
  }

  function DeleteAnswer(w: World, n: nat, address: Address, uid: string, rv: string): (r: Result)
    ensures r.Ok? ==> address in w.at(n) && w.at(n)[address].uid == uid && w.at(n)[address].rv == rv
  {
    if w.faulty(n) then Err(OtherError)
    else if address !in w.at(n) then Err(NotFound)
    else if w.at(n)[address].uid != uid || w.at(n)[address].rv != rv then Err(OtherError)
    else Ok
  }

  /** What a delete removes: the object as it then is, if the preconditions fit, answer or no answer. */
  function DeleteEffect(w: World, n: nat, address: Address, uid: string, rv: string): (removed: seq<Deletion>)
    ensures DeleteAnswer(w, n, address, uid, rv).Ok? ==> |removed| == 1
    ensures forall d | d in removed :: d.address == address && d.live.uid == uid && d.live.rv == rv && address in w.at(n) && d.live == w.at(n)[address]
  {
    if (w.faulty(n) && !w.tookEffect(n)) || address !in w.at(n) || w.at(n)[address].uid != uid || w.at(n)[address].rv != rv then []
    else [Deletion(address, w.at(n)[address])]
  }

  /** Two sightings of one UID and resource version at an address are of the same state. */
  ghost predicate Identified(w: World) {
    forall m: nat, n: nat, a | a in w.at(m) && a in w.at(n) && w.at(m)[a].uid == w.at(n)[a].uid && w.at(m)[a].rv == w.at(n)[a].rv ::
      w.at(m)[a] == w.at(n)[a]
  }

  function PruneAnswer(w: World, n: nat, item: Item, target: string): Result {
    var a := AddressOf(item);
    var found := LookupAt(w, n, a);
    if item.resource == "" then Err(OtherError)
    else if found.Failed? then Err(found.error)
    else if !ValidatePrune(item, target, found.live) then Err(OtherError)
    else
      var gone := DeleteAnswer(w, n + 1, a, found.live.uid, found.live.rv);
      if gone.Err? && gone.error != NotFound then gone
      else match LookupAt(w, n + 2, a)
        case Found(_) => Err(CleanupPending)
        case Failed(e) => if e == NotFound then Ok else Err(e)
  }

  function PruneEffect(w: World, n: nat, item: Item, target: string): seq<Deletion> {
    var a := AddressOf(item);
    var found := LookupAt(w, n, a);
    if item.resource == "" || found.Failed? || !ValidatePrune(item, target, found.live) then []
    else DeleteEffect(w, n + 1, a, found.live.uid, found.live.rv)
  }

  /** The namespace kube-system, in whatever case. */
  predicate IsKubeSystem(ns: string) {
    var name := "kube-system";
    |ns| == |name| && forall i | 0 <= i < |name| :: ns[i] == name[i] || ('A' <= ns[i] <= 'Z' && ns[i] as int + 32 == name[i] as int)
  }

  /** What is never to be deleted. */
  predicate Exempt(item: Item) {
    item.deletion == "Retain" || item.kind in {"Namespace", "PersistentVolumeClaim", "CustomResourceDefinition"} || IsKubeSystem(item.ns)
  }

  lemma ExemptIsProtected(item: Item)
    ensures IsProtected(item) <==> Exempt(item)
  {
    assert forall i | 0 <= i < |item.ns| :: 'A' <= item.ns[i] <= 'Z' ==> Lower(item.ns[i]) as int == item.ns[i] as int + 32;
  }

  /** A deletion the item's record justifies: of the object it names, with the UID and for the target it
      records, carrying the platform's label and the ownership it records, and not exempt. All of it is
      about the very state that was deleted. */
  predicate Justified(d: Deletion, item: Item, target: string) {
    && (d.address.group, d.address.version, d.address.resource) == (item.group, item.version, item.resource)
    && (d.address.ns, d.address.name) == (item.ns, item.name)
    && d.live.uid == item.uid && item.targetDigest == target
    && d.live.managedBy == "platform-control-plane" && item.ownershipId in {"", d.live.owner}
    && !Exempt(item)
  }

  predicate JustifiedBy(d: Deletion, items: seq<Item>, target: string) {
    exists k | 0 <= k < |items| :: Justified(d, items[k], target)
  }

  /** The items of the old inventory that the new one does not have. */
  function Removed(old': seq<Item>, new': seq<Item>): (removed: seq<Item>)
    ensures forall item :: item in removed <==> item in old' && IsRemoved(item, new')
  {
    if old' == [] then [] else
    (if IsRemoved(old'[0], new') then [old'[0]] else []) + Removed(old'[1..], new')
  }

  predicate IsPrunable(item: Item, new': seq<Item>) { IsRemoved(item, new') && !IsProtected(item) }

  /** What a pass of pruneRemoved prunes, in order. */
  function Prunable(old': seq<Item>, new': seq<Item>): seq<Item> {
    if old' == [] then [] else (if IsPrunable(old'[0], new') then [old'[0]] else []) + Prunable(old'[1..], new')
  }

  /** How a pass over these items ends: with the first error, after three calls for each item before. */
  function PassAnswer(w: World, n: nat, items: seq<Item>, target: string): Result
    decreases |items|
  {
    if items == [] then Ok else
    var first := PruneAnswer(w, n, items[0], target);
    if first.Err? then first else PassAnswer(w, n + 3, items[1..], target)
  }

  lemma PassStep(w: World, n: nat, old': seq<Item>, new': seq<Item>, i: nat, target: string)
    requires i < |old'|
    ensures var rest := Prunable(old'[i + 1..], new');
      PassAnswer(w, n, Prunable(old'[i..], new'), target) ==
        if !IsPrunable(old'[i], new') then PassAnswer(w, n, rest, target)
        else if PruneAnswer(w, n, old'[i], target).Err? then PruneAnswer(w, n, old'[i], target)
        else PassAnswer(w, n + 3, rest, target)
  {
    var rest := Prunable(old'[i + 1..], new');
    assert old'[i..][1..] == old'[i + 1..];
    if IsPrunable(old'[i], new') {
      assert Prunable(old'[i..], new') == [old'[i]] + rest && ([old'[i]] + rest)[1..] == rest;
    } else {
      assert Prunable(old'[i..], new') == rest;
    }
  }

  /** Even if another actor replaced the object between the read and the delete. */
  lemma PruneIsJustified(w: World, n: nat, item: Item, target: string)
    requires Identified(w)
    ensures forall d | d in PruneEffect(w, n, item, target) :: Justified(d, item, target)
    ensures |PruneEffect(w, n, item, target)| <= 1
  {
    ExemptIsProtected(item);
  }

  /** What the item's record says is deleted exactly when it is read at its address, and still in that
      state, by UID and resource version, when a delete that takes effect gets to it. */
  lemma JustifiedIsDeletedExactly(w: World, n: nat, item: Item, target: string, live: Live)
    requires Identified(w) && item.resource != ""
    ensures PruneEffect(w, n, item, target) == [Deletion(AddressOf(item), live)] <==>
      && !w.faulty(n) && AddressOf(item) in w.at(n) && w.at(n)[AddressOf(item)] == live
      && AddressOf(item) in w.at(n + 1) && w.at(n + 1)[AddressOf(item)] == live
      && (!w.faulty(n + 1) || w.tookEffect(n + 1))
      && Justified(Deletion(AddressOf(item), live), item, target)
  {
    ExemptIsProtected(item);
  }

  ghost predicate AllJustified(deleted: seq<Deletion>, from: nat, items: seq<Item>, target: string) {
    forall n | from <= n < |deleted| :: JustifiedBy(deleted[n], items, target)
  }

  lemma EffectIsJustified(w: World, n: nat, item: Item, target: string, deleted: seq<Deletion>, from: nat, items: seq<Item>)
    requires Identified(w) && item in items && AllJustified(deleted, from, items, target)
    ensures AllJustified(deleted + PruneEffect(w, n, item, target), from, items, target)
  {
    PruneIsJustified(w, n, item, target);
    var k :| 0 <= k < |items| && items[k] == item;
    forall d | d in PruneEffect(w, n, item, target) ensures JustifiedBy(d, items, target) { assert Justified(d, items[k], target); }
  }

  /** Some call in the range found the address empty. */
  ghost predicate SeenGone(w: World, first: nat, last: nat, address: Address) {
    exists n: nat | first <= n < last :: !w.faulty(n) && address !in w.at(n)
  }

  /** Each of the first `i` items that had to go has been seen gone. */
  ghost predicate GoneSoFar(w: World, first: nat, last: nat, old': seq<Item>, new': seq<Item>, i: int) {
    forall j | 0 <= j < i && j < |old'| && IsPrunable(old'[j], new') :: SeenGone(w, first, last, AddressOf(old'[j]))
  }

  lemma GoneNext(w: World, first: nat, start: nat, last: nat, old': seq<Item>, new': seq<Item>, i: nat)
    requires i < |old'| && first <= start <= last && GoneSoFar(w, first, start, old', new', i)
    requires IsPrunable(old'[i], new') ==> last == start + 3 && !w.faulty(start + 2) && AddressOf(old'[i]) !in w.at(start + 2)
    ensures GoneSoFar(w, first, last, old', new', i + 1)
  {
    forall j | 0 <= j < i + 1 && IsPrunable(old'[j], new') ensures SeenGone(w, first, last, AddressOf(old'[j])) {
      if j < i {
        var n: nat :| first <= n < start && !w.faulty(n) && AddressOf(old'[j]) !in w.at(n);
        assert first <= n < last;
      } else {
        assert first <= start + 2 < last;
      }
    }
  }

  lemma AllGone(w: World, first: nat, last: nat, old': seq<Item>, new': seq<Item>)
    requires GoneSoFar(w, first, last, old', new', |old'|)
    ensures forall item | item in old' && IsRemoved(item, new') && !Exempt(item) :: SeenGone(w, first, last, AddressOf(item))
  {
    forall item | item in old' && IsRemoved(item, new') && !Exempt(item) ensures SeenGone(w, first, last, AddressOf(item)) {
      ExemptIsProtected(item);
      var j :| 0 <= j < |old'| && old'[j] == item;
      assert IsPrunable(old'[j], new');
    }
  }

  lemma GoneIsSeen(w: World, n: nat, item: Item, target: string)
    requires PruneAnswer(w, n, item, target).Ok? || PruneAnswer(w, n, item, target) == Err(NotFound)
    ensures PruneAnswer(w, n, item, target).Ok? ==> !w.faulty(n + 2) && AddressOf(item) !in w.at(n + 2)
    ensures PruneAnswer(w, n, item, target) == Err(NotFound) ==> !w.faulty(n) && AddressOf(item) !in w.at(n)
  {
  }

  // ----------------------------------------------------------- inventory keys

  predicate SlashFree(a: Address) {
    && Paths.SlashFree(a.group) && Paths.SlashFree(a.version) && Paths.SlashFree(a.resource)
    && Paths.SlashFree(a.ns) && Paths.SlashFree(a.name)
  }

  function InventoryKey(a: Address): string {
    a.group + "/" + a.version + "/" + a.resource + "/" + a.ns + "/" + a.name
  }

  function Parts(a: Address): seq<string> { [a.group, a.version, a.resource, a.ns, a.name] }

  lemma KeyIsJoin(a: Address)
    ensures InventoryKey(a) == Paths.Join(Parts(a))
  {
    var p := Parts(a);
    assert p[1..] == [a.version, a.resource, a.ns, a.name] && p[1..][1..] == [a.resource, a.ns, a.name];
    assert p[1..][1..][1..] == [a.ns, a.name] && p[1..][1..][1..][1..] == [a.name];
    assert Paths.Join([a.name]) == a.name;
    assert Paths.Join([a.ns, a.name]) == a.ns + "/" + a.name;
    assert Paths.Join([a.resource, a.ns, a.name]) == a.resource + "/" + (a.ns + "/" + a.name);
    assert Paths.Join(p[1..]) == a.version + "/" + (a.resource + "/" + (a.ns + "/" + a.name));
  }

  /** Keys tell apart all addresses whose parts hold no slash, as API names never do. */
  lemma InventoryKeyIsInjective(a: Address, b: Address)
    requires SlashFree(a) && SlashFree(b) && InventoryKey(a) == InventoryKey(b)
    ensures a == b
  {
    KeyIsJoin(a);
    KeyIsJoin(b);
    Paths.SplitJoin(Parts(a));
    Paths.SplitJoin(Parts(b));
    assert Parts(a)[0] == Parts(b)[0] && Parts(a)[1] == Parts(b)[1] && Parts(a)[2] == Parts(b)[2];
    assert Parts(a)[3] == Parts(b)[3] && Parts(a)[4] == Parts(b)[4];
  }

  /** An address has a key of its own exactly when none of its parts holds a slash. */
  lemma KeyIsItsOwnExactly(a: Address)
    ensures (forall b: Address | InventoryKey(b) == InventoryKey(a) :: b == a) <==> SlashFree(a)
  {
    if SlashFree(a) {
      forall b: Address | InventoryKey(b) == InventoryKey(a) ensures b == a { SameKeySlashFree(a, b); }
    } else {
      var b := Twin(a);
    }
  }

  /** The key of an address without slashes splits into five parts, and so does no other's. */
  lemma SameKeySlashFree(a: Address, b: Address)
    requires SlashFree(a) && InventoryKey(b) == InventoryKey(a)
    ensures b == a
  {
    KeyIsJoin(a);
    KeyIsJoin(b);
    Paths.SplitJoin(Parts(a));
    Paths.ShortSplit(Parts(b));
    assert forall k | 0 <= k < 5 :: Parts(b)[k] in Parts(b);
    assert Parts(b)[0] in Parts(b) && Parts(b)[1] in Parts(b) && Parts(b)[2] in Parts(b) && Parts(b)[3] in Parts(b) && Parts(b)[4] in Parts(b);
    InventoryKeyIsInjective(a, b);
  }

  /** Moving what follows a slash into the next part, or for the name what goes before it into the
      part before, leaves the key as it is. */
  lemma Twin(a: Address) returns (b: Address)
    requires !SlashFree(a)
    ensures b != a && InventoryKey(b) == InventoryKey(a)
  {
    if !Paths.SlashFree(a.group) {
      var x, y := Paths.SlashSplits(a.group);
      b := a.(group := x, version := y + "/" + a.version);
    } else if !Paths.SlashFree(a.version) {
      var x, y := Paths.SlashSplits(a.version);
      b := a.(version := x, resource := y + "/" + a.resource);
    } else if !Paths.SlashFree(a.resource) {
      var x, y := Paths.SlashSplits(a.resource);
      b := a.(resource := x, ns := y + "/" + a.ns);
    } else if !Paths.SlashFree(a.ns) {
      var x, y := Paths.SlashSplits(a.ns);
      b := a.(ns := x, name := y + "/" + a.name);
    } else {
      var x, y := Paths.SlashSplits(a.name);
      b := a.(ns := a.ns + "/" + x, name := y);
    }
  }

  /** In the old inventory, and at no address of the new one. */
  predicate IsRemoved(item: Item, new': seq<Item>) {
    forall j | 0 <= j < |new'| :: AddressOf(new'[j]) != AddressOf(item)
  }

  lemma KeysDecide(item: Item, new': seq<Item>)
    requires SlashFree(AddressOf(item)) && forall i | i in new' :: SlashFree(AddressOf(i))
    ensures IsRemoved(item, new') <==> forall j | 0 <= j < |new'| :: InventoryKey(AddressOf(new'[j])) != InventoryKey(AddressOf(item))
  {
    forall j | 0 <= j < |new'| && InventoryKey(AddressOf(new'[j])) == InventoryKey(AddressOf(item))
      ensures AddressOf(new'[j]) == AddressOf(item)
    {
      InventoryKeyIsInjective(AddressOf(new'[j]), AddressOf(item));
    }
  }

  // ------------------------------------------------------- what does not hold

  /** The items before are pruned, and this one is read as gone already. */
  predicate GoneAt(w: World, n: nat, items: seq<Item>, k: nat, target: string) {
    && k < |items| && PassAnswer(w, n, items[..k], target).Ok?
    && items[k].resource != "" && !w.faulty(n + 3 * k) && AddressOf(items[k]) !in w.at(n + 3 * k)
  }

  /** pruneRemoved treats an item that is already gone as an error, which ends the whole pass, and
      nothing else ends it with NotFound; pruneInventory does not. */
  lemma {:induction false} MissingItemEndsThePass(w: World, n: nat, items: seq<Item>, target: string)
    ensures PassAnswer(w, n, items, target) == Err(NotFound) <==> exists k :: GoneAt(w, n, items, k, target)
    decreases |items|
  {
    if items != [] {
      var first := PruneAnswer(w, n, items[0], target);
      MissingItemEndsThePass(w, n + 3, items[1..], target);
      GoneAtFirst(w, n, items, target);
      if k: nat :| GoneAt(w, n, items, k, target) && k > 0 {
        assert items[..k][0] == items[0];
        GoneLater(w, n, items, k - 1, target);
      }
      if first.Ok? {
        var m, rest := n + 3, items[1..];
        if k: nat :| GoneAt(w, m, rest, k, target) { GoneLater(w, n, items, k, target); }
      }
    }
  }

  lemma GoneAtFirst(w: World, n: nat, items: seq<Item>, target: string)
    requires items != []
    ensures GoneAt(w, n, items, 0, target) <==> PruneAnswer(w, n, items[0], target) == Err(NotFound)
  {
    assert items[..0] == [];
    if PruneAnswer(w, n, items[0], target) == Err(NotFound) { GoneIsSeen(w, n, items[0], target); }
  }

  lemma GoneLater(w: World, n: nat, items: seq<Item>, k: nat, target: string)
    requires items != [] && PruneAnswer(w, n, items[0], target).Ok?
    ensures GoneAt(w, n + 3, items[1..], k, target) <==> GoneAt(w, n, items, k + 1, target)
  {
    if k + 1 < |items| { assert items[..k + 1][0] == items[0] && items[..k + 1][1..] == items[1..][..k]; }
  }

  /** A protected item is never deleted, whatever the cluster holds. */
  lemma ProtectedIsKept(w: World, n: nat, item: Item, target: string)
    requires item.deletion == "Retain" || item.kind in {"Namespace", "PersistentVolumeClaim", "CustomResourceDefinition"} || IsKubeSystem(item.ns)
    ensures PruneEffect(w, n, item, target) == []
  {
    ExemptIsProtected(item);
  }
}
