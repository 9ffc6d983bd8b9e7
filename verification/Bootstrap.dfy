/** Wave-ordered bootstrap: internal/runtime/bootstrap.go, with InventoryFor of runtime.go.
    How the cluster answers each call is a parameter. */
module Bootstrap {

  datatype Policy = RequireReady | ApplyOnly

  datatype Object = Object(resource: string, kind: string, ns: string, name: string, body: string,
                           wave: int, readiness: Policy, deletion: string, ownershipId: string)

  /** The object as the server returns it after an apply. */
  datatype Applied = Applied(group: string, version: string, kind: string, ns: string, name: string, uid: string)

  datatype InventoryItem = InventoryItem(targetDigest: string, group: string, version: string, resource: string, kind: string,
                                         ns: string, name: string, uid: string, ownershipId: string,
                                         readiness: Policy, deletion: string)

  datatype Result<+T> = Ok(value: T) | Err

  // ------------------------------------------------------- the stable order

  predicate SortedByWave(s: seq<Object>) { forall i, j | 0 <= i < j < |s| :: s[i].wave <= s[j].wave }

  /** The objects of one wave, in the order in which they stand. */
  function Wave(s: seq<Object>, w: int): seq<Object> {
    if s == [] then [] else if s[0].wave == w then [s[0]] + Wave(s[1..], w) else Wave(s[1..], w)
  }

  /** Sorted by wave, and within each wave as before. */
  ghost predicate IsStableOrder(ordered: seq<Object>, objects: seq<Object>) {
    SortedByWave(ordered) && forall w :: Wave(ordered, w) == Wave(objects, w)
  }

  /** Before the first object of the same or a later wave. */
  function Insert(x: Object, s: seq<Object>): seq<Object> {
    if s == [] || x.wave <= s[0].wave then [x] + s else [s[0]] + Insert(x, s[1..])
  }

  function StableSort(objects: seq<Object>): seq<Object> {
    if objects == [] then [] else Insert(objects[0], StableSort(objects[1..]))
  }

  lemma {:induction false} InsertIsStable(x: Object, s: seq<Object>, w: int)
    requires SortedByWave(s)
    ensures SortedByWave(Insert(x, s))
    ensures Wave(Insert(x, s), w) == (if x.wave == w then [x] + Wave(s, w) else Wave(s, w))
    ensures forall y | y in Insert(x, s) :: y == x || y in s
  {
    if s != [] && x.wave > s[0].wave {
      InsertIsStable(x, s[1..], w);
      var t := Insert(x, s[1..]);
      assert Insert(x, s) == [s[0]] + t;
      forall j | 0 <= j < |t| ensures s[0].wave <= t[j].wave { assert t[j] in t; }
    } else {
      assert ([x] + s)[1..] == s;
    }
  }

  lemma {:induction false} SortIsStable(objects: seq<Object>)
    ensures IsStableOrder(StableSort(objects), objects)
  {
    if objects != [] {
      SortIsStable(objects[1..]);
      forall w ensures Wave(StableSort(objects), w) == Wave(objects, w) && SortedByWave(StableSort(objects)) {
        InsertIsStable(objects[0], StableSort(objects[1..]), w);
      }
      assert SortedByWave(StableSort(objects)) by { InsertIsStable(objects[0], StableSort(objects[1..]), 0); }
    }
  }

  lemma {:induction false} WaveMembers(s: seq<Object>, x: Object)
    ensures x in s <==> x in Wave(s, x.wave)
  {
    if s != [] { WaveMembers(s[1..], x); }
  }

  lemma FirstHasWave(s: seq<Object>)
    ensures s == [] || Wave(s, s[0].wave) != []
  {
  }

  /** Two stable orders of the same objects are the same, so it does not matter how the library sorts. */
  lemma {:induction false} StableOrderIsUnique(a: seq<Object>, b: seq<Object>)
    requires SortedByWave(a) && SortedByWave(b) && forall w :: Wave(a, w) == Wave(b, w)
    ensures a == b
    decreases |a|
  {
    FirstHasWave(a);
    FirstHasWave(b);
    if a != [] && b != [] {
      HeadsAgree(a, b);
      forall w ensures Wave(a[1..], w) == Wave(b[1..], w) {
        assert Wave(a, w) == Wave(b, w);
        assert ([a[0]] + Wave(a[1..], w))[1..] == Wave(a[1..], w) && ([b[0]] + Wave(b[1..], w))[1..] == Wave(b[1..], w);
      }
      StableOrderIsUnique(a[1..], b[1..]);
      assert a == [a[0]] + a[1..] && b == [b[0]] + b[1..];
    }
  }

  /** Whatever algorithm sorts the copy stably, this is its result. */
  lemma AnyStableSort(ordered: seq<Object>, objects: seq<Object>)
    requires IsStableOrder(ordered, objects)
    ensures ordered == StableSort(objects)
  {
    SortIsStable(objects);
    StableOrderIsUnique(ordered, StableSort(objects));
  }

  lemma HeadsAgree(a: seq<Object>, b: seq<Object>)
    requires a != [] && b != [] && SortedByWave(a) && SortedByWave(b)
    requires Wave(a, a[0].wave) == Wave(b, a[0].wave) && Wave(a, b[0].wave) == Wave(b, b[0].wave)
    ensures a[0] == b[0]
  {
    WaveMembers(a, b[0]);
    WaveMembers(b, a[0]);
    assert b[0] in Wave(b, b[0].wave) && a[0] in Wave(a, a[0].wave);
    assert b[0] in a && a[0] in b;
    assert a[0].wave == b[0].wave;
    assert Wave(a, a[0].wave)[0] == a[0] && Wave(b, b[0].wave)[0] == b[0];
  }

  lemma {:induction false} InsertIsPermutation(x: Object, s: seq<Object>)
    ensures multiset(Insert(x, s)) == multiset([x] + s)
  {
    if s != [] && x.wave > s[0].wave {
      InsertIsPermutation(x, s[1..]);
      assert s == [s[0]] + s[1..];
    }
  }

  lemma {:induction false} SortIsPermutation(objects: seq<Object>)
    ensures multiset(StableSort(objects)) == multiset(objects) && |StableSort(objects)| == |objects|
  {
    if objects != [] {
      SortIsPermutation(objects[1..]);
      InsertIsPermutation(objects[0], StableSort(objects[1..]));
      assert objects == [objects[0]] + objects[1..];
    }
    assert |multiset(StableSort(objects))| == |StableSort(objects)| && |multiset(objects)| == |objects|;
  }

  // ------------------------------------------------------------- the cluster

  datatype Reading = Unreadable | Invalid | NotReady | Ready

  datatype Event = Patched(item: Object, owner: string, answer: Result<Applied>) | Read(item: Object, reading: Reading)

  /** How the cluster answers the n-th call. */
  datatype Answers = Answers(patch: nat -> Result<Applied>, read: nat -> Reading)

  class Target {
    const answers: Answers
    var log: seq<Event>

    constructor (answers: Answers)
      ensures this.answers == answers && log == []
    {
      this.answers, log := answers, [];
    }

    method Patch(item: Object, owner: string) returns (r: Result<Applied>)
      modifies this
      ensures r == answers.patch(|old(log)|) && log == old(log) + [Patched(item, owner, r)]
    {
      r := answers.patch(|log|);
      log := log + [Patched(item, owner, r)];
    }

    method Get(item: Object) returns (r: Reading)
      modifies this
      ensures r == answers.read(|old(log)|) && log == old(log) + [Read(item, r)]
    {
      r := answers.read(|log|);
      log := log + [Read(item, r)];
    }
  }

  function InventoryFor(a: Applied, targetDigest: string, item: Object): Result<InventoryItem> {
    if a.name == "" || a.uid == "" then Err
    else Ok(InventoryItem(targetDigest, a.group, a.version, item.resource, a.kind, a.ns, a.name, a.uid,
                          item.ownershipId, item.readiness, item.deletion))
  }

  // --------------------------------------------------------------- guarantees

  predicate SeenReady(log: seq<Event>, base: nat, item: Object, n: nat) {
    exists m | base <= m < n && m < |log| :: log[m] == Read(item, Ready)
  }

  /** The objects patched since position `base`, in order. */
  function Patches(log: seq<Event>, base: nat): seq<Object> {
    if |log| <= base then [] else
    Patches(log[..|log| - 1], base) + (if log[|log| - 1].Patched? then [log[|log| - 1].item] else [])
  }

  /** Call `n` respects the waves: an object is patched only when every required object of a lower
      wave has been seen ready, and readiness is asked of a wave only when everything up to and
      including that wave has been patched. */
  predicate InTurn(log: seq<Event>, base: nat, objects: seq<Object>, n: nat) {
    base <= n < |log| ==>
      match log[n]
      case Patched(item, _, _) =>
        forall y | y in objects && y.readiness.RequireReady? && y.wave < item.wave :: SeenReady(log, base, y, n)
      case Read(item, _) => forall y | y in objects && y.wave <= item.wave :: y in Patches(log[..n], base)
  }

  ghost predicate WavesRespected(log: seq<Event>, base: nat, objects: seq<Object>) {
    forall n: nat :: InTurn(log, base, objects, n)
  }

  /** Everything before position `start` is applied and, where required, seen ready. */
  ghost predicate Behind(log: seq<Event>, base: nat, ordered: seq<Object>, start: nat) {
    forall k | 0 <= k < start && k < |ordered| && ordered[k].readiness.RequireReady? :: SeenReady(log, base, ordered[k], |log|)
  }

  /** An answer that ends the bootstrap. */
  predicate Faulty(e: Event) {
    match e
    case Patched(_, _, answer) => answer.Err? || answer.value.name == "" || answer.value.uid == ""
    case Read(_, reading) => !reading.Ready?
  }

  /** Entry `k` of the inventory is what the server answered for object `k`. */
  ghost predicate Records(entry: InventoryItem, log: seq<Event>, base: nat, targetDigest: string, item: Object) {
    exists m, a | base <= m < |log| ::
      && log[m] == Patched(item, item.ownershipId, Ok(a)) && a.name != "" && a.uid != ""
      && entry == InventoryItem(targetDigest, a.group, a.version, item.resource, a.kind, a.ns, a.name, a.uid,
                                item.ownershipId, item.readiness, item.deletion)
  }

  ghost predicate Inventoried(inventory: seq<InventoryItem>, log: seq<Event>, base: nat, targetDigest: string, ordered: seq<Object>) {
    |inventory| <= |ordered| && forall k | 0 <= k < |inventory| :: Records(inventory[k], log, base, targetDigest, ordered[k])
  }

  /** What is known between two calls: the calls so far were in turn, they patched `ordered[..k]`
      and recorded it, and the first `start` objects are ready. */
  ghost predicate Reached(log: seq<Event>, base: nat, objects: seq<Object>, ordered: seq<Object>, start: nat, k: nat,
                          inventory: seq<InventoryItem>, targetDigest: string) {
    && base <= |log| && k <= |ordered| && WavesRespected(log, base, objects) && Patches(log, base) == ordered[..k]
    && Behind(log, base, ordered, start) && Inventoried(inventory, log, base, targetDigest, ordered)
  }

  lemma SeenStays(log: seq<Event>, event: Event, base: nat, y: Object, n: nat)
    requires n <= |log| && SeenReady(log, base, y, n)
    ensures SeenReady(log + [event], base, y, n) && SeenReady(log + [event], base, y, |log| + 1)
  {
    var m :| base <= m < n && m < |log| && log[m] == Read(y, Ready);
    assert (log + [event])[m] == log[m];
  }

  /** One more call in turn. */
  lemma CallsGrow(log: seq<Event>, event: Event, base: nat, objects: seq<Object>)
    requires base <= |log| && WavesRespected(log, base, objects) && InTurn(log + [event], base, objects, |log|)
    ensures Patches(log + [event], base) == Patches(log, base) + if event.Patched? then [event.item] else []
    ensures WavesRespected(log + [event], base, objects)
  {
    var after := log + [event];
    assert after[..|log|] == log;
    forall n: nat ensures InTurn(after, base, objects, n) {
      assert InTurn(log, base, objects, n);
      if base <= n < |log| {
        assert after[..n] == log[..n] && after[n] == log[n];
        forall y | SeenReady(log, base, y, n) ensures SeenReady(after, base, y, n) { SeenStays(log, event, base, y, n); }
      }
    }
  }

  lemma FindingsStay(log: seq<Event>, event: Event, base: nat, ordered: seq<Object>, start: nat,
                     inventory: seq<InventoryItem>, targetDigest: string)
    requires base <= |log| && Behind(log, base, ordered, start) && Inventoried(inventory, log, base, targetDigest, ordered)
    ensures Behind(log + [event], base, ordered, start) && Inventoried(inventory, log + [event], base, targetDigest, ordered)
  {
    var after := log + [event];
    forall k | 0 <= k < start && k < |ordered| && ordered[k].readiness.RequireReady? ensures SeenReady(after, base, ordered[k], |after|) {
      SeenStays(log, event, base, ordered[k], |log|);
    }
    forall k | 0 <= k < |inventory| ensures Records(inventory[k], after, base, targetDigest, ordered[k]) {
      assert Records(inventory[k], log, base, targetDigest, ordered[k]);
      var m, a :| base <= m < |log| && log[m] == Patched(ordered[k], ordered[k].ownershipId, Ok(a))
                  && a.name != "" && a.uid != ""
                  && inventory[k] == InventoryItem(targetDigest, a.group, a.version, ordered[k].resource, a.kind, a.ns, a.name, a.uid,
                                                   ordered[k].ownershipId, ordered[k].readiness, ordered[k].deletion);
      assert after[m] == log[m];
    }
  }

  /** Which objects lie in the waves before position `start`. */
  lemma LowerWaves(objects: seq<Object>, ordered: seq<Object>, start: nat, k: nat, y: Object)
    requires IsStableOrder(ordered, objects) && start <= k < |ordered|
    requires y in objects && y.wave < ordered[k].wave && ordered[k].wave == ordered[start].wave
    ensures exists j | 0 <= j < start :: ordered[j] == y
  {
    WaveMembers(objects, y);
    WaveMembers(ordered, y);
    assert Wave(ordered, y.wave) == Wave(objects, y.wave);
    var j :| 0 <= j < |ordered| && ordered[j] == y;
    assert j < start;
  }

  /** What has been patched when the wave that ends at `end` is asked about. */
  lemma UpToWave(objects: seq<Object>, ordered: seq<Object>, start: nat, end: nat, y: Object)
    requires IsStableOrder(ordered, objects) && start < end <= |ordered|
    requires end < |ordered| ==> ordered[end].wave != ordered[start].wave
    requires y in objects && y.wave <= ordered[start].wave
    ensures y in ordered[..end]
  {
    WaveMembers(objects, y);
    WaveMembers(ordered, y);
    assert Wave(ordered, y.wave) == Wave(objects, y.wave);
    var j :| 0 <= j < |ordered| && ordered[j] == y;
    assert j < end;
    assert ordered[..end][j] == y;
  }

  /** Where the wave that begins at `start` ends. */
  method WaveEnd(ordered: seq<Object>, start: nat) returns (end: nat)
    requires start < |ordered|
    ensures start < end <= |ordered| && forall k | start <= k < end :: ordered[k].wave == ordered[start].wave
    ensures end < |ordered| ==> ordered[end].wave != ordered[start].wave
  {
    end := start + 1;
    while end < |ordered| && ordered[end].wave == ordered[start].wave
      invariant start < end <= |ordered|
      invariant forall k | start <= k < end :: ordered[k].wave == ordered[start].wave
    {
      end := end + 1;
    }
  }

  /** Patching object `k` keeps everything known, and records its entry if the answer allows one. */
  lemma PatchedNext(log: seq<Event>, base: nat, objects: seq<Object>, ordered: seq<Object>, start: nat, k: nat,
                    inventory: seq<InventoryItem>, targetDigest: string, answer: Result<Applied>)
    requires Reached(log, base, objects, ordered, start, k, inventory, targetDigest) && start <= k < |ordered| && |inventory| == k
    requires IsStableOrder(ordered, objects) && ordered[k].wave == ordered[start].wave
    ensures var after := log + [Patched(ordered[k], ordered[k].ownershipId, answer)];
      && Reached(after, base, objects, ordered, start, k + 1, inventory, targetDigest)
      && (answer.Ok? && InventoryFor(answer.value, targetDigest, ordered[k]).Ok? ==>
            Reached(after, base, objects, ordered, start, k + 1,
                    inventory + [InventoryFor(answer.value, targetDigest, ordered[k]).value], targetDigest))
  {
    var event := Patched(ordered[k], ordered[k].ownershipId, answer);
    forall y | y in objects && y.readiness.RequireReady? && y.wave < ordered[k].wave ensures SeenReady(log, base, y, |log|) {
      LowerWaves(objects, ordered, start, k, y);
    }
    forall y | SeenReady(log, base, y, |log|) ensures SeenReady(log + [event], base, y, |log|) { SeenStays(log, event, base, y, |log|); }
    CallsGrow(log, event, base, objects);
    FindingsStay(log, event, base, ordered, start, inventory, targetDigest);
    assert ordered[..k + 1] == ordered[..k] + [ordered[k]];
    if answer.Ok? && InventoryFor(answer.value, targetDigest, ordered[k]).Ok? {
      assert (log + [event])[|log|] == event;
      assert Records(InventoryFor(answer.value, targetDigest, ordered[k]).value, log + [event], base, targetDigest, ordered[k]);
    }
  }

  /** Reading object `k`, once its whole wave has been patched, keeps everything known. */
  lemma ReadNext(log: seq<Event>, base: nat, objects: seq<Object>, ordered: seq<Object>, start: nat, k: nat, end: nat,
                 inventory: seq<InventoryItem>, targetDigest: string, reading: Reading)
    requires Reached(log, base, objects, ordered, k, end, inventory, targetDigest) && start <= k < end
    requires IsStableOrder(ordered, objects) && ordered[k].wave == ordered[start].wave
    requires end < |ordered| ==> ordered[end].wave != ordered[start].wave
    ensures Reached(log + [Read(ordered[k], reading)], base, objects, ordered, if reading.Ready? then k + 1 else k, end, inventory, targetDigest)
  {
    var event := Read(ordered[k], reading);
    assert (log + [event])[..|log|] == log;
    forall y | y in objects && y.wave <= ordered[k].wave ensures y in Patches(log, base) {
      UpToWave(objects, ordered, start, end, y);
    }
    CallsGrow(log, event, base, objects);
    FindingsStay(log, event, base, ordered, k, inventory, targetDigest);
    assert (log + [event])[|log|] == event;
    assert reading.Ready? ==> SeenReady(log + [event], base, ordered[k], |log| + 1);
  }

  /** Every object is patched once, wave after wave and in declared order within a wave; an error
      leaves a prefix of that. */
  method ApplyBootstrap(target: Target, objects: seq<Object>, targetDigest: string) returns (r: Result<seq<InventoryItem>>)
    modifies target
    ensures old(target.log) <= target.log
    ensures WavesRespected(target.log, |old(target.log)|, objects)
    ensures Patches(target.log, |old(target.log)|) <= StableSort(objects)
    ensures r.Err? ==> objects == [] || (target.log != old(target.log) && Faulty(target.log[|target.log| - 1]))
    ensures r.Ok? ==> objects != [] && |r.value| == |objects| && Patches(target.log, |old(target.log)|) == StableSort(objects)
                      && Inventoried(r.value, target.log, |old(target.log)|, targetDigest, StableSort(objects))
                      && Behind(target.log, |old(target.log)|, StableSort(objects), |objects|)
  {
    if objects == [] { return Err; }
    var ordered := StableSort(objects);
    SortIsStable(objects);
    SortIsPermutation(objects);
    var inventory, ok := ApplyWaves(target, objects, ordered, targetDigest);
    assert ordered[..|ordered|] == ordered;
    if !ok { return Err; }
    return Ok(inventory);
  }

  /** The loop over the waves. */
  method ApplyWaves(target: Target, objects: seq<Object>, ordered: seq<Object>, targetDigest: string)
    returns (inventory: seq<InventoryItem>, ok: bool)
    requires IsStableOrder(ordered, objects)
    modifies target
    ensures old(target.log) <= target.log
    ensures !ok ==> target.log != old(target.log) && Faulty(target.log[|target.log| - 1])
    ensures !ok ==> WavesRespected(target.log, |old(target.log)|, objects) && Patches(target.log, |old(target.log)|) <= ordered
    ensures ok ==> |inventory| == |ordered|
                   && Reached(target.log, |old(target.log)|, objects, ordered, |ordered|, |ordered|, inventory, targetDigest)
  {
    ghost var base := |target.log|;
    inventory, ok := [], true;
    var start := 0;
    while start < |ordered|
      invariant ok && 0 <= start <= |ordered| && |inventory| == start
      invariant old(target.log) <= target.log && Reached(target.log, base, objects, ordered, start, start, inventory, targetDigest)
    {
      var end := WaveEnd(ordered, start);
      inventory, ok := ApplyWave(target, objects, ordered, start, end, targetDigest, inventory, base);
      if !ok { return; }
      ok := AwaitWave(target, objects, ordered, start, end, targetDigest, inventory, base);
      if !ok { return; }
      start := end;
    }
  }

  /** The first inner loop: apply every object of the wave. */
  method ApplyWave(target: Target, objects: seq<Object>, ordered: seq<Object>, start: nat, end: nat, targetDigest: string,
                   entries: seq<InventoryItem>, ghost base: nat) returns (inventory: seq<InventoryItem>, ok: bool)
    requires start < end <= |ordered| && |entries| == start && IsStableOrder(ordered, objects)
    requires forall k | start <= k < end :: ordered[k].wave == ordered[start].wave
    requires Reached(target.log, base, objects, ordered, start, start, entries, targetDigest)
    modifies target
    ensures old(target.log) <= target.log
    ensures !ok ==> target.log != old(target.log) && Faulty(target.log[|target.log| - 1])
    ensures !ok ==> WavesRespected(target.log, base, objects) && Patches(target.log, base) <= ordered
    ensures ok ==> |inventory| == end && Reached(target.log, base, objects, ordered, start, end, inventory, targetDigest)
  {
    inventory, ok := entries, false;
    for k := start to end
      invariant old(target.log) <= target.log && |inventory| == k
      invariant Reached(target.log, base, objects, ordered, start, k, inventory, targetDigest)
    {
      var item := ordered[k];
      ghost var before := target.log;
      var applied := target.Patch(item, item.ownershipId);
      PatchedNext(before, base, objects, ordered, start, k, inventory, targetDigest, applied);
      if applied.Err? { return; }
      var entry := InventoryFor(applied.value, targetDigest, item);
      if entry.Err? { return; }
      inventory := inventory + [entry.value];
    }
    ok := true;
  }

  /** The second inner loop: every required object of the wave must be ready. */
  method AwaitWave(target: Target, objects: seq<Object>, ordered: seq<Object>, start: nat, end: nat, targetDigest: string,
                   inventory: seq<InventoryItem>, ghost base: nat) returns (ok: bool)
    requires start < end <= |ordered| && IsStableOrder(ordered, objects)
    requires forall k | start <= k < end :: ordered[k].wave == ordered[start].wave
    requires end < |ordered| ==> ordered[end].wave != ordered[start].wave
    requires Reached(target.log, base, objects, ordered, start, end, inventory, targetDigest)
    modifies target
    ensures old(target.log) <= target.log
    ensures !ok ==> target.log != old(target.log) && Faulty(target.log[|target.log| - 1])
    ensures !ok ==> WavesRespected(target.log, base, objects) && Patches(target.log, base) <= ordered
    ensures ok ==> Reached(target.log, base, objects, ordered, end, end, inventory, targetDigest)
  {
    ok := false;
    for k := start to end
      invariant old(target.log) <= target.log && Reached(target.log, base, objects, ordered, k, end, inventory, targetDigest)
    {
      var item := ordered[k];
      if item.readiness.RequireReady? {
        ghost var before := target.log;
        var reading := target.Get(item);
        ReadNext(before, base, objects, ordered, start, k, end, inventory, targetDigest, reading);
        if !reading.Ready? { return; }
      }
    }
    ok := true;
  }
}
