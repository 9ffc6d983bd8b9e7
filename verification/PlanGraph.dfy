/** The plan visualization: Parse, collectEdges, matchingAddress and classify of
    internal/planview/plan.go. Go walks its maps in any order; here every walk picks an
    arbitrary remaining element. */
module PlanGraph {
  import Sets
  import Text

  datatype Action = Create | Update | Delete | Replace | NoOp

  datatype Node = Node(address: string, kind: string, provider: string, action: Action)

  datatype Edge = Edge(from: string, to: string)

  datatype Summary = Summary(create: nat, update: nat, delete: nat, replace: nat, noOp: nat)

  datatype Change = Change(address: string, kind: string, provider: string, actions: seq<string>)

  /** A resource of the configuration: each expression's list of references. */
  datatype Resource = Resource(address: string, expressions: map<string, seq<string>>)

  datatype Module = Module(resources: seq<Resource>, children: seq<Module>)

  datatype RawPlan = RawPlan(formatVersion: string, changes: seq<Change>, root: Module)

  datatype Document = Document(nodes: seq<Node>, edges: seq<Edge>, summary: Summary)

  datatype Result<+T> = Ok(value: T) | Err

  // -------------------------------------------------------- matching address

  predicate HasPrefix(s: string, prefix: string) { prefix <= s }

  predicate Matches(reference: string, address: string) {
    reference == address || HasPrefix(reference, address + ".") || HasPrefix(reference, address + "[")
  }

  /** The longest matching address, or nothing if none matches. */
  ghost predicate IsBest(reference: string, known: set<string>, best: string) {
    && (forall a | a in known && Matches(reference, a) :: |a| <= |best|)
    && (best != "" ==> best in known && Matches(reference, best))
  }

  lemma MatchIsPrefix(reference: string, address: string)
    requires Matches(reference, address)
    ensures |address| <= |reference| && reference[..|address|] == address
  {
    if HasPrefix(reference, address + ".") { assert (address + ".")[..|address|] == address; }
    if HasPrefix(reference, address + "[") { assert (address + "[")[..|address|] == address; }
  }

  /** A reference matches the address it is, and every address it goes on from with a dot or a bracket. */
  lemma MatchesExactly(reference: string, address: string)
    ensures Matches(reference, address) <==>
      && |address| <= |reference| && reference[..|address|] == address
      && (|reference| == |address| || reference[|address|] == '.' || reference[|address|] == '[')
  {
    if Matches(reference, address) { MatchIsPrefix(reference, address); }
    if reference != address && HasPrefix(reference, address + ".") { assert (address + ".")[|address|] == '.'; }
    if reference != address && HasPrefix(reference, address + "[") { assert (address + "[")[|address|] == '['; }
    if |address| < |reference| && reference[..|address|] == address {
      assert reference[..|address| + 1] == address + [reference[|address|]];
    }
  }

  /** There is only one longest match, in whatever order the addresses are tried. */
  lemma BestIsUnique(reference: string, known: set<string>, one: string, other: string)
    requires IsBest(reference, known, one) && IsBest(reference, known, other)
    ensures one == other
  {
    if one != "" { MatchIsPrefix(reference, one); }
    if other != "" { MatchIsPrefix(reference, other); }
  }

  method MatchingAddress(reference: string, known: set<string>) returns (best: string)
    ensures IsBest(reference, known, best)
  {
    best := "";
    var rest := known;
    while rest != {}
      invariant rest <= known && IsBest(reference, known - rest, best)
      decreases |rest|
    {
      var address :| address in rest;
      if Matches(reference, address) && |address| > |best| { best := address; }
      rest := rest - {address};
    }
    assert known - rest == known;
  }

  // ------------------------------------------------------------------- edges

  /** What matchingAddress returns. */
  ghost function Best(reference: string, known: set<string>): (best: string)
    ensures IsBest(reference, known, best)
  {
    BestExists(reference, known);
    var best :| IsBest(reference, known, best);
    best
  }

  lemma BestExists(reference: string, known: set<string>)
    ensures exists best :: IsBest(reference, known, best)
    decreases known
  {
    if |known| == 0 {
      assert IsBest(reference, known, "");
    } else {
      var a := Sets.Pick(known);
      BestExists(reference, known - {a});
      var best :| IsBest(reference, known - {a}, best);
      var better := if Matches(reference, a) && |a| > |best| then a else best;
      assert IsBest(reference, known, better);
    }
  }

  ghost function EdgeOf(reference: string, to: string, known: set<string>): set<Edge> {
    var from := Best(reference, known);
    if from == "" || from == to then {} else {Edge(from, to)}
  }

  ghost function OfReferences(references: seq<string>, to: string, known: set<string>): set<Edge> {
    if references == [] then {}
    else OfReferences(references[..|references| - 1], to, known) + EdgeOf(references[|references| - 1], to, known)
  }

  ghost function OfExpressions(keys: set<string>, r: Resource, known: set<string>): set<Edge>
    requires keys <= r.expressions.Keys
  {
    set k, e | k in keys && e in OfReferences(r.expressions[k], r.address, known) :: e
  }

  ghost function OfResource(r: Resource, known: set<string>): set<Edge> {
    if r.address in known then OfExpressions(r.expressions.Keys, r, known) else {}
  }

  ghost function OfResources(resources: seq<Resource>, known: set<string>): set<Edge> {
    if resources == [] then {}
    else OfResources(resources[..|resources| - 1], known) + OfResource(resources[|resources| - 1], known)
  }

  ghost function OfModules(modules: seq<Module>, known: set<string>): set<Edge>
    decreases modules, 0
  {
    if modules == [] then {}
    else OfModules(modules[..|modules| - 1], known) + OfModule(modules[|modules| - 1], known)
  }

  ghost function OfModule(m: Module, known: set<string>): set<Edge>
    decreases m, 1
  {
    OfResources(m.resources, known) + OfModules(m.children, known)
  }

  function EdgeKey(e: Edge): string { e.from + "\0" + e.to }

  ghost predicate Keyed(edges: map<string, Edge>) { forall k | k in edges :: k == EdgeKey(edges[k]) }

  /** `made` has been added to the map, each edge under its key; the same key keeps one edge only. */
  ghost predicate Added(before: map<string, Edge>, after: map<string, Edge>, made: set<Edge>) {
    && Keyed(after)
    && (forall k | k in after :: after[k] in made || (k in before && after[k] == before[k]))
    && (forall k | k in before :: k in after)
    && (forall e | e in made :: EdgeKey(e) in after)
  }

  lemma AddedThen(before: map<string, Edge>, middle: map<string, Edge>, after: map<string, Edge>, one: set<Edge>, two: set<Edge>)
    requires Added(before, middle, one) && Added(middle, after, two)
    ensures Added(before, after, one + two)
  {
  }

  lemma AddedOne(edges: map<string, Edge>, edge: Edge)
    requires Keyed(edges)
    ensures Added(edges, edges[EdgeKey(edge) := edge], {edge})
  {
  }

  lemma ReferencesPush(references: seq<string>, n: nat, to: string, known: set<string>)
    requires n < |references|
    ensures OfReferences(references[..n + 1], to, known)
            == OfReferences(references[..n], to, known) + EdgeOf(references[n], to, known)
  {
    assert references[..n + 1][..n] == references[..n];
  }

  method CollectReferences(references: seq<string>, to: string, known: set<string>, edges: map<string, Edge>)
    returns (after: map<string, Edge>)
    requires Keyed(edges)
    ensures Added(edges, after, OfReferences(references, to, known))
  {
    after := edges;
    for n := 0 to |references|
      invariant Added(edges, after, OfReferences(references[..n], to, known))
    {
      ReferencesPush(references, n, to, known);
      var from := MatchingAddress(references[n], known);
      BestIsUnique(references[n], known, from, Best(references[n], known));
      if from == "" || from == to { continue; }
      var edge := Edge(from, to);
      ghost var middle := after;
      after := after[EdgeKey(edge) := edge];
      AddedOne(middle, edge);
      AddedThen(edges, middle, after, OfReferences(references[..n], to, known), {edge});
    }
    assert references[..|references|] == references;
  }

  method CollectExpressions(r: Resource, known: set<string>, edges: map<string, Edge>) returns (after: map<string, Edge>)
    requires Keyed(edges)
    ensures Added(edges, after, OfExpressions(r.expressions.Keys, r, known))
  {
    after := edges;
    var rest := r.expressions.Keys;
    while rest != {}
      invariant rest <= r.expressions.Keys
      invariant Added(edges, after, OfExpressions(r.expressions.Keys - rest, r, known))
      decreases |rest|
    {
      var key :| key in rest;
      ghost var done, middle := r.expressions.Keys - rest, after;
      after := CollectReferences(r.expressions[key], r.address, known, after);
      AddedThen(edges, middle, after, OfExpressions(done, r, known), OfReferences(r.expressions[key], r.address, known));
      rest := rest - {key};
      assert r.expressions.Keys - rest == done + {key};
      assert OfExpressions(done + {key}, r, known) == OfExpressions(done, r, known) + OfReferences(r.expressions[key], r.address, known);
    }
    assert r.expressions.Keys - rest == r.expressions.Keys;
  }

  method CollectResources(resources: seq<Resource>, known: set<string>, edges: map<string, Edge>) returns (after: map<string, Edge>)
    requires Keyed(edges)
    ensures Added(edges, after, OfResources(resources, known))
  {
    after := edges;
    for n := 0 to |resources|
      invariant Added(edges, after, OfResources(resources[..n], known))
    {
      assert resources[..n + 1][..n] == resources[..n];
      if resources[n].address !in known { continue; }
      ghost var middle := after;
      after := CollectExpressions(resources[n], known, after);
      AddedThen(edges, middle, after, OfResources(resources[..n], known), OfResource(resources[n], known));
    }
    assert resources[..|resources|] == resources;
  }

  /** collectEdges: a module's resources, then its child modules. */
  method CollectEdges(m: Module, known: set<string>, edges: map<string, Edge>) returns (after: map<string, Edge>)
    requires Keyed(edges)
    ensures Added(edges, after, OfModule(m, known))
    decreases m
  {
    after := CollectResources(m.resources, known, edges);
    for n := 0 to |m.children|
      invariant Added(edges, after, OfResources(m.resources, known) + OfModules(m.children[..n], known))
    {
      assert m.children[..n + 1][..n] == m.children[..n];
      ghost var middle := after;
      after := CollectEdges(m.children[n], known, after);
      AddedThen(edges, middle, after, OfResources(m.resources, known) + OfModules(m.children[..n], known), OfModule(m.children[n], known));
      assert OfResources(m.resources, known) + OfModules(m.children[..n + 1], known)
          == OfResources(m.resources, known) + OfModules(m.children[..n], known) + OfModule(m.children[n], known);
    }
    assert m.children[..|m.children|] == m.children;
  }

  // -------------------------------------------------- the reference relation

  /** A reference of a known resource, anywhere in the module tree, whose longest known match is
      `e.from`. */
  ghost predicate RefersTo(m: Module, known: set<string>, e: Edge)
    decreases m
  {
    || (exists i, k, n | 0 <= i < |m.resources| && k in m.resources[i].expressions && 0 <= n < |m.resources[i].expressions[k]| ::
          && m.resources[i].address == e.to && e.to in known && e.from != "" && e.from != e.to
          && IsBest(m.resources[i].expressions[k][n], known, e.from))
    || (exists i | 0 <= i < |m.children| :: RefersTo(m.children[i], known, e))
  }

  lemma {:induction false} ReferencesHave(references: seq<string>, to: string, known: set<string>, n: nat)
    requires n < |references|
    ensures EdgeOf(references[n], to, known) <= OfReferences(references, to, known)
  {
    if n < |references| - 1 { ReferencesHave(references[..|references| - 1], to, known, n); }
  }

  lemma {:induction false} ReferencesSource(references: seq<string>, to: string, known: set<string>, e: Edge) returns (n: nat)
    requires e in OfReferences(references, to, known)
    ensures n < |references| && e in EdgeOf(references[n], to, known)
  {
    n := |references| - 1;
    if e !in EdgeOf(references[n], to, known) { n := ReferencesSource(references[..n], to, known, e); }
  }

  lemma ReferencesAre(references: seq<string>, to: string, known: set<string>, e: Edge)
    ensures e in OfReferences(references, to, known) <==>
      e.to == to && e.from != "" && e.from != to && exists n | 0 <= n < |references| :: IsBest(references[n], known, e.from)
  {
    if e in OfReferences(references, to, known) {
      var n := ReferencesSource(references, to, known, e);
    }
    if n :| 0 <= n < |references| && IsBest(references[n], known, e.from) {
      BestIsUnique(references[n], known, e.from, Best(references[n], known));
      ReferencesHave(references, to, known, n);
    }
  }

  lemma {:induction false} ResourcesHave(resources: seq<Resource>, known: set<string>, i: nat)
    requires i < |resources|
    ensures OfResource(resources[i], known) <= OfResources(resources, known)
  {
    if i < |resources| - 1 { ResourcesHave(resources[..|resources| - 1], known, i); }
  }

  lemma {:induction false} ResourcesSource(resources: seq<Resource>, known: set<string>, e: Edge) returns (i: nat)
    requires e in OfResources(resources, known)
    ensures i < |resources| && e in OfResource(resources[i], known)
  {
    i := |resources| - 1;
    if e !in OfResource(resources[i], known) { i := ResourcesSource(resources[..i], known, e); }
  }

  lemma ResourcesAre(resources: seq<Resource>, known: set<string>, e: Edge)
    ensures e in OfResources(resources, known) <==> exists i | 0 <= i < |resources| :: e in OfResource(resources[i], known)
  {
    if e in OfResources(resources, known) { var i := ResourcesSource(resources, known, e); }
    if i :| 0 <= i < |resources| && e in OfResource(resources[i], known) { ResourcesHave(resources, known, i); }
  }

  lemma ResourceIs(r: Resource, known: set<string>, e: Edge)
    ensures e in OfResource(r, known) <==>
      && r.address == e.to && e.to in known && e.from != "" && e.from != e.to
      && exists k, n | k in r.expressions && 0 <= n < |r.expressions[k]| :: IsBest(r.expressions[k][n], known, e.from)
  {
    forall k | k in r.expressions
      ensures e in OfReferences(r.expressions[k], r.address, known) <==>
        e.to == r.address && e.from != "" && e.from != e.to
        && exists n | 0 <= n < |r.expressions[k]| :: IsBest(r.expressions[k][n], known, e.from)
    {
      ReferencesAre(r.expressions[k], r.address, known, e);
    }
  }

  lemma {:induction false} ModulesHave(modules: seq<Module>, known: set<string>, i: nat)
    requires i < |modules|
    ensures OfModule(modules[i], known) <= OfModules(modules, known)
    decreases |modules|
  {
    if i < |modules| - 1 { ModulesHave(modules[..|modules| - 1], known, i); }
  }

  lemma {:induction false} ModulesSource(modules: seq<Module>, known: set<string>, e: Edge) returns (i: nat)
    requires e in OfModules(modules, known)
    ensures i < |modules| && e in OfModule(modules[i], known)
    decreases |modules|
  {
    i := |modules| - 1;
    if e !in OfModule(modules[i], known) { i := ModulesSource(modules[..i], known, e); }
  }

  lemma ModulesAre(modules: seq<Module>, known: set<string>, e: Edge)
    ensures e in OfModules(modules, known) <==> exists i | 0 <= i < |modules| :: e in OfModule(modules[i], known)
  {
    if e in OfModules(modules, known) { var i := ModulesSource(modules, known, e); }
    if i :| 0 <= i < |modules| && e in OfModule(modules[i], known) { ModulesHave(modules, known, i); }
  }

  /** The edges made are exactly the reference relation. */
  lemma {:induction false} EdgesAreReferences(m: Module, known: set<string>, e: Edge)
    ensures e in OfModule(m, known) <==> RefersTo(m, known, e)
    decreases m
  {
    ResourcesAre(m.resources, known, e);
    ModulesAre(m.children, known, e);
    forall i | 0 <= i < |m.resources| ensures e in OfResource(m.resources[i], known) <==>
      && m.resources[i].address == e.to && e.to in known && e.from != "" && e.from != e.to
      && exists k, n | k in m.resources[i].expressions && 0 <= n < |m.resources[i].expressions[k]| ::
           IsBest(m.resources[i].expressions[k][n], known, e.from)
    {
      ResourceIs(m.resources[i], known, e);
    }
    forall i | 0 <= i < |m.children| ensures e in OfModule(m.children[i], known) <==> RefersTo(m.children[i], known, e) {
      EdgesAreReferences(m.children[i], known, e);
    }
  }

  // --------------------------------------------------------------- edge keys

  predicate NulFree(s: string) { '\0' !in s }

  /** A string with a NUL, split at one. */
  lemma NulSplits(s: string) returns (a: string, b: string)
    requires !NulFree(s)
    ensures s == a + "\0" + b
  {
    var i :| 0 <= i < |s| && s[i] == '\0';
    a, b := s[..i], s[i + 1..];
  }

  /** An edge has a key of its own exactly when neither of its addresses holds a NUL. */
  lemma KeyIsItsOwnExactly(e: Edge)
    ensures (forall f: Edge | EdgeKey(f) == EdgeKey(e) :: f == e) <==> NulFree(e.from) && NulFree(e.to)
  {
    if !NulFree(e.from) {
      var a, b := NulSplits(e.from);
      var f := Edge(a, b + "\0" + e.to);
      assert EdgeKey(f) == EdgeKey(e) && |f.from| < |e.from|;
    } else if !NulFree(e.to) {
      var a, b := NulSplits(e.to);
      var f := Edge(e.from + "\0" + a, b);
      assert EdgeKey(f) == EdgeKey(e) && |f.from| > |e.from|;
    } else {
      forall f: Edge | EdgeKey(f) == EdgeKey(e) ensures f == e { KeysOfNulFree(e, f); }
    }
  }

  lemma KeysOfNulFree(e: Edge, f: Edge)
    requires NulFree(e.from) && NulFree(e.to) && EdgeKey(f) == EdgeKey(e)
    ensures f == e
  {
    var key, n := EdgeKey(e), |f.from|;
    assert EdgeKey(f)[n] == '\0';
    assert forall i | 0 <= i < |key| && key[i] == '\0' :: i == |e.from|;
    assert key[..n] == f.from && key[n + 1..] == f.to && key[..|e.from|] == e.from && key[|e.from| + 1..] == e.to;
  }

  ghost predicate KeysTellApart(made: set<Edge>) { forall e, f | e in made && f in made && EdgeKey(e) == EdgeKey(f) :: e == f }

  /** Exactly when the keys tell the edges of a plan apart, none is lost. */
  lemma EdgesAreLostExactly(edges: map<string, Edge>, made: set<Edge>)
    requires Added(map[], edges, made)
    ensures edges.Values == made <==> KeysTellApart(made)
  {
    forall e | e in made ensures EdgeKey(e) in edges && edges[EdgeKey(e)] in made && EdgeKey(edges[EdgeKey(e)]) == EdgeKey(e) { }
    if edges.Values == made {
      forall e, f | e in made && f in made && EdgeKey(e) == EdgeKey(f) ensures e == f {
        assert e in edges.Values && f in edges.Values;
      }
    } else if KeysTellApart(made) {
      forall e | e in made ensures e in edges.Values { assert edges[EdgeKey(e)] == e; }
    }
  }

  /** Without NUL in the addresses, every edge has a key of its own and none is lost. */
  lemma NoEdgeIsLost(m: Module, known: set<string>, edges: map<string, Edge>)
    requires (forall a | a in known :: NulFree(a)) && Added(map[], edges, OfModule(m, known))
    ensures edges.Values == OfModule(m, known)
  {
    forall e, f | e in OfModule(m, known) && f in OfModule(m, known) && EdgeKey(e) == EdgeKey(f) ensures e == f {
      EdgesAreReferences(m, known, e);
      FromIsKnown(m, known, e);
      KeysOfNulFree(e, f);
    }
    EdgesAreLostExactly(edges, OfModule(m, known));
  }

  lemma {:induction false} FromIsKnown(m: Module, known: set<string>, e: Edge)
    requires RefersTo(m, known, e)
    ensures e.from in known && e.to in known && e.from != e.to
    decreases m
  {
    if i :| 0 <= i < |m.children| && RefersTo(m.children[i], known, e) { FromIsKnown(m.children[i], known, e); }
  }

  predicate CanBeEdge(e: Edge) { e.from != "" && e.from != e.to }

  /** Two resources, each with one reference. */
  function TwoEdges(e: Edge, f: Edge): Module {
    Module([Resource(e.to, map["x" := [e.from]]), Resource(f.to, map["x" := [f.from]])], [])
  }

  lemma NamedIsBest(address: string, known: set<string>)
    requires address in known
    ensures IsBest(address, known, address)
  {
    forall a | a in known && Matches(address, a) ensures |a| <= |address| { MatchIsPrefix(address, a); }
  }

  /** For every two edges with one key there is a plan that has both and whose graph, however its maps
      are walked, loses one of them. */
  lemma NulLosesAnEdge(e: Edge, f: Edge, edges: map<string, Edge>)
    requires CanBeEdge(e) && CanBeEdge(f) && e != f && EdgeKey(e) == EdgeKey(f)
    requires Added(map[], edges, OfModule(TwoEdges(e, f), {e.from, e.to, f.from, f.to}))
    ensures RefersTo(TwoEdges(e, f), {e.from, e.to, f.from, f.to}, e) && RefersTo(TwoEdges(e, f), {e.from, e.to, f.from, f.to}, f)
    ensures e !in edges.Values || f !in edges.Values
  {
    var m, known := TwoEdges(e, f), {e.from, e.to, f.from, f.to};
    NamedIsBest(e.from, known);
    NamedIsBest(f.from, known);
    assert IsBest(m.resources[0].expressions["x"][0], known, e.from) && IsBest(m.resources[1].expressions["x"][0], known, f.from);
    EdgesAreReferences(m, known, e);
    EdgesAreReferences(m, known, f);
    EdgesAreLostExactly(edges, OfModule(m, known));
  }

  /** There are such edges. */
  lemma SuchEdgesExist()
    ensures var e, f := Edge("a", "b\0c"), Edge("a\0b", "c"); CanBeEdge(e) && CanBeEdge(f) && e != f && EdgeKey(e) == EdgeKey(f)
  {
    assert EdgeKey(Edge("a", "b\0c")) == "a\0b\0c" && EdgeKey(Edge("a\0b", "c")) == "a\0b\0c";
  }

  // ----------------------------------------------------------------- sorting

  predicate EdgeLess(a: Edge, b: Edge) {
    Text.Less(a.from, b.from) || (a.from == b.from && Text.Less(a.to, b.to))
  }

  lemma EdgeOrder(a: Edge, b: Edge, c: Edge)
    ensures !EdgeLess(a, a) && (a == b || EdgeLess(a, b) || EdgeLess(b, a))
    ensures EdgeLess(a, b) && EdgeLess(b, c) ==> EdgeLess(a, c)
  {
    Text.LessIrreflexive(a.from);
    Text.LessIrreflexive(a.to);
    Text.LessTotal(a.from, b.from);
    Text.LessTotal(a.to, b.to);
    if Text.Less(a.from, b.from) && Text.Less(b.from, c.from) { Text.LessTransitive(a.from, b.from, c.from); }
    if Text.Less(a.to, b.to) && Text.Less(b.to, c.to) { Text.LessTransitive(a.to, b.to, c.to); }
  }

  ghost predicate StrictlySorted(s: seq<Edge>) { forall i, j | 0 <= i < j < |s| :: EdgeLess(s[i], s[j]) }

  method InsertEdge(s: seq<Edge>, e: Edge) returns (r: seq<Edge>)
    requires StrictlySorted(s) && e !in s
    ensures StrictlySorted(r) && forall x :: x in r <==> x == e || x in s
  {
    var k := 0;
    while k < |s| && EdgeLess(s[k], e)
      invariant 0 <= k <= |s|
      invariant forall i | 0 <= i < k :: EdgeLess(s[i], e)
    {
      k := k + 1;
    }
    if k < |s| {
      EdgeOrder(s[k], e, e);
      assert EdgeLess(e, s[k]);
      forall j | k < j < |s| ensures EdgeLess(e, s[j]) { EdgeOrder(e, s[k], s[j]); }
    }
    r := s[..k] + [e] + s[k..];
    assert s == s[..k] + s[k..];
  }

  /** The map's edges in order: the walk over the map is arbitrary, the result is not. */
  method SortedEdges(edges: set<Edge>) returns (sorted: seq<Edge>)
    ensures StrictlySorted(sorted) && forall e :: e in sorted <==> e in edges
  {
    sorted := [];
    var rest := edges;
    while rest != {}
      invariant rest <= edges && StrictlySorted(sorted)
      invariant forall e :: e in sorted <==> e in edges && e !in rest
      decreases |rest|
    {
      var e :| e in rest;
      sorted := InsertEdge(sorted, e);
      rest := rest - {e};
    }
  }

  /** A set of edges has one strictly sorted sequence. */
  lemma {:induction false} SortedIsUnique(a: seq<Edge>, b: seq<Edge>)
    requires StrictlySorted(a) && StrictlySorted(b) && forall e :: e in a <==> e in b
    ensures a == b
    decreases |a|
  {
    FirstIsIn(a);
    FirstIsIn(b);
    if a != [] && b != [] {
      HeadsAgree(a, b);
      forall e ensures e in a[1..] <==> e in b[1..] {
        assert e in a <==> e == a[0] || e in a[1..];
        assert e in b <==> e == b[0] || e in b[1..];
        EdgeOrder(a[0], a[0], a[0]);
      }
      SortedIsUnique(a[1..], b[1..]);
      assert a == [a[0]] + a[1..] && b == [b[0]] + b[1..];
    }
  }

  lemma FirstIsIn(s: seq<Edge>)
    ensures s == [] || s[0] in s
  {
  }

  lemma HeadsAgree(a: seq<Edge>, b: seq<Edge>)
    requires a != [] && b != [] && StrictlySorted(a) && StrictlySorted(b) && forall e :: e in a <==> e in b
    ensures a[0] == b[0]
  {
    assert a[0] in b && b[0] in a;
    EdgeOrder(a[0], b[0], a[0]);
  }

  // ------------------------------------------------------------------- nodes

  function Classify(actions: seq<string>): Action {
    if |actions| == 2 && ((actions[0] == "delete" && actions[1] == "create") || (actions[0] == "create" && actions[1] == "delete"))
    then Replace
    else if |actions| == 1 && actions[0] == "create" then Create
    else if |actions| == 1 && actions[0] == "update" then Update
    else if |actions| == 1 && actions[0] == "delete" then Delete
    else NoOp
  }

  /** What the actions of a change amount to. */
  lemma ActionsAre(actions: seq<string>)
    ensures Classify(actions) == Create <==> actions == ["create"]
    ensures Classify(actions) == Update <==> actions == ["update"]
    ensures Classify(actions) == Delete <==> actions == ["delete"]
    ensures Classify(actions) == Replace <==> actions == ["delete", "create"] || actions == ["create", "delete"]
  {
  }

  predicate Shown(c: Change) { c.address != "" && c.kind != "" }

  function NodeOf(c: Change): Node { Node(c.address, c.kind, c.provider, Classify(c.actions)) }

  function NodesOf(changes: seq<Change>): seq<Node> {
    if changes == [] then [] else
    NodesOf(changes[..|changes| - 1]) + (if Shown(changes[|changes| - 1]) then [NodeOf(changes[|changes| - 1])] else [])
  }

  /** The nodes are those of the changes with an address and a type, each with what its actions amount to. */
  lemma {:induction false} NodesAre(changes: seq<Change>, n: Node)
    ensures n in NodesOf(changes) <==>
      exists k | 0 <= k < |changes| ::
        && changes[k].address == n.address != "" && changes[k].kind == n.kind != "" && changes[k].provider == n.provider
        && n.action == Classify(changes[k].actions)
  {
    if changes != [] {
      var last := |changes| - 1;
      NodesAre(changes[..last], n);
      assert forall k | 0 <= k < last :: changes[..last][k] == changes[k];
    }
  }

  function CountOf(nodes: seq<Node>, a: Action): nat {
    if nodes == [] then 0 else CountOf(nodes[..|nodes| - 1], a) + (if nodes[|nodes| - 1].action == a then 1 else 0)
  }

  function SummaryOf(nodes: seq<Node>): Summary {
    Summary(CountOf(nodes, Create), CountOf(nodes, Update), CountOf(nodes, Delete), CountOf(nodes, Replace), CountOf(nodes, NoOp))
  }

  function Total(s: Summary): nat { s.create + s.update + s.delete + s.replace + s.noOp }

  lemma {:induction false} SummaryAddsUp(nodes: seq<Node>)
    ensures Total(SummaryOf(nodes)) == |nodes|
  {
    if nodes != [] { SummaryAddsUp(nodes[..|nodes| - 1]); }
  }

  function Counted(s: Summary, a: Action): Summary {
    match a
    case Create => s.(create := s.create + 1)
    case Update => s.(update := s.update + 1)
    case Delete => s.(delete := s.delete + 1)
    case Replace => s.(replace := s.replace + 1)
    case NoOp => s.(noOp := s.noOp + 1)
  }

  lemma SummaryPush(nodes: seq<Node>, node: Node)
    ensures SummaryOf(nodes + [node]) == Counted(SummaryOf(nodes), node.action)
  {
    assert (nodes + [node])[..|nodes|] == nodes;
  }

  lemma NodesPush(changes: seq<Change>, n: nat)
    requires n < |changes|
    ensures NodesOf(changes[..n + 1]) == NodesOf(changes[..n]) + if Shown(changes[n]) then [NodeOf(changes[n])] else []
  {
    assert changes[..n + 1][..n] == changes[..n];
  }

  method CollectNodes(changes: seq<Change>) returns (nodes: seq<Node>, summary: Summary)
    ensures nodes == NodesOf(changes) && summary == SummaryOf(nodes)
  {
    nodes, summary := [], Summary(0, 0, 0, 0, 0);
    for n := 0 to |changes|
      invariant nodes == NodesOf(changes[..n]) && summary == SummaryOf(nodes)
    {
      var c := changes[n];
      NodesPush(changes, n);
      if c.address == "" || c.kind == "" { continue; }
      var node := NodeOf(c);
      SummaryPush(nodes, node);
      nodes := nodes + [node];
      match node.action {
        case Create => summary := summary.(create := summary.create + 1);
        case Update => summary := summary.(update := summary.update + 1);
        case Delete => summary := summary.(delete := summary.delete + 1);
        case Replace => summary := summary.(replace := summary.replace + 1);
        case NoOp => summary := summary.(noOp := summary.noOp + 1);
      }
    }
    assert changes[..|changes|] == changes;
  }

  predicate Before(a: Node, b: Node) { a.address == b.address || Text.Less(a.address, b.address) }

  ghost predicate SortedByAddress(s: seq<Node>) { forall i, j | 0 <= i < j < |s| :: Before(s[i], s[j]) }

  method InsertNode(s: seq<Node>, x: Node) returns (r: seq<Node>)
    requires SortedByAddress(s)
    ensures SortedByAddress(r) && multiset(r) == multiset(s) + multiset{x}
  {
    var k := 0;
    while k < |s| && Text.Less(s[k].address, x.address)
      invariant 0 <= k <= |s|
      invariant forall i | 0 <= i < k :: Before(s[i], x)
    {
      k := k + 1;
    }
    RestIsAfter(s, x, k);
    MultisetInsert(s, x, k);
    r := s[..k] + [x] + s[k..];
  }

  lemma RestIsAfter(s: seq<Node>, x: Node, k: nat)
    requires SortedByAddress(s) && k <= |s| && (k < |s| ==> !Text.Less(s[k].address, x.address))
    ensures forall j | k <= j < |s| :: Before(x, s[j])
  {
    if k < |s| {
      Text.LessTotal(s[k].address, x.address);
      forall j | k <= j < |s| ensures Before(x, s[j]) {
        if k < j && x.address != s[k].address && s[k].address != s[j].address {
          Text.LessTransitive(x.address, s[k].address, s[j].address);
        }
      }
    }
  }

  lemma MultisetInsert(s: seq<Node>, x: Node, k: nat)
    requires k <= |s|
    ensures multiset(s[..k] + [x] + s[k..]) == multiset(s) + multiset{x}
  {
    assert s == s[..k] + s[k..];
  }

  /** The sort of the nodes; Go leaves the order of equal addresses open. */
  method SortNodes(nodes: seq<Node>) returns (sorted: seq<Node>)
    ensures SortedByAddress(sorted) && multiset(sorted) == multiset(nodes)
  {
    sorted := [];
    for n := 0 to |nodes|
      invariant SortedByAddress(sorted) && multiset(sorted) == multiset(nodes[..n])
    {
      assert nodes[..n + 1] == nodes[..n] + [nodes[n]];
      sorted := InsertNode(sorted, nodes[n]);
    }
    assert nodes[..|nodes|] == nodes;
  }

  // ------------------------------------------------------------------- parse

  function Major(version: string): string {
    if version == "" || version[0] == '.' then "" else [version[0]] + Major(version[1..])
  }

  /** Supported are no version at all, and those of major version 1. */
  lemma SupportedExactly(version: string)
    ensures Supported(version) <==> version == "" || version == "1" || (|version| > 1 && version[0] == '1' && version[1] == '.')
  {
    if version != "" && version[0] != '.' {
      assert Major(version) == [version[0]] + Major(version[1..]);
      if version[0] == '1' && Major(version[1..]) == "" { assert Major(version) == "1"; }
      if Major(version) == "1" { assert |Major(version)| == 1 && Major(version)[0] == '1'; }
      assert Major(version[1..]) == "" <==> |version| == 1 || version[1] == '.';
      assert |version| == 1 ==> version == [version[0]];
    }
  }

  predicate Supported(version: string) { version == "" || Major(version) == "1" }

  function Known(changes: seq<Change>): set<string> {
    set c | c in changes && Shown(c) :: c.address
  }

  lemma {:induction false} NodeAddresses(changes: seq<Change>, a: string)
    ensures a in Known(changes) <==> exists n | n in NodesOf(changes) :: n.address == a
  {
    if changes != [] {
      var k := |changes| - 1;
      NodeAddresses(changes[..k], a);
      assert changes == changes[..k] + [changes[k]];
      if Shown(changes[k]) { assert NodeOf(changes[k]) in NodesOf(changes); }
      forall n | n in NodesOf(changes[..k]) ensures n in NodesOf(changes) { }
    }
  }

  method AddressSet(nodes: seq<Node>) returns (known: set<string>)
    ensures forall a :: a in known <==> exists i | 0 <= i < |nodes| :: nodes[i].address == a
  {
    known := {};
    for n := 0 to |nodes|
      invariant forall a :: a in known <==> exists i | 0 <= i < n :: nodes[i].address == a
    {
      known := known + {nodes[n].address};
    }
  }

  /** The document: every shown change is a node, in address order; the edges are the map that
      collectEdges filled, strictly sorted. */
  method Parse(plan: RawPlan) returns (r: Result<Document>)
    ensures r.Ok? <==> Supported(plan.formatVersion)
    ensures r.Ok? ==> SortedByAddress(r.value.nodes) && multiset(r.value.nodes) == multiset(NodesOf(plan.changes))
    ensures r.Ok? ==> r.value.summary == SummaryOf(NodesOf(plan.changes)) && Total(r.value.summary) == |r.value.nodes|
    ensures r.Ok? ==> StrictlySorted(r.value.edges)
    ensures r.Ok? ==> forall e | e in r.value.edges :: RefersTo(plan.root, Known(plan.changes), e) && e.from != e.to
    ensures r.Ok? ==> ((forall e | RefersTo(plan.root, Known(plan.changes), e) :: e in r.value.edges)
                       <==> KeysTellApart(OfModule(plan.root, Known(plan.changes))))
    ensures r.Ok? && (forall a | a in Known(plan.changes) :: NulFree(a)) ==>
              forall e :: e in r.value.edges <==> RefersTo(plan.root, Known(plan.changes), e)
  {
    if plan.formatVersion != "" && Major(plan.formatVersion) != "1" { return Err; }
    var nodes, summary := CollectNodes(plan.changes);
    SummaryAddsUp(nodes);
    var sorted := SortNodes(nodes);
    assert |multiset(sorted)| == |sorted| && |multiset(nodes)| == |nodes|;
    var known := AddressSet(sorted);
    KnownIsRight(plan.changes, sorted, known);
    var edges := CollectEdges(plan.root, known, map[]);
    if forall a | a in known :: NulFree(a) { NoEdgeIsLost(plan.root, known, edges); }
    EdgesAreLostExactly(edges, OfModule(plan.root, known));
    var list := SortedEdges(edges.Values);
    forall e | e in list ensures RefersTo(plan.root, known, e) && e.from != e.to {
      EdgesAreReferences(plan.root, known, e);
      FromIsKnown(plan.root, known, e);
    }
    forall e ensures e in OfModule(plan.root, known) <==> RefersTo(plan.root, known, e) { EdgesAreReferences(plan.root, known, e); }
    return Ok(Document(sorted, list, summary));
  }

  lemma KnownIsRight(changes: seq<Change>, nodes: seq<Node>, known: set<string>)
    requires multiset(nodes) == multiset(NodesOf(changes))
    requires forall a :: a in known <==> exists i | 0 <= i < |nodes| :: nodes[i].address == a
    ensures known == Known(changes)
  {
    forall a ensures a in known <==> a in Known(changes) {
      NodeAddresses(changes, a);
      forall n ensures n in nodes <==> n in NodesOf(changes) {
        assert n in nodes <==> n in multiset(nodes);
        assert n in NodesOf(changes) <==> n in multiset(NodesOf(changes));
      }
    }
  }
}
