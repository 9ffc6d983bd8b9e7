/** Source bundles: BuildSourceBundle and RestoreSourceBundle of
    internal/terraform/sourcebundle.go. A bundle is its sequence of entries; a file tree maps
    the components of each path to what lies there, directories being implied. */
module SourceBundle {
  import Paths
  import Text

  type Path = seq<string>

  datatype Leaf = File(content: string) | Link | Special

  datatype Entry = Entry(path: string, content: string)

  datatype Result<+T> = Ok(value: T) | Err

  /** No file lies where another path needs a directory. */
  ghost predicate PrefixFree<T>(files: map<Path, T>) { forall p, q | p in files && q in files && p < q :: false }

  ghost predicate IsTree(tree: map<Path, Leaf>) {
    (forall p | p in tree :: Paths.PlainPath(p)) && PrefixFree(tree)
  }

  // ------------------------------------------------------------------- rules

  function Lower(s: string): string {
    if s == "" then "" else [if 'A' <= s[0] <= 'Z' then s[0] - 'A' + 'a' else s[0]] + Lower(s[1..])
  }

  predicate HasSuffix(s: string, suffix: string) { |suffix| <= |s| && s[|s| - |suffix|..] == suffix }

  predicate BaseAllowed(base: string) {
    && !HasSuffix(base, ".tfstate") && !HasSuffix(base, ".tfstate.backup")
    && !HasSuffix(base, "_override.tf") && !HasSuffix(base, "_override.tf.json")
    && !HasSuffix(base, ".binary") && !HasSuffix(base, ".tfplan")
    && base != "backend.hcl" && base != "backend-config.json" && base != "credentials" && base != "credentials.json"
    && !HasSuffix(base, ".tfvars") && !HasSuffix(base, ".tfvars.json")
  }

  /** bundlePathAllowed on the components of a clean path. */
  predicate PartsAllowed(parts: Path)
    requires parts != []
  {
    (forall p | p in parts :: p != ".terraform" && p != ".git") && BaseAllowed(Lower(parts[|parts| - 1]))
  }

  /** bundlePathAllowed; ".." alone is not refused here. */
  predicate BundlePathAllowed(relative: string) {
    var parts := Paths.CleanParts(Paths.Split(relative));
    && (relative == "" || relative[0] != '/') && parts != [] && parts != ["."]
    && !(parts[0] == ".." && |parts| > 1)
    && PartsAllowed(parts)
  }

  predicate ImplicitVars(base: string) {
    base == "terraform.tfvars" || HasSuffix(base, ".auto.tfvars") || HasSuffix(base, ".auto.tfvars.json")
  }

  // --------------------------------------------------- the rules, name by name

  /** `lower` is the first character in lower case. */
  predicate SameLetter(c: char, lower: char) { if 'A' <= c <= 'Z' then c as int + 32 == lower as int else c == lower }

  predicate EndsWith(name: string, suffix: string) {
    |suffix| <= |name| && forall i | 0 <= i < |suffix| :: SameLetter(name[|name| - |suffix| + i], suffix[i])
  }

  /** State, plans, overrides and variables of Terraform, backends and credentials, in any case. */
  predicate IsPrivate(name: string) {
    || EndsWith(name, ".tfstate") || EndsWith(name, ".tfstate.backup") || EndsWith(name, ".tfplan") || EndsWith(name, ".binary")
    || EndsWith(name, "_override.tf") || EndsWith(name, "_override.tf.json")
    || EndsWith(name, ".tfvars") || EndsWith(name, ".tfvars.json")
    || (|name| == 11 && EndsWith(name, "backend.hcl")) || (|name| == 19 && EndsWith(name, "backend-config.json"))
    || (|name| == 11 && EndsWith(name, "credentials")) || (|name| == 16 && EndsWith(name, "credentials.json"))
  }

  /** Variables that Terraform takes without being told. */
  predicate IsTaken(name: string) {
    || (|name| == 16 && EndsWith(name, "terraform.tfvars"))
    || EndsWith(name, ".auto.tfvars") || EndsWith(name, ".auto.tfvars.json")
  }

  lemma {:induction false} LowerIs(s: string)
    ensures |Lower(s)| == |s| && forall i | 0 <= i < |s| :: SameLetter(s[i], Lower(s)[i])
  {
    if s != "" { LowerIs(s[1..]); }
  }

  lemma SameLetterIsOne(c: char, a: char, b: char)
    requires SameLetter(c, a)
    ensures SameLetter(c, b) <==> a == b
  {
  }

  lemma SuffixExactly(name: string, suffix: string)
    ensures HasSuffix(Lower(name), suffix) <==> EndsWith(name, suffix)
  {
    LowerIs(name);
    SuffixOf(name, Lower(name), suffix);
  }

  lemma SuffixOf(name: string, low: string, suffix: string)
    requires |low| == |name| && forall i | 0 <= i < |name| :: SameLetter(name[i], low[i])
    ensures HasSuffix(low, suffix) <==> EndsWith(name, suffix)
  {
    var m := |name| - |suffix|;
    if m >= 0 {
      forall i | 0 <= i < |suffix| ensures low[m..][i] == suffix[i] <==> SameLetter(name[m + i], suffix[i]) {
        SameLetterIsOne(name[m + i], low[m + i], suffix[i]);
      }
    }
  }

  lemma NameExactly(name: string, other: string)
    ensures Lower(name) == other <==> |name| == |other| && EndsWith(name, other)
  {
    LowerIs(name);
    SuffixExactly(name, other);
    assert Lower(name)[0..] == Lower(name);
  }

  lemma PrivateExactly(name: string)
    ensures BaseAllowed(Lower(name)) <==> !IsPrivate(name)
  {
    EndingsExactly(name);
    NameExactly(name, "backend.hcl");
    NameExactly(name, "backend-config.json");
    NameExactly(name, "credentials");
    NameExactly(name, "credentials.json");
  }

  lemma EndingsExactly(name: string)
    ensures HasSuffix(Lower(name), ".tfstate") <==> EndsWith(name, ".tfstate")
    ensures HasSuffix(Lower(name), ".tfstate.backup") <==> EndsWith(name, ".tfstate.backup")
    ensures HasSuffix(Lower(name), ".tfplan") <==> EndsWith(name, ".tfplan")
    ensures HasSuffix(Lower(name), ".binary") <==> EndsWith(name, ".binary")
    ensures HasSuffix(Lower(name), "_override.tf") <==> EndsWith(name, "_override.tf")
    ensures HasSuffix(Lower(name), "_override.tf.json") <==> EndsWith(name, "_override.tf.json")
    ensures HasSuffix(Lower(name), ".tfvars") <==> EndsWith(name, ".tfvars")
    ensures HasSuffix(Lower(name), ".tfvars.json") <==> EndsWith(name, ".tfvars.json")
  {
    SuffixExactly(name, ".tfstate");
    SuffixExactly(name, ".tfstate.backup");
    SuffixExactly(name, ".tfplan");
    SuffixExactly(name, ".binary");
    SuffixExactly(name, "_override.tf");
    SuffixExactly(name, "_override.tf.json");
    SuffixExactly(name, ".tfvars");
    SuffixExactly(name, ".tfvars.json");
  }

  lemma TakenExactly(name: string)
    ensures ImplicitVars(Lower(name)) <==> IsTaken(name)
  {
    NameExactly(name, "terraform.tfvars");
    SuffixExactly(name, ".auto.tfvars");
    SuffixExactly(name, ".auto.tfvars.json");
  }

  /** No part of the path is a Terraform or git directory, and its last part is not private. */
  predicate IsOpen(p: Path) {
    p != [] && ".terraform" !in p && ".git" !in p && !IsPrivate(p[|p| - 1])
  }

  /** What the walk refuses, and what it bundles: below open directories only, links, special files and
      variables that Terraform would take by itself are refused, and open files bundled. */
  lemma WalkedExactly(p: Path, leaf: Leaf)
    requires p != []
    ensures Refused(p, leaf) <==> (forall k | 0 < k < |p| :: IsOpen(p[..k])) && (leaf.Link? || leaf.Special? || IsTaken(p[|p| - 1]))
    ensures Bundled(p, leaf) <==> (forall k | 0 < k <= |p| :: IsOpen(p[..k])) && leaf.File?
  {
    forall k | 0 < k <= |p| ensures PartsAllowed(p[..k]) <==> IsOpen(p[..k]) { OpenExactly(p[..k]); }
    assert p[..|p|] == p;
    TakenExactly(p[|p| - 1]);
  }

  lemma OpenExactly(p: Path)
    requires p != []
    ensures PartsAllowed(p) <==> IsOpen(p)
  {
    PrivateExactly(p[|p| - 1]);
  }

  lemma PlainAllowed(p: Path)
    requires Paths.PlainPath(p)
    ensures BundlePathAllowed(Paths.Join(p)) <==> PartsAllowed(p)
    ensures Paths.CleanParts(Paths.Split(Paths.Join(p))) == p
  {
    Paths.PlainPathsAreClean(p);
    Paths.SplitJoin(p);
    assert Paths.PlainPart(p[0]);
    assert Paths.Join(p)[0] == p[0][0];
  }

  // ------------------------------------------------------------------- build

  /** The walk gets to a path unless some directory above it is skipped. */
  predicate Visited(p: Path) { forall k | 0 < k < |p| :: PartsAllowed(p[..k]) }

  predicate Refused(p: Path, leaf: Leaf)
    requires p != []
  {
    Visited(p) && (!leaf.File? || ImplicitVars(Lower(p[|p| - 1])))
  }

  predicate Bundled(p: Path, leaf: Leaf)
    requires p != []
  {
    Visited(p) && leaf.File? && PartsAllowed(p)
  }

  predicate StrictlySorted(b: seq<Entry>) { forall i, j | 0 <= i < j < |b| :: Text.Less(b[i].path, b[j].path) }

  function FilesOf(tree: map<Path, Leaf>): map<Path, string>
    requires forall p | p in tree :: p != []
  {
    map p | p in tree && Bundled(p, tree[p]) :: tree[p].content
  }

  function PathOf(e: Entry): Path { Paths.Split(e.path) }

  /** The entry is that of a file. */
  predicate IsEntryOf(files: map<Path, string>, e: Entry) { PathOf(e) in files && files[PathOf(e)] == e.content }

  predicate HasEntry(files: map<Path, string>, b: seq<Entry>, p: Path) {
    p in files ==> Entry(Paths.Join(p), files[p]) in b
  }

  /** The bundle of some files: one entry each, in the order of their paths. */
  ghost predicate IsBundleOf(files: map<Path, string>, b: seq<Entry>) {
    StrictlySorted(b) && (forall p :: HasEntry(files, b, p)) && (forall e | e in b :: IsEntryOf(files, e))
  }

  method Position(b: seq<Entry>, e: Entry) returns (k: nat)
    requires StrictlySorted(b) && forall x | x in b :: x.path != e.path
    ensures k <= |b|
    ensures forall i | 0 <= i < k :: Text.Less(b[i].path, e.path)
    ensures forall i | k <= i < |b| :: Text.Less(e.path, b[i].path)
  {
    k := 0;
    while k < |b| && Text.Less(b[k].path, e.path)
      invariant 0 <= k <= |b|
      invariant forall i | 0 <= i < k :: Text.Less(b[i].path, e.path)
    {
      k := k + 1;
    }
    if k < |b| {
      assert b[k] in b;
      Text.LessTotal(b[k].path, e.path);
      forall j | k < j < |b| ensures Text.Less(e.path, b[j].path) { Text.LessTransitive(e.path, b[k].path, b[j].path); }
    }
  }

  method InsertEntry(b: seq<Entry>, e: Entry) returns (r: seq<Entry>)
    requires StrictlySorted(b) && forall x | x in b :: x.path != e.path
    ensures StrictlySorted(r) && forall x :: x in r <==> x == e || x in b
  {
    var k := Position(b, e);
    r := b[..k] + [e] + b[k..];
    assert b == b[..k] + b[k..];
  }

  predicate WalkedAt(tree: map<Path, Leaf>, rest: set<Path>, entries: seq<Entry>, p: Path)
    requires forall q | q in tree :: q != []
  {
    p in tree && p !in rest ==>
      !Refused(p, tree[p]) && (Bundled(p, tree[p]) ==> Entry(Paths.Join(p), tree[p].content) in entries)
  }

  predicate FromWalk(tree: map<Path, Leaf>, rest: set<Path>, e: Entry)
    requires forall q | q in tree :: q != []
  {
    var p := PathOf(e);
    p in tree && p !in rest && Bundled(p, tree[p]) && e.content == tree[p].content
  }

  /** The walk visits the leaves in some order and stops at the first it refuses. */
  method BuildSourceBundle(tree: map<Path, Leaf>) returns (r: Result<seq<Entry>>)
    requires IsTree(tree)
    ensures r.Err? <==> exists p | p in tree :: Refused(p, tree[p])
    ensures r.Ok? ==> IsBundleOf(FilesOf(tree), r.value)
  {
    var entries: seq<Entry> := [];
    var rest := tree.Keys;
    while rest != {}
      invariant rest <= tree.Keys && StrictlySorted(entries)
      invariant forall p :: WalkedAt(tree, rest, entries, p)
      invariant forall e | e in entries :: FromWalk(tree, rest, e)
      decreases |rest|
    {
      var path :| path in rest;
      ghost var more, before := rest, entries;
      rest := rest - {path};
      if Visited(path) {
        if !tree[path].File? { return Err; }
        if ImplicitVars(Lower(path[|path| - 1])) { return Err; }
        if PartsAllowed(path) { entries := AddEntry(tree, rest, path, entries); }
      }
      forall p ensures WalkedAt(tree, rest, entries, p) { assert WalkedAt(tree, more, before, p); }
    }
    forall p ensures HasEntry(FilesOf(tree), entries, p) { assert WalkedAt(tree, rest, entries, p); }
    forall p | p in tree ensures !Refused(p, tree[p]) { assert WalkedAt(tree, rest, entries, p); }
    return Ok(entries);
  }

  method AddEntry(tree: map<Path, Leaf>, ghost rest: set<Path>, path: Path, entries: seq<Entry>) returns (r: seq<Entry>)
    requires IsTree(tree) && path in tree && path !in rest && Bundled(path, tree[path]) && StrictlySorted(entries)
    requires forall e | e in entries :: FromWalk(tree, rest + {path}, e)
    ensures StrictlySorted(r) && Entry(Paths.Join(path), tree[path].content) in r
    ensures forall e | e in entries :: e in r
    ensures forall e | e in r :: FromWalk(tree, rest, e)
  {
    var e := Entry(Paths.Join(path), tree[path].content);
    Paths.SplitJoin(path);
    forall x | x in entries ensures x.path != e.path { assert PathOf(x) != path; }
    r := InsertEntry(entries, e);
  }

  /** A set of files has one bundle only. */
  lemma BundleIsUnique(files: map<Path, string>, a: seq<Entry>, b: seq<Entry>)
    requires IsBundleOf(files, a) && IsBundleOf(files, b)
    ensures a == b
  {
    forall e ensures e in a <==> e in b {
      Paths.JoinSplit(e.path);
      assert HasEntry(files, a, PathOf(e)) && HasEntry(files, b, PathOf(e));
    }
    SortedIsUnique(a, b);
  }

  lemma {:induction false} SortedIsUnique(a: seq<Entry>, b: seq<Entry>)
    requires StrictlySorted(a) && StrictlySorted(b) && forall e :: e in a <==> e in b
    ensures a == b
    decreases |a|
  {
    FirstIsIn(a);
    FirstIsIn(b);
    if a != [] && b != [] {
      HeadsAgree(a, b);
      forall e ensures e in a[1..] <==> e in b[1..] {
        assert e in a <==> e == a[0] || e in a[1..];
        assert e in b <==> e == b[0] || e in b[1..];
        Text.LessIrreflexive(a[0].path);
      }
      SortedIsUnique(a[1..], b[1..]);
      assert a == [a[0]] + a[1..] && b == [b[0]] + b[1..];
    }
  }

  lemma FirstIsIn(s: seq<Entry>)
    ensures s == [] || s[0] in s
  {
  }

  lemma HeadsAgree(a: seq<Entry>, b: seq<Entry>)
    requires a != [] && b != [] && StrictlySorted(a) && StrictlySorted(b) && forall e :: e in a <==> e in b
    ensures a[0] == b[0]
  {
    assert a[0] in b && b[0] in a;
    if a[0] != b[0] && Text.Less(a[0].path, b[0].path) { Text.LessAsymmetric(a[0].path, b[0].path); }
  }

  // ----------------------------------------------------------------- restore

  /** A path cannot be written over a directory or below a file. */
  predicate Blocked(files: map<Path, string>, p: Path) { exists q | q in files :: q < p || p < q }

  function RestoreEntry(files: map<Path, string>, e: Entry): Result<map<Path, string>> {
    if !BundlePathAllowed(e.path) then Err
    else
      var parts := Paths.CleanParts(Paths.Split(e.path));
      if parts[0] == ".." || Blocked(files, parts) then Err else Ok(files[parts := e.content])
  }

  /** Of the paths that lead out of the destination, in whatever spelling, bundlePathAllowed lets
      through exactly those that clean to ".." alone; each of these is refused while restoring. */
  lemma OnlyDotDotSlipsThrough(files: map<Path, string>, e: Entry)
    requires e.path != "" && e.path[0] != '/' && Paths.CleanParts(Paths.Split(e.path))[0] == ".."
    ensures BundlePathAllowed(e.path) <==> Paths.CleanParts(Paths.Split(e.path)) == [".."]
    ensures RestoreEntry(files, e).Err?
  {
    LowerDots();
  }

  lemma LowerDots()
    ensures Lower("..") == ".." && BaseAllowed("..")
  {
    assert ".."[1..] == ".";
  }

  lemma DotDotIsAllowed()
    ensures BundlePathAllowed("..") && BundlePathAllowed("x/../..")
  {
    LowerDots();
    Paths.SplitSlashFree("..");
    SpeltOut();
  }

  lemma SpeltOut()
    ensures Paths.CleanParts(Paths.Split("x/../..")) == [".."]
  {
    var parts := ["x", "..", ".."];
    Paths.SplitJoin(parts);
    assert Paths.Join(parts) == "x/../..";
    assert Paths.CleanOnto(["x"], parts[1..]) == Paths.CleanOnto([], parts[2..]);
  }

  function RestoreOnto(files: map<Path, string>, b: seq<Entry>): Result<map<Path, string>> {
    if b == [] then Ok(files) else
    var before := RestoreOnto(files, b[..|b| - 1]);
    if before.Err? then Err else RestoreEntry(before.value, b[|b| - 1])
  }

  /** Into an empty destination, entry by entry. */
  method RestoreSourceBundle(b: seq<Entry>) returns (r: Result<map<Path, string>>)
    ensures r == RestoreOnto(map[], b)
  {
    var files: map<Path, string> := map[];
    for n := 0 to |b|
      invariant RestoreOnto(map[], b[..n]) == Ok(files)
    {
      assert b[..n + 1][..n] == b[..n];
      var next := RestoreEntry(files, b[n]);
      if next.Err? {
        RestoreStops(map[], b, n + 1);
        return Err;
      }
      files := next.value;
    }
    assert b[..|b|] == b;
    return Ok(files);
  }

  lemma {:induction false} RestoreStops(files: map<Path, string>, b: seq<Entry>, n: nat)
    requires n <= |b| && RestoreOnto(files, b[..n]).Err?
    ensures RestoreOnto(files, b).Err?
    decreases |b|
  {
    if n < |b| {
      assert b[..|b| - 1][..n] == b[..n];
      RestoreStops(files, b[..|b| - 1], n);
    } else {
      assert b[..n] == b;
    }
  }

  // --------------------------------------------------------------- round trip

  predicate Restorable(p: Path) { Paths.PlainPath(p) && PartsAllowed(p) }

  /** What the entries restored so far amount to. */
  predicate RestoredAt(restored: map<Path, string>, files: map<Path, string>, b: seq<Entry>, p: Path) {
    && (p in restored ==> p in files && restored[p] == files[p])
    && (p in files && Entry(Paths.Join(p), files[p]) in b ==> p in restored)
  }

  ghost predicate Subtree(files: map<Path, string>) { (forall p | p in files :: Restorable(p)) && PrefixFree(files) }

  lemma RestoreOne(files: map<Path, string>, before: map<Path, string>, e: Entry)
    requires Subtree(files) && IsEntryOf(files, e) && forall p | p in before :: p in files
    ensures RestoreEntry(before, e) == Ok(before[PathOf(e) := e.content])
  {
    var p := PathOf(e);
    Paths.JoinSplit(e.path);
    PlainAllowed(p);
    assert Paths.PlainPart(p[0]);
    forall q | q in before ensures !(q < p || p < q) { assert q in files; }
  }

  ghost predicate RestoredSoFar(restored: map<Path, string>, files: map<Path, string>, b: seq<Entry>) {
    forall p :: RestoredAt(restored, files, b, p)
  }

  lemma RestoreStep(files: map<Path, string>, before: map<Path, string>, b: seq<Entry>)
    requires b != [] && Subtree(files) && forall e | e in b :: IsEntryOf(files, e)
    requires RestoredSoFar(before, files, b[..|b| - 1])
    ensures RestoreEntry(before, b[|b| - 1]).Ok? && RestoredSoFar(RestoreEntry(before, b[|b| - 1]).value, files, b)
  {
    var rest, e := b[..|b| - 1], b[|b| - 1];
    forall p | p in before ensures p in files { assert RestoredAt(before, files, rest, p); }
    assert e in b && b == rest + [e];
    RestoreOne(files, before, e);
    var after := before[PathOf(e) := e.content];
    forall p ensures RestoredAt(after, files, b, p) {
      assert RestoredAt(before, files, rest, p);
      RestoredNext(files, before, b, p);
    }
  }

  lemma {:induction false} RestorePrefix(files: map<Path, string>, b: seq<Entry>)
    requires Subtree(files) && forall e | e in b :: IsEntryOf(files, e)
    ensures RestoreOnto(map[], b).Ok? && RestoredSoFar(RestoreOnto(map[], b).value, files, b)
  {
    if b != [] {
      var rest := b[..|b| - 1];
      RestorePrefix(files, rest);
      var before := RestoreOnto(map[], rest).value;
      RestoreStep(files, before, b);
    } else {
      forall p ensures RestoredAt(map[], files, b, p) { }
    }
  }

  lemma RestoredNext(files: map<Path, string>, before: map<Path, string>, b: seq<Entry>, p: Path)
    requires b != [] && Subtree(files) && IsEntryOf(files, b[|b| - 1]) && RestoredAt(before, files, b[..|b| - 1], p)
    ensures RestoredAt(before[PathOf(b[|b| - 1]) := b[|b| - 1].content], files, b, p)
  {
    assert b == b[..|b| - 1] + [b[|b| - 1]];
    if p in files { Paths.SplitJoin(p); }
  }

  lemma FilesAreSubtree(tree: map<Path, Leaf>)
    requires IsTree(tree)
    ensures Subtree(FilesOf(tree))
  {
  }

  lemma RestoreGivesBack(files: map<Path, string>, b: seq<Entry>)
    requires Subtree(files) && IsBundleOf(files, b)
    ensures RestoreOnto(map[], b) == Ok(files)
  {
    RestorePrefix(files, b);
    var restored := RestoreOnto(map[], b).value;
    forall p ensures p in restored <==> p in files {
      assert RestoredAt(restored, files, b, p) && HasEntry(files, b, p);
    }
    forall p | p in restored ensures restored[p] == files[p] { assert RestoredAt(restored, files, b, p); }
    assert restored == files;
  }

  /** Restore accepts every bundle Build makes, and gives back exactly the bundled files. */
  lemma RestoreAcceptsBuild(tree: map<Path, Leaf>, b: seq<Entry>)
    requires IsTree(tree) && IsBundleOf(FilesOf(tree), b)
    ensures RestoreOnto(map[], b) == Ok(FilesOf(tree))
  {
    FilesAreSubtree(tree);
    RestoreGivesBack(FilesOf(tree), b);
  }

  function AsTree(files: map<Path, string>): map<Path, Leaf> { map p | p in files :: File(files[p]) }

  lemma RestoredTree(tree: map<Path, Leaf>)
    requires IsTree(tree) && forall p | p in tree :: !Refused(p, tree[p])
    ensures var restored := AsTree(FilesOf(tree));
      IsTree(restored) && FilesOf(restored) == FilesOf(tree) && forall p | p in restored :: !Refused(p, restored[p])
  {
    var files, restored := FilesOf(tree), AsTree(FilesOf(tree));
    forall p | p in restored ensures !Refused(p, restored[p]) && Bundled(p, restored[p]) {
      assert !Refused(p, tree[p]) && Bundled(p, tree[p]);
    }
    assert FilesOf(restored) == files;
  }

  /** Building again from the restored tree succeeds and gives the same bundle. */
  lemma RebuildGivesTheSame(tree: map<Path, Leaf>, b: seq<Entry>, again: seq<Entry>)
    requires IsTree(tree) && (forall p | p in tree :: !Refused(p, tree[p])) && IsBundleOf(FilesOf(tree), b)
    ensures RestoreOnto(map[], b).Ok?
    ensures var restored := AsTree(RestoreOnto(map[], b).value);
      && IsTree(restored) && (forall p | p in restored :: !Refused(p, restored[p]))
      && (IsBundleOf(FilesOf(restored), again) ==> again == b)
  {
    RestoreAcceptsBuild(tree, b);
    RestoredTree(tree);
    if IsBundleOf(FilesOf(tree), again) { BundleIsUnique(FilesOf(tree), b, again); }
  }

  /** Whatever entries a bundle holds, every file restored lies below the destination. */
  lemma {:induction false} RestoreStaysInside(b: seq<Entry>)
    ensures RestoreOnto(map[], b).Ok? ==> forall p | p in RestoreOnto(map[], b).value :: p != [] && p[0] != ".." && IsOpen(p)
    ensures RestoreOnto(map[], b).Ok? ==> PrefixFree(RestoreOnto(map[], b).value)
  {
    if b != [] {
      RestoreStaysInside(b[..|b| - 1]);
      OpenExactly(Paths.CleanParts(Paths.Split(b[|b| - 1].path)));
    }
  }
}
