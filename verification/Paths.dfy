/** Slash-separated paths as the source's path.Join, path.Clean and strings.Split see them. */
module Paths {

  predicate SlashFree(s: string) { '/' !in s }

  function Join(parts: seq<string>): string {
    if parts == [] then "" else if |parts| == 1 then parts[0] else parts[0] + "/" + Join(parts[1..])
  }

  /** strings.Split(s, "/"): never empty. */
  function Split(s: string): (parts: seq<string>)
    ensures parts != []
  {
    if s == "" then [""]
    else if s[0] == '/' then [""] + Split(s[1..])
    else var rest := Split(s[1..]); [[s[0]] + rest[0]] + rest[1..]
  }

  lemma {:induction false} SplitSlashFree(s: string)
    requires SlashFree(s)
    ensures Split(s) == [s]
  {
    if s != "" {
      SplitSlashFree(s[1..]);
      assert [s[0]] + s[1..] == s;
    }
  }

  lemma {:induction false} SplitAfterSlash(a: string, rest: string)
    requires SlashFree(a)
    ensures Split(a + "/" + rest) == [a] + Split(rest)
  {
    var s := a + "/" + rest;
    if a == "" {
      assert s[1..] == rest;
    } else {
      assert s[0] == a[0] && s[1..] == a[1..] + "/" + rest;
      SplitAfterSlash(a[1..], rest);
      assert [a[0]] + a[1..] == a;
    }
  }

  /** Joining slash-free parts loses nothing. */
  lemma {:induction false} SplitJoin(parts: seq<string>)
    requires parts != [] && forall p | p in parts :: SlashFree(p)
    ensures Split(Join(parts)) == parts
  {
    if |parts| == 1 {
      SplitSlashFree(parts[0]);
    } else {
      SplitJoin(parts[1..]);
      SplitAfterSlash(parts[0], Join(parts[1..]));
    }
  }

  /** A part that holds a slash, split at one. */
  lemma SlashSplits(s: string) returns (a: string, b: string)
    requires !SlashFree(s)
    ensures s == a + "/" + b
  {
    var i :| 0 <= i < |s| && s[i] == '/';
    a, b := s[..i], s[i + 1..];
  }

  lemma HeadGrows(prefix: string, parts: seq<string>, rest: seq<string>)
    requires parts != []
    ensures [prefix + (parts + rest)[0]] + (parts + rest)[1..] == [prefix + parts[0]] + parts[1..] + rest
  {
  }

  lemma {:induction false} SplitAround(a: string, rest: string)
    ensures Split(a + "/" + rest) == Split(a) + Split(rest)
  {
    var s := a + "/" + rest;
    if a == "" {
      assert s[1..] == rest;
    } else {
      assert s[0] == a[0] && s[1..] == a[1..] + "/" + rest;
      SplitAround(a[1..], rest);
      if a[0] != '/' { HeadGrows([a[0]], Split(a[1..]), Split(rest)); }
    }
  }

  lemma {:induction false} SplitOne(s: string)
    ensures |Split(s)| == 1 <==> SlashFree(s)
  {
    if s != "" { SplitOne(s[1..]); }
  }

  /** Joined parts split into as many only if none of them holds a slash. */
  lemma {:induction false} ShortSplit(parts: seq<string>)
    requires parts != []
    ensures |Split(Join(parts))| >= |parts|
    ensures |Split(Join(parts))| == |parts| ==> forall p | p in parts :: SlashFree(p)
  {
    SplitOne(parts[0]);
    if |parts| > 1 {
      ShortSplit(parts[1..]);
      SplitAround(parts[0], Join(parts[1..]));
      assert forall p | p in parts :: p == parts[0] || p in parts[1..];
    }
  }

  /** Splitting loses nothing either. */
  lemma {:induction false} JoinSplit(s: string)
    ensures Join(Split(s)) == s
  {
    if s != "" {
      JoinSplit(s[1..]);
      var rest := Split(s[1..]);
      assert s == [s[0]] + s[1..];
      if s[0] == '/' {
        assert ([""] + rest)[1..] == rest;
      } else {
        JoinHead([s[0]], rest);
      }
    }
  }

  lemma JoinHead(prefix: string, rest: seq<string>)
    requires rest != []
    ensures Join([prefix + rest[0]] + rest[1..]) == prefix + Join(rest)
  {
    var parts := [prefix + rest[0]] + rest[1..];
    assert parts[1..] == rest[1..];
    if |rest| > 1 {
      assert prefix + rest[0] + "/" + Join(rest[1..]) == prefix + (rest[0] + "/" + Join(rest[1..]));
    }
  }

  /** path.Clean on a relative path, part by part: empty and "." parts go, ".." takes
      back the part before it unless there is none to take back. */
  function CleanOnto(done: seq<string>, parts: seq<string>): seq<string>
    decreases |parts|
  {
    if parts == [] then done
    else if parts[0] == "" || parts[0] == "." then CleanOnto(done, parts[1..])
    else if parts[0] == ".." && done != [] && done[|done| - 1] != ".." then CleanOnto(done[..|done| - 1], parts[1..])
    else CleanOnto(done + [parts[0]], parts[1..])
  }

  function CleanParts(parts: seq<string>): seq<string> {
    var clean := CleanOnto([], parts);
    if clean == [] then ["."] else clean
  }

  function Clean(relative: string): string { Join(CleanParts(Split(relative))) }

  predicate PlainPart(p: string) { p != "" && p != "." && p != ".." && SlashFree(p) }

  predicate PlainPath(parts: seq<string>) { parts != [] && forall p | p in parts :: PlainPart(p) }

  /** Cleaning leaves a path of ordinary parts as it is. */
  lemma {:induction false} CleanPlain(done: seq<string>, parts: seq<string>)
    requires forall p | p in parts :: PlainPart(p)
    ensures CleanOnto(done, parts) == done + parts
    decreases |parts|
  {
    if parts != [] {
      assert PlainPart(parts[0]);
      CleanPlain(done + [parts[0]], parts[1..]);
      assert done + [parts[0]] + parts[1..] == done + parts;
    } else {
      assert done + parts == done;
    }
  }

  lemma PlainPathsAreClean(parts: seq<string>)
    requires PlainPath(parts)
    ensures CleanParts(parts) == parts && Clean(Join(parts)) == Join(parts)
  {
    CleanPlain([], parts);
    assert [] + parts == parts;
    SplitJoin(parts);
  }

  /** No part is empty or ".", and ".." stands only before all other parts. */
  predicate Normal(parts: seq<string>) {
    forall i | 0 <= i < |parts| :: parts[i] != "" && parts[i] != "." && (parts[i] == ".." && i > 0 ==> parts[i - 1] == "..")
  }

  lemma NormalNext(done: seq<string>, p: string)
    requires Normal(done) && p != "" && p != "." && (p == ".." && done != [] ==> done[|done| - 1] == "..")
    ensures Normal(done + [p])
  {
  }

  lemma {:induction false} CleanIsNormal(done: seq<string>, parts: seq<string>)
    requires Normal(done) && forall p | p in done + parts :: SlashFree(p)
    ensures Normal(CleanOnto(done, parts)) && forall p | p in CleanOnto(done, parts) :: SlashFree(p)
    decreases |parts|
  {
    if parts != [] {
      var p, rest := parts[0], parts[1..];
      assert parts == [p] + rest;
      if p == "" || p == "." {
        CleanIsNormal(done, rest);
      } else if p == ".." && done != [] && done[|done| - 1] != ".." {
        CleanIsNormal(done[..|done| - 1], rest);
      } else {
        NormalNext(done, p);
        CleanIsNormal(done + [p], rest);
      }
    } else {
      assert done + parts == done;
    }
  }

  lemma {:induction false} NormalIsClean(done: seq<string>, parts: seq<string>)
    requires Normal(done + parts)
    ensures CleanOnto(done, parts) == done + parts
    decreases |parts|
  {
    if parts != [] {
      var n := |done|;
      assert (done + parts)[n] == parts[0] && (n > 0 ==> (done + parts)[n - 1] == done[n - 1]);
      assert done + [parts[0]] + parts[1..] == done + parts;
      NormalIsClean(done + [parts[0]], parts[1..]);
    } else {
      assert done + parts == done;
    }
  }

  lemma {:induction false} PartsAreSlashFree(s: string)
    ensures forall p | p in Split(s) :: SlashFree(p)
  {
    if s != "" {
      PartsAreSlashFree(s[1..]);
      var rest := Split(s[1..]);
      if s[0] != '/' { assert rest[0] in rest && SlashFree([s[0]] + rest[0]); }
    }
  }

  /** Cleaning leaves a path as it is exactly when it is "." or all its parts are in order. */
  lemma CleanExactly(s: string)
    ensures Clean(s) == s <==> s == "." || Normal(Split(s))
  {
    var parts := Split(s);
    JoinSplit(s);
    if Normal(parts) {
      NormalIsClean([], parts);
      assert [] + parts == parts;
    }
    SplitSlashFree(".");
    PartsAreSlashFree(s);
    assert [] + parts == parts;
    CleanIsNormal([], parts);
    SplitJoin(CleanParts(parts));
  }
}
