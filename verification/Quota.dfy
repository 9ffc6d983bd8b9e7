/** Tenant quota: validateTenantPolicy and environmentAlreadyAdmitted of
    internal/controller/platformenvironment_controller.go, over the environments of one
    namespace that share one maximum. */
module Quota {
  import opened Api
  import Sets
  import Text

  datatype EnvReason = QuotaRejected | ClassRejected | ClassNotFound | InvalidSpec | OtherReason

  datatype Status = Status(alive: bool, reason: Option<EnvReason>, stackRef: bool)

  /** An environment as some read shows it. */
  datatype Candidate = Candidate(name: string, created: nat, status: Status)

  predicate AlreadyAdmitted(st: Status) {
    || st.stackRef
    || (st.reason.Some? && !st.reason.value.QuotaRejected? && !st.reason.value.ClassRejected? && !st.reason.value.ClassNotFound?)
  }

  predicate Precedes(aCreated: nat, aName: string, bCreated: nat, bName: string) {
    aCreated < bCreated || (aCreated == bCreated && Text.Less(aName, bName))
  }

  predicate Rival(c: Candidate, env: Candidate) { c.name != env.name && c.status.alive }

  predicate CountsAdmitted(c: Candidate, env: Candidate) { Rival(c, env) && AlreadyAdmitted(c.status) }

  predicate CountsPending(c: Candidate, env: Candidate) {
    Rival(c, env) && !AlreadyAdmitted(c.status) && Precedes(c.created, c.name, env.created, env.name)
  }

  function AdmittedCount(list: seq<Candidate>, env: Candidate): nat {
    if list == [] then 0
    else AdmittedCount(list[..|list| - 1], env) + (if CountsAdmitted(list[|list| - 1], env) then 1 else 0)
  }

  function PendingCount(list: seq<Candidate>, env: Candidate): nat {
    if list == [] then 0
    else PendingCount(list[..|list| - 1], env) + (if CountsPending(list[|list| - 1], env) then 1 else 0)
  }

  // ------------------------------------------------------------- the maximum

  /** The max-platform-environments annotation, as strconv.Atoi leaves it. */
  datatype Annotation = Absent | NotANumber | Number(value: int)

  const TwoTo31: int := 0x8000_0000
  const TwoTo32: int := 0x1_0000_0000

  /** Conversion to a 32-bit signed integer. */
  function ToInt32(n: int): int { var m := n % TwoTo32; if m >= TwoTo31 then m - TwoTo32 else m }

  /** The maximum that applies, if the annotation is acceptable; none at all if it is not positive. */
  function EffectiveMax(classMax: int, a: Annotation): Option<int> {
    match a
    case Absent => Some(classMax)
    case NotANumber => None
    case Number(n) => if n < 1 then None else Some(ToInt32(n))
  }

  /** A limit is enforced as written exactly when it fits 32 bits; larger ones become another
      limit, or none. */
  lemma LimitMeansWhatItSays(classMax: int, n: int)
    requires n >= 1
    ensures EffectiveMax(classMax, Number(n)) == Some(n) <==> n < TwoTo31
  {
  }

  lemma TwoTo31MeansNoLimit(classMax: int)
    ensures EffectiveMax(classMax, Number(TwoTo31)) == Some(-TwoTo31)
  {
    assert TwoTo31 % TwoTo32 == TwoTo31;
  }

  // --------------------------------------------------------------- the check

  datatype Verdict = Admit | Reject

  predicate Admits(max: int, env: Candidate, list: seq<Candidate>) {
    max <= 0 || AlreadyAdmitted(env.status) || AdmittedCount(list, env) + PendingCount(list, env) < max
  }

  /** What counts as admitted: a stack of its own, or a condition that is none of the three rejections. */
  predicate Holds(st: Status) {
    st.stackRef || st.reason in {Some(InvalidSpec), Some(OtherReason)}
  }

  lemma HoldsExactly(st: Status)
    ensures AlreadyAdmitted(st) <==> Holds(st)
  {
  }

  /** Where another living environment that holds its place, or was there earlier, stands in the list. */
  predicate Ranks(c: Candidate, env: Candidate) {
    && c.name != env.name && c.status.alive
    && (Holds(c.status) || c.created < env.created || (c.created == env.created && Text.Less(c.name, env.name)))
  }

  function Rank(list: seq<Candidate>, env: Candidate): set<int> { set k | 0 <= k < |list| && Ranks(list[k], env) }

  /** The two counts together are the environment's rank. */
  lemma {:induction false} RankIsCounted(list: seq<Candidate>, env: Candidate)
    ensures AdmittedCount(list, env) + PendingCount(list, env) == |Rank(list, env)|
  {
    if list != [] {
      var n := |list| - 1;
      RankIsCounted(list[..n], env);
      HoldsExactly(list[n].status);
      assert forall k | 0 <= k < n :: list[..n][k] == list[k];
      assert Rank(list, env) == Rank(list[..n], env) + (if Ranks(list[n], env) then {n} else {});
    } else {
      assert Rank(list, env) == {};
    }
  }

  method ValidateTenantPolicy(className: string, allowed: seq<string>, classMax: int, annotation: Annotation,
                              env: Candidate, list: seq<Candidate>) returns (v: Verdict)
    ensures v.Admit? <==> && (allowed != [] ==> className in allowed)
                          && EffectiveMax(classMax, annotation).Some?
                          && Admits(EffectiveMax(classMax, annotation).value, env, list)
    ensures (allowed != [] && className !in allowed) || annotation == NotANumber || (annotation.Number? && annotation.value < 1) ==>
      v == Reject
    ensures (allowed == [] || className in allowed) && annotation == Absent ==>
      (v == Admit <==> classMax <= 0 || Holds(env.status) || |Rank(list, env)| < classMax)
    ensures (allowed == [] || className in allowed) && annotation.Number? && 1 <= annotation.value < 0x8000_0000 ==>
      (v == Admit <==> Holds(env.status) || |Rank(list, env)| < annotation.value)
  {
    RankIsCounted(list, env);
    HoldsExactly(env.status);
    if |allowed| > 0 && className !in allowed { return Reject; }
    var max := classMax;
    if !annotation.Absent? {
      if annotation.NotANumber? || annotation.value < 1 { return Reject; }
      max := ToInt32(annotation.value);
    }
    if max <= 0 { return Admit; }
    if AlreadyAdmitted(env.status) { return Admit; }
    var admitted, pendingBefore := 0, 0;
    for n := 0 to |list|
      invariant admitted == AdmittedCount(list[..n], env) && pendingBefore == PendingCount(list[..n], env)
    {
      var candidate := list[n];
      assert list[..n + 1][..n] == list[..n];
      if candidate.name == env.name { continue; }
      if candidate.status.alive {
        if AlreadyAdmitted(candidate.status) {
          admitted := admitted + 1;
        } else if candidate.created < env.created || (candidate.created == env.created && Text.Less(candidate.name, env.name)) {
          pendingBefore := pendingBefore + 1;
        }
      }
    }
    assert list[..|list|] == list;
    return if admitted + pendingBefore >= max then Reject else Admit;
  }

  // ------------------------------------------------------------------ counting

  predicate Counted(c: Candidate, env: Candidate) { CountsAdmitted(c, env) || CountsPending(c, env) }

  function CountedIn(list: seq<Candidate>, index: seq<int>, env: Candidate): set<int>
    requires |index| == |list|
  {
    set k | 0 <= k < |list| && Counted(list[k], env) :: index[k]
  }

  function AdmittedIn(list: seq<Candidate>, index: seq<int>, env: Candidate): set<int>
    requires |index| == |list|
  {
    set k | 0 <= k < |list| && CountsAdmitted(list[k], env) :: index[k]
  }

  /** However often the list repeats an environment, those it counts are no more than the counts. */
  lemma {:induction false} CountsCover(list: seq<Candidate>, index: seq<int>, env: Candidate)
    requires |index| == |list|
    ensures |CountedIn(list, index, env)| <= AdmittedCount(list, env) + PendingCount(list, env)
    ensures |AdmittedIn(list, index, env)| <= AdmittedCount(list, env)
  {
    if list != [] {
      var n := |list| - 1;
      CountsCover(list[..n], index[..n], env);
      CountsGrow(list, index, env);
    }
  }

  lemma CountsGrow(list: seq<Candidate>, index: seq<int>, env: Candidate)
    requires |index| == |list| > 0
    ensures var n := |list| - 1;
      && |CountedIn(list, index, env)| <= |CountedIn(list[..n], index[..n], env)| + (if Counted(list[n], env) then 1 else 0)
      && |AdmittedIn(list, index, env)| <= |AdmittedIn(list[..n], index[..n], env)| + (if CountsAdmitted(list[n], env) then 1 else 0)
  {
    var n := |list| - 1;
    CountedGrows(list, index, env);
    AdmittedGrows(list, index, env);
    Sets.SubsetSize(CountedIn(list, index, env),
               CountedIn(list[..n], index[..n], env) + (if Counted(list[n], env) then {index[n]} else {}));
    Sets.SubsetSize(AdmittedIn(list, index, env),
               AdmittedIn(list[..n], index[..n], env) + (if CountsAdmitted(list[n], env) then {index[n]} else {}));
  }

  lemma CountedGrows(list: seq<Candidate>, index: seq<int>, env: Candidate)
    requires |index| == |list| > 0
    ensures var n := |list| - 1;
      CountedIn(list, index, env) <= CountedIn(list[..n], index[..n], env) + (if Counted(list[n], env) then {index[n]} else {})
  {
    var n := |list| - 1;
    forall x | x in CountedIn(list, index, env) && !(Counted(list[n], env) && x == index[n])
      ensures x in CountedIn(list[..n], index[..n], env)
    {
      var k :| 0 <= k < |list| && Counted(list[k], env) && index[k] == x;
      assert list[..n][k] == list[k] && index[..n][k] == index[k];
    }
  }

  lemma AdmittedGrows(list: seq<Candidate>, index: seq<int>, env: Candidate)
    requires |index| == |list| > 0
    ensures var n := |list| - 1;
      AdmittedIn(list, index, env) <= AdmittedIn(list[..n], index[..n], env) + (if CountsAdmitted(list[n], env) then {index[n]} else {})
  {
    var n := |list| - 1;
    forall x | x in AdmittedIn(list, index, env) && !(CountsAdmitted(list[n], env) && x == index[n])
      ensures x in AdmittedIn(list[..n], index[..n], env)
    {
      var k :| 0 <= k < |list| && CountsAdmitted(list[k], env) && index[k] == x;
      assert list[..n][k] == list[k] && index[..n][k] == index[k];
    }
  }

  // -------------------------------------------------------------------- runs

  /** An environment with every version of its status. It is `granted` once a check has passed for it,
      `checked` if that check counted rather than found it admitted already, and `noted` once a status
      recorded without a check has made it count as admitted. */
  datatype Env = Env(name: string, created: nat, versions: seq<Status>, granted: bool, checked: bool, noted: bool)

  /** In the order in which they were created. */
  type State = seq<Env>

  function Current(e: Env): Status
    requires e.versions != []
  {
    e.versions[|e.versions| - 1]
  }

  predicate Alive(s: State, i: int) { 0 <= i < |s| && s[i].versions != [] && Current(s[i]).alive }

  predicate IsAdmitted(s: State, i: int) { Alive(s, i) && AlreadyAdmitted(Current(s[i])) }

  datatype Entry = Entry(index: nat, version: nat)

  predicate InRange(s: State, e: Entry) { e.index < |s| && e.version < |s[e.index].versions| }

  function Read(s: State, e: Entry): Candidate
    requires InRange(s, e)
  {
    Candidate(s[e.index].name, s[e.index].created, s[e.index].versions[e.version])
  }

  /** A list may be outdated, but it holds every environment created before the one read. */
  ghost predicate Lists(s: State, view: seq<Entry>, me: Entry) {
    && InRange(s, me) && (forall k | 0 <= k < |view| :: InRange(s, view[k]))
    && (forall j | 0 <= j < me.index && Alive(s, j) :: exists k | 0 <= k < |view| :: view[k].index == j)
  }

  /** An up-to-date list: every environment that is alive, as it is. */
  ghost predicate ListsFresh(s: State, view: seq<Entry>, me: Entry) {
    && Lists(s, view, me) && me.version + 1 == |s[me.index].versions|
    && (forall k | 0 <= k < |view| :: view[k].version + 1 == |s[view[k].index].versions|)
    && (forall j | Alive(s, j) :: exists k | 0 <= k < |view| :: view[k].index == j)
  }

  function Candidates(s: State, view: seq<Entry>): seq<Candidate>
    requires forall k | 0 <= k < |view| :: InRange(s, view[k])
    ensures |Candidates(s, view)| == |view|
    ensures forall k | 0 <= k < |view| :: Candidates(s, view)[k] == Read(s, view[k])
  {
    if view == [] then [] else Candidates(s, view[..|view| - 1]) + [Read(s, view[|view| - 1])]
  }

  /** A pass over one environment. It may be checked: on admission it may record any status, on
      rejection that of the quota. Or it may never get to the check: a status update against the
      current version succeeds, any other is refused, and any may be lost. */
  datatype Step = Created(name: string, at: nat)
                | Deleted(index: nat)
                | Noted(me: Entry, status: Status)
                | Reconciled(me: Entry, view: seq<Entry>, recorded: Option<Status>)

  ghost predicate NameTaken(s: State, name: string) { exists i :: Alive(s, i) && s[i].name == name }

  const NoStatus := Status(true, None, false)

  function New(name: string, at: nat): Env { Env(name, at, [NoStatus], false, false, false) }

  function Record(e: Env, st: Status): Env
    requires e.versions != []
  {
    e.(versions := e.versions + [st.(alive := Current(e).alive)])
  }

  /** What is recorded without asking the quota: an invalid spec, a class that is missing or refuses the
      environment, and whatever becomes of one that names its stack itself instead of a class. */
  predicate Unchecked(was: Status, st: Status) {
    && st.reason.Some? && !st.reason.value.QuotaRejected?
    && (st.stackRef == was.stackRef || st.reason.value.OtherReason?)
  }

  predicate IsCurrent(s: State, me: Entry) { InRange(s, me) && me.version + 1 == |s[me.index].versions| }

  function Note(e: Env, st: Status): Env
    requires e.versions != []
  {
    Record(e, st).(noted := e.noted || (AlreadyAdmitted(st) && !AlreadyAdmitted(Current(e))))
  }

  ghost function Reconcile(s: State, max: int, me: Entry, view: seq<Entry>, recorded: Option<Status>): State {
    if !Lists(s, view, me) || !s[me.index].versions[me.version].alive then s else
    s[me.index := Judged(s[me.index], Admits(max, Read(s, me), Candidates(s, view)), !AlreadyAdmitted(Read(s, me).status),
                         if IsCurrent(s, me) then recorded else None)]
  }

  /** The environment after the quota answered; `counted` if the answer rests on the counts. */
  function Judged(env: Env, admits: bool, counted: bool, recorded: Option<Status>): Env
    requires env.versions != []
  {
    var e := env.(granted := env.granted || admits, checked := env.checked || (admits && counted));
    if recorded.None? || (!admits && recorded.value.reason != Some(QuotaRejected)) then e
    else if !admits && AlreadyAdmitted(recorded.value) then e
    else Record(e, recorded.value)
  }

  ghost function Next(s: State, max: int, step: Step): State {
    match step
    case Created(name, at) => if NameTaken(s, name) then s else s + [New(name, at)]
    case Deleted(i) => if Alive(s, i) then s[i := s[i].(versions := s[i].versions + [Current(s[i]).(alive := false)])] else s
    case Noted(me, st) =>
      if IsCurrent(s, me) && Alive(s, me.index) && Unchecked(Current(s[me.index]), st) then s[me.index := Note(s[me.index], st)] else s
    case Reconciled(me, view, recorded) => Reconcile(s, max, me, view, recorded)
  }

  ghost function After(max: int, steps: seq<Step>): State {
    if steps == [] then [] else Next(After(max, steps[..|steps| - 1]), max, steps[|steps| - 1])
  }

  // --------------------------------------------------------------- invariants

  /** Once dead, an environment stays dead; one recorded as admitted was granted, or noted before. */
  predicate EnvAt(s: State, i: int) {
    0 <= i < |s| ==>
      && s[i].versions != []
      && (forall m, n | 0 <= m < n < |s[i].versions| :: s[i].versions[n].alive ==> s[i].versions[m].alive)
      && (forall m | 0 <= m < |s[i].versions| :: AlreadyAdmitted(s[i].versions[m]) ==> s[i].granted || s[i].noted)
      && (s[i].checked ==> s[i].granted) && (s[i].granted && !s[i].checked ==> s[i].noted)
  }

  predicate NamesAt(s: State, i: int, j: int) { i != j && Alive(s, i) && Alive(s, j) ==> s[i].name != s[j].name }

  ghost predicate Good(s: State) { (forall i :: EnvAt(s, i)) && (forall i, j :: NamesAt(s, i, j)) }

  lemma ReconcileShape(s: State, max: int, me: Entry, view: seq<Entry>, recorded: Option<Status>)
    ensures var t := Reconcile(s, max, me, view, recorded);
      && |t| == |s|
      && (forall i | 0 <= i < |s| :: t[i].name == s[i].name && t[i].created == s[i].created && (i != me.index ==> t[i] == s[i]))
      && (forall i :: Good(s) ==> (Alive(t, i) <==> Alive(s, i)))
  {
    var t := Reconcile(s, max, me, view, recorded);
    forall i ensures Good(s) ==> (Alive(t, i) <==> Alive(s, i)) { assert EnvAt(s, i) || !Good(s); }
  }

  lemma NextGood(s: State, max: int, step: Step)
    requires Good(s)
    ensures Good(Next(s, max, step))
  {
    var t := Next(s, max, step);
    if step.Reconciled? { ReconcileShape(s, max, step.me, step.view, step.recorded); }
    forall i ensures EnvAt(t, i) { assert EnvAt(s, i); }
    forall i, j ensures NamesAt(t, i, j) { assert NamesAt(s, i, j) && EnvAt(s, i) && EnvAt(s, j); }
  }

  lemma {:induction false} RunGood(max: int, steps: seq<Step>)
    ensures Good(After(max, steps))
  {
    if steps != [] {
      RunGood(max, steps[..|steps| - 1]);
      NextGood(After(max, steps[..|steps| - 1]), max, steps[|steps| - 1]);
    }
  }

  // ------------------------------------------------ the bound on what is granted

  predicate InOrder(s: State, i: int, j: int)
    requires 0 <= i < |s| && 0 <= j < |s|
  {
    Precedes(s[i].created, s[i].name, s[j].created, s[j].name)
  }

  /** (timestamp, name) order is creation order, among the living. */
  predicate Agrees(s: State) { forall i, j | 0 <= i < j < |s| && Alive(s, i) && Alive(s, j) :: InOrder(s, i, j) }

  function Earlier(s: State, i: int): set<int> { set j | 0 <= j < i && Alive(s, j) }

  /** Earlier in both orders. */
  function Ahead(s: State, i: int): set<int> { set j | 0 <= j < i && i < |s| && Alive(s, j) && InOrder(s, j, i) }

  function GrantedAlive(s: State): set<int> { set i | 0 <= i < |s| && Alive(s, i) && s[i].granted }

  predicate RoomAt(s: State, max: int, i: int) { 0 <= i < |s| && Alive(s, i) && s[i].checked ==> |Ahead(s, i)| < max }

  /** In whatever version it is read, a living environment ahead counts. */
  lemma AheadIsCounted(s: State, me: Entry, e: Entry)
    requires Good(s) && InRange(s, me) && InRange(s, e) && Alive(s, me.index) && e.index in Ahead(s, me.index)
    requires !AlreadyAdmitted(Read(s, me).status)
    ensures Counted(Read(s, e), Read(s, me))
  {
    assert NamesAt(s, e.index, me.index) && EnvAt(s, e.index);
  }

  /** A check that passes leaves room for every living environment ahead, however outdated the
      statuses it reads; that is every one created earlier, if the two orders agree. */
  lemma AdmissionLeavesRoom(s: State, max: int, me: Entry, view: seq<Entry>)
    requires Good(s) && Lists(s, view, me) && Alive(s, me.index) && max > 0
    requires Admits(max, Read(s, me), Candidates(s, view)) && !AlreadyAdmitted(Read(s, me).status)
    ensures |Ahead(s, me.index)| < max
    ensures Agrees(s) ==> |Earlier(s, me.index)| < max
  {
    var env, list := Read(s, me), Candidates(s, view);
    var index := Indices(view);
    forall j | j in Ahead(s, me.index) ensures j in CountedIn(list, index, env) {
      var k :| 0 <= k < |view| && view[k].index == j;
      AheadIsCounted(s, me, view[k]);
      assert index[k] == j && Counted(list[k], env);
    }
    CountsCover(list, index, env);
    Sets.SubsetSize(Ahead(s, me.index), CountedIn(list, index, env));
    assert Agrees(s) ==> Earlier(s, me.index) == Ahead(s, me.index);
  }

  function Indices(view: seq<Entry>): (index: seq<int>)
    ensures |index| == |view| && forall k | 0 <= k < |view| :: index[k] == view[k].index
  {
    if view == [] then [] else Indices(view[..|view| - 1]) + [view[|view| - 1].index]
  }

  lemma NextKeepsRoom(s: State, max: int, step: Step)
    requires Good(s) && max > 0 && forall i :: RoomAt(s, max, i)
    ensures forall i :: RoomAt(Next(s, max, step), max, i)
  {
    var t := Next(s, max, step);
    match step
    case Created(name, at) =>
      forall i ensures RoomAt(t, max, i) { assert RoomAt(s, max, i); if 0 <= i < |s| { AheadShrinks(s, t, i); } }
    case Deleted(d) =>
      forall i ensures RoomAt(t, max, i) { assert RoomAt(s, max, i); if 0 <= i < |s| { AheadShrinks(s, t, i); } }
    case Noted(me, st) =>
      forall i ensures RoomAt(t, max, i) { assert RoomAt(s, max, i); if 0 <= i < |s| { AheadShrinks(s, t, i); } }
    case Reconciled(me, view, recorded) =>
      ReconcileShape(s, max, me, view, recorded);
      forall i ensures RoomAt(t, max, i) {
        assert RoomAt(s, max, i);
        if 0 <= i < |s| {
          AheadShrinks(s, t, i);
          if t[i].checked && !s[i].checked && Alive(t, i) { AdmissionLeavesRoom(s, max, me, view); }
        }
      }
  }

  lemma AheadShrinks(s: State, t: State, i: int)
    requires 0 <= i < |s| <= |t|
    requires forall j | 0 <= j <= i :: t[j].name == s[j].name && t[j].created == s[j].created && (Alive(t, j) ==> Alive(s, j))
    ensures |Ahead(t, i)| <= |Ahead(s, i)|
  {
    assert Ahead(t, i) <= Ahead(s, i);
    Sets.SubsetSize(Ahead(t, i), Ahead(s, i));
  }

  lemma {:induction false} RunKeepsRoom(max: int, steps: seq<Step>)
    requires max > 0
    ensures forall i :: RoomAt(After(max, steps), max, i)
  {
    if steps != [] {
      var front, last := steps[..|steps| - 1], steps[|steps| - 1];
      RunGood(max, front);
      RunKeepsRoom(max, front);
      NextKeepsRoom(After(max, front), max, last);
    }
  }

  function CheckedAlive(s: State): set<int> { set i | 0 <= i < |s| && Alive(s, i) && s[i].checked }

  /** Granted without ever being counted, and created after every living environment that was. */
  function Late(s: State): set<int> {
    set i | 0 <= i < |s| && Alive(s, i) && s[i].granted && forall j | 0 <= j < |s| && Alive(s, j) && s[j].checked :: j < i
  }

  /** With outdated reads, lost status writes and restarts, no more living environments are granted than
      the maximum and those that came late without being counted, provided that (timestamp, name) order
      is creation order among the living. */
  lemma GrantedBound(max: int, steps: seq<Step>)
    requires max > 0 && Agrees(After(max, steps))
    ensures |GrantedAlive(After(max, steps))| <= max + |Late(After(max, steps))|
    ensures forall i | i in Late(After(max, steps)) :: After(max, steps)[i].noted && !After(max, steps)[i].checked
  {
    var s := After(max, steps);
    RunKeepsRoom(max, steps);
    RunGood(max, steps);
    forall i | i in Late(s) ensures s[i].noted && !s[i].checked { assert EnvAt(s, i); }
    if |CheckedAlive(s)| > 0 {
      var top := Largest(CheckedAlive(s));
      assert RoomAt(s, max, top) && Earlier(s, top) == Ahead(s, top);
      assert GrantedAlive(s) <= Earlier(s, top) + {top} + Late(s) by { AllButLate(s, top); }
      Sets.SubsetSize(GrantedAlive(s), Earlier(s, top) + {top} + Late(s));
    } else {
      assert GrantedAlive(s) <= Late(s) by { forall j | 0 <= j < |s| && Alive(s, j) ensures !s[j].checked { assert j !in CheckedAlive(s); } }
      Sets.SubsetSize(GrantedAlive(s), Late(s));
    }
  }

  lemma AllButLate(s: State, top: int)
    requires top in CheckedAlive(s) && forall j | j in CheckedAlive(s) :: j <= top
    ensures GrantedAlive(s) <= Earlier(s, top) + {top} + Late(s)
  {
    forall i | i in GrantedAlive(s) && i > top ensures i in Late(s) {
      forall j | 0 <= j < |s| && Alive(s, j) && s[j].checked ensures j < i { assert j in CheckedAlive(s); }
    }
  }

  lemma Largest(some: set<int>) returns (top: int)
    requires |some| > 0
    ensures top in some && forall x | x in some :: x <= top
    decreases some
  {
    var x := Sets.Pick(some);
    top := x;
    if |some - {x}| > 0 {
      var rest := Largest(some - {x});
      if rest > top { top := rest; }
      forall y | y in some ensures y <= top { assert y == x || y in some - {x}; }
    } else {
      assert some == {x};
    }
  }

  // --------------------------------------------- the bound with fresh statuses

  function AdmittedAlive(s: State): set<int> { set i | 0 <= i < |s| && IsAdmitted(s, i) }

  ghost predicate FreshRun(max: int, steps: seq<Step>) {
    steps == [] || (FreshRun(max, steps[..|steps| - 1])
      && (steps[|steps| - 1].Reconciled? ==>
            ListsFresh(After(max, steps[..|steps| - 1]), steps[|steps| - 1].view, steps[|steps| - 1].me)))
  }

  /** Read as it is, an admitted environment counts against every other one that is not. */
  lemma AdmittedIsCounted(s: State, me: Entry, e: Entry)
    requires Good(s) && InRange(s, me) && InRange(s, e) && Alive(s, me.index) && IsAdmitted(s, e.index)
    requires me.version + 1 == |s[me.index].versions| && e.version + 1 == |s[e.index].versions|
    requires !AlreadyAdmitted(Read(s, me).status)
    ensures CountsAdmitted(Read(s, e), Read(s, me))
  {
    assert NamesAt(s, e.index, me.index) && EnvAt(s, e.index);
  }

  lemma FreshAdmission(s: State, max: int, me: Entry, view: seq<Entry>)
    requires Good(s) && ListsFresh(s, view, me) && Alive(s, me.index) && max > 0
    requires Admits(max, Read(s, me), Candidates(s, view)) && !AlreadyAdmitted(Read(s, me).status)
    ensures |AdmittedAlive(s)| < max
  {
    var env, list := Read(s, me), Candidates(s, view);
    var index := Indices(view);
    forall j | j in AdmittedAlive(s) ensures j in AdmittedIn(list, index, env) {
      var k :| 0 <= k < |view| && view[k].index == j;
      AdmittedIsCounted(s, me, view[k]);
      assert index[k] == j && CountsAdmitted(list[k], env);
    }
    CountsCover(list, index, env);
    Sets.SubsetSize(AdmittedAlive(s), AdmittedIn(list, index, env));
  }

  /** Of these, those that no status recorded without a check ever made count. */
  function ByCheck(s: State): set<int> { set i | 0 <= i < |s| && IsAdmitted(s, i) && !s[i].noted }

  function ByNote(s: State): set<int> { set i | 0 <= i < |s| && IsAdmitted(s, i) && s[i].noted }

  lemma JudgedAdmits(s: State, i: nat, admits: bool, counted: bool, recorded: Option<Status>)
    requires i < |s| && s[i].versions != []
    ensures var t := s[i := Judged(s[i], admits, counted, recorded)];
      && ByCheck(t) <= ByCheck(s) + {i}
      && (i in ByCheck(t) && i !in ByCheck(s) ==> Alive(s, i) && admits && !AlreadyAdmitted(Current(s[i])))
  {
    var t := s[i := Judged(s[i], admits, counted, recorded)];
    forall j | j in ByCheck(t) ensures j in ByCheck(s) || j == i { assert IsAdmitted(t, j); }
  }

  lemma ReconcileKeepsBound(s: State, max: int, me: Entry, view: seq<Entry>, recorded: Option<Status>)
    requires Good(s) && max > 0 && |ByCheck(s)| <= max && ListsFresh(s, view, me)
    ensures |ByCheck(Reconcile(s, max, me, view, recorded))| <= max
  {
    var t, i := Reconcile(s, max, me, view, recorded), me.index;
    if t != s {
      var admits := Admits(max, Read(s, me), Candidates(s, view));
      JudgedAdmits(s, i, admits, !AlreadyAdmitted(Read(s, me).status), recorded);
      if i in ByCheck(t) && i !in ByCheck(s) {
        FreshAdmission(s, max, me, view);
        Sets.SubsetSize(ByCheck(t), AdmittedAlive(s) + {i});
      } else {
        Sets.SubsetSize(ByCheck(t), ByCheck(s));
      }
    }
  }

  lemma NextKeepsBound(s: State, max: int, step: Step)
    requires Good(s) && max > 0 && |ByCheck(s)| <= max
    requires step.Reconciled? ==> ListsFresh(s, step.view, step.me)
    ensures |ByCheck(Next(s, max, step))| <= max
  {
    match step
    case Reconciled(me, view, recorded) => ReconcileKeepsBound(s, max, me, view, recorded);
    case _ =>
      assert ByCheck(Next(s, max, step)) <= ByCheck(s);
      Sets.SubsetSize(ByCheck(Next(s, max, step)), ByCheck(s));
  }

  /** With up-to-date reads, no more living environments are recorded as admitted than the maximum and
      those that a status recorded without a check made count, whatever the creation times. */
  lemma AdmittedBound(max: int, steps: seq<Step>)
    requires max > 0 && FreshRun(max, steps)
    ensures |AdmittedAlive(After(max, steps))| <= max + |ByNote(After(max, steps))|
  {
    var s := After(max, steps);
    CheckedBound(max, steps);
    assert AdmittedAlive(s) == ByCheck(s) + ByNote(s);
  }

  lemma {:induction false} CheckedBound(max: int, steps: seq<Step>)
    requires max > 0 && FreshRun(max, steps)
    ensures |ByCheck(After(max, steps))| <= max
  {
    if steps == [] {
      assert ByCheck([]) == {};
    } else {
      var front, last := steps[..|steps| - 1], steps[|steps| - 1];
      CheckedBound(max, front);
      RunGood(max, front);
      NextKeepsBound(After(max, front), max, last);
    }
  }

  // ----------------------------------------------------------- where it fails

  const AdmittedStatus := Status(true, Some(OtherReason), true)

  lemma Snoc(max: int, steps: seq<Step>, step: Step)
    ensures After(max, steps + [step]) == Next(After(max, steps), max, step)
  {
    assert (steps + [step])[..|steps|] == steps;
  }

  datatype Birth = Birth(name: string, at: nat)

  function Min(a: int, b: int): int { if a < b then a else b }

  /** A list of the first `n` environments, up to date for the first `known` of them only. */
  function Show(n: nat, known: nat): seq<Entry> { seq(n, i requires 0 <= i => Entry(i, if i < known then 1 else 0)) }

  /** Created one after the other, each checked once. Only the first `known` statuses are ever seen. */
  function GrantAll(births: seq<Birth>, known: nat): seq<Step> {
    if births == [] then [] else
    var last := |births| - 1;
    GrantAll(births[..last], known)
    + [Created(births[last].name, births[last].at), Reconciled(Entry(last, 0), Show(|births|, Min(last, known)), Some(AdmittedStatus))]
  }

  /** All of them granted. */
  function Granted(births: seq<Birth>): State {
    seq(|births|, i requires 0 <= i < |births| => Env(births[i].name, births[i].at, [NoStatus, AdmittedStatus], true, true, false))
  }

  ghost predicate Distinct(births: seq<Birth>) { forall i, j | 0 <= i < j < |births| :: births[i].name != births[j].name }

  /** Every check passes, although the last one should count the environment whose status it does not see. */
  ghost predicate Slips(births: seq<Birth>, known: nat) {
    && Distinct(births) && |births| <= known + 2
    && (|births| == known + 2 ==> !Precedes(births[known].at, births[known].name, births[known + 1].at, births[known + 1].name))
  }

  lemma {:induction false} CountsOf(list: seq<Candidate>, env: Candidate, known: nat)
    requires known <= |list|
    requires forall i | 0 <= i < known :: CountsAdmitted(list[i], env)
    requires forall i | known <= i < |list| :: !Counted(list[i], env)
    ensures AdmittedCount(list, env) == known && PendingCount(list, env) == 0
  {
    if list != [] {
      var n := |list| - 1;
      CountsOf(list[..n], env, Min(known, n));
    }
  }

  /** Before the check of the last of them. */
  function BeforeLast(births: seq<Birth>): State
    requires births != []
  {
    var last := |births| - 1;
    Granted(births[..last]) + [New(births[last].name, births[last].at)]
  }

  lemma LastIsListed(births: seq<Birth>, known: nat)
    requires births != [] && known < |births|
    ensures Lists(BeforeLast(births), Show(|births|, known), Entry(|births| - 1, 0))
  {
    var s, view := BeforeLast(births), Show(|births|, known);
    forall j | 0 <= j < |births| - 1 && Alive(s, j) ensures exists k | 0 <= k < |view| :: view[k].index == j {
      assert view[j].index == j;
    }
  }

  lemma LastAdmits(max: int, births: seq<Birth>)
    requires max > 0 && births != [] && Slips(births, max - 1)
    requires Lists(BeforeLast(births), Show(|births|, Min(|births| - 1, max - 1)), Entry(|births| - 1, 0))
    ensures var s, last := BeforeLast(births), |births| - 1;
      Admits(max, Read(s, Entry(last, 0)), Candidates(s, Show(|births|, Min(last, max - 1))))
  {
    var s, last, known := BeforeLast(births), |births| - 1, Min(|births| - 1, max - 1);
    var env, list := Read(s, Entry(last, 0)), Candidates(s, Show(|births|, known));
    assert forall i | 0 <= i < last :: s[i] == Env(births[i].name, births[i].at, [NoStatus, AdmittedStatus], true, true, false);
    forall i | 0 <= i < known ensures CountsAdmitted(list[i], env) {
      assert list[i] == Candidate(births[i].name, births[i].at, AdmittedStatus);
    }
    forall i | known <= i < |list| ensures !Counted(list[i], env) {
      assert list[i] == Candidate(births[i].name, births[i].at, NoStatus);
    }
    CountsOf(list, env, known);
  }

  /** The check of the last of them passes. */
  lemma LastIsGranted(max: int, births: seq<Birth>)
    requires max > 0 && births != [] && Slips(births, max - 1)
    ensures var last := |births| - 1;
      Next(BeforeLast(births), max, Reconciled(Entry(last, 0), Show(|births|, Min(last, max - 1)), Some(AdmittedStatus))) == Granted(births)
  {
    var s, last := BeforeLast(births), |births| - 1;
    LastIsListed(births, Min(last, max - 1));
    LastAdmits(max, births);
    assert [NoStatus] + [AdmittedStatus] == [NoStatus, AdmittedStatus];
    assert Judged(s[last], true, true, Some(AdmittedStatus)) == Env(births[last].name, births[last].at, [NoStatus, AdmittedStatus], true, true, false);
    assert s[last := Judged(s[last], true, true, Some(AdmittedStatus))] == Granted(births);
  }

  lemma {:induction false} AllAreGranted(max: int, births: seq<Birth>)
    requires max > 0 && Slips(births, max - 1)
    ensures After(max, GrantAll(births, max - 1)) == Granted(births)
  {
    if births != [] {
      var last, front := |births| - 1, births[..|births| - 1];
      var before := GrantAll(front, max - 1);
      AllAreGranted(max, front);
      var steps := GrantAll(births, max - 1);
      assert steps == before + [steps[|before|]] + [steps[|before| + 1]];
      Snoc(max, before, steps[|before|]);
      assert !NameTaken(Granted(front), births[last].name);
      assert After(max, before + [steps[|before|]]) == BeforeLast(births);
      Snoc(max, before + [steps[|before|]], steps[|before| + 1]);
      LastIsGranted(max, births);
    }
  }

  lemma {:induction false} GrantedCount(births: seq<Birth>)
    ensures |GrantedAlive(Granted(births))| == |births|
  {
    if births == [] {
      assert GrantedAlive(Granted(births)) == {};
    } else {
      var last, s, t := |births| - 1, Granted(births[..|births| - 1]), Granted(births);
      GrantedCount(births[..last]);
      assert forall i | 0 <= i < last :: s[i] == t[i];
      forall i ensures i in GrantedAlive(t) <==> i in GrantedAlive(s) + {last} { assert 0 <= i < last ==> (Alive(t, i) <==> Alive(s, i)); }
      assert GrantedAlive(t) == GrantedAlive(s) + {last};
    }
  }

  /** A name longer than the two, and different for each `n`. */
  function Filler(one: Birth, two: Birth, n: nat): string { one.name + two.name + seq(n + 1, i => 'x') }

  function Fillers(one: Birth, two: Birth, n: nat): seq<Birth> { seq(n, i requires 0 <= i => Birth(Filler(one, two, i), 0)) }

  /** The converse of GrantedBound, for every maximum and every two environments whose (timestamp, name)
      order contradicts the order of creation: a run that creates them grants one too many. */
  lemma DisagreementExceedsQuota(max: int, one: Birth, two: Birth) returns (steps: seq<Step>)
    requires max > 0 && one.name != two.name && !Precedes(one.at, one.name, two.at, two.name)
    ensures var s := After(max, steps);
      && |s| == max + 1 && |GrantedAlive(s)| == max + 1
      && (s[max - 1].name, s[max - 1].created) == (one.name, one.at) && (s[max].name, s[max].created) == (two.name, two.at)
      && Alive(s, max - 1) && Alive(s, max) && Late(s) == {}
  {
    var births := Fillers(one, two, max - 1) + [one, two];
    assert Distinct(births) by {
      forall i, j | 0 <= i < j < |births| ensures births[i].name != births[j].name {
        assert i < max - 1 ==> |births[i].name| == |one.name| + |two.name| + i + 1;
        assert j < max - 1 ==> |births[j].name| == |one.name| + |two.name| + j + 1;
      }
    }
    steps := GrantAll(births, max - 1);
    AllAreGranted(max, births);
    GrantedCount(births);
  }

  const B := Birth("b", 5)
  const A := Birth("a", 5)

  /** Environment b is admitted; then a is created within the same second, and its pass still
      reads b without a status. */
  function TieTrace(): seq<Step> { GrantAll([B, A], 0) }

  /** One too many: an outdated status and a tie broken against creation order. */
  lemma OutdatedTieExceedsQuota()
    ensures |GrantedAlive(After(1, TieTrace()))| == 2 && !Agrees(After(1, TieTrace()))
  {
    assert !Text.Less("b", "a");
    AllAreGranted(1, [B, A]);
    GrantedCount([B, A]);
    var s := Granted([B, A]);
    assert Alive(s, 0) && Alive(s, 1) && !InOrder(s, 0, 1);
  }

  // ------------------------------------- as many too many as never were counted

  /** Created a second apart, so that the two orders agree. */
  function Ordered(n: nat): seq<Birth> { seq(n, i requires 0 <= i => Birth(Name(i), i)) }

  function Name(i: nat): (name: string)
    ensures |name| == i + 1
  {
    seq(i + 1, k => 'x')
  }

  function ShowAll(n: nat): seq<Entry> { seq(n, i requires 0 <= i => Entry(i, 1)) }

  /** Created, noted with `st` without a check, and then checked. */
  function Slipping(last: nat, st: Status): seq<Step> {
    [Created(Name(last), last), Noted(Entry(last, 0), st), Reconciled(Entry(last, 1), ShowAll(last + 1), None)]
  }

  function Overfill(max: nat, n: nat, st: Status): seq<Step>
    requires max > 0
  {
    if n == 0 then GrantAll(Ordered(max), max - 1) else Overfill(max, n - 1, st) + Slipping(max + n - 1, st)
  }

  function Slipped(i: nat, st: Status): Env { Env(Name(i), i, [NoStatus, st], true, false, true) }

  function Regular(i: nat): Env { Env(Name(i), i, [NoStatus, AdmittedStatus], true, true, false) }

  function Overfull(max: nat, n: nat, st: Status): State {
    seq(max + n, i requires 0 <= i => if i < max then Regular(i) else Slipped(i, st))
  }

  lemma OrderedIsDistinct(n: nat)
    ensures Distinct(Ordered(n))
  {
    forall i, j | 0 <= i < j < n ensures Ordered(n)[i].name != Ordered(n)[j].name {
      assert |Ordered(n)[i].name| == i + 1 && |Ordered(n)[j].name| == j + 1;
    }
  }

  /** Every list of the run is up to date. */
  lemma {:induction false} GrantAllIsFresh(max: int, births: seq<Birth>)
    requires max > 0 && Distinct(births) && |births| <= max
    ensures FreshRun(max, GrantAll(births, max - 1))
  {
    if births != [] {
      var last := |births| - 1;
      GrantAllIsFresh(max, births[..last]);
      var before, steps := GrantAll(births[..last], max - 1), GrantAll(births, max - 1);
      AllAreGranted(max, births[..last]);
      var middle := before + [steps[|before|]];
      assert steps == middle + [steps[|before| + 1]];
      Snoc(max, before, steps[|before|]);
      FreshSnoc(max, before, steps[|before|]);
      assert !NameTaken(Granted(births[..last]), births[last].name);
      assert After(max, middle) == BeforeLast(births);
      LastIsShown(births);
      FreshSnoc(max, middle, steps[|before| + 1]);
    }
  }

  lemma LastIsShown(births: seq<Birth>)
    requires births != []
    ensures ListsFresh(BeforeLast(births), Show(|births|, |births| - 1), Entry(|births| - 1, 0))
  {
    var s, view := BeforeLast(births), Show(|births|, |births| - 1);
    LastIsListed(births, |births| - 1);
    forall j | Alive(s, j) ensures exists k | 0 <= k < |view| :: view[k].index == j { assert view[j].index == j; }
  }

  lemma FreshSnoc(max: int, steps: seq<Step>, step: Step)
    requires FreshRun(max, steps) && (step.Reconciled? ==> ListsFresh(After(max, steps), step.view, step.me))
    ensures FreshRun(max, steps + [step])
  {
    assert (steps + [step])[..|steps|] == steps;
  }

  /** One more environment slips through. */
  lemma OneSlips(max: nat, n: nat, st: Status)
    requires max > 0 && n > 0 && st.alive && Unchecked(NoStatus, st) && AlreadyAdmitted(st)
    ensures var s, last := Overfull(max, n - 1, st), max + n - 1; var more := Slipping(last, st);
            var noted := Next(Next(s, max, more[0]), max, more[1]);
      && ListsFresh(noted, more[2].view, more[2].me) && Next(noted, max, more[2]) == Overfull(max, n, st)
  {
    var s, last := Overfull(max, n - 1, st), max + n - 1;
    var more := Slipping(last, st);
    forall i | 0 <= i < |s| ensures s[i].name != Name(last) { assert |s[i].name| == i + 1; }
    assert Next(s, max, more[0]) == s + [New(Name(last), last)];
    var noted := s + [Env(Name(last), last, [NoStatus, st], false, false, true)];
    NotedNext(s, max, last, st);
    forall j | Alive(noted, j) ensures exists k | 0 <= k < |more[2].view| :: more[2].view[k].index == j { assert more[2].view[j].index == j; }
    assert ListsFresh(noted, more[2].view, more[2].me);
    assert Next(noted, max, more[2]) == s + [Slipped(last, st)];
    assert s + [Slipped(last, st)] == Overfull(max, n, st);
  }

  lemma NotedNext(s: State, max: int, last: nat, st: Status)
    requires last == |s| && st.alive && Unchecked(NoStatus, st) && AlreadyAdmitted(st)
    ensures Next(s + [New(Name(last), last)], max, Noted(Entry(last, 0), st)) == s + [Env(Name(last), last, [NoStatus, st], false, false, true)]
  {
    assert [NoStatus] + [st] == [NoStatus, st];
  }

  lemma ThreeMore(max: int, before: seq<Step>, a: Step, b: Step, c: Step)
    requires FreshRun(max, before) && !a.Reconciled? && !b.Reconciled?
    requires c.Reconciled? ==> ListsFresh(Next(Next(After(max, before), max, a), max, b), c.view, c.me)
    ensures FreshRun(max, before + [a, b, c])
    ensures After(max, before + [a, b, c]) == Next(Next(Next(After(max, before), max, a), max, b), max, c)
  {
    assert before + [a, b, c] == before + [a] + [b] + [c];
    Snoc(max, before, a);
    FreshSnoc(max, before, a);
    Snoc(max, before + [a], b);
    FreshSnoc(max, before + [a], b);
    Snoc(max, before + [a] + [b], c);
    FreshSnoc(max, before + [a] + [b], c);
  }

  lemma SlipReaches(max: nat, n: nat, st: Status, before: seq<Step>)
    requires max > 0 && n > 0 && st.alive && Unchecked(NoStatus, st) && AlreadyAdmitted(st)
    requires FreshRun(max, before) && After(max, before) == Overfull(max, n - 1, st)
    ensures var steps := before + Slipping(max + n - 1, st); FreshRun(max, steps) && After(max, steps) == Overfull(max, n, st)
  {
    var more := Slipping(max + n - 1, st);
    OneSlips(max, n, st);
    ThreeMore(max, before, more[0], more[1], more[2]);
    assert [more[0], more[1], more[2]] == more;
  }

  lemma FillReaches(max: nat, st: Status)
    requires max > 0
    ensures var steps := GrantAll(Ordered(max), max - 1); FreshRun(max, steps) && After(max, steps) == Overfull(max, 0, st)
  {
    OrderedIsDistinct(max);
    AllAreGranted(max, Ordered(max));
    GrantAllIsFresh(max, Ordered(max));
    assert Granted(Ordered(max)) == Overfull(max, 0, st);
  }

  lemma {:induction false} OverfillReaches(max: nat, n: nat, st: Status)
    requires max > 0 && st.alive && Unchecked(NoStatus, st) && AlreadyAdmitted(st)
    ensures After(max, Overfill(max, n, st)) == Overfull(max, n, st) && FreshRun(max, Overfill(max, n, st))
  {
    if n == 0 {
      FillReaches(max, st);
    } else {
      OverfillReaches(max, n - 1, st);
      SlipReaches(max, n, st, Overfill(max, n - 1, st));
    }
  }

  function From(a: int, b: int): (r: set<int>)
    requires a <= b
    ensures |r| == b - a && forall i :: i in r <==> a <= i < b
    decreases b - a
  {
    if a == b then {} else From(a, b - 1) + {b - 1}
  }

  lemma OverfullCounts(max: nat, n: nat, st: Status)
    requires max > 0 && st.alive && AlreadyAdmitted(st)
    ensures var s := Overfull(max, n, st);
      && GrantedAlive(s) == From(0, max + n) == AdmittedAlive(s) && ByNote(s) == From(max, max + n) == Late(s)
  {
    var s := Overfull(max, n, st);
    assert forall i | 0 <= i < |s| :: Alive(s, i) && s[i].granted && IsAdmitted(s, i) && (s[i].noted <==> i >= max);
    assert s[max - 1].checked && Alive(s, max - 1);
    assert forall i | i in From(max, max + n) :: i in Late(s);
  }

  lemma OverfullAgrees(max: nat, n: nat, st: Status)
    ensures Agrees(Overfull(max, n, st))
  {
    var s := Overfull(max, n, st);
    assert forall i | 0 <= i < |s| :: s[i].created == i;
  }

  /** Both bounds are attained, for every maximum, every number and every status that counts without a
      check, an invalid spec or a stack of one's own: with up-to-date reads and agreeing orders, a run
      grants and admits that many more than the maximum. */
  lemma UncheckedExceedsQuota(max: nat, n: nat, st: Status) returns (steps: seq<Step>)
    requires max > 0 && st.alive && Unchecked(NoStatus, st) && AlreadyAdmitted(st)
    ensures FreshRun(max, steps) && Agrees(After(max, steps))
    ensures |GrantedAlive(After(max, steps))| == max + n && |Late(After(max, steps))| == n
    ensures |AdmittedAlive(After(max, steps))| == max + n && |ByNote(After(max, steps))| == n
  {
    steps := Overfill(max, n, st);
    OverfillReaches(max, n, st);
    OverfullCounts(max, n, st);
    OverfullAgrees(max, n, st);
  }
}
