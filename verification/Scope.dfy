// The scope report: what is wrong with a set of prepared changes, given the approved plan
// and what the user edited lately, and the fingerprint a later check compares.
module Scope {
  import opened Common

  // ---------------------------------------------------------------- what is judged

  datatype Act = CreateAct | UpdateAct | DeleteAct | OtherAct

  // A prepared change with its line counts; `ratio` is the touched share of the file.
  datatype Audit = Audit(path: string, act: Act, beforeLines: nat, touched: nat, ratio: real)

  // An edit somebody was seen making; `recent` is its age against the window.
  datatype EditEvent = EditEvent(byUser: bool, recent: bool, id: string, paths: seq<string>)

  // What the request text says is decided by word lists that are not part of this model.
  datatype Context = Context(
    hasRequest: bool, approved: set<string>, deleteIntent: string -> bool, deleteNamed: bool, broad: bool,
    category: string -> Option<string>, intended: string -> bool, names: string -> bool, overrides: set<string>)

  datatype Code =
    | RequestMissing | PlanEmpty | DiffEmpty | PathMissing | DuplicatePath | OutsidePlan | InvalidAction
    | DeleteIntentMissing | BroadRewrite | ScopeLock | OverrideRequired

  datatype Violation = Violation(code: Code, path: string)

  const SECRET := "secret-file"

  // ---------------------------------------------------------------- faults of one change

  function When(b: bool, code: Code, path: string): multiset<Violation>
  {
    if b then multiset{Violation(code, path)} else multiset{}
  }

  function OwnFaults(c: Context, a: Audit): multiset<Violation>
  {
    When(a.path !in c.approved, OutsidePlan, a.path) + When(a.act == OtherAct, InvalidAction, a.path)
    + When(a.act == DeleteAct && !c.deleteIntent(a.path), DeleteIntentMissing, a.path)
    + When(a.act == UpdateAct && a.beforeLines >= 30 && a.ratio > 0.55 && !c.broad, BroadRewrite, a.path)
  }

  function Faults(c: Context, seen: set<string>, a: Audit): multiset<Violation>
  {
    if a.path == "" then multiset{Violation(PathMissing, "")}
    else When(a.path in seen, DuplicatePath, a.path) + OwnFaults(c, a)
  }

  // The older scope lock counts its own complaints; they carry no path.
  function LockFaults(c: Context, a: Audit): multiset<Violation>
  {
    When(a.act == DeleteAct && !c.deleteNamed, ScopeLock, "")
    + match c.category(a.path)
      case None => multiset{}
      case Some(name) => When(name == SECRET || !c.intended(name), ScopeLock, "")
  }

  function Paths(audits: seq<Audit>): set<string>
  {
    set a | a in audits && a.path != "" :: a.path
  }

  function Categories(c: Context, audits: seq<Audit>): set<string>
  {
    set a | a in audits && c.category(a.path).Some? && c.category(a.path).value != SECRET :: c.category(a.path).value
  }

  // In the order of the list, each change judged against those before it.
  function AllFaults(c: Context, audits: seq<Audit>): multiset<Violation>
  {
    if audits == [] then multiset{}
    else
      var before := audits[..|audits| - 1];
      var last := audits[|audits| - 1];
      AllFaults(c, before) + Faults(c, Paths(before), last)
  }

  function AllLockFaults(c: Context, audits: seq<Audit>): multiset<Violation>
  {
    if audits == [] then multiset{} else AllLockFaults(c, audits[..|audits| - 1]) + LockFaults(c, audits[|audits| - 1])
  }

  function MissingFaults(c: Context, audits: seq<Audit>): multiset<Violation>
  {
    When(!c.hasRequest, RequestMissing, "") + When(c.approved == {}, PlanEmpty, "") + When(audits == [], DiffEmpty, "")
  }

  // What the older scope lock says of the change as a whole.
  function WidthFaults(c: Context, audits: seq<Audit>): multiset<Violation>
  {
    When(!c.hasRequest, ScopeLock, "") + When(audits == [], ScopeLock, "")
    + When(|audits| > 15 && !c.broad, ScopeLock, "") + When(|Categories(c, audits)| >= 3 && !c.broad, ScopeLock, "")
  }

  function GlobalFaults(c: Context, audits: seq<Audit>): multiset<Violation>
  {
    MissingFaults(c, audits) + WidthFaults(c, audits)
  }

  // ---------------------------------------------------------------- what the user edited

  datatype Lock = Lock(count: nat, ids: seq<string>)

  predicate Counts(e: EditEvent, path: string)
  {
    e.byUser && e.recent && path in e.paths && path != ""
  }

  predicate Locked(edits: seq<EditEvent>, path: string)
  {
    exists i :: 0 <= i < |edits| && Counts(edits[i], path)
  }

  // The event is noted once for each time it names the path.
  function Noted(lock: Lock, e: EditEvent, paths: seq<string>, path: string): (r: Lock)
    ensures path in paths ==> r.count > lock.count
    ensures path !in paths ==> r == lock
    ensures r.count >= lock.count
  {
    if paths == [] then lock
    else
      var before := Noted(lock, e, paths[..|paths| - 1], path);
      assert paths == paths[..|paths| - 1] + [paths[|paths| - 1]];
      if paths[|paths| - 1] == path then Lock(before.count + 1, if e.id == "" then before.ids else before.ids + [e.id]) else before
  }

  function LockOf(edits: seq<EditEvent>, path: string): Lock
  {
    if edits == [] then Lock(0, [])
    else
      var before, e := LockOf(edits[..|edits| - 1], path), edits[|edits| - 1];
      if e.byUser && e.recent then Noted(before, e, e.paths, path) else before
  }

  lemma {:induction false} LockedMore(edits: seq<EditEvent>, e: EditEvent, path: string)
    ensures Locked(edits + [e], path) <==> Locked(edits, path) || Counts(e, path)
  {
    var all := edits + [e];
    assert all[|edits|] == e && forall i :: 0 <= i < |edits| ==> all[i] == edits[i];
    if Locked(all, path) {
      var i :| 0 <= i < |all| && Counts(all[i], path);
      assert i < |edits| ==> Counts(edits[i], path);
    }
    if Locked(edits, path) {
      var i :| 0 <= i < |edits| && Counts(edits[i], path);
      assert Counts(all[i], path);
    }
  }

  lemma {:induction false} LockedIsNoted(edits: seq<EditEvent>, path: string)
    requires path != ""
    ensures Locked(edits, path) <==> LockOf(edits, path).count > 0
  {
    if edits != [] {
      var front, e := edits[..|edits| - 1], edits[|edits| - 1];
      LockedIsNoted(front, path);
      LockedMore(front, e, path);
      assert edits == front + [e];
    }
  }

  method DeriveHumanIntentLocks(edits: seq<EditEvent>) returns (locks: map<string, Lock>)
    ensures forall path :: path in locks <==> Locked(edits, path)
    ensures forall path :: path in locks ==> locks[path] == LockOf(edits, path)
  {
    locks := map[];
    for i := 0 to |edits|
      invariant LocksOf(locks, edits[..i])
    {
      var e := edits[i];
      assert edits[..i + 1][..i] == edits[..i];
      if e.byUser && e.recent {
        locks := AddLocks(locks, e);
      }
    }
    assert edits[..|edits|] == edits;
    LocksAreLocked(locks, edits);
  }

  lemma {:induction false} LocksAreLocked(locks: map<string, Lock>, edits: seq<EditEvent>)
    requires LocksOf(locks, edits)
    ensures forall path :: path in locks <==> Locked(edits, path)
  {
    forall path | path != "" ensures Locked(edits, path) <==> LockOf(edits, path).count > 0 {
      LockedIsNoted(edits, path);
    }
  }

  // Every path noted so far with its lock, no other.
  ghost predicate LocksOf(locks: map<string, Lock>, edits: seq<EditEvent>)
  {
    && (forall path :: path in locks ==> path != "" && locks[path].count > 0)
    && (forall path :: path != "" ==> LockOf(edits, path) == if path in locks then locks[path] else Lock(0, []))
  }

  method AddLocks(locks: map<string, Lock>, e: EditEvent) returns (more: map<string, Lock>)
    requires forall path :: path in locks ==> path != ""
    ensures forall path :: path in more <==> path in locks || (path in e.paths && path != "")
    ensures forall path :: path in more ==> more[path] == Noted(if path in locks then locks[path] else Lock(0, []), e, e.paths, path)
  {
    more := locks;
    for i := 0 to |e.paths|
      invariant forall path :: path in more <==> path in locks || (path in e.paths[..i] && path != "")
      invariant forall path :: path in more ==>
                  more[path] == Noted(if path in locks then locks[path] else Lock(0, []), e, e.paths[..i], path)
    {
      var path := e.paths[i];
      TakeNext(e.paths, i);
      assert e.paths[..i + 1][..i] == e.paths[..i];
      if path != "" {
        var current := if path in more then more[path] else Lock(0, []);
        more := more[path := Lock(current.count + 1, if e.id == "" then current.ids else current.ids + [e.id])];
      }
    }
    assert e.paths[..|e.paths|] == e.paths;
  }

  // The locked paths nobody authorised touching.
  function Required(c: Context, locked: set<string>, touched: set<string>): set<string>
  {
    set path | path in locked && path in touched && Needs(c, path)
  }

  function RequiredFaults(paths: set<string>): multiset<Violation>
  {
    multiset(set path | path in paths :: Violation(OverrideRequired, path))
  }

  // ---------------------------------------------------------------- the report

  datatype Report = Report(
    allowed: bool, audits: seq<Audit>, touched: set<string>, locks: map<string, Lock>,
    required: set<string>, used: set<string>, violations: seq<Violation>)

  function Everything(c: Context, audits: seq<Audit>, locked: set<string>): multiset<Violation>
  {
    GlobalFaults(c, audits) + AllFaults(c, audits) + AllLockFaults(c, audits) + RequiredFaults(Required(c, locked, Paths(audits)))
  }

  // The report for these locks lists every fault, once for each time it occurs.
  ghost predicate Reports(c: Context, audits: seq<Audit>, locks: map<string, Lock>, r: Report)
  {
    && multiset(r.violations) == Everything(c, audits, locks.Keys)
    && (r.allowed <==> Everything(c, audits, locks.Keys) == multiset{})
    && r.audits == audits && r.touched == Paths(audits)
    && r.locks == (map path | path in locks && path in r.touched :: locks[path])
    && r.required == Required(c, locks.Keys, r.touched) && r.used == r.locks.Keys - r.required
  }

  method Say(violations: seq<Violation>, b: bool, code: Code, path: string) returns (more: seq<Violation>)
    ensures multiset(more) == multiset(violations) + When(b, code, path)
  {
    more := if b then violations + [Violation(code, path)] else violations;
  }

  method JudgeOwn(c: Context, a: Audit) returns (faults: seq<Violation>)
    ensures multiset(faults) == OwnFaults(c, a)
  {
    faults := Say([], a.path !in c.approved, OutsidePlan, a.path);
    faults := Say(faults, a.act == OtherAct, InvalidAction, a.path);
    faults := Say(faults, a.act == DeleteAct && !c.deleteIntent(a.path), DeleteIntentMissing, a.path);
    faults := Say(faults, a.act == UpdateAct && a.beforeLines >= 30 && a.ratio > 0.55 && !c.broad, BroadRewrite, a.path);
  }

  method JudgeChange(c: Context, seen: set<string>, a: Audit) returns (faults: seq<Violation>)
    ensures multiset(faults) == Faults(c, seen, a)
  {
    if a.path == "" { return [Violation(PathMissing, "")]; }
    var twice := Say([], a.path in seen, DuplicatePath, a.path);
    var own := JudgeOwn(c, a);
    return twice + own;
  }

  lemma {:induction false} PathsGrow(audits: seq<Audit>, a: Audit)
    ensures Paths(audits + [a]) == Paths(audits) + (if a.path != "" then {a.path} else {})
  {
    assert (audits + [a])[|audits|] == a;
  }

  method JudgeChanges(c: Context, audits: seq<Audit>) returns (violations: seq<Violation>)
    ensures multiset(violations) == AllFaults(c, audits)
  {
    violations := [];
    var seen: set<string> := {};
    for i := 0 to |audits|
      invariant multiset(violations) == AllFaults(c, audits[..i]) && seen == Paths(audits[..i])
    {
      var a := audits[i];
      TakeNext(audits, i);
      PathsGrow(audits[..i], a);
      var faults := JudgeChange(c, seen, a);
      violations := violations + faults;
      if a.path != "" {
        seen := seen + {a.path};
      }
    }
    assert audits[..|audits|] == audits;
  }

  method JudgeProtection(c: Context, a: Audit) returns (faults: seq<Violation>)
    ensures multiset(faults) == LockFaults(c, a)
  {
    faults := Say([], a.act == DeleteAct && !c.deleteNamed, ScopeLock, "");
    match c.category(a.path) {
      case None =>
      case Some(name) =>
        var area := Say([], name == SECRET || !c.intended(name), ScopeLock, "");
        faults := faults + area;
    }
  }

  method JudgeScopeLock(c: Context, audits: seq<Audit>) returns (violations: seq<Violation>)
    ensures multiset(violations) == AllLockFaults(c, audits)
  {
    violations := [];
    for i := 0 to |audits|
      invariant multiset(violations) == AllLockFaults(c, audits[..i])
    {
      TakeNext(audits, i);
      var faults := JudgeProtection(c, audits[i]);
      violations := violations + faults;
    }
    assert audits[..|audits|] == audits;
  }

  method JudgeGlobally(c: Context, audits: seq<Audit>) returns (violations: seq<Violation>)
    ensures multiset(violations) == GlobalFaults(c, audits)
  {
    var missing := JudgeMissing(c, audits);
    var wide := JudgeWidth(c, audits);
    violations := missing + wide;
  }

  method JudgeMissing(c: Context, audits: seq<Audit>) returns (violations: seq<Violation>)
    ensures multiset(violations) == MissingFaults(c, audits)
  {
    violations := Say([], !c.hasRequest, RequestMissing, "");
    violations := Say(violations, c.approved == {}, PlanEmpty, "");
    violations := Say(violations, audits == [], DiffEmpty, "");
  }

  method JudgeWidth(c: Context, audits: seq<Audit>) returns (violations: seq<Violation>)
    ensures multiset(violations) == WidthFaults(c, audits)
  {
    violations := Say([], !c.hasRequest, ScopeLock, "");
    violations := Say(violations, audits == [], ScopeLock, "");
    violations := Say(violations, |audits| > 15 && !c.broad, ScopeLock, "");
    violations := Say(violations, |Categories(c, audits)| >= 3 && !c.broad, ScopeLock, "");
  }

  predicate Needs(c: Context, path: string)
  {
    path !in c.overrides && !c.names(path)
  }

  method JudgeLocks(c: Context, touchedLocks: set<string>) returns (violations: seq<Violation>, required: set<string>, used: set<string>)
    ensures required == (set path | path in touchedLocks && Needs(c, path)) && used == touchedLocks - required
    ensures multiset(violations) == RequiredFaults(required)
  {
    violations, required, used := [], {}, {};
    var remaining := touchedLocks;
    while remaining != {}
      invariant remaining <= touchedLocks
      invariant forall path :: path in required <==> path in touchedLocks && path !in remaining && Needs(c, path)
      invariant forall path :: path in used <==> path in touchedLocks && path !in remaining && !Needs(c, path)
      invariant multiset(violations) == RequiredFaults(required)
      decreases |remaining|
    {
      var path :| path in remaining;
      remaining := remaining - {path};
      if !Needs(c, path) {
        used := used + {path};
      } else {
        required := required + {path};
        violations := violations + [Violation(OverrideRequired, path)];
      }
    }
  }

  // Every fault that does not depend on the user's edits.
  method JudgeAll(c: Context, audits: seq<Audit>) returns (violations: seq<Violation>)
    ensures multiset(violations) == GlobalFaults(c, audits) + AllFaults(c, audits) + AllLockFaults(c, audits)
  {
    var global := JudgeGlobally(c, audits);
    var own := JudgeChanges(c, audits);
    var lock := JudgeScopeLock(c, audits);
    violations := global + own + lock;
  }

  method EvaluateScopeIntelligence(c: Context, audits: seq<Audit>, edits: seq<EditEvent>) returns (r: Report, locks: map<string, Lock>)
    ensures (forall path :: path in locks <==> Locked(edits, path)) && Reports(c, audits, locks, r)
  {
    var judged := JudgeAll(c, audits);
    locks := DeriveHumanIntentLocks(edits);
    r := ReportFor(c, audits, locks, judged);
  }

  method ReportFor(c: Context, audits: seq<Audit>, locks: map<string, Lock>, judged: seq<Violation>) returns (r: Report)
    requires multiset(judged) == GlobalFaults(c, audits) + AllFaults(c, audits) + AllLockFaults(c, audits)
    ensures Reports(c, audits, locks, r)
  {
    var touched := Paths(audits);
    var touchedLocks := map path | path in locks && path in touched :: locks[path];
    var human, required, used := JudgeLocks(c, touchedLocks.Keys);
    assert required == Required(c, locks.Keys, touched);
    var violations := judged + human;
    EmptyWhenNone(violations);
    r := Report(violations == [], audits, touched, touchedLocks, required, used, violations);
  }

  lemma {:induction false} EmptyWhenNone(v: seq<Violation>)
    ensures multiset(v) == multiset{} <==> v == []
  {
    if v != [] {
      assert v[0] in multiset(v);
    }
  }

  // ---------------------------------------------------------------- more edits never help

  // Whatever else is seen of the user's edits, a blocked change stays blocked.
  lemma {:induction false} MoreEditsBlockMore(c: Context, audits: seq<Audit>, edits: seq<EditEvent>, more: seq<EditEvent>,
                                              locks: map<string, Lock>, moreLocks: map<string, Lock>, r: Report, s: Report)
    requires multiset(edits) <= multiset(more)
    requires forall path :: path in locks <==> Locked(edits, path)
    requires forall path :: path in moreLocks <==> Locked(more, path)
    requires Reports(c, audits, locks, r) && Reports(c, audits, moreLocks, s)
    ensures s.allowed ==> r.allowed
    ensures r.required <= s.required
  {
    forall path | Locked(edits, path) ensures Locked(more, path) {
      var i :| 0 <= i < |edits| && Counts(edits[i], path);
      assert edits[i] in multiset(more);
    }
    RequiredIsEmpty(s.required);
    RequiredIsEmpty(r.required);
    if s.allowed {
      NothingInTheSum(GlobalFaults(c, audits) + AllFaults(c, audits) + AllLockFaults(c, audits), RequiredFaults(s.required));
      assert GlobalFaults(c, audits) + AllFaults(c, audits) + AllLockFaults(c, audits) + multiset{} == multiset{};
    }
  }

  lemma {:induction false} RequiredIsEmpty(paths: set<string>)
    ensures RequiredFaults(paths) == multiset{} <==> paths == {}
  {
    if paths != {} {
      var path :| path in paths;
      assert Violation(OverrideRequired, path) in RequiredFaults(paths);
    }
  }

  lemma {:induction false} NothingInTheSum(a: multiset<Violation>, b: multiset<Violation>)
    requires a + b == multiset{}
    ensures a == b == multiset{}
  {
    assert |a + b| == |a| + |b|;
  }

  // ---------------------------------------------------------------- order does not matter

  predicate Distinct(audits: seq<Audit>)
  {
    && (forall i :: 0 <= i < |audits| ==> audits[i].path != "")
    && (forall i, j :: 0 <= i < j < |audits| ==> audits[i].path != audits[j].path)
  }

  function Bag(c: Context, audits: seq<Audit>): multiset<Violation>
  {
    if audits == [] then multiset{}
    else Bag(c, audits[..|audits| - 1]) + Alone(c, audits[|audits| - 1])
  }

  // What is wrong with a change whatever else is changed.
  function Alone(c: Context, a: Audit): multiset<Violation>
  {
    OwnFaults(c, a) + LockFaults(c, a)
  }

  // With one change a path, no change is judged by another.
  lemma {:induction false} FaultsAreOwn(c: Context, audits: seq<Audit>)
    requires Distinct(audits)
    ensures AllFaults(c, audits) + AllLockFaults(c, audits) == Bag(c, audits)
  {
    if audits != [] {
      var before, last := audits[..|audits| - 1], audits[|audits| - 1];
      FaultsAreOwn(c, before);
      assert last.path !in Paths(before);
      assert Faults(c, Paths(before), last) == OwnFaults(c, last);
    }
  }

  lemma {:induction false} BagGrows(c: Context, audits: seq<Audit>, a: Audit)
    ensures Bag(c, audits + [a]) == Bag(c, audits) + Alone(c, a)
  {
    assert (audits + [a])[..|audits|] == audits;
  }

  lemma {:induction false} TakeOut(c: Context, audits: seq<Audit>, k: nat)
    requires k < |audits|
    ensures Bag(c, audits) == Bag(c, audits[..k] + audits[k + 1..]) + Alone(c, audits[k])
    decreases |audits|
  {
    var before, last := audits[..|audits| - 1], audits[|audits| - 1];
    if k == |audits| - 1 {
      assert audits[..k] + audits[k + 1..] == before;
    } else {
      var rest := before[..k] + before[k + 1..];
      TakeOut(c, before, k);
      BagGrows(c, rest, last);
      WithoutOne(audits, k);
    }
  }

  lemma {:induction false} WithoutOne(s: seq<Audit>, k: nat)
    requires k < |s| - 1
    ensures s[..k] + s[k + 1..] == s[..|s| - 1][..k] + s[..|s| - 1][k + 1..] + [s[|s| - 1]]
  {
  }

  // One element taken out of equal bags leaves equal bags.
  lemma {:induction false} WithoutLast(a: seq<Audit>, b: seq<Audit>) returns (k: nat)
    requires multiset(a) == multiset(b) && a != []
    ensures k < |b| && b[k] == a[|a| - 1] && multiset(b[..k] + b[k + 1..]) == multiset(a[..|a| - 1])
  {
    var last := a[|a| - 1];
    assert last in multiset(b);
    k :| 0 <= k < |b| && b[k] == last;
    assert multiset(b[..k] + b[k + 1..]) == multiset(b) - multiset{last} by {
      assert b == b[..k] + [b[k]] + b[k + 1..];
    }
    assert multiset(a[..|a| - 1]) == multiset(a) - multiset{last} by {
      assert a == a[..|a| - 1] + [last];
    }
  }

  lemma {:induction false} BagOfReordered(c: Context, a: seq<Audit>, b: seq<Audit>)
    requires multiset(a) == multiset(b)
    ensures Bag(c, a) == Bag(c, b)
    decreases |a|
  {
    assert |a| == |multiset(a)| == |multiset(b)| == |b|;
    if a != [] {
      var k := WithoutLast(a, b);
      BagOfReordered(c, a[..|a| - 1], b[..k] + b[k + 1..]);
      TakeOut(c, b, k);
    }
  }

  lemma {:induction false} SameElements(a: seq<Audit>, b: seq<Audit>)
    requires multiset(a) == multiset(b)
    ensures |a| == |b| && Paths(a) == Paths(b) && forall x :: x in a <==> x in b
  {
    assert |a| == |multiset(a)| == |multiset(b)| == |b|;
    forall x ensures x in a <==> x in b {
      assert x in a <==> x in multiset(a);
      assert x in b <==> x in multiset(b);
    }
  }

  lemma {:induction false} EverythingReordered(c: Context, a: seq<Audit>, b: seq<Audit>, locked: set<string>)
    requires multiset(a) == multiset(b) && Distinct(a) && Distinct(b)
    ensures Everything(c, a, locked) == Everything(c, b, locked)
  {
    SameElements(a, b);
    assert Categories(c, a) == Categories(c, b);
    BagOfReordered(c, a, b);
    FaultsAreOwn(c, a);
    FaultsAreOwn(c, b);
    var tail := RequiredFaults(Required(c, locked, Paths(a)));
    SumOfThree(GlobalFaults(c, a), AllFaults(c, a), AllLockFaults(c, a), tail);
    SumOfThree(GlobalFaults(c, b), AllFaults(c, b), AllLockFaults(c, b), tail);
  }

  lemma {:induction false} SumOfThree(g: multiset<Violation>, a: multiset<Violation>, b: multiset<Violation>, t: multiset<Violation>)
    ensures g + a + b + t == g + (a + b) + t
  {
  }

  // ---------------------------------------------------------------- the fingerprint

  // The stable sort by path; `rank` is the locale's order, which may tie.
  function Insert(rank: string -> int, a: Audit, sorted: seq<Audit>): seq<Audit>
  {
    if sorted != [] && rank(sorted[|sorted| - 1].path) > rank(a.path)
    then Insert(rank, a, sorted[..|sorted| - 1]) + [sorted[|sorted| - 1]]
    else sorted + [a]
  }

  function Sort(rank: string -> int, audits: seq<Audit>): seq<Audit>
  {
    if audits == [] then [] else Insert(rank, audits[|audits| - 1], Sort(rank, audits[..|audits| - 1]))
  }

  // What the fingerprint keeps of a change.
  datatype PrintedAudit = PrintedAudit(path: string, act: Act, touched: nat, ratio: real)

  function PrintOf(a: Audit): PrintedAudit
  {
    PrintedAudit(a.path, a.act, a.touched, a.ratio)
  }

  function Printed(audits: seq<Audit>): (r: seq<PrintedAudit>)
    ensures |r| == |audits| && forall i :: 0 <= i < |r| ==> r[i] == PrintOf(audits[i])
  {
    seq(|audits|, i requires 0 <= i < |audits| => PrintOf(audits[i]))
  }

  datatype Print = Print(
    allowed: bool, touched: set<string>, audits: seq<PrintedAudit>, locks: map<string, Lock>,
    used: set<string>, required: set<string>, codes: multiset<Violation>)

  function Fingerprint(rank: string -> int, r: Report): Print
  {
    Print(r.allowed, r.touched, Printed(Sort(rank, r.audits)), r.locks, r.used, r.required, multiset(r.violations))
  }

  predicate Ordered(rank: string -> int, s: seq<Audit>)
  {
    forall i, j :: 0 <= i < j < |s| ==> rank(s[i].path) <= rank(s[j].path)
  }

  lemma {:induction false} InsertOrders(rank: string -> int, a: Audit, s: seq<Audit>)
    requires Ordered(rank, s)
    ensures Ordered(rank, Insert(rank, a, s)) && multiset(Insert(rank, a, s)) == multiset(s) + multiset{a}
  {
    if s != [] && rank(s[|s| - 1].path) > rank(a.path) {
      var before, last := s[..|s| - 1], s[|s| - 1];
      InsertOrders(rank, a, before);
      assert s == before + [last];
      BelowLast(rank, a, s, Insert(rank, a, before));
      LastIsHighest(rank, Insert(rank, a, before), last);
    }
  }

  lemma {:induction false} BelowLast(rank: string -> int, a: Audit, s: seq<Audit>, r: seq<Audit>)
    requires s != [] && Ordered(rank, s) && rank(a.path) <= rank(s[|s| - 1].path)
    requires multiset(r) == multiset(s[..|s| - 1]) + multiset{a}
    ensures forall i :: 0 <= i < |r| ==> rank(r[i].path) <= rank(s[|s| - 1].path)
  {
    var before := s[..|s| - 1];
    forall i | 0 <= i < |r| ensures rank(r[i].path) <= rank(s[|s| - 1].path) {
      assert r[i] in multiset(r);
      if r[i] != a {
        assert r[i] in multiset(before);
        var k :| 0 <= k < |before| && before[k] == r[i];
        assert s[k] == before[k];
      }
    }
  }

  lemma {:induction false} LastIsHighest(rank: string -> int, r: seq<Audit>, last: Audit)
    requires Ordered(rank, r) && forall i :: 0 <= i < |r| ==> rank(r[i].path) <= rank(last.path)
    ensures Ordered(rank, r + [last])
  {
  }

  lemma {:induction false} SortOrders(rank: string -> int, s: seq<Audit>)
    ensures Ordered(rank, Sort(rank, s)) && multiset(Sort(rank, s)) == multiset(s)
  {
    if s != [] {
      SortOrders(rank, s[..|s| - 1]);
      InsertOrders(rank, s[|s| - 1], Sort(rank, s[..|s| - 1]));
      assert s == s[..|s| - 1] + [s[|s| - 1]];
    }
  }

  // Different changes never tie.
  predicate NoTies(rank: string -> int, s: seq<Audit>)
  {
    forall i, j :: 0 <= i < j < |s| && rank(s[i].path) == rank(s[j].path) ==> s[i] == s[j]
  }

  lemma {:induction false} SameLast(rank: string -> int, a: seq<Audit>, b: seq<Audit>)
    requires Ordered(rank, a) && Ordered(rank, b) && multiset(a) == multiset(b) && NoTies(rank, a) && a != []
    ensures |b| == |a| && b[|b| - 1] == a[|a| - 1]
  {
    SameElements(a, b);
    var x, y := a[|a| - 1], b[|b| - 1];
    assert x in a && y in b;
    var i :| 0 <= i < |b| && b[i] == x;
    var j :| 0 <= j < |a| && a[j] == y;
    assert rank(x.path) <= rank(y.path) && rank(y.path) <= rank(x.path);
  }

  lemma {:induction false} Front(rank: string -> int, a: seq<Audit>) returns (c: seq<Audit>)
    requires a != [] && Ordered(rank, a)
    ensures a == c + [a[|a| - 1]] && Ordered(rank, c) && |c| == |a| - 1 && (NoTies(rank, a) ==> NoTies(rank, c))
  {
    c := a[..|a| - 1];
  }

  // Sorted without ties there is one order.
  lemma {:induction false} OneOrder(rank: string -> int, a: seq<Audit>, b: seq<Audit>)
    requires Ordered(rank, a) && Ordered(rank, b) && multiset(a) == multiset(b) && NoTies(rank, a)
    ensures a == b
    decreases |a|
  {
    SameElements(a, b);
    if a != [] {
      SameLast(rank, a, b);
      var c := Front(rank, a);
      var d := Front(rank, b);
      DropSame(c, d, a[|a| - 1]);
      OneOrder(rank, c, d);
    }
  }

  lemma {:induction false} DropSame(c: seq<Audit>, d: seq<Audit>, x: Audit)
    requires multiset(c + [x]) == multiset(d + [x])
    ensures multiset(c) == multiset(d)
  {
    assert multiset(c) == multiset(c + [x]) - multiset{x};
    assert multiset(d) == multiset(d + [x]) - multiset{x};
  }

  // ---------------------------------------------------------------- ties

  // The changes of one rank, in order.
  function OfRank(rank: string -> int, s: seq<Audit>, k: int): seq<Audit>
  {
    if s == [] then []
    else OfRank(rank, s[..|s| - 1], k) + (if rank(s[|s| - 1].path) == k then [s[|s| - 1]] else [])
  }

  lemma {:induction false} InsertIsStable(rank: string -> int, a: Audit, s: seq<Audit>, k: int)
    requires Ordered(rank, s)
    ensures OfRank(rank, Insert(rank, a, s), k) == OfRank(rank, s, k) + (if rank(a.path) == k then [a] else [])
  {
    if s != [] && rank(s[|s| - 1].path) > rank(a.path) {
      var before, last := s[..|s| - 1], s[|s| - 1];
      InsertIsStable(rank, a, before, k);
      var r := Insert(rank, a, before);
      assert (r + [last])[..|r|] == r;
      if rank(a.path) == k {
        NoneAbove(rank, s, k);
      }
    } else {
      assert (s + [a])[..|s|] == s;
    }
  }

  lemma {:induction false} NoneAbove(rank: string -> int, s: seq<Audit>, k: int)
    requires s != [] && rank(s[|s| - 1].path) > k
    ensures OfRank(rank, s, k) == OfRank(rank, s[..|s| - 1], k)
  {
    assert OfRank(rank, s[..|s| - 1], k) + [] == OfRank(rank, s[..|s| - 1], k);
  }

  // Changes that tie keep the order they came in.
  lemma {:induction false} SortIsStable(rank: string -> int, s: seq<Audit>, k: int)
    ensures OfRank(rank, Sort(rank, s), k) == OfRank(rank, s, k)
  {
    if s != [] {
      SortIsStable(rank, s[..|s| - 1], k);
      SortOrders(rank, s[..|s| - 1]);
      InsertIsStable(rank, s[|s| - 1], Sort(rank, s[..|s| - 1]), k);
    }
  }

  // The sorted list is the same for every order of the changes exactly when no two of them
  // tie in the locale's order.
  lemma {:induction false} OrderMattersOnlyInTies(rank: string -> int, a: seq<Audit>)
    ensures (forall b :: multiset(b) == multiset(a) ==> Sort(rank, b) == Sort(rank, a)) <==> NoTies(rank, a)
  {
    if NoTies(rank, a) {
      forall b | multiset(b) == multiset(a) ensures Sort(rank, b) == Sort(rank, a) {
        SortedAlike(rank, a, b);
      }
    } else {
      var i, j :| 0 <= i < j < |a| && rank(a[i].path) == rank(a[j].path) && a[i] != a[j];
      var b := TieShows(rank, a, i, j);
    }
  }

  lemma {:induction false} TieShows(rank: string -> int, a: seq<Audit>, i: nat, j: nat) returns (b: seq<Audit>)
    requires i < j < |a| && rank(a[i].path) == rank(a[j].path) && a[i] != a[j]
    ensures multiset(b) == multiset(a) && Sort(rank, b) != Sort(rank, a)
  {
    b := a[i := a[j]][j := a[i]];
    var k := rank(a[i].path);
    SwapShows(rank, a, b, i, j);
    SortIsStable(rank, a, k);
    SortIsStable(rank, b, k);
  }

  lemma {:induction false} SortedAlike(rank: string -> int, a: seq<Audit>, b: seq<Audit>)
    requires multiset(b) == multiset(a) && NoTies(rank, a)
    ensures Sort(rank, b) == Sort(rank, a)
  {
    SortOrders(rank, a);
    SortOrders(rank, b);
    TiesReordered(rank, a, Sort(rank, a));
    OneOrder(rank, Sort(rank, a), Sort(rank, b));
  }

  lemma {:induction false} TiesReordered(rank: string -> int, a: seq<Audit>, b: seq<Audit>)
    requires multiset(b) == multiset(a) && NoTies(rank, a)
    ensures NoTies(rank, b)
  {
    SameElements(a, b);
    forall i, j | 0 <= i < j < |b| && rank(b[i].path) == rank(b[j].path) ensures b[i] == b[j] {
      assert b[i] in b && b[j] in b;
      var p :| 0 <= p < |a| && a[p] == b[i];
      var q :| 0 <= q < |a| && a[q] == b[j];
    }
  }

  // Exchanging two changes of a rank shows in the list of that rank.
  lemma {:induction false} SwapShows(rank: string -> int, a: seq<Audit>, b: seq<Audit>, i: nat, j: nat)
    requires i < j < |a| && |b| == |a| && rank(a[i].path) == rank(b[i].path) && a[i] != b[i]
    requires forall k :: 0 <= k < i ==> a[k] == b[k]
    requires forall k :: 0 <= k < |a| ==> rank(a[k].path) == rank(b[k].path)
    ensures OfRank(rank, a, rank(a[i].path)) != OfRank(rank, b, rank(a[i].path))
  {
    var k := rank(a[i].path);
    assert a[..i] == b[..i];
    var n := |OfRank(rank, a[..i], k)|;
    AtPosition(rank, a, i, |a|);
    AtPosition(rank, b, i, |b|);
    assert a[..|a|] == a && b[..|b|] == b;
  }

  lemma {:induction false} AtPosition(rank: string -> int, s: seq<Audit>, i: nat, m: nat)
    requires i < m <= |s|
    ensures var k := rank(s[i].path);
            var n := |OfRank(rank, s[..i], k)|;
            n < |OfRank(rank, s[..m], k)| && OfRank(rank, s[..m], k)[n] == s[i]
    decreases m
  {
    assert s[..m][..m - 1] == s[..m - 1];
    if i < m - 1 {
      AtPosition(rank, s, i, m - 1);
    }
  }

  // The fingerprint of changes to distinct paths that do not tie does not depend on their
  // order.
  lemma {:induction false} FingerprintIsCanonical(rank: string -> int, c: Context, a: seq<Audit>, b: seq<Audit>, locks: map<string, Lock>)
    requires multiset(a) == multiset(b) && Distinct(a) && Distinct(b) && NoTies(rank, a)
    ensures forall r, s :: Reports(c, a, locks, r) && Reports(c, b, locks, s) ==> Fingerprint(rank, r) == Fingerprint(rank, s)
  {
    EverythingReordered(c, a, b, locks.Keys);
    SameElements(a, b);
    SortedAlike(rank, a, b);
    forall r, s | Reports(c, a, locks, r) && Reports(c, b, locks, s) ensures Fingerprint(rank, r) == Fingerprint(rank, s) {
    }
  }

  lemma {:induction false} PrintedAlike(rank: string -> int, audits: seq<Audit>, p: PrintedAudit)
    ensures p in Printed(Sort(rank, audits)) <==> exists i :: 0 <= i < |audits| && PrintOf(audits[i]) == p
  {
    SortOrders(rank, audits);
    var sorted := Sort(rank, audits);
    if p in Printed(sorted) {
      var j :| 0 <= j < |sorted| && Printed(sorted)[j] == p;
      assert sorted[j] in multiset(sorted) && sorted[j] in multiset(audits);
      var i :| 0 <= i < |audits| && audits[i] == sorted[j];
      assert PrintOf(audits[i]) == p;
    }
    if i :| 0 <= i < |audits| && PrintOf(audits[i]) == p {
      assert audits[i] in multiset(audits) && audits[i] in multiset(sorted);
      var j :| 0 <= j < |sorted| && sorted[j] == audits[i];
      assert Printed(sorted)[j] == p;
    }
  }

  // Nothing that counts escapes the fingerprint: reports with the same one agree on the
  // verdict, the paths, the changes with their actions and sizes, the user's locks and what
  // was done about them, and every violation.
  lemma {:induction false} FingerprintTells(rank: string -> int, r: Report, s: Report)
    requires Fingerprint(rank, r) == Fingerprint(rank, s)
    ensures r.allowed == s.allowed && r.touched == s.touched && r.locks == s.locks && r.used == s.used && r.required == s.required
    ensures multiset(r.violations) == multiset(s.violations) && |r.audits| == |s.audits|
    ensures forall i :: 0 <= i < |r.audits| ==>
              exists j :: 0 <= j < |s.audits| && s.audits[j].path == r.audits[i].path && s.audits[j].act == r.audits[i].act
                          && s.audits[j].touched == r.audits[i].touched && s.audits[j].ratio == r.audits[i].ratio
  {
    SortOrders(rank, r.audits);
    SortOrders(rank, s.audits);
    assert |multiset(r.audits)| == |Printed(Sort(rank, r.audits))| && |multiset(s.audits)| == |Printed(Sort(rank, s.audits))|;
    forall i | 0 <= i < |r.audits|
      ensures exists j :: 0 <= j < |s.audits| && s.audits[j].path == r.audits[i].path && s.audits[j].act == r.audits[i].act
                          && s.audits[j].touched == r.audits[i].touched && s.audits[j].ratio == r.audits[i].ratio
    {
      PrintedAlike(rank, r.audits, PrintOf(r.audits[i]));
      PrintedAlike(rank, s.audits, PrintOf(r.audits[i]));
      var j :| 0 <= j < |s.audits| && PrintOf(s.audits[j]) == PrintOf(r.audits[i]);
      assert s.audits[j].path == r.audits[i].path && s.audits[j].act == r.audits[i].act;
    }
  }
}
