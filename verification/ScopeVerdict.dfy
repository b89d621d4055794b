// What a scope report says, in the terms of the change itself: which violation is reported
// when, and when the change is allowed.
module ScopeVerdict {
  import opened Common
  import opened Scope

  // ---------------------------------------------------------------- the violations

  // The request itself, the plan and the diff.
  predicate Missing(c: Context, audits: seq<Audit>, code: Code)
  {
    match code
    case RequestMissing => !c.hasRequest
    case PlanEmpty => c.approved == {}
    case DiffEmpty => audits == []
    case PathMissing => exists i :: 0 <= i < |audits| && audits[i].path == ""
    case _ => false
  }

  // A change to `path`.
  predicate Wrong(c: Context, audits: seq<Audit>, code: Code, path: string)
  {
    match code
    case DuplicatePath => exists i, j :: 0 <= i < j < |audits| && audits[i].path == path && audits[j].path == path
    case OutsidePlan => path !in c.approved && exists i :: 0 <= i < |audits| && audits[i].path == path
    case InvalidAction => exists i :: 0 <= i < |audits| && audits[i].path == path && audits[i].act == OtherAct
    case DeleteIntentMissing =>
      !c.deleteIntent(path) && exists i :: 0 <= i < |audits| && audits[i].path == path && audits[i].act == DeleteAct
    case BroadRewrite =>
      !c.broad && exists i :: 0 <= i < |audits| && audits[i].path == path && audits[i].act == UpdateAct
                              && audits[i].beforeLines >= 30 && audits[i].ratio > 0.55
    case _ => false
  }

  // The distinct protected areas a change touches, secrets apart.
  predicate Touches(c: Context, audits: seq<Audit>, area: string)
  {
    area != "secret-file" && exists i :: 0 <= i < |audits| && c.category(audits[i].path) == Some(area)
  }

  // The scope lock: no request, nothing changed, too wide without a broad request, a delete
  // not named, a secret, or an area nobody asked for.
  ghost predicate LockedOut(c: Context, audits: seq<Audit>)
  {
    || !c.hasRequest || audits == []
    || (!c.broad && |audits| > 15)
    || (!c.broad && exists areas: set<string> :: |areas| >= 3 && forall area :: area in areas ==> Touches(c, audits, area))
    || (!c.deleteNamed && exists i :: 0 <= i < |audits| && audits[i].act == DeleteAct)
    || exists i :: 0 <= i < |audits| && c.category(audits[i].path).Some?
                   && (c.category(audits[i].path).value == "secret-file" || !c.intended(c.category(audits[i].path).value))
  }

  // A path the user edited lately, changed without being named or overridden.
  predicate Overrides(c: Context, audits: seq<Audit>, locks: map<string, Lock>, path: string)
  {
    path in locks && path !in c.overrides && !c.names(path) && exists i :: 0 <= i < |audits| && audits[i].path == path
  }

  ghost predicate Faulty(c: Context, audits: seq<Audit>, locks: map<string, Lock>, v: Violation)
  {
    match v.code
    case ScopeLock => v.path == "" && LockedOut(c, audits)
    case OverrideRequired => v.path != "" && Overrides(c, audits, locks, v.path)
    case _ => (v.path == "" && Missing(c, audits, v.code)) || (v.path != "" && Wrong(c, audits, v.code, v.path))
  }

  // ---------------------------------------------------------------- one change

  lemma {:induction false} InWhen(b: bool, code: Code, path: string, v: Violation)
    ensures v in When(b, code, path) <==> b && v == Violation(code, path)
  {
  }

  lemma {:induction false} InOwnFaults(c: Context, a: Audit, v: Violation)
    ensures v in OwnFaults(c, a) <==>
            || (v == Violation(OutsidePlan, a.path) && a.path !in c.approved)
            || (v == Violation(InvalidAction, a.path) && a.act == OtherAct)
            || (v == Violation(DeleteIntentMissing, a.path) && a.act == DeleteAct && !c.deleteIntent(a.path))
            || (v == Violation(BroadRewrite, a.path) && a.act == UpdateAct && a.beforeLines >= 30 && a.ratio > 0.55 && !c.broad)
  {
    InWhen(a.path !in c.approved, OutsidePlan, a.path, v);
    InWhen(a.act == OtherAct, InvalidAction, a.path, v);
    InWhen(a.act == DeleteAct && !c.deleteIntent(a.path), DeleteIntentMissing, a.path, v);
    InWhen(a.act == UpdateAct && a.beforeLines >= 30 && a.ratio > 0.55 && !c.broad, BroadRewrite, a.path, v);
  }

  // A change with this fault, judged after those before it.
  predicate FaultAfter(c: Context, before: seq<Audit>, a: Audit, v: Violation)
  {
    if a.path == "" then v == Violation(PathMissing, "")
    else
      || (v == Violation(DuplicatePath, a.path) && exists j :: 0 <= j < |before| && before[j].path == a.path)
      || (v == Violation(OutsidePlan, a.path) && a.path !in c.approved)
      || (v == Violation(InvalidAction, a.path) && a.act == OtherAct)
      || (v == Violation(DeleteIntentMissing, a.path) && a.act == DeleteAct && !c.deleteIntent(a.path))
      || (v == Violation(BroadRewrite, a.path) && a.act == UpdateAct && a.beforeLines >= 30 && a.ratio > 0.55 && !c.broad)
  }

  lemma {:induction false} InFaults(c: Context, before: seq<Audit>, a: Audit, v: Violation)
    ensures v in Faults(c, Paths(before), a) <==> FaultAfter(c, before, a, v)
  {
    if a.path != "" {
      InOwnFaults(c, a, v);
      InWhen(a.path in Paths(before), DuplicatePath, a.path, v);
      SeenBefore(before, a.path);
    }
  }

  lemma {:induction false} SeenBefore(audits: seq<Audit>, path: string)
    requires path != ""
    ensures path in Paths(audits) <==> exists j :: 0 <= j < |audits| && audits[j].path == path
  {
    if path in Paths(audits) {
      var a :| a in audits && a.path == path;
      var j :| 0 <= j < |audits| && audits[j] == a;
      assert audits[j].path == path;
    }
    if j :| 0 <= j < |audits| && audits[j].path == path {
      assert audits[j] in audits;
    }
  }

  predicate FaultAt(c: Context, audits: seq<Audit>, i: nat, v: Violation)
    requires i < |audits|
  {
    FaultAfter(c, audits[..i], audits[i], v)
  }

  predicate SomeFault(c: Context, audits: seq<Audit>, v: Violation)
  {
    exists i :: 0 <= i < |audits| && FaultAt(c, audits, i, v)
  }

  lemma {:induction false} SomeFaultMore(c: Context, before: seq<Audit>, a: Audit, v: Violation)
    ensures SomeFault(c, before + [a], v) <==> SomeFault(c, before, v) || FaultAfter(c, before, a, v)
  {
    var all := before + [a];
    assert all[..|before|] == before && all[|before|] == a;
    assert forall i :: 0 <= i < |before| ==> all[..i] == before[..i] && all[i] == before[i];
    if i :| 0 <= i < |all| && FaultAt(c, all, i, v) {
      assert i < |before| ==> FaultAt(c, before, i, v);
    }
    if i :| 0 <= i < |before| && FaultAt(c, before, i, v) {
      assert FaultAt(c, all, i, v);
    }
    if FaultAfter(c, before, a, v) {
      assert FaultAt(c, all, |before|, v);
    }
  }

  // The changes in order.
  lemma {:induction false} InAllFaults(c: Context, audits: seq<Audit>, v: Violation)
    ensures v in AllFaults(c, audits) <==> SomeFault(c, audits, v)
  {
    if audits != [] {
      var before, a := audits[..|audits| - 1], audits[|audits| - 1];
      assert audits == before + [a];
      InAllFaults(c, before, v);
      InFaults(c, before, a, v);
      SomeFaultMore(c, before, a, v);
      InSum(AllFaults(c, before), Faults(c, Paths(before), a), v);
    }
  }

  lemma {:induction false} InSum(a: multiset<Violation>, b: multiset<Violation>, v: Violation)
    ensures v in a + b <==> v in a || v in b
  {
  }

  lemma {:induction false} OneChange(c: Context, audits: seq<Audit>, locks: map<string, Lock>, v: Violation)
    requires v.code !in {ScopeLock, OverrideRequired, RequestMissing, PlanEmpty, DiffEmpty}
    ensures SomeFault(c, audits, v) <==> Faulty(c, audits, locks, v)
  {
    if i :| 0 <= i < |audits| && FaultAt(c, audits, i, v) {
      FaultIsFaulty(c, audits, locks, i, v);
    }
    if Faulty(c, audits, locks, v) {
      var i := FaultyIsFault(c, audits, locks, v);
    }
  }

  lemma {:induction false} FaultIsFaulty(c: Context, audits: seq<Audit>, locks: map<string, Lock>, i: nat, v: Violation)
    requires i < |audits| && FaultAt(c, audits, i, v)
    ensures Faulty(c, audits, locks, v)
  {
    assert audits[i].path == v.path;
    if v.code == DuplicatePath {
      var j :| 0 <= j < i && audits[j].path == v.path;
    }
  }

  lemma {:induction false} FaultyIsFault(c: Context, audits: seq<Audit>, locks: map<string, Lock>, v: Violation) returns (i: nat)
    requires v.code !in {ScopeLock, OverrideRequired, RequestMissing, PlanEmpty, DiffEmpty} && Faulty(c, audits, locks, v)
    ensures i < |audits| && FaultAt(c, audits, i, v)
  {
    match v.code {
      case PathMissing => i :| 0 <= i < |audits| && audits[i].path == "";
      case DuplicatePath =>
        var j;
        j, i :| 0 <= j < i < |audits| && audits[j].path == v.path && audits[i].path == v.path;
      case OutsidePlan => i :| 0 <= i < |audits| && audits[i].path == v.path;
      case InvalidAction => i :| 0 <= i < |audits| && audits[i].path == v.path && audits[i].act == OtherAct;
      case DeleteIntentMissing => i :| 0 <= i < |audits| && audits[i].path == v.path && audits[i].act == DeleteAct;
      case BroadRewrite =>
        i :| 0 <= i < |audits| && audits[i].path == v.path && audits[i].act == UpdateAct
          && audits[i].beforeLines >= 30 && audits[i].ratio > 0.55;
    }
  }

  // ---------------------------------------------------------------- the scope lock

  predicate LockFaultAt(c: Context, audits: seq<Audit>, i: nat)
    requires i < |audits|
  {
    || (audits[i].act == DeleteAct && !c.deleteNamed)
    || (c.category(audits[i].path).Some?
        && (c.category(audits[i].path).value == "secret-file" || !c.intended(c.category(audits[i].path).value)))
  }

  lemma {:induction false} InLockFaults(c: Context, audits: seq<Audit>, i: nat, v: Violation)
    requires i < |audits|
    ensures v in LockFaults(c, audits[i]) <==> v == Violation(ScopeLock, "") && LockFaultAt(c, audits, i)
  {
    var a := audits[i];
    InWhen(a.act == DeleteAct && !c.deleteNamed, ScopeLock, "", v);
    if c.category(a.path).Some? {
      var name := c.category(a.path).value;
      InWhen(name == SECRET || !c.intended(name), ScopeLock, "", v);
    }
  }

  predicate SomeLockFault(c: Context, audits: seq<Audit>)
  {
    exists i :: 0 <= i < |audits| && LockFaultAt(c, audits, i)
  }

  lemma {:induction false} InAllLockFaults(c: Context, audits: seq<Audit>, v: Violation)
    ensures v in AllLockFaults(c, audits) <==> v == Violation(ScopeLock, "") && SomeLockFault(c, audits)
  {
    if audits != [] {
      var before, last := audits[..|audits| - 1], |audits| - 1;
      InAllLockFaults(c, before, v);
      InLockFaults(c, audits, last, v);
      InSum(AllLockFaults(c, before), LockFaults(c, audits[last]), v);
      SomeLockFaultMore(c, audits);
    }
  }

  lemma {:induction false} SomeLockFaultMore(c: Context, audits: seq<Audit>)
    requires audits != []
    ensures SomeLockFault(c, audits) <==> SomeLockFault(c, audits[..|audits| - 1]) || LockFaultAt(c, audits, |audits| - 1)
  {
    var before := audits[..|audits| - 1];
    if i :| 0 <= i < |audits| && LockFaultAt(c, audits, i) {
      assert i < |before| ==> LockFaultAt(c, before, i);
    }
    if i :| 0 <= i < |before| && LockFaultAt(c, before, i) {
      assert LockFaultAt(c, audits, i);
    }
  }

  lemma {:induction false} InMissing(c: Context, audits: seq<Audit>, v: Violation)
    ensures v in MissingFaults(c, audits) <==>
            v.path == "" && v.code in {RequestMissing, PlanEmpty, DiffEmpty} && Missing(c, audits, v.code)
  {
    InWhen(!c.hasRequest, RequestMissing, "", v);
    InWhen(c.approved == {}, PlanEmpty, "", v);
    InWhen(audits == [], DiffEmpty, "", v);
  }

  predicate TooWide(c: Context, audits: seq<Audit>)
  {
    !c.hasRequest || audits == [] || (|audits| > 15 && !c.broad) || (|Categories(c, audits)| >= 3 && !c.broad)
  }

  lemma {:induction false} InWidth(c: Context, audits: seq<Audit>, v: Violation)
    ensures v in WidthFaults(c, audits) <==> v == Violation(ScopeLock, "") && TooWide(c, audits)
  {
    InWhen(!c.hasRequest, ScopeLock, "", v);
    InWhen(audits == [], ScopeLock, "", v);
    InWhen(|audits| > 15 && !c.broad, ScopeLock, "", v);
    InWhen(|Categories(c, audits)| >= 3 && !c.broad, ScopeLock, "", v);
  }

  lemma {:induction false} TouchedAreas(c: Context, audits: seq<Audit>)
    ensures |Categories(c, audits)| >= 3 <==>
            exists areas: set<string> :: |areas| >= 3 && forall area :: area in areas ==> Touches(c, audits, area)
  {
    var all := Categories(c, audits);
    forall area ensures area in all <==> Touches(c, audits, area) {
      AreaIsTouched(c, audits, area);
    }
    if areas: set<string> :| |areas| >= 3 && forall area :: area in areas ==> Touches(c, audits, area) {
      SubsetIsSmaller(areas, all);
    }
  }

  lemma {:induction false} AreaIsTouched(c: Context, audits: seq<Audit>, area: string)
    ensures area in Categories(c, audits) <==> Touches(c, audits, area)
  {
    if area in Categories(c, audits) {
      var a :| a in audits && c.category(a.path) == Some(area) && area != SECRET;
      var i :| 0 <= i < |audits| && audits[i] == a;
      assert c.category(audits[i].path) == Some(area);
    }
    if Touches(c, audits, area) {
      var i :| 0 <= i < |audits| && c.category(audits[i].path) == Some(area);
      assert audits[i] in audits;
    }
  }

  lemma {:induction false} SubsetIsSmaller(a: set<string>, b: set<string>)
    requires a <= b
    ensures |a| <= |b|
  {
    assert b == a + (b - a);
  }

  lemma {:induction false} LockExactly(c: Context, audits: seq<Audit>)
    ensures LockedOut(c, audits) <==> TooWide(c, audits) || SomeLockFault(c, audits)
  {
    TouchedAreas(c, audits);
    if i :| 0 <= i < |audits| && audits[i].act == DeleteAct {
      assert !c.deleteNamed ==> LockFaultAt(c, audits, i);
    }
    if i :| 0 <= i < |audits| && c.category(audits[i].path).Some?
            && (c.category(audits[i].path).value == "secret-file" || !c.intended(c.category(audits[i].path).value)) {
      assert LockFaultAt(c, audits, i);
    }
  }

  // ---------------------------------------------------------------- the whole report

  lemma {:induction false} InRequired(c: Context, audits: seq<Audit>, locks: map<string, Lock>, v: Violation)
    ensures v in RequiredFaults(Required(c, locks.Keys, Paths(audits))) <==>
            v.code == OverrideRequired && v.path != "" && Overrides(c, audits, locks, v.path)
  {
    var required := Required(c, locks.Keys, Paths(audits));
    assert v in RequiredFaults(required) <==> v.code == OverrideRequired && v.path in required;
    if v.path != "" {
      SeenBefore(audits, v.path);
    }
  }

  // A violation is reported exactly where the change is wrong in that way.
  lemma {:induction false} ViolationsExactly(c: Context, audits: seq<Audit>, locks: map<string, Lock>, r: Report, v: Violation)
    requires Reports(c, audits, locks, r)
    ensures v in r.violations <==> Faulty(c, audits, locks, v)
  {
    InEverything(c, audits, locks, v);
    InAllFaults(c, audits, v);
    InAllLockFaults(c, audits, v);
    InMissing(c, audits, v);
    InWidth(c, audits, v);
    InRequired(c, audits, locks, v);
    LockExactly(c, audits);
    if v.code !in {ScopeLock, OverrideRequired, RequestMissing, PlanEmpty, DiffEmpty} {
      OneChange(c, audits, locks, v);
    } else {
      NoFaultAt(c, audits, v);
    }
  }

  lemma {:induction false} InEverything(c: Context, audits: seq<Audit>, locks: map<string, Lock>, v: Violation)
    ensures v in Everything(c, audits, locks.Keys) <==>
            || v in MissingFaults(c, audits) || v in WidthFaults(c, audits) || v in AllFaults(c, audits) || v in AllLockFaults(c, audits)
            || v in RequiredFaults(Required(c, locks.Keys, Paths(audits)))
  {
    InSum(MissingFaults(c, audits), WidthFaults(c, audits), v);
    InSum(GlobalFaults(c, audits), AllFaults(c, audits), v);
    InSum(GlobalFaults(c, audits) + AllFaults(c, audits), AllLockFaults(c, audits), v);
  }

  lemma {:induction false} NoFaultAt(c: Context, audits: seq<Audit>, v: Violation)
    requires v.code in {ScopeLock, OverrideRequired, RequestMissing, PlanEmpty, DiffEmpty}
    ensures !SomeFault(c, audits, v)
  {
  }

  // There is a request, a plan and a diff; every path is there, once, and approved; every
  // action is a known one; every delete is asked for; no long file is rewritten without a
  // broad request; the scope lock is content; and whatever the user edited lately is named
  // or overridden.
  ghost predicate InOrder(c: Context, audits: seq<Audit>, locks: map<string, Lock>)
  {
    && c.hasRequest && c.approved != {} && audits != []
    && (forall i :: 0 <= i < |audits| ==> audits[i].path != "" && audits[i].path in c.approved)
    && (forall i, j :: 0 <= i < j < |audits| ==> audits[i].path != audits[j].path)
    && (forall i :: 0 <= i < |audits| ==> audits[i].act != OtherAct)
    && (forall i :: 0 <= i < |audits| && audits[i].act == DeleteAct ==> c.deleteIntent(audits[i].path))
    && (forall i :: 0 <= i < |audits| && audits[i].act == UpdateAct && audits[i].beforeLines >= 30 && audits[i].ratio > 0.55 ==> c.broad)
    && !LockedOut(c, audits)
    && (forall i :: 0 <= i < |audits| && audits[i].path in locks ==> audits[i].path in c.overrides || c.names(audits[i].path))
  }

  // A change is allowed if and only if it is in order.
  lemma {:induction false} AllowedExactly(c: Context, audits: seq<Audit>, locks: map<string, Lock>, r: Report)
    requires Reports(c, audits, locks, r)
    ensures r.allowed <==> InOrder(c, audits, locks)
  {
    NoneReported(c, audits, locks, r);
    if r.allowed {
      Clean(c, audits, locks);
    } else {
      var v :| Faulty(c, audits, locks, v);
      NotClean(c, audits, locks, v);
    }
  }

  lemma {:induction false} NoneReported(c: Context, audits: seq<Audit>, locks: map<string, Lock>, r: Report)
    requires Reports(c, audits, locks, r)
    ensures r.allowed <==> forall v :: !Faulty(c, audits, locks, v)
  {
    EmptyWhenNone(r.violations);
    forall v ensures v in r.violations <==> Faulty(c, audits, locks, v) {
      ViolationsExactly(c, audits, locks, r, v);
    }
    if !r.allowed {
      assert r.violations[0] in r.violations;
    }
  }

  lemma {:induction false} NotClean(c: Context, audits: seq<Audit>, locks: map<string, Lock>, v: Violation)
    requires Faulty(c, audits, locks, v)
    ensures !InOrder(c, audits, locks)
  {
  }

  lemma {:induction false} Clean(c: Context, audits: seq<Audit>, locks: map<string, Lock>)
    requires forall v :: !Faulty(c, audits, locks, v)
    ensures InOrder(c, audits, locks)
  {
    assert !Faulty(c, audits, locks, Violation(RequestMissing, "")) && !Faulty(c, audits, locks, Violation(PlanEmpty, ""));
    assert !Faulty(c, audits, locks, Violation(DiffEmpty, "")) && !Faulty(c, audits, locks, Violation(PathMissing, ""));
    assert !Faulty(c, audits, locks, Violation(ScopeLock, ""));
    forall i | 0 <= i < |audits|
      ensures audits[i].path in c.approved && audits[i].act != OtherAct
      ensures audits[i].act == DeleteAct ==> c.deleteIntent(audits[i].path)
      ensures audits[i].act == UpdateAct && audits[i].beforeLines >= 30 && audits[i].ratio > 0.55 ==> c.broad
      ensures audits[i].path in locks ==> audits[i].path in c.overrides || c.names(audits[i].path)
    {
      var path := audits[i].path;
      assert path != "";
      assert !Faulty(c, audits, locks, Violation(OutsidePlan, path)) && !Faulty(c, audits, locks, Violation(InvalidAction, path));
      assert !Faulty(c, audits, locks, Violation(DeleteIntentMissing, path)) && !Faulty(c, audits, locks, Violation(BroadRewrite, path));
      assert !Faulty(c, audits, locks, Violation(OverrideRequired, path));
    }
    forall i, j | 0 <= i < j < |audits| ensures audits[i].path != audits[j].path {
      assert !Faulty(c, audits, locks, Violation(DuplicatePath, audits[i].path));
    }
  }
}
