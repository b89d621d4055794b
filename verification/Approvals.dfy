// Approval transactions: a plan is frozen on a head, files are prepared for it, and an
// apply publishes them. Requests of one transaction run concurrently - every await is a
// point where others go on - and may die at any of those points.
module Approvals {
  import opened Common
  import opened Git
  import opened Text
  import opened ShadowDelta
  import opened GuardedCommit

  // ---------------------------------------------------------------- the prepared files

  // A prepared file as the whitelist check records it.
  datatype Prepared = Prepared(path: string, action: ActionWord)

  function Normalized(files: seq<PlanFile>): (prepared: seq<Prepared>)
    ensures |prepared| == |files|
    ensures forall i {:trigger prepared[i]} :: 0 <= i < |files| ==> prepared[i] == Prepared(NormalizePath(files[i].path), files[i].action)
  {
    seq(|files|, i requires 0 <= i < |files| => Prepared(NormalizePath(files[i].path), files[i].action))
  }

  predicate Whitelisted(allowed: set<string>, p: Prepared)
  {
    p.path != "" && p.path in allowed && p.action in {CreateFile, UpdateFile, DeleteFile}
  }

  // Nothing empty, nothing twice, nothing off the list, no unknown action.
  predicate WithinPlan(allowed: set<string>, prepared: seq<Prepared>)
  {
    prepared != [] && NoFault(allowed, prepared)
  }

  predicate NoFault(allowed: set<string>, prepared: seq<Prepared>)
  {
    && (forall i :: 0 <= i < |prepared| ==> Whitelisted(allowed, prepared[i]))
    && (forall i, j :: 0 <= i < j < |prepared| ==> prepared[i].path != prepared[j].path)
  }

  datatype PlanViolation =
    | WithoutPath | DuplicatePath(path: string) | OutsideWhitelist(path: string) | BadAction(path: string) | Empty

  // What is wrong with the list, one fault at a time.
  predicate Faulty(allowed: set<string>, all: seq<Prepared>, v: PlanViolation)
  {
    match v
    case WithoutPath => exists i :: 0 <= i < |all| && all[i].path == ""
    case DuplicatePath(path) => path != "" && exists i, j :: 0 <= i < j < |all| && all[i].path == path && all[j].path == path
    case OutsideWhitelist(path) => path != "" && path !in allowed && exists i :: 0 <= i < |all| && all[i].path == path
    case BadAction(path) => path != "" && exists i :: 0 <= i < |all| && all[i].path == path && all[i].action !in {CreateFile, UpdateFile, DeleteFile}
    case Empty => forall i :: 0 <= i < |all| ==> all[i].path == ""
  }

  // The faults of one file with a path.
  method CheckPrepared(p: Prepared, seen: set<string>, allowed: set<string>) returns (violations: seq<PlanViolation>)
    requires p.path != ""
    ensures violations == [] <==> p.path !in seen && Whitelisted(allowed, p)
    ensures forall v :: v in violations <==>
              || (v == DuplicatePath(p.path) && p.path in seen)
              || (v == OutsideWhitelist(p.path) && p.path !in allowed)
              || (v == BadAction(p.path) && p.action !in {CreateFile, UpdateFile, DeleteFile})
  {
    violations := [];
    if p.path in seen {
      violations := violations + [DuplicatePath(p.path)];
    }
    if p.path !in allowed {
      violations := violations + [OutsideWhitelist(p.path)];
    }
    if p.action !in {CreateFile, UpdateFile, DeleteFile} {
      violations := violations + [BadAction(p.path)];
    }
  }

  // What one file more adds to the faults.
  lemma {:induction false} FaultsGrow(allowed: set<string>, before: seq<Prepared>, p: Prepared, v: PlanViolation)
    requires v != Empty
    ensures Faulty(allowed, before + [p], v) <==>
            || Faulty(allowed, before, v)
            || (p.path == "" && v == WithoutPath)
            || (p.path != "" && v == DuplicatePath(p.path) && p.path in Paths(before))
            || (p.path != "" && v == OutsideWhitelist(p.path) && p.path !in allowed)
            || (p.path != "" && v == BadAction(p.path) && p.action !in {CreateFile, UpdateFile, DeleteFile})
  {
    var all := before + [p];
    assert all[|before|] == p && forall j :: 0 <= j < |before| ==> all[j] == before[j];
    if v.DuplicatePath? {
      DuplicatesGrow(before, p, v.path);
    }
  }

  lemma {:induction false} DuplicatesGrow(before: seq<Prepared>, p: Prepared, path: string)
    ensures var all := before + [p];
            (exists i, j :: 0 <= i < j < |all| && all[i].path == path && all[j].path == path) <==>
            || (exists i, j :: 0 <= i < j < |before| && before[i].path == path && before[j].path == path)
            || (p.path == path && path in Paths(before))
  {
    var all := before + [p];
    assert all[|before|] == p && forall j :: 0 <= j < |before| ==> all[j] == before[j];
    if i, j :| 0 <= i < j < |all| && all[i].path == path && all[j].path == path {
      assert before[i] in before;
      assert j < |before| ==> before[j].path == path;
    }
    if i, j :| 0 <= i < j < |before| && before[i].path == path && before[j].path == path {
      assert all[i].path == path && all[j].path == path;
    }
    if p.path == path && path in Paths(before) {
      var i :| 0 <= i < |before| && before[i].path == path;
      assert all[i].path == path && all[|before|].path == path;
    }
  }

  // The check of a prepared file list, read in normalised form. Every fault is reported, and
  // nothing else.
  method ValidatePreparedFiles(all: seq<Prepared>, allowed: set<string>)
    returns (violations: seq<PlanViolation>, normalized: seq<Prepared>)
    ensures violations == [] <==> WithinPlan(allowed, all)
    ensures violations == [] ==> normalized == all
    ensures forall v :: v in violations <==> Faulty(allowed, all, v)
  {
    violations, normalized := [], [];
    var seen: set<string> := {};
    for i := 0 to |all|
      invariant seen == Paths(all[..i]) - {""}
      invariant violations == [] ==> normalized == all[..i]
      invariant violations == [] <==> NoFault(allowed, all[..i])
      invariant normalized == [] <==> Faulty(allowed, all[..i], Empty)
      invariant forall v :: v in violations <==> v != Empty && Faulty(allowed, all[..i], v)
    {
      var p := all[i];
      TakeNext(all, i);
      PlanGrows(allowed, all[..i], p);
      EmptyGrows(allowed, all[..i], p);
      var faults := [WithoutPath];
      if p.path != "" {
        faults := CheckPrepared(p, seen, allowed);
      }
      forall v | v != Empty ensures v in violations + faults <==> Faulty(allowed, all[..i + 1], v) {
        FaultsGrow(allowed, all[..i], p, v);
      }
      violations := violations + faults;
      if p.path == "" { continue; }
      seen := seen + {p.path};
      normalized := normalized + [p];
    }
    assert all[..|all|] == all;
    if normalized == [] {
      violations := violations + [Empty];
    }
  }

  lemma {:induction false} EmptyGrows(allowed: set<string>, before: seq<Prepared>, p: Prepared)
    ensures Faulty(allowed, before + [p], Empty) <==> Faulty(allowed, before, Empty) && p.path == ""
  {
    var all := before + [p];
    assert all[|before|] == p && forall j :: 0 <= j < |before| ==> all[j] == before[j];
  }

  ghost function Paths(prepared: seq<Prepared>): set<string>
  {
    set p | p in prepared :: p.path
  }

  lemma {:induction false} PlanGrows(allowed: set<string>, before: seq<Prepared>, p: Prepared)
    ensures NoFault(allowed, before + [p]) <==> NoFault(allowed, before) && Whitelisted(allowed, p) && p.path !in Paths(before)
    ensures Paths(before + [p]) == Paths(before) + {p.path}
  {
    var all := before + [p];
    assert all[|before|] == p && forall j :: 0 <= j < |before| ==> all[j] == before[j];
    if NoFault(allowed, all) {
      forall j | 0 <= j < |before| ensures before[j].path != p.path && Whitelisted(allowed, before[j]) {
        assert all[j].path != all[|before|].path && Whitelisted(allowed, all[j]);
      }
      forall i, j | 0 <= i < j < |before| ensures before[i].path != before[j].path {
        assert all[i].path != all[j].path;
      }
    }
  }

  // ---------------------------------------------------------------- one transaction

  // What freezing fixes for good.
  datatype Terms = Terms(base: Commit, allowed: set<string>, expires: nat)

  datatype TxStatus = FrozenTx | ValidatedTx | AppliedTx | CancelledTx

  // What the validation hash binds, the hash standing for what it hashes.
  datatype Validation = Validation(bundle: nat, files: seq<Prepared>, scope: nat)

  datatype Tx = Tx(status: TxStatus, validation: Option<Validation>)

  datatype Bundle = Bundle(files: seq<PlanFile>, message: string)

  // A request between two of its awaits, with what it holds in memory.
  datatype Request =
    | Preparing(tx: Tx)
    | Applying(tx: Tx)
    | BundleRead(tx: Tx, bundle: Bundle)
    | Admitted(tx: Tx, bundle: Bundle)
    | Built(tx: Tx, commit: Commit)
    | Confirmed(tx: Tx, commit: Commit)
    | Pushed(tx: Tx, commit: Commit)
    | Over

  // `approved` and `published` are history: every file list that was ever validated, every
  // commit an apply moved the branch to. `replaced` tells whether anybody but a prepare
  // ever wrote a stored bundle.
  datatype World = World(
    stored: Option<Tx>, bundles: map<nat, Bundle>, requests: seq<Request>, heads: seq<Commit>, now: nat,
    approved: set<seq<Prepared>>, published: seq<Commit>, replaced: bool)

  datatype Action =
    | BeginPrepare
    | FinishPrepare(i: nat, files: seq<PlanFile>, message: string, bundle: nat, scope: nat)
    | BeginApply
    | ReadBundle(i: nat)
    | Admit(i: nat, scope: nat)
    | Build(i: nat, stamp: nat, gate: bool)
    | Confirm(i: nat)
    | Push(i: nat)
    | SaveApplied(i: nat)
    | Abandon(i: nat)
    | Cancel
    | PushByOthers(commit: Commit)
    | ReplaceBundle(bundle: nat, content: Bundle)
    | Tick(now: nat)

  function Head(w: World): Commit
    requires w.heads != []
  {
    w.heads[|w.heads| - 1]
  }

  predicate Available(terms: Terms, w: World)
  {
    w.stored.Some? && w.now < terms.expires
  }

  predicate AllSafe(files: seq<PlanFile>)
  {
    forall i :: 0 <= i < |files| ==> SafePath(files[i].path)
  }

  // The commit path accepts the plan and builds this commit.
  ghost predicate Buildable(base: Commit, files: seq<PlanFile>)
  {
    Sane(files) && Writable(files) && ExactDelta(Items(files), base.tree, Overlay(base.tree, files))
  }

  function Stay(w: World, i: nat): World
  {
    if i < |w.requests| then w.(requests := w.requests[i := Over]) else w
  }

  function Advance(w: World, i: nat, r: Request): World
    requires i < |w.requests|
  {
    w.(requests := w.requests[i := r])
  }

  // Preparing: the files come from the model, so any files; they must be whitelisted, the
  // paths safe, the head still the frozen one, the bundle id a fresh one.
  ghost function FinishPreparing(terms: Terms, w: World, i: nat, files: seq<PlanFile>, message: string, bundle: nat, scope: nat): World
    requires w.heads != [] && i < |w.requests| && w.requests[i].Preparing?
  {
    var tx := w.requests[i].tx;
    var prepared := Normalized(files);
    if Head(w) == terms.base && WithinPlan(terms.allowed, prepared) && AllSafe(files) && bundle !in w.bundles then
      Advance(w, i, Over).(
        stored := Some(tx.(status := ValidatedTx, validation := Some(Validation(bundle, prepared, scope)))),
        bundles := w.bundles[bundle := Bundle(files, message)],
        approved := w.approved + {prepared})
    else Stay(w, i)
  }

  // One step of an apply that is under way.
  ghost function Proceed(terms: Terms, w: World, a: Action, i: nat): World
    requires w.heads != [] && i < |w.requests|
  {
    match (a, w.requests[i])
    case (ReadBundle(_), Applying(tx)) =>
      if tx.validation.Some? && tx.validation.value.bundle in w.bundles
      then Advance(w, i, BundleRead(tx, w.bundles[tx.validation.value.bundle])) else Stay(w, i)
    case (Admit(_, scope), BundleRead(tx, bundle)) =>
      if Head(w) == terms.base && WithinPlan(terms.allowed, Normalized(bundle.files))
         && tx.validation.Some? && tx.validation.value.files == Normalized(bundle.files) && tx.validation.value.scope == scope
      then Advance(w, i, Admitted(tx, bundle)) else Stay(w, i)
    case (Build(_, stamp, gate), Admitted(tx, bundle)) =>
      if Head(w) == terms.base && Buildable(terms.base, bundle.files) && gate
      then Advance(w, i, Built(tx, PlannedCommit(terms.base, bundle.files, bundle.message, stamp))) else Stay(w, i)
    case (Confirm(_), Built(tx, commit)) =>
      if Head(w) == terms.base then Advance(w, i, Confirmed(tx, commit)) else Stay(w, i)
    case (Push(_), Confirmed(tx, commit)) =>
      if FastForward(Head(w), commit)
      then Advance(w, i, Pushed(tx, commit)).(heads := w.heads + [commit], published := w.published + [commit])
      else Stay(w, i)
    case (SaveApplied(_), Pushed(tx, commit)) =>
      Advance(w, i, Over).(
        stored := Some(tx.(status := AppliedTx)),
        bundles := if tx.validation.Some? then w.bundles - {tx.validation.value.bundle} else w.bundles)
    case _ => w
  }

  ghost function Next(terms: Terms, w: World, a: Action): World
    requires w.heads != []
    ensures Next(terms, w, a).heads != []
  {
    match a
    case BeginPrepare =>
      if Available(terms, w) && w.stored.value.status == FrozenTx && Head(w) == terms.base
      then w.(requests := w.requests + [Preparing(w.stored.value)]) else w
    case FinishPrepare(i, files, message, bundle, scope) =>
      if i < |w.requests| && w.requests[i].Preparing? then FinishPreparing(terms, w, i, files, message, bundle, scope) else w
    case BeginApply =>
      if Available(terms, w) && w.stored.value.status == ValidatedTx && w.stored.value.validation.Some?
      then w.(requests := w.requests + [Applying(w.stored.value)]) else w
    case ReadBundle(i) => if i < |w.requests| then Proceed(terms, w, a, i) else w
    case Admit(i, _) => if i < |w.requests| then Proceed(terms, w, a, i) else w
    case Build(i, _, _) => if i < |w.requests| then Proceed(terms, w, a, i) else w
    case Confirm(i) => if i < |w.requests| then Proceed(terms, w, a, i) else w
    case Push(i) => if i < |w.requests| then Proceed(terms, w, a, i) else w
    case SaveApplied(i) => if i < |w.requests| then Proceed(terms, w, a, i) else w
    case Abandon(i) => Stay(w, i)
    case Cancel =>
      if Available(terms, w) && w.stored.value.status != AppliedTx
      then
        var v := w.stored.value.validation;
        w.(stored := Some(w.stored.value.(status := CancelledTx)), bundles := if v.Some? then w.bundles - {v.value.bundle} else w.bundles)
      else w
    case PushByOthers(commit) => if FastForward(Head(w), commit) then w.(heads := w.heads + [commit]) else w
    case ReplaceBundle(bundle, content) => w.(bundles := w.bundles[bundle := content], replaced := true)
    case Tick(now) => w.(now := Max(w.now, now))
  }

  ghost function Play(terms: Terms, w: World, actions: seq<Action>): World
    requires w.heads != []
    ensures Play(terms, w, actions).heads != []
  {
    if actions == [] then w else Next(terms, Play(terms, w, actions[..|actions| - 1]), actions[|actions| - 1])
  }

  // A transaction just frozen on the branch's head.
  ghost predicate Fresh(terms: Terms, w: World)
  {
    && w.heads != [] && FastForwards(w.heads) && Head(w) == terms.base
    && w.stored == Some(Tx(FrozenTx, None)) && w.bundles == map[] && w.requests == []
    && w.approved == {} && w.published == [] && !w.replaced
  }

  // ---------------------------------------------------------------- what every run keeps

  ghost predicate Vetted(terms: Terms, approved: set<seq<Prepared>>, replaced: bool, files: seq<PlanFile>)
  {
    Normalized(files) in approved && WithinPlan(terms.allowed, Normalized(files)) && (replaced || AllSafe(files))
  }

  // The commit is the plan of a validated file list on the frozen base.
  ghost predicate Faithful(terms: Terms, approved: set<seq<Prepared>>, replaced: bool, c: Commit)
  {
    exists files: seq<PlanFile> ::
      && Vetted(terms, approved, replaced, files) && Buildable(terms.base, files)
      && c == PlannedCommit(terms.base, files, c.message, c.stamp)
  }

  ghost predicate TxSound(approved: set<seq<Prepared>>, tx: Tx)
  {
    tx.validation.Some? ==> tx.validation.value.files in approved
  }

  ghost predicate RequestSound(terms: Terms, approved: set<seq<Prepared>>, replaced: bool, r: Request)
  {
    && (!r.Over? ==> TxSound(approved, r.tx))
    && (r.BundleRead? ==> r.tx.validation.Some? && (replaced || AllSafe(r.bundle.files)))
    && (r.Admitted? ==> Vetted(terms, approved, replaced, r.bundle.files))
    && (r.Built? || r.Confirmed? || r.Pushed? ==> Faithful(terms, approved, replaced, r.commit))
  }

  ghost predicate RequestsSound(terms: Terms, approved: set<seq<Prepared>>, replaced: bool, requests: seq<Request>)
  {
    forall i :: 0 <= i < |requests| ==> RequestSound(terms, approved, replaced, requests[i])
  }

  ghost predicate BundlesSafe(replaced: bool, bundles: map<nat, Bundle>)
  {
    replaced || forall id :: id in bundles ==> AllSafe(bundles[id].files)
  }

  ghost predicate PublishedSound(terms: Terms, approved: set<seq<Prepared>>, replaced: bool, heads: seq<Commit>, published: seq<Commit>)
  {
    forall i :: 0 <= i < |published| ==> published[i] in heads && Faithful(terms, approved, replaced, published[i])
  }

  ghost predicate Inv(terms: Terms, w: World)
  {
    && w.heads != [] && FastForwards(w.heads)
    && (w.stored.Some? ==> TxSound(w.approved, w.stored.value))
    && RequestsSound(terms, w.approved, w.replaced, w.requests)
    && BundlesSafe(w.replaced, w.bundles)
    && PublishedSound(terms, w.approved, w.replaced, w.heads, w.published)
  }

  lemma {:induction false} RequestGrows(terms: Terms, a0: set<seq<Prepared>>, r0: bool, a1: set<seq<Prepared>>, r1: bool, r: Request)
    requires a0 <= a1 && (r0 ==> r1) && RequestSound(terms, a0, r0, r)
    ensures RequestSound(terms, a1, r1, r)
  {
  }

  // More history makes nothing unsound.
  lemma {:induction false} StoreKeeps(terms: Terms, w: World, v: World)
    requires Inv(terms, w)
    requires v == w.(stored := v.stored, bundles := v.bundles, approved := v.approved, replaced := v.replaced)
    requires w.approved <= v.approved && (w.replaced ==> v.replaced)
    requires BundlesSafe(v.replaced, v.bundles) && (v.stored.Some? ==> TxSound(v.approved, v.stored.value))
    ensures Inv(terms, v)
  {
    forall i | 0 <= i < |v.requests| ensures RequestSound(terms, v.approved, v.replaced, v.requests[i]) {
      RequestGrows(terms, w.approved, w.replaced, v.approved, v.replaced, w.requests[i]);
    }
    forall i | 0 <= i < |v.published| ensures Faithful(terms, v.approved, v.replaced, v.published[i]) {
    }
  }

  lemma {:induction false} StayKeeps(terms: Terms, w: World, i: nat)
    requires Inv(terms, w)
    ensures Inv(terms, Stay(w, i))
  {
  }

  lemma {:induction false} BeginKeeps(terms: Terms, w: World, r: Request)
    requires Inv(terms, w) && RequestSound(terms, w.approved, w.replaced, r)
    ensures Inv(terms, w.(requests := w.requests + [r]))
  {
  }

  lemma {:induction false} HeadsGrow(terms: Terms, w: World, c: Commit)
    requires Inv(terms, w) && FastForward(Head(w), c)
    ensures Inv(terms, w.(heads := w.heads + [c]))
  {
    var v := w.(heads := w.heads + [c]);
    assert FastForwards(v.heads);
    assert PublishedSound(terms, v.approved, v.replaced, v.heads, v.published);
  }

  lemma {:induction false} FinishPrepareKeeps(terms: Terms, w: World, i: nat, files: seq<PlanFile>, message: string, bundle: nat, scope: nat)
    requires Inv(terms, w) && i < |w.requests| && w.requests[i].Preparing?
    ensures Inv(terms, FinishPreparing(terms, w, i, files, message, bundle, scope))
  {
    var v := FinishPreparing(terms, w, i, files, message, bundle, scope);
    StayKeeps(terms, w, i);
    assert Stay(w, i) == Advance(w, i, Over);
    if v != Stay(w, i) {
      StoreKeeps(terms, Stay(w, i), v);
    }
  }

  lemma {:induction false} BuildKeeps(terms: Terms, w: World, i: nat, stamp: nat)
    requires Inv(terms, w) && i < |w.requests| && w.requests[i].Admitted?
    requires Buildable(terms.base, w.requests[i].bundle.files)
    ensures Inv(terms, Advance(w, i, Built(w.requests[i].tx,
              PlannedCommit(terms.base, w.requests[i].bundle.files, w.requests[i].bundle.message, stamp))))
  {
    var r := w.requests[i];
    var c := PlannedCommit(terms.base, r.bundle.files, r.bundle.message, stamp);
    assert RequestSound(terms, w.approved, w.replaced, r);
    assert Faithful(terms, w.approved, w.replaced, c);
  }

  lemma {:induction false} OneMorePublished(terms: Terms, approved: set<seq<Prepared>>, replaced: bool, heads: seq<Commit>,
                                            published: seq<Commit>, c: Commit)
    requires PublishedSound(terms, approved, replaced, heads, published) && c in heads && Faithful(terms, approved, replaced, c)
    ensures PublishedSound(terms, approved, replaced, heads, published + [c])
  {
    var more := published + [c];
    forall i | 0 <= i < |more| ensures more[i] in heads && Faithful(terms, approved, replaced, more[i]) {
      assert i < |published| ==> more[i] == published[i];
    }
  }

  lemma {:induction false} PublishKeeps(terms: Terms, w: World, c: Commit)
    requires Inv(terms, w) && c in w.heads && Faithful(terms, w.approved, w.replaced, c)
    ensures Inv(terms, w.(published := w.published + [c]))
  {
    OneMorePublished(terms, w.approved, w.replaced, w.heads, w.published, c);
  }

  lemma {:induction false} PushKeeps(terms: Terms, w: World, i: nat)
    requires Inv(terms, w) && i < |w.requests| && w.requests[i].Confirmed?
    requires FastForward(Head(w), w.requests[i].commit)
    ensures var r := w.requests[i];
            Inv(terms, Advance(w, i, Pushed(r.tx, r.commit)).(heads := w.heads + [r.commit], published := w.published + [r.commit]))
  {
    var r := w.requests[i];
    assert RequestSound(terms, w.approved, w.replaced, r);
    var v := Advance(w, i, Pushed(r.tx, r.commit));
    HeadsGrow(terms, v, r.commit);
    PublishKeeps(terms, v.(heads := v.heads + [r.commit]), r.commit);
  }

  lemma {:induction false} ReadKeeps(terms: Terms, w: World, i: nat)
    requires Inv(terms, w) && i < |w.requests| && w.requests[i].Applying?
    ensures Inv(terms, Proceed(terms, w, ReadBundle(i), i))
  {
    var tx := w.requests[i].tx;
    StayKeeps(terms, w, i);
    assert RequestSound(terms, w.approved, w.replaced, w.requests[i]);
  }

  lemma {:induction false} AdmitKeeps(terms: Terms, w: World, i: nat, scope: nat)
    requires Inv(terms, w) && i < |w.requests| && w.requests[i].BundleRead?
    ensures Inv(terms, Proceed(terms, w, Admit(i, scope), i))
  {
    StayKeeps(terms, w, i);
    assert RequestSound(terms, w.approved, w.replaced, w.requests[i]);
  }

  lemma {:induction false} SavedWorld(terms: Terms, w: World, i: nat)
    requires w.heads != [] && i < |w.requests| && w.requests[i].Pushed?
    ensures var v := Proceed(terms, w, SaveApplied(i), i);
            && v == Stay(w, i).(stored := v.stored, bundles := v.bundles)
            && v.stored == Some(w.requests[i].tx.(status := AppliedTx))
            && (forall id :: id in v.bundles ==> id in w.bundles && v.bundles[id] == w.bundles[id])
  {
  }

  lemma {:induction false} SaveKeeps(terms: Terms, w: World, i: nat)
    requires Inv(terms, w) && i < |w.requests| && w.requests[i].Pushed?
    ensures Inv(terms, Proceed(terms, w, SaveApplied(i), i))
  {
    var v := Proceed(terms, w, SaveApplied(i), i);
    assert RequestSound(terms, w.approved, w.replaced, w.requests[i]);
    StayKeeps(terms, w, i);
    SavedWorld(terms, w, i);
    StoreKeeps(terms, Stay(w, i), v);
  }

  lemma {:induction false} ProceedKeeps(terms: Terms, w: World, a: Action, i: nat)
    requires Inv(terms, w) && i < |w.requests| && Directed(a, i)
    ensures Inv(terms, Proceed(terms, w, a, i))
  {
    match (a, w.requests[i]) {
      case (ReadBundle(_), Applying(_)) => ReadKeeps(terms, w, i);
      case (Admit(_, scope), BundleRead(_, _)) => AdmitKeeps(terms, w, i, scope);
      case (SaveApplied(_), Pushed(_, _)) => SaveKeeps(terms, w, i);
      case (Build(_, stamp, gate), Admitted(tx, bundle)) =>
        StayKeeps(terms, w, i);
        if Head(w) == terms.base && Buildable(terms.base, bundle.files) && gate {
          BuildKeeps(terms, w, i, stamp);
        }
      case (Confirm(_), Built(tx, commit)) =>
        StayKeeps(terms, w, i);
        if Head(w) == terms.base {
          assert RequestSound(terms, w.approved, w.replaced, w.requests[i]);
        }
      case (Push(_), Confirmed(tx, commit)) =>
        StayKeeps(terms, w, i);
        if FastForward(Head(w), commit) {
          PushKeeps(terms, w, i);
        }
      case _ =>
    }
  }

  // The action is meant for this request.
  predicate Directed(a: Action, i: nat)
  {
    match a
    case ReadBundle(k) => k == i
    case Admit(k, _) => k == i
    case Build(k, _, _) => k == i
    case Confirm(k) => k == i
    case Push(k) => k == i
    case SaveApplied(k) => k == i
    case _ => false
  }

  lemma {:induction false} NextKeeps(terms: Terms, w: World, a: Action)
    requires Inv(terms, w)
    ensures Inv(terms, Next(terms, w, a))
  {
    var v := Next(terms, w, a);
    match a {
      case BeginPrepare => if v != w { BeginKeeps(terms, w, Preparing(w.stored.value)); }
      case BeginApply => if v != w { BeginKeeps(terms, w, Applying(w.stored.value)); }
      case FinishPrepare(i, files, message, bundle, scope) =>
        if i < |w.requests| && w.requests[i].Preparing? { FinishPrepareKeeps(terms, w, i, files, message, bundle, scope); }
      case Abandon(i) => StayKeeps(terms, w, i);
      case Cancel => if v != w { StoreKeeps(terms, w, v); }
      case ReplaceBundle(_, _) => StoreKeeps(terms, w, v);
      case PushByOthers(commit) => if FastForward(Head(w), commit) { HeadsGrow(terms, w, commit); }
      case Tick(_) =>
      case ReadBundle(i) => if i < |w.requests| { ProceedKeeps(terms, w, a, i); }
      case Admit(i, _) => if i < |w.requests| { ProceedKeeps(terms, w, a, i); }
      case Build(i, _, _) => if i < |w.requests| { ProceedKeeps(terms, w, a, i); }
      case Confirm(i) => if i < |w.requests| { ProceedKeeps(terms, w, a, i); }
      case Push(i) => if i < |w.requests| { ProceedKeeps(terms, w, a, i); }
      case SaveApplied(i) => if i < |w.requests| { ProceedKeeps(terms, w, a, i); }
    }
  }

  lemma {:induction false} EveryRunIsSound(terms: Terms, w: World, actions: seq<Action>)
    requires Inv(terms, w)
    ensures Inv(terms, Play(terms, w, actions))
  {
    if actions != [] {
      EveryRunIsSound(terms, w, actions[..|actions| - 1]);
      NextKeeps(terms, Play(terms, w, actions[..|actions| - 1]), actions[|actions| - 1]);
    }
  }

  // ---------------------------------------------------------------- the guarantees

  // The commit changes whitelisted paths only, and in the way that was validated.
  ghost predicate InScope(terms: Terms, approved: set<seq<Prepared>>, replaced: bool, c: Commit)
  {
    exists prepared ::
      && prepared in approved && WithinPlan(terms.allowed, prepared)
      && forall path :: Changed(terms.base.tree, c.tree, path) ==> Accounted(prepared, replaced, terms.base.tree, c.tree, path)
  }

  ghost predicate Accounted(prepared: seq<Prepared>, replaced: bool, base: Tree, tree: Tree, path: string)
  {
    exists i ::
      && 0 <= i < |prepared| && prepared[i].path == NormalizePath(path) && (replaced || prepared[i].path == path)
      && ActionHolds(prepared[i].action, base, tree, path)
  }

  lemma {:induction false} FaithfulIsInScope(terms: Terms, approved: set<seq<Prepared>>, replaced: bool, c: Commit)
    requires Faithful(terms, approved, replaced, c)
    ensures c.parents == [terms.base] && InScope(terms, approved, replaced, c)
  {
    var files: seq<PlanFile> :| && Vetted(terms, approved, replaced, files) && Buildable(terms.base, files)
                 && c == PlannedCommit(terms.base, files, c.message, c.stamp);
    var prepared := Normalized(files);
    forall path | Changed(terms.base.tree, c.tree, path) ensures Accounted(prepared, replaced, terms.base.tree, c.tree, path) {
      PassedPlanIsExact(files, terms.base.tree);
      var i :| 0 <= i < |files| && files[i].path == path;
      assert Materialized(files[i], terms.base.tree, c.tree);
      assert Whitelisted(terms.allowed, prepared[i]);
      if !replaced {
        SafePathIsNormal(path);
      }
    }
  }

  // Whatever is retried, interleaved, cancelled or lost: a transaction moves the branch to
  // at most one commit. It sits on the frozen head and changes only whitelisted paths, each
  // created, updated or deleted as a validated list says. Without a replaced bundle the
  // paths are spelled exactly as approved.
  lemma {:induction false} OnceOnly(terms: Terms, w: World, actions: seq<Action>, i: nat, j: nat)
    requires Fresh(terms, w)
    requires i < |Play(terms, w, actions).published| && j < |Play(terms, w, actions).published|
    ensures var v := Play(terms, w, actions);
            && v.published[i] == v.published[j] && v.published[i] in v.heads
            && v.published[i].parents == [terms.base]
            && InScope(terms, v.approved, v.replaced, v.published[i])
  {
    EveryRunIsSound(terms, w, actions);
    OnePublished(terms, Play(terms, w, actions), i, j);
  }

  lemma {:induction false} OnePublished(terms: Terms, v: World, i: nat, j: nat)
    requires Inv(terms, v) && i < |v.published| && j < |v.published|
    ensures v.published[i] == v.published[j] && v.published[i] in v.heads
    ensures v.published[i].parents == [terms.base] && InScope(terms, v.approved, v.replaced, v.published[i])
  {
    FaithfulIsInScope(terms, v.approved, v.replaced, v.published[i]);
    FaithfulIsInScope(terms, v.approved, v.replaced, v.published[j]);
    var p :| 0 <= p < |v.heads| && v.heads[p] == v.published[i];
    var q :| 0 <= q < |v.heads| && v.heads[q] == v.published[j];
    if p <= q {
      NoLostUpdate(v.heads, p, q, terms.base);
    } else {
      NoLostUpdate(v.heads, q, p, terms.base);
    }
  }

  lemma {:induction false} ChildMovesHead(heads: seq<Commit>, base: Commit, c: Commit)
    requires FastForwards(heads) && c in heads && c.parents == [base]
    ensures heads[|heads| - 1] != base
  {
    var p :| 0 <= p < |heads| && heads[p] == c;
    EarlierIsAncestor(heads, p, |heads| - 1);
    ParentIsStrictAncestor(c, 0);
    StrictAncestorExtends(base, c, heads[|heads| - 1]);
  }

  lemma {:induction false} PublishedMovesHead(terms: Terms, w: World)
    requires Inv(terms, w) && w.published != []
    ensures Head(w) != terms.base
  {
    FaithfulIsInScope(terms, w.approved, w.replaced, w.published[0]);
    ChildMovesHead(w.heads, terms.base, w.published[0]);
  }

  // Once the commit is out, no request gets past a head check again - also when the crash
  // came before the status was saved.
  lemma {:induction false} PublishedShutsTheDoor(terms: Terms, w: World, actions: seq<Action>, a: Action)
    requires Fresh(terms, w) && Play(terms, w, actions).published != []
    requires a.Admit? || a.Build? || a.Confirm?
    ensures var v := Play(terms, w, actions); Next(terms, v, a) == v || Next(terms, v, a) == Stay(v, a.i)
  {
    EveryRunIsSound(terms, w, actions);
    PublishedMovesHead(terms, Play(terms, w, actions));
  }
}
