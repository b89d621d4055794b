// Where a transaction can still get to: an undisturbed one is applied, a cancelled one may
// be, and exactly when.
module ApprovalRuns {
  import opened Common
  import opened Git
  import opened ShadowDelta
  import opened GuardedCommit
  import opened Approvals

  // ---------------------------------------------------------------- playing runs

  lemma {:induction false} Then(terms: Terms, w: World, actions: seq<Action>, a: Action)
    requires w.heads != []
    ensures Play(terms, w, actions + [a]) == Next(terms, Play(terms, w, actions), a)
  {
    assert (actions + [a])[..|actions|] == actions;
  }

  lemma {:induction false} PlayOn(terms: Terms, w: World, actions: seq<Action>, more: seq<Action>)
    requires w.heads != []
    ensures Play(terms, w, actions + more) == Play(terms, Play(terms, w, actions), more)
    decreases |more|
  {
    if more == [] {
      assert actions + more == actions;
    } else {
      var front, last := more[..|more| - 1], more[|more| - 1];
      PlayOn(terms, w, actions, front);
      Then(terms, w, actions + front, last);
      assert actions + front + [last] == actions + more;
      assert more[..|more| - 1] == front;
    }
  }

  // ---------------------------------------------------------------- from a request to its commit

  // The request moved the branch to a commit of its own.
  ghost predicate Published(w: World, v: World, i: nat, tx: Tx, c: Commit)
  {
    && i < |v.requests| && v.requests[i] == Pushed(tx, c)
    && v.heads == w.heads + [c] && v.published == w.published + [c] && c !in w.heads
  }

  // A built commit, confirmed on the frozen head, is accepted.
  lemma {:induction false} BuiltIsPublished(terms: Terms, w: World, i: nat, tx: Tx, c: Commit)
    requires w.heads != [] && FastForwards(w.heads) && Head(w) == terms.base && i < |w.requests| && c.parents == [terms.base]
    requires w.requests[i] == Built(tx, c) || w.requests[i] == Confirmed(tx, c)
    ensures var v := if w.requests[i].Built? then Next(terms, w, Confirm(i)) else w;
            && v.heads == w.heads && i < |v.requests| && v.requests[i] == Confirmed(tx, c)
            && Published(w, Next(terms, v, Push(i)), i, tx, c) && Next(terms, v, Push(i)).stored == w.stored
            && Next(terms, v, Push(i)).bundles == w.bundles
  {
    ChildAcceptance(Head(w), terms.base, c);
    if c in w.heads {
      ChildMovesHead(w.heads, terms.base, c);
    }
  }

  lemma {:induction false} FromBuilt(terms: Terms, w: World, i: nat) returns (run: seq<Action>, v: World)
    requires w.heads != [] && FastForwards(w.heads) && Head(w) == terms.base && i < |w.requests|
    requires (w.requests[i].Built? || w.requests[i].Confirmed?) && w.requests[i].commit.parents == [terms.base]
    ensures v == Play(terms, w, run) && Published(w, v, i, w.requests[i].tx, w.requests[i].commit)
    ensures v.stored == w.stored && v.bundles == w.bundles
  {
    var tx, c := w.requests[i].tx, w.requests[i].commit;
    BuiltIsPublished(terms, w, i, tx, c);
    var confirm := if w.requests[i].Built? then [Confirm(i)] else [];
    assert [] + [Confirm(i)] == [Confirm(i)] && Play(terms, w, []) == w;
    Then(terms, w, [], Confirm(i));
    Then(terms, w, confirm, Push(i));
    run := confirm + [Push(i)];
    v := Play(terms, w, run);
  }

  lemma {:induction false} FromAdmitted(terms: Terms, w: World, i: nat, stamp: nat) returns (run: seq<Action>, v: World)
    requires w.heads != [] && FastForwards(w.heads) && Head(w) == terms.base && i < |w.requests| && w.requests[i].Admitted?
    requires Buildable(terms.base, w.requests[i].bundle.files)
    ensures var b := w.requests[i].bundle;
            && v == Play(terms, w, run) && Published(w, v, i, w.requests[i].tx, PlannedCommit(terms.base, b.files, b.message, stamp))
    ensures v.stored == w.stored && v.bundles == w.bundles
  {
    var u := Next(terms, w, Build(i, stamp, true));
    assert u == Proceed(terms, w, Build(i, stamp, true), i);
    Then(terms, w, [], Build(i, stamp, true));
    assert [] + [Build(i, stamp, true)] == [Build(i, stamp, true)];
    var rest;
    rest, v := FromBuilt(terms, u, i);
    PlayOn(terms, w, [Build(i, stamp, true)], rest);
    run := [Build(i, stamp, true)] + rest;
  }

  // The bundle is the one that was validated, within the plan and buildable.
  ghost predicate Admissible(terms: Terms, tx: Tx, files: seq<PlanFile>)
  {
    && tx.validation.Some? && tx.validation.value.files == Normalized(files)
    && WithinPlan(terms.allowed, Normalized(files)) && Buildable(terms.base, files)
  }

  lemma {:induction false} FromBundleRead(terms: Terms, w: World, i: nat, stamp: nat) returns (run: seq<Action>, v: World)
    requires w.heads != [] && FastForwards(w.heads) && Head(w) == terms.base && i < |w.requests| && w.requests[i].BundleRead?
    requires Admissible(terms, w.requests[i].tx, w.requests[i].bundle.files)
    ensures var b := w.requests[i].bundle;
            && v == Play(terms, w, run) && Published(w, v, i, w.requests[i].tx, PlannedCommit(terms.base, b.files, b.message, stamp))
    ensures v.stored == w.stored && v.bundles == w.bundles
  {
    var a := Admit(i, w.requests[i].tx.validation.value.scope);
    var u := Next(terms, w, a);
    assert u == Proceed(terms, w, a, i);
    Then(terms, w, [], a);
    assert [] + [a] == [a];
    var rest;
    rest, v := FromAdmitted(terms, u, i, stamp);
    PlayOn(terms, w, [a], rest);
    run := [a] + rest;
  }

  lemma {:induction false} FromApplying(terms: Terms, w: World, i: nat, stamp: nat) returns (run: seq<Action>, v: World)
    requires w.heads != [] && FastForwards(w.heads) && Head(w) == terms.base && i < |w.requests| && w.requests[i].Applying?
    requires w.requests[i].tx.validation.Some? && w.requests[i].tx.validation.value.bundle in w.bundles
    requires Admissible(terms, w.requests[i].tx, w.bundles[w.requests[i].tx.validation.value.bundle].files)
    ensures var b := w.bundles[w.requests[i].tx.validation.value.bundle];
            && v == Play(terms, w, run) && Published(w, v, i, w.requests[i].tx, PlannedCommit(terms.base, b.files, b.message, stamp))
    ensures v.stored == w.stored && v.bundles == w.bundles
  {
    var u := Next(terms, w, ReadBundle(i));
    assert u == Proceed(terms, w, ReadBundle(i), i);
    Then(terms, w, [], ReadBundle(i));
    assert [] + [ReadBundle(i)] == [ReadBundle(i)];
    var rest;
    rest, v := FromBundleRead(terms, u, i, stamp);
    PlayOn(terms, w, [ReadBundle(i)], rest);
    run := [ReadBundle(i)] + rest;
  }

  lemma {:induction false} FromPreparing(terms: Terms, w: World, i: nat, files: seq<PlanFile>, message: string, bundle: nat, scope: nat)
    returns (run: seq<Action>, v: World)
    requires w.heads != [] && Head(w) == terms.base && w.now < terms.expires
    requires i < |w.requests| && w.requests[i].Preparing?
    requires WithinPlan(terms.allowed, Normalized(files)) && AllSafe(files) && bundle !in w.bundles
    ensures var tx := Tx(ValidatedTx, Some(Validation(bundle, Normalized(files), scope)));
            && run == [FinishPrepare(i, files, message, bundle, scope), BeginApply] && v == Play(terms, w, run)
            && v.heads == w.heads && v.published == w.published && v.now == w.now && v.stored == Some(tx)
            && v.requests == w.requests[i := Over] + [Applying(tx)]
            && v.bundles == w.bundles[bundle := Bundle(files, message)]
  {
    var a := FinishPrepare(i, files, message, bundle, scope);
    Then(terms, w, [], a);
    assert [] + [a] == [a];
    Then(terms, w, [a], BeginApply);
    assert [a] + [BeginApply] == [a, BeginApply];
    run := [a, BeginApply];
    v := Play(terms, w, run);
  }

  // A prepare under way, finished, applied and pushed.
  lemma {:induction false} PreparedIsPublished(terms: Terms, w: World, i: nat, files: seq<PlanFile>, message: string, bundle: nat, scope: nat, stamp: nat)
    returns (run: seq<Action>, v: World)
    requires w.heads != [] && FastForwards(w.heads) && Head(w) == terms.base && w.now < terms.expires
    requires i < |w.requests| && w.requests[i].Preparing?
    requires WithinPlan(terms.allowed, Normalized(files)) && AllSafe(files) && Buildable(terms.base, files) && bundle !in w.bundles
    ensures var tx := Tx(ValidatedTx, Some(Validation(bundle, Normalized(files), scope)));
            && v == Play(terms, w, run) && Published(w, v, |w.requests|, tx, PlannedCommit(terms.base, files, message, stamp))
            && v.stored == Some(tx) && v.bundles == w.bundles[bundle := Bundle(files, message)]
  {
    var r1, u := FromPreparing(terms, w, i, files, message, bundle, scope);
    var r2;
    r2, v := FromApplying(terms, u, |w.requests|, stamp);
    PlayOn(terms, w, r1, r2);
    run := r1 + r2;
  }

  // ---------------------------------------------------------------- an undisturbed transaction

  // From freezing to the end: files that are whitelisted, safe and buildable are prepared,
  // applied and published as exactly their plan on the frozen head; the transaction is
  // marked applied and its bundle gone.
  lemma {:induction false} Undisturbed(terms: Terms, w: World, files: seq<PlanFile>, message: string, bundle: nat, scope: nat, stamp: nat)
    returns (run: seq<Action>)
    requires Fresh(terms, w) && w.now < terms.expires
    requires WithinPlan(terms.allowed, Normalized(files)) && AllSafe(files) && Buildable(terms.base, files)
    ensures var v, c := Play(terms, w, run), PlannedCommit(terms.base, files, message, stamp);
            && v.published == [c] && v.heads == w.heads + [c] && v.bundles == map[]
            && v.stored == Some(Tx(AppliedTx, Some(Validation(bundle, Normalized(files), scope))))
  {
    Then(terms, w, [], BeginPrepare);
    assert [] + [BeginPrepare] == [BeginPrepare];
    var w1 := Play(terms, w, [BeginPrepare]);
    var rest, w2 := PreparedIsPublished(terms, w1, 0, files, message, bundle, scope, stamp);
    PlayOn(terms, w, [BeginPrepare], rest);
    Then(terms, w, [BeginPrepare] + rest, SaveApplied(1));
    SavedWorld(terms, w2, 1);
    run := [BeginPrepare] + rest + [SaveApplied(1)];
  }

  // ---------------------------------------------------------------- cancelling too late

  lemma {:induction false} BuiltOnBase(terms: Terms, w: World, i: nat)
    requires Inv(terms, w) && i < |w.requests| && (w.requests[i].Built? || w.requests[i].Confirmed?)
    ensures w.requests[i].commit.parents == [terms.base] && FastForwards(w.heads)
  {
    assert RequestSound(terms, w.approved, w.replaced, w.requests[i]);
    assert Faithful(terms, w.approved, w.replaced, w.requests[i].commit);
  }

  // A cancel during a running apply: the commit is published all the same, and the saved
  // status overwrites the cancellation.
  lemma {:induction false} CancelLostOnApply(terms: Terms, w: World, i: nat)
    requires Inv(terms, w) && Head(w) == terms.base && Available(terms, w) && w.stored.value.status != AppliedTx
    requires i < |w.requests| && w.requests[i].Confirmed?
    ensures Next(terms, w, Cancel).stored.Some? && Next(terms, w, Cancel).stored.value.status == CancelledTx
    ensures var v := Play(terms, w, [Cancel] + [Push(i)] + [SaveApplied(i)]);
            && v.published == w.published + [w.requests[i].commit] && w.requests[i].commit !in w.heads
            && v.stored.Some? && v.stored.value.status == AppliedTx
  {
    BuiltOnBase(terms, w, i);
    Then(terms, w, [], Cancel);
    assert [] + [Cancel] == [Cancel];
    Then(terms, w, [Cancel], Push(i));
    Then(terms, w, [Cancel] + [Push(i)], SaveApplied(i));
    LateSave(terms, Next(terms, w, Cancel), i);
  }

  lemma {:induction false} LateSave(terms: Terms, w: World, i: nat)
    requires w.heads != [] && FastForwards(w.heads) && Head(w) == terms.base && i < |w.requests|
    requires w.requests[i].Confirmed? && w.requests[i].commit.parents == [terms.base]
    ensures var v := Next(terms, Next(terms, w, Push(i)), SaveApplied(i));
            && v.published == w.published + [w.requests[i].commit] && w.requests[i].commit !in w.heads
            && v.stored.Some? && v.stored.value.status == AppliedTx
  {
    BuiltIsPublished(terms, w, i, w.requests[i].tx, w.requests[i].commit);
    SavedWorld(terms, Next(terms, w, Push(i)), i);
  }

  // A cancel during a running prepare: finishing, the prepare stores the transaction as it
  // read it, validated; an apply goes through and publishes the files.
  lemma {:induction false} CancelLostOnPrepare(terms: Terms, w: World, i: nat, files: seq<PlanFile>, message: string, bundle: nat, scope: nat, stamp: nat)
    returns (run: seq<Action>)
    requires Inv(terms, w) && Head(w) == terms.base && Available(terms, w) && w.stored.value.status != AppliedTx
    requires i < |w.requests| && w.requests[i].Preparing?
    requires WithinPlan(terms.allowed, Normalized(files)) && AllSafe(files) && Buildable(terms.base, files) && bundle !in w.bundles
    ensures |run| > 0 && run[0] == Cancel
    ensures var v, c := Play(terms, w, run), PlannedCommit(terms.base, files, message, stamp);
            v.published == w.published + [c] && c !in w.heads && v.stored.Some? && v.stored.value.status == ValidatedTx
  {
    var u := Next(terms, w, Cancel);
    Then(terms, w, [], Cancel);
    assert [] + [Cancel] == [Cancel];
    var rest, v := PreparedIsPublished(terms, u, i, files, message, bundle, scope, stamp);
    PlayOn(terms, w, [Cancel], rest);
    run := [Cancel] + rest;
  }

  // ---------------------------------------------------------------- when a cancel is final

  ghost predicate Makeable(terms: Terms, prepared: seq<Prepared>)
  {
    exists files :: Makes(terms, prepared, files)
  }

  ghost predicate Makes(terms: Terms, prepared: seq<Prepared>, files: seq<PlanFile>)
  {
    Normalized(files) == prepared && Buildable(terms.base, files)
  }

  // A prepare can come out with this list, and the list can become a commit.
  ghost predicate Preparable(terms: Terms, files: seq<PlanFile>)
  {
    WithinPlan(terms.allowed, Normalized(files)) && AllSafe(files) && Makeable(terms, Normalized(files))
  }

  // The validated list can be applied.
  ghost predicate Applicable(terms: Terms, tx: Tx)
  {
    tx.validation.Some? && WithinPlan(terms.allowed, tx.validation.value.files) && Makeable(terms, tx.validation.value.files)
  }

  // The request can still reach the push: a prepare whose transaction has time left, an
  // apply of a list that can be built, a commit that is built already.
  ghost predicate Prospective(terms: Terms, now: nat, q: Request)
  {
    match q
    case Preparing(_) => now < terms.expires && exists files :: Preparable(terms, files)
    case Applying(tx) => Applicable(terms, tx)
    case BundleRead(tx, bundle) => Admissible(terms, tx, bundle.files)
    case Admitted(_, bundle) => Buildable(terms.base, bundle.files)
    case Built(_, _) => true
    case Confirmed(_, _) => true
    case Pushed(_, _) => false
    case Over => false
  }

  // No request has prospects, and none that could begin would have any.
  ghost predicate Hopeless(terms: Terms, w: World)
  {
    && w.heads != [] && (forall i :: 0 <= i < |w.requests| ==> !Prospective(terms, w.now, w.requests[i]))
    && (w.stored.Some? ==>
          && w.stored.value.status != FrozenTx
          && (w.stored.value.status == ValidatedTx ==> w.now >= terms.expires || !Applicable(terms, w.stored.value)))
  }

  lemma {:induction false} PreparingStaysHopeless(terms: Terms, w: World, a: Action)
    requires Hopeless(terms, w) && a.FinishPrepare?
    ensures Hopeless(terms, Next(terms, w, a)) && Next(terms, w, a).published == w.published
  {
    if a.i < |w.requests| && w.requests[a.i].Preparing? {
      assert !Prospective(terms, w.now, w.requests[a.i]);
      if w.now < terms.expires {
        assert !Preparable(terms, a.files);
      }
    }
  }

  lemma {:induction false} ApplyingStaysHopeless(terms: Terms, w: World, a: Action, i: nat)
    requires Hopeless(terms, w) && i < |w.requests| && Directed(a, i)
    ensures Hopeless(terms, Proceed(terms, w, a, i)) && Proceed(terms, w, a, i).published == w.published
  {
    var q := w.requests[i];
    assert !Prospective(terms, w.now, q);
    var v := Proceed(terms, w, a, i);
    if q.Applying? && a.ReadBundle? && v.requests[i].BundleRead? {
      var files := v.requests[i].bundle.files;
      if Admissible(terms, q.tx, files) {
        assert Makes(terms, Normalized(files), files);
      }
    }
  }

  lemma {:induction false} NextStaysHopeless(terms: Terms, w: World, a: Action)
    requires Hopeless(terms, w)
    ensures Hopeless(terms, Next(terms, w, a)) && Next(terms, w, a).published == w.published
  {
    match a
    case FinishPrepare(_, _, _, _, _) => PreparingStaysHopeless(terms, w, a);
    case ReadBundle(i) => if i < |w.requests| { ApplyingStaysHopeless(terms, w, a, i); }
    case Admit(i, _) => if i < |w.requests| { ApplyingStaysHopeless(terms, w, a, i); }
    case Build(i, _, _) => if i < |w.requests| { ApplyingStaysHopeless(terms, w, a, i); }
    case Confirm(i) => if i < |w.requests| { ApplyingStaysHopeless(terms, w, a, i); }
    case Push(i) => if i < |w.requests| { ApplyingStaysHopeless(terms, w, a, i); }
    case SaveApplied(i) => if i < |w.requests| { ApplyingStaysHopeless(terms, w, a, i); }
    case _ =>
  }

  lemma {:induction false} HopelessPublishesNothing(terms: Terms, w: World, actions: seq<Action>)
    requires Hopeless(terms, w)
    ensures Hopeless(terms, Play(terms, w, actions)) && Play(terms, w, actions).published == w.published
  {
    if actions != [] {
      HopelessPublishesNothing(terms, w, actions[..|actions| - 1]);
      NextStaysHopeless(terms, Play(terms, w, actions[..|actions| - 1]), actions[|actions| - 1]);
    }
  }

  // ---------------------------------------------------------------- the exact condition

  // A later run moves the branch to a commit it has not had.
  ghost predicate PublishesLater(terms: Terms, w: World, actions: seq<Action>)
    requires w.heads != []
  {
    exists c :: c in Play(terms, w, actions).published && c !in w.heads
  }

  lemma {:induction false} LaterIsOnBase(terms: Terms, w: World, actions: seq<Action>)
    requires Inv(terms, w) && terms.base in w.heads && PublishesLater(terms, w, actions)
    ensures Head(w) == terms.base
  {
    var v := Play(terms, w, actions);
    var c :| c in v.published && c !in w.heads;
    EveryRunIsSound(terms, w, actions);
    HeadsExtend(terms, w, actions);
    PublishedIsChild(terms, v, c);
    NewChildMeansBase(w.heads, v.heads, terms.base, c);
  }

  lemma {:induction false} PublishedIsChild(terms: Terms, v: World, c: Commit)
    requires Inv(terms, v) && c in v.published
    ensures FastForwards(v.heads) && c in v.heads && c.parents == [terms.base]
  {
    var k :| 0 <= k < |v.published| && v.published[k] == c;
    OnePublished(terms, v, k, k);
  }

  lemma {:induction false} NewChildMeansBase(before: seq<Commit>, after: seq<Commit>, base: Commit, c: Commit)
    requires before != [] && FastForwards(after) && Extends(before, after)
    requires base in before && c in after && c !in before && c.parents == [base]
    ensures before[|before| - 1] == base
  {
    var p :| 0 <= p < |after| && after[p] == c;
    var last := |before| - 1;
    assert forall i :: 0 <= i < |before| ==> before[i] == after[i];
    assert p > last;
    EarlierIsAncestor(after, last, p);
    var q :| 0 <= q < |before| && before[q] == base;
    EarlierIsAncestor(after, q, last);
    ChildAcceptance(after[last], base, c);
  }

  lemma {:induction false} HeadsExtend(terms: Terms, w: World, actions: seq<Action>)
    requires w.heads != []
    ensures Extends(w.heads, Play(terms, w, actions).heads)
  {
    if actions != [] {
      HeadsExtend(terms, w, actions[..|actions| - 1]);
      var v := Play(terms, w, actions[..|actions| - 1]);
      OneExtends(terms, v, actions[|actions| - 1]);
      ExtendsThrough(w.heads, v.heads, Play(terms, w, actions).heads);
    }
  }

  lemma {:induction false} OneExtends(terms: Terms, w: World, a: Action)
    requires w.heads != []
    ensures Extends(w.heads, Next(terms, w, a).heads)
  {
  }

  // Some id no bundle has.
  lemma {:induction false} FreshId(ids: set<nat>) returns (id: nat)
    ensures id !in ids && forall x :: x in ids ==> x < id
    decreases |ids|
  {
    if ids == {} {
      id := 0;
    } else {
      var x :| x in ids;
      var rest := FreshId(ids - {x});
      id := Max(rest, x + 1);
      assert forall y :: y in ids ==> y == x || y in ids - {x};
    }
  }

  // A prospect is carried through, if need be with the bundle put back.
  lemma {:induction false} ApplyingReaches(terms: Terms, w: World, i: nat) returns (run: seq<Action>)
    requires w.heads != [] && FastForwards(w.heads) && Head(w) == terms.base && i < |w.requests| && w.requests[i].Applying?
    requires Applicable(terms, w.requests[i].tx)
    ensures PublishesLater(terms, w, run)
  {
    var tx := w.requests[i].tx;
    var files :| Makes(terms, tx.validation.value.files, files);
    var a := ReplaceBundle(tx.validation.value.bundle, Bundle(files, ""));
    Then(terms, w, [], a);
    assert [] + [a] == [a];
    var u := Play(terms, w, [a]);
    var rest, v := FromApplying(terms, u, i, 0);
    PlayOn(terms, w, [a], rest);
    run := [a] + rest;
    assert v.published[|w.published|] !in w.heads;
  }

  lemma {:induction false} PreparingReaches(terms: Terms, w: World, i: nat) returns (run: seq<Action>)
    requires Inv(terms, w) && Head(w) == terms.base && i < |w.requests| && w.requests[i].Preparing?
    requires Prospective(terms, w.now, w.requests[i])
    ensures PublishesLater(terms, w, run)
  {
    var files :| Preparable(terms, files);
    var id := FreshId(w.bundles.Keys);
    var r1, u := FromPreparing(terms, w, i, files, "", id, 0);
    var r2 := ApplyingReaches(terms, u, |w.requests|);
    PlayOn(terms, w, r1, r2);
    run := r1 + r2;
  }

  lemma {:induction false} ProspectReaches(terms: Terms, w: World, i: nat) returns (run: seq<Action>)
    requires Inv(terms, w) && Head(w) == terms.base && i < |w.requests| && Prospective(terms, w.now, w.requests[i])
    ensures PublishesLater(terms, w, run)
  {
    var q, v := w.requests[i], w;
    if q.Preparing? {
      run := PreparingReaches(terms, w, i);
    } else if q.Applying? {
      run := ApplyingReaches(terms, w, i);
    } else if q.BundleRead? {
      run, v := FromBundleRead(terms, w, i, 0);
    } else if q.Admitted? {
      run, v := FromAdmitted(terms, w, i, 0);
    } else {
      BuiltOnBase(terms, w, i);
      run, v := FromBuilt(terms, w, i);
    }
    if !q.Preparing? && !q.Applying? {
      assert v.published[|w.published|] !in w.heads;
    }
  }

  // After a cancel something can still be published if and only if the branch is still on
  // the frozen head and some request with prospects is under way.
  lemma {:induction false} CancelIsFinal(terms: Terms, w0: World, before: seq<Action>)
    requires Fresh(terms, w0)
    requires var w := Play(terms, w0, before); w.stored.Some? && w.stored.value.status == CancelledTx
    ensures var w := Play(terms, w0, before);
            (exists actions :: PublishesLater(terms, w, actions)) <==>
            Head(w) == terms.base && exists i :: 0 <= i < |w.requests| && Prospective(terms, w.now, w.requests[i])
  {
    var w := Play(terms, w0, before);
    EveryRunIsSound(terms, w0, before);
    HeadsExtend(terms, w0, before);
    assert w.heads[|w0.heads| - 1] == w.heads[..|w0.heads|][|w0.heads| - 1] == terms.base;
    if actions :| PublishesLater(terms, w, actions) {
      LaterIsOnBase(terms, w, actions);
      SomeProspect(terms, w, actions);
    }
    if Head(w) == terms.base {
      if i :| 0 <= i < |w.requests| && Prospective(terms, w.now, w.requests[i]) {
        var run := ProspectReaches(terms, w, i);
      }
    }
  }

  lemma {:induction false} SomeProspect(terms: Terms, w: World, actions: seq<Action>)
    requires Inv(terms, w) && w.stored.Some? && w.stored.value.status == CancelledTx && PublishesLater(terms, w, actions)
    ensures exists i :: 0 <= i < |w.requests| && Prospective(terms, w.now, w.requests[i])
  {
    if forall i :: 0 <= i < |w.requests| ==> !Prospective(terms, w.now, w.requests[i]) {
      NothingNew(terms, w, actions);
    }
  }

  lemma {:induction false} NothingNew(terms: Terms, w: World, actions: seq<Action>)
    requires Inv(terms, w) && Hopeless(terms, w)
    ensures !PublishesLater(terms, w, actions)
  {
    HopelessPublishesNothing(terms, w, actions);
    forall c | c in w.published ensures c in w.heads {
      PublishedIsChild(terms, w, c);
    }
  }
}
