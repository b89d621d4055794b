// Where every published commit comes from: the apply it belongs to, the checks it passed,
// and what ends a request that fails one of them.
module ApprovalHistory {
  import opened Common
  import opened Git
  import opened ShadowDelta
  import opened GuardedCommit
  import opened Approvals
  import opened ApprovalRuns

  // ---------------------------------------------------------------- what happened in a run

  // The world before action `p` of the run.
  ghost function Before(terms: Terms, w: World, actions: seq<Action>, p: nat): World
    requires w.heads != [] && p <= |actions|
  {
    Play(terms, w, actions[..p])
  }

  // The apply began with the transaction stored, validated and not expired.
  ghost predicate BeganAt(terms: Terms, w: World, actions: seq<Action>, p: nat, i: nat, tx: Tx)
    requires w.heads != []
  {
    && p < |actions| && actions[p] == BeginApply
    && var u := Before(terms, w, actions, p);
       && |u.requests| == i && u.stored == Some(tx) && tx.status == ValidatedTx && tx.validation.Some? && u.now < terms.expires
  }

  // The plan was validated again: the frozen head, the whitelist, the very files and the
  // very scope that were validated.
  ghost predicate RevalidatedAt(terms: Terms, w: World, actions: seq<Action>, p: nat, i: nat, tx: Tx, bundle: Bundle)
    requires w.heads != []
  {
    && p < |actions| && tx.validation.Some? && actions[p] == Admit(i, tx.validation.value.scope)
    && Head(Before(terms, w, actions, p)) == terms.base
    && tx.validation.value.files == Normalized(bundle.files) && WithinPlan(terms.allowed, Normalized(bundle.files))
  }

  // The commit was built from those files on the frozen head, and the gate let it pass.
  ghost predicate GatedAt(terms: Terms, w: World, actions: seq<Action>, p: nat, i: nat, bundle: Bundle, c: Commit)
    requires w.heads != []
  {
    && p < |actions| && actions[p] == Build(i, c.stamp, true) && Head(Before(terms, w, actions, p)) == terms.base
    && Buildable(terms.base, bundle.files) && c == PlannedCommit(terms.base, bundle.files, bundle.message, c.stamp)
  }

  ghost predicate ConfirmedAt(terms: Terms, w: World, actions: seq<Action>, p: nat, i: nat)
    requires w.heads != []
  {
    p < |actions| && actions[p] == Confirm(i) && Head(Before(terms, w, actions, p)) == terms.base
  }

  // The apply began.
  ghost predicate Began(terms: Terms, w: World, actions: seq<Action>, i: nat, tx: Tx)
    requires w.heads != []
  {
    exists p: nat :: BeganAt(terms, w, actions, p, i, tx)
  }

  // It was validated again after it began.
  ghost predicate Revalidated(terms: Terms, w: World, actions: seq<Action>, i: nat, tx: Tx, bundle: Bundle)
    requires w.heads != []
  {
    exists p: nat :: RevalidatedAt(terms, w, actions, p, i, tx, bundle) && Began(terms, w, actions[..p], i, tx)
  }

  // Its commit was built after that.
  ghost predicate Gated(terms: Terms, w: World, actions: seq<Action>, i: nat, tx: Tx, c: Commit)
    requires w.heads != []
  {
    exists p: nat, bundle :: GatedAt(terms, w, actions, p, i, bundle, c) && Revalidated(terms, w, actions[..p], i, tx, bundle)
  }

  // The commit was confirmed after that.
  ghost predicate Confirmed(terms: Terms, w: World, actions: seq<Action>, i: nat, tx: Tx, c: Commit)
    requires w.heads != []
  {
    exists p: nat :: ConfirmedAt(terms, w, actions, p, i) && Gated(terms, w, actions[..p], i, tx, c)
  }

  // ---------------------------------------------------------------- history only grows

  lemma {:induction false} BeforeStays(terms: Terms, w: World, actions: seq<Action>, a: Action, p: nat)
    requires w.heads != [] && p <= |actions|
    ensures (actions + [a])[..p] == actions[..p] && Before(terms, w, actions + [a], p) == Before(terms, w, actions, p)
  {
    assert (actions + [a])[..p] == actions[..p];
  }

  lemma {:induction false} BeganStays(terms: Terms, w: World, actions: seq<Action>, a: Action, i: nat, tx: Tx)
    requires w.heads != [] && Began(terms, w, actions, i, tx)
    ensures Began(terms, w, actions + [a], i, tx)
  {
    var p: nat :| BeganAt(terms, w, actions, p, i, tx);
    BeforeStays(terms, w, actions, a, p);
    assert BeganAt(terms, w, actions + [a], p, i, tx);
  }

  lemma {:induction false} RevalidatedStays(terms: Terms, w: World, actions: seq<Action>, a: Action, i: nat, tx: Tx, bundle: Bundle)
    requires w.heads != [] && Revalidated(terms, w, actions, i, tx, bundle)
    ensures Revalidated(terms, w, actions + [a], i, tx, bundle)
  {
    var p: nat :| RevalidatedAt(terms, w, actions, p, i, tx, bundle) && Began(terms, w, actions[..p], i, tx);
    BeforeStays(terms, w, actions, a, p);
    assert RevalidatedAt(terms, w, actions + [a], p, i, tx, bundle);
  }

  lemma {:induction false} GatedStays(terms: Terms, w: World, actions: seq<Action>, a: Action, i: nat, tx: Tx, c: Commit)
    requires w.heads != [] && Gated(terms, w, actions, i, tx, c)
    ensures Gated(terms, w, actions + [a], i, tx, c)
  {
    var p: nat, bundle :| GatedAt(terms, w, actions, p, i, bundle, c) && Revalidated(terms, w, actions[..p], i, tx, bundle);
    BeforeStays(terms, w, actions, a, p);
    assert GatedAt(terms, w, actions + [a], p, i, bundle, c);
  }

  lemma {:induction false} ConfirmedStays(terms: Terms, w: World, actions: seq<Action>, a: Action, i: nat, tx: Tx, c: Commit)
    requires w.heads != [] && Confirmed(terms, w, actions, i, tx, c)
    ensures Confirmed(terms, w, actions + [a], i, tx, c)
  {
    var p: nat :| ConfirmedAt(terms, w, actions, p, i) && Gated(terms, w, actions[..p], i, tx, c);
    BeforeStays(terms, w, actions, a, p);
    assert ConfirmedAt(terms, w, actions + [a], p, i);
  }

  // ---------------------------------------------------------------- what a request has behind it

  predicate IsApply(q: Request)
  {
    q.Applying? || q.BundleRead? || q.Admitted? || q.Built? || q.Confirmed? || q.Pushed?
  }

  ghost predicate Trail(terms: Terms, w: World, actions: seq<Action>, i: nat, q: Request)
    requires w.heads != []
  {
    && (IsApply(q) ==> Began(terms, w, actions, i, q.tx))
    && (q.Admitted? ==> Revalidated(terms, w, actions, i, q.tx, q.bundle))
    && (q.Built? ==> Gated(terms, w, actions, i, q.tx, q.commit))
    && (q.Confirmed? || q.Pushed? ==> Confirmed(terms, w, actions, i, q.tx, q.commit))
  }

  lemma {:induction false} TrailStays(terms: Terms, w: World, actions: seq<Action>, a: Action, i: nat, q: Request)
    requires w.heads != [] && Trail(terms, w, actions, i, q)
    ensures Trail(terms, w, actions + [a], i, q)
  {
    if IsApply(q) { BeganStays(terms, w, actions, a, i, q.tx); }
    if q.Admitted? { RevalidatedStays(terms, w, actions, a, i, q.tx, q.bundle); }
    if q.Built? { GatedStays(terms, w, actions, a, i, q.tx, q.commit); }
    if q.Confirmed? || q.Pushed? { ConfirmedStays(terms, w, actions, a, i, q.tx, q.commit); }
  }

  // The step that just happened, seen from the longer run.
  lemma {:induction false} JustNow(terms: Terms, w: World, actions: seq<Action>, a: Action)
    requires w.heads != []
    ensures (actions + [a])[|actions|] == a && (actions + [a])[..|actions|] == actions
    ensures Before(terms, w, actions + [a], |actions|) == Play(terms, w, actions)
  {
    BeforeStays(terms, w, actions, a, |actions|);
    assert actions[..|actions|] == actions;
  }

  lemma {:induction false} BeginTrail(terms: Terms, w: World, actions: seq<Action>)
    requires w.heads != []
    requires var v := Play(terms, w, actions);
             Available(terms, v) && v.stored.value.status == ValidatedTx && v.stored.value.validation.Some?
    ensures var v := Play(terms, w, actions); Trail(terms, w, actions + [BeginApply], |v.requests|, Applying(v.stored.value))
  {
    var v := Play(terms, w, actions);
    JustNow(terms, w, actions, BeginApply);
    assert BeganAt(terms, w, actions + [BeginApply], |actions|, |v.requests|, v.stored.value);
  }

  lemma {:induction false} AdmitTrail(terms: Terms, w: World, actions: seq<Action>, i: nat, scope: nat)
    requires w.heads != [] && i < |Play(terms, w, actions).requests|
    requires Trail(terms, w, actions, i, Play(terms, w, actions).requests[i])
    requires Play(terms, w, actions).requests[i].BundleRead?
    ensures var a := Admit(i, scope);
            Trail(terms, w, actions + [a], i, Proceed(terms, Play(terms, w, actions), a, i).requests[i])
  {
    var v, a := Play(terms, w, actions), Admit(i, scope);
    var q := v.requests[i];
    var r := Proceed(terms, v, a, i).requests[i];
    TrailStays(terms, w, actions, a, i, q);
    JustNow(terms, w, actions, a);
    if r.Admitted? {
      assert RevalidatedAt(terms, w, actions + [a], |actions|, i, q.tx, q.bundle);
    }
  }

  lemma {:induction false} BuildTrail(terms: Terms, w: World, actions: seq<Action>, i: nat, stamp: nat, gate: bool)
    requires w.heads != [] && i < |Play(terms, w, actions).requests|
    requires Trail(terms, w, actions, i, Play(terms, w, actions).requests[i])
    requires Play(terms, w, actions).requests[i].Admitted?
    ensures var a := Build(i, stamp, gate);
            Trail(terms, w, actions + [a], i, Proceed(terms, Play(terms, w, actions), a, i).requests[i])
  {
    var v, a := Play(terms, w, actions), Build(i, stamp, gate);
    var q := v.requests[i];
    var r := Proceed(terms, v, a, i).requests[i];
    TrailStays(terms, w, actions, a, i, q);
    JustNow(terms, w, actions, a);
    if r.Built? {
      assert GatedAt(terms, w, actions + [a], |actions|, i, q.bundle, r.commit);
    }
  }

  lemma {:induction false} ConfirmTrail(terms: Terms, w: World, actions: seq<Action>, i: nat)
    requires w.heads != [] && i < |Play(terms, w, actions).requests|
    requires Trail(terms, w, actions, i, Play(terms, w, actions).requests[i])
    requires Play(terms, w, actions).requests[i].Built?
    ensures var a := Approvals.Confirm(i);
            Trail(terms, w, actions + [a], i, Proceed(terms, Play(terms, w, actions), a, i).requests[i])
  {
    var v, a := Play(terms, w, actions), Approvals.Confirm(i);
    var q := v.requests[i];
    var r := Proceed(terms, v, a, i).requests[i];
    TrailStays(terms, w, actions, a, i, q);
    JustNow(terms, w, actions, a);
    if r.Confirmed? {
      assert ConfirmedAt(terms, w, actions + [a], |actions|, i);
    }
  }

  // Any other step ends the request, reads its bundle, pushes its commit, or does nothing.
  lemma {:induction false} OtherSteps(terms: Terms, v: World, a: Action, i: nat)
    requires v.heads != [] && i < |v.requests| && Directed(a, i)
    requires !(v.requests[i].BundleRead? && a.Admit?) && !(v.requests[i].Admitted? && a.Build?) && !(v.requests[i].Built? && a.Confirm?)
    ensures var q, r := v.requests[i], Proceed(terms, v, a, i).requests[i];
            || r == q || r.Over? || (q.Applying? && r.BundleRead? && r.tx == q.tx) || (q.Confirmed? && r == Pushed(q.tx, q.commit))
  {
  }

  lemma {:induction false} OtherTrail(terms: Terms, w: World, actions: seq<Action>, i: nat, q: Request, r: Request)
    requires w.heads != [] && Trail(terms, w, actions, i, q)
    requires r == q || r.Over? || (q.Applying? && r.BundleRead? && r.tx == q.tx) || (q.Confirmed? && r == Pushed(q.tx, q.commit))
    ensures Trail(terms, w, actions, i, r)
  {
  }

  lemma {:induction false} ProceedTrail(terms: Terms, w: World, actions: seq<Action>, a: Action, i: nat)
    requires w.heads != [] && i < |Play(terms, w, actions).requests| && Directed(a, i)
    requires Trail(terms, w, actions, i, Play(terms, w, actions).requests[i])
    ensures Trail(terms, w, actions + [a], i, Proceed(terms, Play(terms, w, actions), a, i).requests[i])
  {
    var v := Play(terms, w, actions);
    var q := v.requests[i];
    if q.BundleRead? && a.Admit? {
      AdmitTrail(terms, w, actions, i, a.scope);
    } else if q.Admitted? && a.Build? {
      BuildTrail(terms, w, actions, i, a.stamp, a.gate);
    } else if q.Built? && a.Confirm? {
      ConfirmTrail(terms, w, actions, i);
    } else {
      OtherSteps(terms, v, a, i);
      OtherTrail(terms, w, actions, i, q, Proceed(terms, v, a, i).requests[i]);
      TrailStays(terms, w, actions, a, i, Proceed(terms, v, a, i).requests[i]);
    }
  }

  // ---------------------------------------------------------------- over whole runs

  ghost predicate PushedAt(terms: Terms, w: World, actions: seq<Action>, p: nat, i: nat, tx: Tx, c: Commit)
    requires w.heads != []
  {
    && p < |actions| && actions[p] == Push(i)
    && var u := Before(terms, w, actions, p); i < |u.requests| && u.requests[i] == Approvals.Confirmed(tx, c)
  }

  // The commit has everything behind it.
  ghost predicate Vouched(terms: Terms, w: World, actions: seq<Action>, c: Commit)
    requires w.heads != []
  {
    exists p: nat, i: nat, tx :: PushedAt(terms, w, actions, p, i, tx, c) && Confirmed(terms, w, actions[..p], i, tx, c)
  }

  ghost predicate Trails(terms: Terms, w: World, actions: seq<Action>)
    requires w.heads != []
  {
    forall i :: 0 <= i < |Play(terms, w, actions).requests| ==> Trail(terms, w, actions, i, Play(terms, w, actions).requests[i])
  }

  ghost predicate AllVouched(terms: Terms, w: World, actions: seq<Action>)
    requires w.heads != []
  {
    forall c :: c in Play(terms, w, actions).published ==> Vouched(terms, w, actions, c)
  }

  lemma {:induction false} VouchedStays(terms: Terms, w: World, actions: seq<Action>, a: Action, c: Commit)
    requires w.heads != [] && Vouched(terms, w, actions, c)
    ensures Vouched(terms, w, actions + [a], c)
  {
    var p: nat, i: nat, tx :| PushedAt(terms, w, actions, p, i, tx, c) && Confirmed(terms, w, actions[..p], i, tx, c);
    BeforeStays(terms, w, actions, a, p);
    assert PushedAt(terms, w, actions + [a], p, i, tx, c);
  }

  lemma {:induction false} JustPushed(terms: Terms, w: World, actions: seq<Action>, i: nat)
    requires w.heads != [] && Trails(terms, w, actions) && i < |Play(terms, w, actions).requests|
    requires Play(terms, w, actions).requests[i].Confirmed?
    ensures Vouched(terms, w, actions + [Push(i)], Play(terms, w, actions).requests[i].commit)
  {
    var v := Play(terms, w, actions);
    var q := v.requests[i];
    assert Trail(terms, w, actions, i, q);
    JustNow(terms, w, actions, Push(i));
    assert PushedAt(terms, w, actions + [Push(i)], |actions|, i, q.tx, q.commit);
  }

  // Only the push of a confirmed commit adds to what is published.
  lemma {:induction false} OnlyPushesPublish(terms: Terms, v: World, a: Action)
    requires v.heads != []
    ensures var u := Next(terms, v, a);
            || u.published == v.published
            || (a.Push? && a.i < |v.requests| && v.requests[a.i].Confirmed? && u.published == v.published + [v.requests[a.i].commit])
  {
  }

  // What an action does to the list of requests: it begins one, or moves one on.
  lemma {:induction false} RequestsAfter(terms: Terms, v: World, a: Action)
    requires v.heads != []
    ensures var u := Next(terms, v, a);
            || u.requests == v.requests
            || (a == BeginPrepare && u.requests == v.requests + [Preparing(v.stored.value)])
            || (&& a == BeginApply && u.requests == v.requests + [Applying(v.stored.value)]
                && Available(terms, v) && v.stored.value.status == ValidatedTx && v.stored.value.validation.Some?)
            || exists i :: MovesOne(terms, v, a, u, i)
  {
    var u := Next(terms, v, a);
    if Moving(a) && Index(a) < |v.requests| {
      OneMoves(terms, v, a, Index(a));
      assert MovesOne(terms, v, a, u, Index(a));
    } else if (a.FinishPrepare? || a.Abandon?) && a.i < |v.requests| {
      assert u.requests == v.requests || MovesOne(terms, v, a, u, a.i);
    }
  }

  // The request was ended or moved on, and no other.
  ghost predicate MovesOne(terms: Terms, v: World, a: Action, u: World, i: nat)
    requires v.heads != []
  {
    && i < |v.requests|
    && (u.requests == v.requests[i := Over] || (Directed(a, i) && u.requests == v.requests[i := Proceed(terms, v, a, i).requests[i]]))
  }

  predicate Moving(a: Action)
  {
    a.ReadBundle? || a.Admit? || a.Build? || a.Confirm? || a.Push? || a.SaveApplied?
  }

  function Index(a: Action): nat
    requires Moving(a)
  {
    match a
    case ReadBundle(i) => i
    case Admit(i, _) => i
    case Build(i, _, _) => i
    case Confirm(i) => i
    case Push(i) => i
    case SaveApplied(i) => i
  }

  lemma {:induction false} OneMoves(terms: Terms, v: World, a: Action, i: nat)
    requires v.heads != [] && Moving(a) && i == Index(a) && i < |v.requests|
    ensures Directed(a, i) && Next(terms, v, a) == Proceed(terms, v, a, i)
    ensures Proceed(terms, v, a, i).requests == v.requests[i := Proceed(terms, v, a, i).requests[i]]
  {
  }

  lemma {:induction false} NextTrails(terms: Terms, w: World, actions: seq<Action>, a: Action)
    requires w.heads != [] && Trails(terms, w, actions)
    ensures Trails(terms, w, actions + [a])
  {
    var v := Play(terms, w, actions);
    Then(terms, w, actions, a);
    RequestsAfter(terms, v, a);
    var u := Next(terms, v, a);
    forall j | 0 <= j < |u.requests| ensures Trail(terms, w, actions + [a], j, u.requests[j]) {
      if j < |v.requests| {
        assert Trail(terms, w, actions, j, v.requests[j]);
        TrailStays(terms, w, actions, a, j, v.requests[j]);
        if u.requests[j] != v.requests[j] && !u.requests[j].Over? {
          ProceedTrail(terms, w, actions, a, j);
        }
      } else if a == BeginApply {
        BeginTrail(terms, w, actions);
      }
    }
  }

  lemma {:induction false} NextVouched(terms: Terms, w: World, actions: seq<Action>, a: Action)
    requires w.heads != [] && Trails(terms, w, actions) && AllVouched(terms, w, actions)
    ensures AllVouched(terms, w, actions + [a])
  {
    var v := Play(terms, w, actions);
    Then(terms, w, actions, a);
    OnlyPushesPublish(terms, v, a);
    forall c | c in Next(terms, v, a).published ensures Vouched(terms, w, actions + [a], c) {
      if c in v.published {
        VouchedStays(terms, w, actions, a, c);
      } else {
        JustPushed(terms, w, actions, a.i);
      }
    }
  }

  lemma {:induction false} EveryRunVouches(terms: Terms, w: World, actions: seq<Action>)
    requires Fresh(terms, w)
    ensures Trails(terms, w, actions) && AllVouched(terms, w, actions)
  {
    if actions != [] {
      var front, last := actions[..|actions| - 1], actions[|actions| - 1];
      EveryRunVouches(terms, w, front);
      assert actions == front + [last];
      NextTrails(terms, w, front, last);
      NextVouched(terms, w, front, last);
    }
  }

  // What happened in the beginning of a run happened in the run.
  lemma {:induction false} InPrefix(terms: Terms, w: World, actions: seq<Action>, n: nat, p: nat)
    requires w.heads != [] && p <= n <= |actions|
    ensures actions[..n][..p] == actions[..p] && Before(terms, w, actions[..n], p) == Before(terms, w, actions, p)
    ensures p < n ==> actions[..n][p] == actions[p]
  {
    assert actions[..n][..p] == actions[..p];
  }

  // Every commit a transaction published was pushed by an apply that began before the
  // transaction expired, then was revalidated under the very scope and for the very files
  // its validation holds, then was built from those files past the gate, then confirmed -
  // each time on the frozen head.
  lemma {:induction false} EveryCommitWasVetted(terms: Terms, w: World, actions: seq<Action>, c: Commit)
    returns (i: nat, tx: Tx, bundle: Bundle, began: nat, admitted: nat, built: nat, confirmed: nat, pushed: nat)
    requires Fresh(terms, w) && c in Play(terms, w, actions).published
    ensures began < admitted < built < confirmed < pushed
    ensures BeganAt(terms, w, actions, began, i, tx)
    ensures RevalidatedAt(terms, w, actions, admitted, i, tx, bundle)
    ensures GatedAt(terms, w, actions, built, i, bundle, c)
    ensures ConfirmedAt(terms, w, actions, confirmed, i)
    ensures PushedAt(terms, w, actions, pushed, i, tx, c)
  {
    EveryRunVouches(terms, w, actions);
    assert Vouched(terms, w, actions, c);
    pushed, i, tx :| PushedAt(terms, w, actions, pushed, i, tx, c) && Confirmed(terms, w, actions[..pushed], i, tx, c);
    began, admitted, built, confirmed, bundle := VettedInOrder(terms, w, actions, pushed, i, tx, c);
  }

  lemma {:induction false} VettedInOrder(terms: Terms, w: World, actions: seq<Action>, n: nat, i: nat, tx: Tx, c: Commit)
    returns (began: nat, admitted: nat, built: nat, confirmed: nat, bundle: Bundle)
    requires w.heads != [] && n <= |actions| && Confirmed(terms, w, actions[..n], i, tx, c)
    ensures began < admitted < built < confirmed < n && BeganAt(terms, w, actions, began, i, tx)
    ensures RevalidatedAt(terms, w, actions, admitted, i, tx, bundle)
    ensures GatedAt(terms, w, actions, built, i, bundle, c) && ConfirmedAt(terms, w, actions, confirmed, i)
  {
    confirmed :| ConfirmedAt(terms, w, actions[..n], confirmed, i) && Gated(terms, w, actions[..n][..confirmed], i, tx, c);
    InPrefix(terms, w, actions, n, confirmed);
    began, admitted, built, bundle := BuiltInOrder(terms, w, actions, confirmed, i, tx, c);
  }

  lemma {:induction false} BuiltInOrder(terms: Terms, w: World, actions: seq<Action>, n: nat, i: nat, tx: Tx, c: Commit)
    returns (began: nat, admitted: nat, built: nat, bundle: Bundle)
    requires w.heads != [] && n <= |actions| && Gated(terms, w, actions[..n], i, tx, c)
    ensures began < admitted < built < n && BeganAt(terms, w, actions, began, i, tx)
    ensures RevalidatedAt(terms, w, actions, admitted, i, tx, bundle) && GatedAt(terms, w, actions, built, i, bundle, c)
  {
    built, bundle :|
      GatedAt(terms, w, actions[..n], built, i, bundle, c) && Revalidated(terms, w, actions[..n][..built], i, tx, bundle);
    InPrefix(terms, w, actions, n, built);
    began, admitted := AdmittedInOrder(terms, w, actions, built, i, tx, bundle);
  }

  lemma {:induction false} AdmittedInOrder(terms: Terms, w: World, actions: seq<Action>, n: nat, i: nat, tx: Tx, bundle: Bundle)
    returns (began: nat, admitted: nat)
    requires w.heads != [] && n <= |actions| && Revalidated(terms, w, actions[..n], i, tx, bundle)
    ensures began < admitted < n && BeganAt(terms, w, actions, began, i, tx)
    ensures RevalidatedAt(terms, w, actions, admitted, i, tx, bundle)
  {
    admitted :| RevalidatedAt(terms, w, actions[..n], admitted, i, tx, bundle) && Began(terms, w, actions[..n][..admitted], i, tx);
    InPrefix(terms, w, actions, n, admitted);
    began :| BeganAt(terms, w, actions[..admitted], began, i, tx);
    InPrefix(terms, w, actions, admitted, began);
  }

  // ---------------------------------------------------------------- what ends a request

  lemma {:induction false} OverStaysOver(terms: Terms, w: World, actions: seq<Action>, i: nat)
    requires w.heads != [] && i < |w.requests| && w.requests[i].Over?
    ensures i < |Play(terms, w, actions).requests| && Play(terms, w, actions).requests[i].Over?
  {
    if actions != [] {
      var v := Play(terms, w, actions[..|actions| - 1]);
      OverStaysOver(terms, w, actions[..|actions| - 1], i);
      OverAfter(terms, v, actions[|actions| - 1], i);
    }
  }

  lemma {:induction false} OverAfter(terms: Terms, v: World, a: Action, i: nat)
    requires v.heads != [] && i < |v.requests| && v.requests[i].Over?
    ensures i < |Next(terms, v, a).requests| && Next(terms, v, a).requests[i].Over?
  {
    RequestsAfter(terms, v, a);
    if Directed(a, i) {
      assert Proceed(terms, v, a, i) == v;
    }
  }

  // An apply goes past its revalidation exactly when the head is the frozen one, the bundle
  // holds the validated files within the whitelist, and the scope is the validated one; with
  // any other scope it ends for good.
  lemma {:induction false} AdmitsExactly(terms: Terms, w: World, i: nat, scope: nat, later: seq<Action>)
    requires w.heads != [] && i < |w.requests| && w.requests[i].BundleRead?
    ensures var q, v := w.requests[i], Next(terms, w, Admit(i, scope));
            && v == w.(requests := v.requests) && |v.requests| == |w.requests| && (v.requests[i].Admitted? || v.requests[i].Over?)
            && (v.requests[i] == Admitted(q.tx, q.bundle) <==>
                  && Head(w) == terms.base && q.tx.validation.Some? && q.tx.validation.value.scope == scope
                  && q.tx.validation.value.files == Normalized(q.bundle.files) && WithinPlan(terms.allowed, Normalized(q.bundle.files)))
            && (v.requests[i].Over? ==>
                  i < |Play(terms, v, later).requests| && Play(terms, v, later).requests[i].Over?)
  {
    var v := Next(terms, w, Admit(i, scope));
    if v.requests[i].Over? {
      OverStaysOver(terms, v, later, i);
    }
  }

  // It builds a commit exactly on the frozen head, from files that can be built, past the gate.
  lemma {:induction false} BuildsExactly(terms: Terms, w: World, i: nat, stamp: nat, gate: bool, later: seq<Action>)
    requires w.heads != [] && i < |w.requests| && w.requests[i].Admitted?
    ensures var q, v := w.requests[i], Next(terms, w, Build(i, stamp, gate));
            && v == w.(requests := v.requests) && |v.requests| == |w.requests| && (v.requests[i].Built? || v.requests[i].Over?)
            && (v.requests[i].Built? <==> Head(w) == terms.base && gate && Buildable(terms.base, q.bundle.files))
            && (v.requests[i].Over? ==>
                  i < |Play(terms, v, later).requests| && Play(terms, v, later).requests[i].Over?)
  {
    var v := Next(terms, w, Build(i, stamp, gate));
    assert v == Proceed(terms, w, Build(i, stamp, gate), i);
    if v.requests[i].Over? {
      OverStaysOver(terms, v, later, i);
    }
  }

  // A prepare stores the transaction exactly when the head is still the frozen one and the
  // files are whitelisted and safe; the id of its bundle is a new one.
  lemma {:induction false} PreparesExactly(terms: Terms, w: World, i: nat, files: seq<PlanFile>, message: string, bundle: nat, scope: nat)
    requires w.heads != [] && i < |w.requests| && w.requests[i].Preparing? && bundle !in w.bundles
    ensures var v := Next(terms, w, FinishPrepare(i, files, message, bundle, scope));
            && v.requests == w.requests[i := Over] && v.heads == w.heads && v.published == w.published
            && if Head(w) == terms.base && WithinPlan(terms.allowed, Normalized(files)) && AllSafe(files)
               then v.stored == Some(Tx(ValidatedTx, Some(Validation(bundle, Normalized(files), scope))))
                    && v.bundles == w.bundles[bundle := Bundle(files, message)]
               else v.stored == w.stored && v.bundles == w.bundles
  {
  }

  // Once the transaction has expired no request begins any more.
  lemma {:induction false} ExpiredBeginsNothing(terms: Terms, w: World, actions: seq<Action>)
    requires w.heads != [] && w.now >= terms.expires
    ensures |Play(terms, w, actions).requests| == |w.requests| && Play(terms, w, actions).now >= terms.expires
  {
    if actions != [] {
      ExpiredBeginsNothing(terms, w, actions[..|actions| - 1]);
      RequestsAfter(terms, Play(terms, w, actions[..|actions| - 1]), actions[|actions| - 1]);
    }
  }
}
