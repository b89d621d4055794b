// When overlapping reversals keep their order: with saves that do not overlap and no commit
// made twice, the reversals of an operation alternate exactly when none of them read the
// direction state while an earlier one had moved the branch and was not stored.
module ReversalOrder {
  import opened Common
  import opened Git
  import opened GuardedCommit
  import opened ReversalHistory
  import opened ReversalRuntime
  import opened ReversalRequests
  import RP = ReversalPlan

  // No save comes between the two halves of another, and no push repeats the commit the
  // branch already stands on.
  predicate Orderly(w: World, a: Action)
    requires w.heads != []
  {
    match a
    case Push(i) => i < |w.requests| && w.requests[i].Built? ==> w.requests[i].commit != Head(w)
    case StoreStates(i) => i < |w.requests| && w.requests[i].Saving? ==> w.requests[i].snapshot == w.states
    case _ => true
  }

  ghost predicate OrderlyPlay(e: Setting, w: World, actions: seq<Action>)
    requires w.heads != []
  {
    actions == []
    || (OrderlyPlay(e, w, actions[..|actions| - 1]) && Orderly(Play(e, w, actions[..|actions| - 1]), actions[|actions| - 1]))
  }

  // Of the first `n` reversals each of the operation read the state with nothing unsaved.
  ghost predicate AloneUpTo(log: seq<Reversal>, seen: seq<Seen>, op: nat, n: nat)
  {
    n <= |log| == |seen| && forall k :: 0 <= k < n && log[k].op == op ==> seen[k].alone
  }

  ghost predicate SavedUpTo(log: seq<Reversal>, saved: set<nat>, op: nat, n: nat)
  {
    n <= |log| && forall k :: 0 <= k < n && log[k].op == op ==> k in saved
  }

  ghost predicate LastOf(log: seq<Reversal>, op: nat, k: nat)
  {
    k < |log| && log[k].op == op && forall j :: k < j < |log| ==> log[j].op != op
  }

  // The store holds the state of the branch, but for the last reversal when that is unsaved.
  ghost predicate StoreFits(log: seq<Reversal>, saved: set<nat>, states: map<nat, OpState>, op: nat)
  {
    && (Settled(log, saved, op) ==> StateOf(states, op) == StateAfter(log, op))
    && forall k :: 0 <= k < |log| && log[k].op == op && k !in saved ==>
         LastOf(log, op, k) && StateOf(states, op) == StateAfter(log[..k], op)
  }

  // What a request knows before it lands.
  ghost predicate Waits(log: seq<Reversal>, seen: seq<Seen>, saved: set<nat>, op: nat, r: Computed, note: Seen)
  {
    && note.moves <= |log|
    && (note.alone ==> SavedUpTo(log, saved, op, note.moves))
    && (AloneUpTo(log, seen, op, note.moves) ==>
          && (note.alone <==> note.current)
          && (note.alone ==> r.state == StateAfter(log[..note.moves], op)))
  }

  // What it knows afterwards.
  ghost predicate Follows(log: seq<Reversal>, seen: seq<Seen>, saved: set<nat>, op: nat, ask: Ask, r: Computed, commit: Commit, at: Option<nat>)
  {
    && at.Some? && at.value < |log| && at.value !in saved && log[at.value] == EntryOf(ask, r, commit)
    && (ask.op == op && AloneUpTo(log, seen, op, |log|) ==> r.state == StateAfter(log[..at.value], op))
  }

  ghost predicate InOrder(log: seq<Reversal>, seen: seq<Seen>, saved: set<nat>, op: nat, q: Request)
  {
    && (q.Planned? || q.Spending? || q.Built? ==> q.ask.op == op ==> Waits(log, seen, saved, op, q.r, q.seen))
    && (q.Landed? || q.Saving? ==> Follows(log, seen, saved, op, q.ask, q.r, q.commit, q.at))
  }

  predicate Apart(p: Request, q: Request)
  {
    (p.Landed? || p.Saving?) && (q.Landed? || q.Saving?) ==> p.at != q.at
  }

  ghost predicate RequestsInOrder(log: seq<Reversal>, seen: seq<Seen>, saved: set<nat>, op: nat, requests: seq<Request>)
  {
    && (forall i :: 0 <= i < |requests| ==> InOrder(log, seen, saved, op, requests[i]))
    && (forall i, j :: 0 <= i < j < |requests| ==> Apart(requests[i], requests[j]))
  }

  ghost predicate LogInOrder(e: Setting, log: seq<Reversal>, seen: seq<Seen>, saved: set<nat>, states: map<nat, OpState>, op: nat)
  {
    && |log| == |seen| && (forall k :: k in saved ==> k < |log|)
    && (AloneUpTo(log, seen, op, |log|) <==> AllCurrent(log, seen, op))
    && (AloneUpTo(log, seen, op, |log|) ==> StoreFits(log, saved, states, op) && LawfulFor(e.operations, log, op))
  }

  ghost predicate OrderInv(e: Setting, w: World, op: nat)
  {
    && RequestsInOrder(w.log, w.seen, w.saved, op, w.requests)
    && LogInOrder(e, w.log, w.seen, w.saved, w.states, op)
  }

  // ---------------------------------------------------------------- reading the state

  // With one reversal unsaved the store tells the opposite of what the branch shows.
  lemma {:induction false} UnsavedDisagrees(w: World, op: nat, k: nat)
    requires Inv(w) && AllCurrent(w.log, w.seen, op) && StoreFits(w.log, w.saved, w.states, op)
    requires k < |w.log| && w.log[k].op == op && k !in w.saved
    ensures !Agrees(StateOf(w.states, op), StateAfter(w.log, op))
  {
    assert EntryFits(w.heads, w.tickets, w.log, w.seen, k);
    assert LatestBefore(w.log, op, |w.log|, k);
    StateIsLatest(w.log, op, |w.log|, k);
    assert w.log[..|w.log|] == w.log;
  }

  lemma {:induction false} NoteWaits(e: Setting, w: World, op: nat, r: Computed)
    requires Inv(w) && LogInOrder(e, w.log, w.seen, w.saved, w.states, op) && r.state == StateOf(w.states, op)
    ensures Waits(w.log, w.seen, w.saved, op, r, Note(w, op))
  {
    assert w.log[..|w.log|] == w.log;
    if AloneUpTo(w.log, w.seen, op, |w.log|) && !Settled(w.log, w.saved, op) {
      var k :| 0 <= k < |w.log| && w.log[k].op == op && k !in w.saved;
      UnsavedDisagrees(w, op, k);
    }
  }

  // ---------------------------------------------------------------- landing

  lemma {:induction false} Prefix(log: seq<Reversal>, entry: Reversal, n: nat)
    requires n <= |log|
    ensures (log + [entry])[..n] == log[..n]
  {
  }

  lemma {:induction false} LandingKeepsOrder(log: seq<Reversal>, seen: seq<Seen>, saved: set<nat>, op: nat, entry: Reversal, note: Seen, q: Request)
    requires InOrder(log, seen, saved, op, q) && |log| == |seen|
    ensures InOrder(log + [entry], seen + [note], saved, op, q)
  {
    if q.Planned? || q.Spending? || q.Built? {
      if q.seen.moves <= |log| {
        Prefix(log, entry, q.seen.moves);
      }
    } else if q.Landed? || q.Saving? {
      Prefix(log, entry, q.at.value);
      AloneGrows(log, seen, op, entry, note);
    }
  }

  lemma {:induction false} AloneGrows(log: seq<Reversal>, seen: seq<Seen>, op: nat, entry: Reversal, note: Seen)
    requires |log| == |seen|
    ensures AloneUpTo(log + [entry], seen + [note], op, |log| + 1) <==>
            AloneUpTo(log, seen, op, |log|) && (entry.op == op ==> note.alone)
    ensures AllCurrent(log + [entry], seen + [note], op) <==>
            AllCurrent(log, seen, op) && (entry.op == op ==> note.current)
  {
    var l, s := log + [entry], seen + [note];
    assert l[|log|] == entry && s[|log|] == note;
    assert forall k :: 0 <= k < |log| ==> l[k] == log[k] && s[k] == seen[k];
  }

  lemma {:induction false} StateAfterMore(log: seq<Reversal>, entry: Reversal, op: nat)
    ensures StateAfter(log + [entry], op) == if entry.op == op then Saved(StateAfter(log, op), entry) else StateAfter(log, op)
  {
    Prefix(log, entry, |log|);
    assert log[..|log|] == log;
  }

  lemma {:induction false} StoreLags(log: seq<Reversal>, saved: set<nat>, states: map<nat, OpState>, op: nat, entry: Reversal)
    requires StoreFits(log, saved, states, op) && (entry.op == op ==> Settled(log, saved, op))
    requires forall k :: k in saved ==> k < |log|
    ensures StoreFits(log + [entry], saved, states, op)
  {
    var l := log + [entry];
    StateAfterMore(log, entry, op);
    if Settled(l, saved, op) {
      assert l[|log|] == entry && |log| !in saved;
      forall k | 0 <= k < |log| && log[k].op == op ensures k in saved {
        assert l[k] == log[k];
      }
    }
    forall k | 0 <= k < |l| && l[k].op == op && k !in saved
      ensures LastOf(l, op, k) && StateOf(states, op) == StateAfter(l[..k], op)
    {
      Prefix(log, entry, Min(k, |log|));
      if k < |log| {
        assert LastOf(log, op, k);
      } else {
        assert log[..|log|] == log;
      }
    }
  }

  lemma {:induction false} LawGrows(e: Setting, log: seq<Reversal>, op: nat, entry: Reversal)
    requires LawfulFor(e.operations, log, op)
    requires entry.op == op ==> Lawful(e.operations, log + [entry], |log|)
    ensures LawfulFor(e.operations, log + [entry], op)
  {
    var l := log + [entry];
    forall k | 0 <= k < |l| && l[k].op == op ensures Lawful(e.operations, l, k) {
      if k < |log| {
        Prefix(log, entry, k);
        assert Lawful(e.operations, log, k);
      }
    }
  }

  // A planned reversal that landed on the state it was planned for is lawful.
  lemma {:induction false} PlannedIsLawful(e: Setting, log: seq<Reversal>, q: Request)
    requires q.Built? && RequestPlanned(e, q) && q.r.state == StateAfter(log, q.ask.op)
    ensures Lawful(e.operations, log + [EntryOf(q.ask, q.r, q.commit)], |log|)
  {
    var entry := EntryOf(q.ask, q.r, q.commit);
    Prefix(log, entry, |log|);
    assert log[..|log|] == log;
    var edits :| Computes(e.operations, e.classifiers, q.ask.op, q.ask.direction, q.ask.strategy, edits, q.r.head, q.r.state, q.r);
  }

  lemma {:induction false} LogLands(e: Setting, w: World, op: nat, i: nat)
    requires Inv(w) && PlansInv(e, w) && OrderInv(e, w, op) && Moves(w, i)
    ensures var v := Moved(w, i); LogInOrder(e, v.log, v.seen, v.saved, v.states, op)
  {
    var q := w.requests[i];
    var entry := EntryOf(q.ask, q.r, q.commit);
    Lands(w, i);
    assert InOrder(w.log, w.seen, w.saved, op, q) && RequestPlanned(e, q);
    AloneGrows(w.log, w.seen, op, entry, q.seen);
    assert w.log[..|w.log|] == w.log;
    if AloneUpTo(w.log, w.seen, op, |w.log|) && (q.ask.op == op ==> q.seen.alone) {
      StoreLags(w.log, w.saved, w.states, op, entry);
      if q.ask.op == op {
        PlannedIsLawful(e, w.log, q);
      }
      LawGrows(e, w.log, op, entry);
    }
  }

  lemma {:induction false} LandedFollows(w: World, op: nat, i: nat)
    requires Inv(w) && RequestsInOrder(w.log, w.seen, w.saved, op, w.requests) && Moves(w, i)
    requires forall k :: k in w.saved ==> k < |w.log|
    ensures var q, v := w.requests[i], Moved(w, i);
            Follows(v.log, v.seen, v.saved, op, q.ask, q.r, q.commit, Some(|w.log|))
  {
    var q := w.requests[i];
    var entry := EntryOf(q.ask, q.r, q.commit);
    Lands(w, i);
    assert InOrder(w.log, w.seen, w.saved, op, q);
    AloneGrows(w.log, w.seen, op, entry, q.seen);
    Prefix(w.log, entry, |w.log|);
    assert w.log[..|w.log|] == w.log;
  }

  lemma {:induction false} MovedKeepsOrder(e: Setting, w: World, op: nat, i: nat)
    requires Inv(w) && PlansInv(e, w) && OrderInv(e, w, op) && Moves(w, i)
    ensures OrderInv(e, Moved(w, i), op)
  {
    var q, v := w.requests[i], Moved(w, i);
    LogLands(e, w, op, i);
    LandedFollows(w, op, i);
    forall j | 0 <= j < |v.requests| ensures InOrder(v.log, v.seen, v.saved, op, v.requests[j]) {
      if j != i {
        LandingKeepsOrder(w.log, w.seen, w.saved, op, EntryOf(q.ask, q.r, q.commit), q.seen, w.requests[j]);
      }
    }
    forall j, k | 0 <= j < k < |v.requests| ensures Apart(v.requests[j], v.requests[k]) {
      assert Apart(w.requests[j], w.requests[k]);
      assert InOrder(w.log, w.seen, w.saved, op, w.requests[j]) && InOrder(w.log, w.seen, w.saved, op, w.requests[k]);
    }
  }

  // ---------------------------------------------------------------- the other steps

  // One request moved on, keeping its place in the log.
  lemma {:induction false} AdvanceKeepsOrder(e: Setting, w: World, op: nat, i: nat, q: Request)
    requires OrderInv(e, w, op) && i < |w.requests| && InOrder(w.log, w.seen, w.saved, op, q)
    requires q.Landed? || q.Saving? ==> (w.requests[i].Landed? || w.requests[i].Saving?) && q.at == w.requests[i].at
    ensures OrderInv(e, Advance(w, i, q), op)
  {
    var v := Advance(w, i, q);
    forall j, k | 0 <= j < k < |v.requests| ensures Apart(v.requests[j], v.requests[k]) {
      assert Apart(w.requests[j], w.requests[k]);
    }
  }

  lemma {:induction false} AllSavedAfter(log: seq<Reversal>, saved: set<nat>, states: map<nat, OpState>, op: nat, at: nat)
    requires StoreFits(log, saved, states, op) && at < |log| && log[at].op == op && at !in saved
    ensures Settled(log, saved + {at}, op)
    ensures StateAfter(log, op) == Saved(StateAfter(log[..at], op), log[at])
  {
    assert LastOf(log, op, at);
    assert LatestBefore(log, op, |log|, at);
    StateIsLatest(log, op, |log|, at);
    assert log[..|log|] == log;
    forall k | 0 <= k < |log| && log[k].op == op ensures k in saved + {at} {
      if k !in saved {
        assert LastOf(log, op, k);
      }
    }
  }

  lemma {:induction false} StoringFits(log: seq<Reversal>, saved: set<nat>, states: map<nat, OpState>, op: nat, at: nat, state: OpState)
    requires StoreFits(log, saved, states, op) && at < |log| && at !in saved
    requires log[at].op == op ==> state == StateAfter(log[..at], op)
    ensures StoreFits(log, saved + {at}, states[log[at].op := ReversalHistory.Saved(state, log[at])], op)
  {
    if log[at].op == op {
      AllSavedAfter(log, saved, states, op, at);
    } else {
      if Settled(log, saved + {at}, op) {
        forall k | 0 <= k < |log| && log[k].op == op ensures k in saved {
          assert k in saved + {at};
        }
      }
    }
  }

  lemma {:induction false} StoringKeepsRequest(log: seq<Reversal>, seen: seq<Seen>, saved: set<nat>, op: nat, at: nat, q: Request)
    requires InOrder(log, seen, saved, op, q) && ((q.Landed? || q.Saving?) ==> q.at != Some(at))
    ensures InOrder(log, seen, saved + {at}, op, q)
  {
  }

  lemma {:induction false} StoreKeepsOrder(e: Setting, w: World, op: nat, i: nat)
    requires w.heads != [] && OrderInv(e, w, op) && i < |w.requests| && w.requests[i].Saving? && w.requests[i].snapshot == w.states
    ensures OrderInv(e, Proceed(e, w, StoreStates(i), i), op)
  {
    var q, v := w.requests[i], Proceed(e, w, StoreStates(i), i);
    assert InOrder(w.log, w.seen, w.saved, op, q);
    var at := q.at.value;
    if AloneUpTo(w.log, w.seen, op, |w.log|) {
      StoringFits(w.log, w.saved, w.states, op, at, q.r.state);
    }
    forall j | 0 <= j < |v.requests| ensures InOrder(v.log, v.seen, v.saved, op, v.requests[j]) {
      if j != i {
        assert Apart(w.requests[i], w.requests[j]) || Apart(w.requests[j], w.requests[i]);
        StoringKeepsRequest(w.log, w.seen, w.saved, op, at, w.requests[j]);
      }
    }
    forall j, k | 0 <= j < k < |v.requests| ensures Apart(v.requests[j], v.requests[k]) {
      assert Apart(w.requests[j], w.requests[k]);
    }
  }

  lemma {:induction false} PlannedInOrder(e: Setting, w: World, op: nat, a: Action, i: nat)
    requires Inv(w) && OrderInv(e, w, op) && i < |w.requests| && w.requests[i].HeadRead? && a.ReadState?
    ensures OrderInv(e, Proceed(e, w, a, i), op)
  {
    var q, v := w.requests[i], Proceed(e, w, a, i);
    if v.requests[i].Planned? {
      ComputedIsAllowed(e, q.ask, a.edits, q.head, StateOf(w.states, q.ask.op), a.r);
      if q.ask.op == op {
        NoteWaits(e, w, op, a.r);
      }
      AdvanceKeepsOrder(e, w, op, i, Planned(q.ask, a.r, Note(w, q.ask.op)));
    } else {
      AdvanceKeepsOrder(e, w, op, i, Over);
    }
  }

  // Steps that touch neither the log nor the store.
  lemma {:induction false} QuietKeepsOrder(e: Setting, w: World, op: nat, a: Action, i: nat)
    requires w.heads != [] && OrderInv(e, w, op) && i < |w.requests|
    requires !w.requests[i].HeadRead? && !w.requests[i].Built? && !w.requests[i].Saving?
    ensures OrderInv(e, Proceed(e, w, a, i), op)
  {
    var q, v := w.requests[i], Proceed(e, w, a, i);
    assert InOrder(w.log, w.seen, w.saved, op, q);
    AdvanceKeepsOrder(e, w, op, i, v.requests[i]);
    if v != w {
      assert v == Advance(w, i, v.requests[i]).(tickets := v.tickets);
    } else {
      assert w.requests[i := q] == w.requests;
    }
  }

  lemma {:induction false} ProceedKeepsOrder(e: Setting, w: World, op: nat, a: Action, i: nat)
    requires Inv(w) && PlansInv(e, w) && OrderInv(e, w, op) && i < |w.requests| && Target(a) == Some(i) && Orderly(w, a)
    ensures OrderInv(e, Proceed(e, w, a, i), op)
  {
    var q := w.requests[i];
    if q.HeadRead? {
      if a.ReadState? { PlannedInOrder(e, w, op, a, i); }
    } else if q.Built? {
      if a.Push? {
        if Moves(w, i) {
          MovedKeepsOrder(e, w, op, i);
        } else {
          AdvanceKeepsOrder(e, w, op, i, Over);
        }
      }
    } else if q.Saving? {
      if a.StoreStates? { StoreKeepsOrder(e, w, op, i); }
    } else {
      QuietKeepsOrder(e, w, op, a, i);
    }
  }

  lemma {:induction false} BeginKeepsOrder(e: Setting, w: World, op: nat, q: Request)
    requires OrderInv(e, w, op) && q.Asked?
    ensures OrderInv(e, w.(requests := w.requests + [q]), op)
  {
    var requests := w.requests + [q];
    forall j | 0 <= j < |requests| ensures InOrder(w.log, w.seen, w.saved, op, requests[j]) {
      assert j < |w.requests| ==> requests[j] == w.requests[j];
    }
    forall j, k | 0 <= j < k < |requests| ensures Apart(requests[j], requests[k]) {
      assert k < |w.requests| ==> Apart(w.requests[j], w.requests[k]);
    }
  }

  lemma {:induction false} NextKeepsOrder(e: Setting, w: World, op: nat, a: Action)
    requires Inv(w) && PlansInv(e, w) && OrderInv(e, w, op) && Orderly(w, a)
    ensures OrderInv(e, Next(e, w, a), op)
  {
    match a
    case BeginPreview(o, d, s, id) => BeginKeepsOrder(e, w, op, Asked(Ask(o, d, s, ToIssue(id))));
    case BeginApply(id, _, _) =>
      if id in w.tickets {
        var t := w.tickets[id];
        BeginKeepsOrder(e, w, op, Asked(Ask(t.op, t.direction, t.strategy, ToApply(id, t))));
      }
    case PushByOthers(_) =>
    case Tick(_) =>
    case Abandon(i) => if i < |w.requests| { AdvanceKeepsOrder(e, w, op, i, Over); }
    case _ => if Target(a).value < |w.requests| { ProceedKeepsOrder(e, w, op, a, Target(a).value); }
  }

  lemma {:induction false} EveryRunIsOrdered(e: Setting, w: World, actions: seq<Action>, op: nat)
    requires Fresh(w) && OrderlyPlay(e, w, actions)
    ensures var v := Play(e, w, actions); Inv(v) && PlansInv(e, v) && OrderInv(e, v, op)
  {
    if actions != [] {
      var v := Play(e, w, actions[..|actions| - 1]);
      var a := actions[|actions| - 1];
      EveryRunIsOrdered(e, w, actions[..|actions| - 1], op);
      NextKeeps(e, v, a);
      NextKeepsPlans(e, v, a);
      NextKeepsOrder(e, v, op, a);
    }
  }

  // ---------------------------------------------------------------- the exact condition

  // Every reversal of the operation on the branch had read the direction state with all
  // earlier ones stored: none read it between another's move and its save.
  ghost predicate NoneReadEarly(log: seq<Reversal>, seen: seq<Seen>, op: nat)
  {
    AloneUpTo(log, seen, op, |log|)
  }

  // The reversals of an operation alternate if and only if none that moved the branch had
  // read the direction state between another's move and its save - be it still to come or
  // lost in a crash.
  lemma {:induction false} AlternationNeedsSaves(e: Setting, w: World, actions: seq<Action>, op: nat)
    requires Fresh(w) && OrderlyPlay(e, w, actions)
    ensures var v := Play(e, w, actions);
            Alternates(v.log, op) <==> NoneReadEarly(v.log, v.seen, op)
  {
    EveryRunIsOrdered(e, w, actions, op);
    AlternationExactly(e, w, actions, op);
  }

  // ... and then the operation's history is as if its requests had come one after another:
  // a cascade redo leaves the very tree there was before the cascade undo it takes back.
  lemma {:induction false} OrderedIsLawful(e: Setting, w: World, actions: seq<Action>, op: nat, k: nat)
    requires Fresh(w) && OrderlyPlay(e, w, actions)
    requires var v := Play(e, w, actions); NoneReadEarly(v.log, v.seen, op) && k < |v.log| && v.log[k].op == op
    ensures var v := Play(e, w, actions);
            && LawfulFor(e.operations, v.log, op)
            && (v.log[k].strategy == RP.Cascade && v.log[k].direction == RP.Redo ==>
                  exists i: nat :: LatestBefore(v.log, op, k, i) && v.log[i].direction == RP.Undo && v.log[i].strategy == RP.Cascade
                    && v.log[k].after.tree == v.log[i].before.tree)
  {
    EveryRunIsOrdered(e, w, actions, op);
    var v := Play(e, w, actions);
    if v.log[k].strategy == RP.Cascade && v.log[k].direction == RP.Redo {
      CascadeRedoRestores(e.operations, v.log, k);
    }
  }
}
