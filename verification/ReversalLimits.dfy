// What overlapping reversals do not promise: two undos in a row on the branch, a stored
// direction lost to another operation's save.
module ReversalLimits {
  import opened Common
  import opened Git
  import opened ShadowDelta
  import opened GuardedCommit
  import opened ReversalHistory
  import opened ReversalRuntime
  import opened ReversalRequests
  import RP = ReversalPlan

  // ---------------------------------------------------------------- playing short runs

  lemma {:induction false} Then(e: Setting, w: World, actions: seq<Action>, a: Action)
    requires w.heads != []
    ensures Play(e, w, actions + [a]) == Next(e, Play(e, w, actions), a)
  {
    assert (actions + [a])[..|actions|] == actions;
  }

  lemma {:induction false} Then2(e: Setting, w: World, actions: seq<Action>, a: Action, b: Action)
    requires w.heads != []
    ensures Play(e, w, actions + [a, b]) == Next(e, Next(e, Play(e, w, actions), a), b)
  {
    Then(e, w, actions, a);
    Then(e, w, actions + [a], b);
    assert actions + [a] + [b] == actions + [a, b];
  }

  lemma {:induction false} StepIs(e: Setting, w: World, a: Action, i: nat)
    requires w.heads != [] && i < |w.requests| && Target(a) == Some(i) && !a.Abandon?
    ensures Next(e, w, a) == Proceed(e, w, a, i)
  {
  }

  // The world with one request more.
  function With(w: World, q: Request): World
  {
    w.(requests := w.requests + [q])
  }

  lemma {:induction false} AdvanceLast(w: World, q: Request, p: Request)
    ensures Advance(With(w, q), |w.requests|, p) == With(w, p)
  {
  }

  ghost predicate ComputedAt(e: Setting, w: World, ask: Ask, r: Computed)
    requires w.heads != []
  {
    Computes(e.operations, e.classifiers, ask.op, ask.direction, ask.strategy, [], Head(w), StateOf(w.states, ask.op), r)
  }

  // Head and state are read, the plan is made.
  lemma {:induction false} Reading(e: Setting, w: World, ask: Ask, r: Computed)
    requires w.heads != [] && ComputedAt(e, w, ask, r) && (ask.goal.ToApply? ==> Holding(ask.goal.ticket, r))
    ensures var n := |w.requests|;
            Next(e, Next(e, With(w, Asked(ask)), ReadHead(n)), ReadState(n, [], r)) == With(w, Planned(ask, r, Note(w, ask.op)))
  {
    var n := |w.requests|;
    StepIs(e, With(w, Asked(ask)), ReadHead(n), n);
    AdvanceLast(w, Asked(ask), HeadRead(ask, Head(w)));
    StepIs(e, With(w, HeadRead(ask, Head(w))), ReadState(n, [], r), n);
    AdvanceLast(w, HeadRead(ask, Head(w)), Planned(ask, r, Note(w, ask.op)));
  }

  // A preview that nobody disturbs.
  lemma {:induction false} Previewing(e: Setting, w: World, ask: Ask, r: Computed)
    requires w.heads != [] && ComputedAt(e, w, ask, r) && ask.goal.ToIssue? && ask.goal.id !in w.tickets
    ensures var n := |w.requests|;
            Next(e, With(w, Planned(ask, r, Note(w, ask.op))), Issue(n))
            == With(w, Over).(tickets := w.tickets[ask.goal.id := TicketOf(ask, r, w.now)])
  {
    StepIs(e, With(w, Planned(ask, r, Note(w, ask.op))), Issue(|w.requests|), |w.requests|);
    AdvanceLast(w, Planned(ask, r, Note(w, ask.op)), Over);
  }

  function TicketOf(ask: Ask, r: Computed, now: nat): Ticket
  {
    Ticket(ask.op, ask.direction, ask.strategy, r.head, r.digest, false, now + 600000)
  }

  // An apply that nobody disturbs spends its ticket and builds its commit ...
  lemma {:induction false} Building(e: Setting, w: World, ask: Ask, r: Computed, note: Seen, c: Commit)
    requires w.heads != [] && ask.goal.ToApply? && CarriesOut(e.classifiers, ask.strategy, r, c)
    ensures var n := |w.requests|;
            Next(e, Next(e, With(w, Planned(ask, r, note)), Spend(n)), Build(n, c)) == With(Spent(w, ask), Built(ask, r, note, c))
  {
    var n, v := |w.requests|, Spent(w, ask);
    StepIs(e, With(w, Planned(ask, r, note)), Spend(n), n);
    AdvanceLast(w, Planned(ask, r, note), Spending(ask, r, note));
    StepIs(e, With(v, Spending(ask, r, note)), Build(n, c), n);
    AdvanceLast(v, Spending(ask, r, note), Built(ask, r, note, c));
  }

  function Spent(w: World, ask: Ask): World
    requires ask.goal.ToApply?
  {
    w.(tickets := w.tickets[ask.goal.id := ask.goal.ticket.(used := true)])
  }

  // ... and moves the branch.
  lemma {:induction false} Pushing(e: Setting, w: World, ask: Ask, r: Computed, note: Seen, c: Commit)
    requires w.heads != [] && c.parents == [Head(w)]
    ensures Next(e, With(w, Built(ask, r, note, c)), Push(|w.requests|))
            == With(w, Landed(ask, r, c, Some(|w.log|))).(
                 heads := w.heads + [c], log := w.log + [EntryOf(ask, r, c)], seen := w.seen + [note])
  {
    var n := |w.requests|;
    assert c.parents[0] == Head(w);
    ParentIsStrictAncestor(c, 0);
    StepIs(e, With(w, Built(ask, r, note, c)), Push(n), n);
    AdvanceLast(w, Built(ask, r, note, c), Landed(ask, r, c, Some(|w.log|)));
  }

  // ---------------------------------------------------------------- a whole cascade undo

  // The operation can be undone by a cascade at this head.
  ghost predicate Cascadable(e: Setting, op: nat, head: Commit)
  {
    && op in e.operations && e.operations[op].source.parents != [] && IsAncestor(e.operations[op].source, head)
    && 0 < |e.operations[op].paths| <= 80
    && var paths := Differing(head.tree, e.operations[op].source.parents[0].tree);
       0 < |paths| <= 300 && forall path :: path in paths ==> !e.classifiers.sensitive(path)
  }

  function CascadeUndo(e: Setting, op: nat, head: Commit, state: OpState): Computed
    requires op in e.operations && e.operations[op].source.parents != []
  {
    var parent := e.operations[op].source.parents[0];
    Computed(head, parent, state, true, CascadeDigest(e.classifiers, head.tree, parent.tree), [], Some(parent))
  }

  lemma {:induction false} CascadeUndoComputes(e: Setting, op: nat, head: Commit, state: OpState)
    requires Cascadable(e, op, head) && state.lastDirection != Some(RP.Undo)
    ensures Computes(e.operations, e.classifiers, op, RP.Undo, RP.Cascade, [], head, state, CascadeUndo(e, op, head, state))
  {
  }

  function UndoAsk(op: nat, goal: Goal): Ask
  {
    Ask(op, RP.Undo, RP.Cascade, goal)
  }

  function PreviewRun(op: nat, id: nat, r: Computed, n: nat): seq<Action>
  {
    [BeginPreview(op, RP.Undo, RP.Cascade, id)] + [ReadHead(n), ReadState(n, [], r)] + [Issue(n)]
  }

  ghost function Previewed(w: World, op: nat, id: nat, r: Computed): World
  {
    With(w, Over).(tickets := w.tickets[id := TicketOf(UndoAsk(op, ToIssue(id)), r, w.now)])
  }

  lemma {:induction false} PreviewRuns(e: Setting, w0: World, actions: seq<Action>, w: World, op: nat, id: nat, r: Computed)
    requires w0.heads != [] && w == Play(e, w0, actions) && ComputedAt(e, w, UndoAsk(op, ToIssue(id)), r) && id !in w.tickets
    ensures Play(e, w0, actions + PreviewRun(op, id, r, |w.requests|)) == Previewed(w, op, id, r)
  {
    var n := |w.requests|;
    var ask := UndoAsk(op, ToIssue(id));
    var a1 := actions + [BeginPreview(op, RP.Undo, RP.Cascade, id)];
    Then(e, w0, actions, BeginPreview(op, RP.Undo, RP.Cascade, id));
    var a2 := a1 + [ReadHead(n), ReadState(n, [], r)];
    Then2(e, w0, a1, ReadHead(n), ReadState(n, [], r));
    Reading(e, w, ask, r);
    Then(e, w0, a2, Issue(n));
    Previewing(e, w, ask, r);
    assert a2 + [Issue(n)] == actions + PreviewRun(op, id, r, n);
  }

  function RedeemRun(id: nat, r: Computed, c: Commit, n: nat): seq<Action>
  {
    [BeginApply(id, true, true)] + [ReadHead(n), ReadState(n, [], r)] + ([Spend(n), Build(n, c)] + [Push(n)])
  }

  ghost function Redeemed(w: World, op: nat, id: nat, r: Computed, c: Commit): World
    requires id in w.tickets
  {
    var ask := UndoAsk(op, ToApply(id, w.tickets[id]));
    With(w, Landed(ask, r, c, Some(|w.log|))).(
      tickets := w.tickets[id := w.tickets[id].(used := true)],
      heads := w.heads + [c], log := w.log + [EntryOf(ask, r, c)], seen := w.seen + [Note(w, op)])
  }

  lemma {:induction false} Redeeming(e: Setting, w0: World, actions: seq<Action>, w: World, op: nat, id: nat, r: Computed, c: Commit)
    requires w0.heads != [] && w == Play(e, w0, actions)
    requires id in w.tickets && w.tickets[id] == TicketOf(UndoAsk(op, ToIssue(id)), r, w.now)
    requires ComputedAt(e, w, UndoAsk(op, ToIssue(id)), r) && r.allowed && r.head == Head(w) && CarriesOut(e.classifiers, RP.Cascade, r, c)
    ensures Play(e, w0, actions + RedeemRun(id, r, c, |w.requests|)) == Redeemed(w, op, id, r, c)
  {
    var n := |w.requests|;
    var admitting := [BeginApply(id, true, true)] + [ReadHead(n), ReadState(n, [], r)];
    Admitting(e, w0, actions, w, op, id, r);
    Finishing(e, w0, actions + admitting, w, op, id, r, c);
    Joined(actions, admitting, [Spend(n), Build(n, c)] + [Push(n)]);
  }

  // The planned request goes through.
  lemma {:induction false} Finishing(e: Setting, w0: World, actions: seq<Action>, w: World, op: nat, id: nat, r: Computed, c: Commit)
    requires w0.heads != [] && w.heads != [] && id in w.tickets
    requires Play(e, w0, actions) == With(w, Planned(UndoAsk(op, ToApply(id, w.tickets[id])), r, Note(w, op)))
    requires CarriesOut(e.classifiers, RP.Cascade, r, c) && c.parents == [Head(w)]
    ensures var n := |w.requests|;
            Play(e, w0, actions + ([Spend(n), Build(n, c)] + [Push(n)])) == Redeemed(w, op, id, r, c)
  {
    var n := |w.requests|;
    var ask := UndoAsk(op, ToApply(id, w.tickets[id]));
    Then2(e, w0, actions, Spend(n), Build(n, c));
    Building(e, w, ask, r, Note(w, op), c);
    Then(e, w0, actions + [Spend(n), Build(n, c)], Push(n));
    Joined(actions, [Spend(n), Build(n, c)], [Push(n)]);
    PushedIs(e, w, op, id, r, c);
  }

  lemma {:induction false} PushedIs(e: Setting, w: World, op: nat, id: nat, r: Computed, c: Commit)
    requires w.heads != [] && id in w.tickets && c.parents == [Head(w)]
    ensures var ask := UndoAsk(op, ToApply(id, w.tickets[id]));
            Next(e, With(Spent(w, ask), Built(ask, r, Note(w, op), c)), Push(|w.requests|)) == Redeemed(w, op, id, r, c)
  {
    var ask := UndoAsk(op, ToApply(id, w.tickets[id]));
    Pushing(e, Spent(w, ask), ask, r, Note(w, op), c);
  }

  lemma {:induction false} Admitting(e: Setting, w0: World, actions: seq<Action>, w: World, op: nat, id: nat, r: Computed)
    requires w0.heads != [] && w == Play(e, w0, actions)
    requires id in w.tickets && w.tickets[id] == TicketOf(UndoAsk(op, ToIssue(id)), r, w.now)
    requires ComputedAt(e, w, UndoAsk(op, ToIssue(id)), r) && r.allowed
    ensures var n := |w.requests|;
            Play(e, w0, actions + ([BeginApply(id, true, true)] + [ReadHead(n), ReadState(n, [], r)]))
            == With(w, Planned(UndoAsk(op, ToApply(id, w.tickets[id])), r, Note(w, op)))
  {
    var n := |w.requests|;
    var ask := UndoAsk(op, ToApply(id, w.tickets[id]));
    Then(e, w0, actions, BeginApply(id, true, true));
    Then2(e, w0, actions + [BeginApply(id, true, true)], ReadHead(n), ReadState(n, [], r));
    Joined(actions, [BeginApply(id, true, true)], [ReadHead(n), ReadState(n, [], r)]);
    Reading(e, w, ask, r);
  }

  // A preview and its apply, requests `n` and `n + 1`.
  function UndoRun(op: nat, id: nat, r: Computed, c: Commit, n: nat): seq<Action>
  {
    PreviewRun(op, id, r, n) + RedeemRun(id, r, c, n + 1)
  }

  ghost function Undone(w: World, op: nat, id: nat, r: Computed, c: Commit): World
  {
    Redeemed(Previewed(w, op, id, r), op, id, r, c)
  }

  lemma {:induction false} StillComputed(e: Setting, w: World, op: nat, id: nat, r: Computed)
    requires w.heads != [] && ComputedAt(e, w, UndoAsk(op, ToIssue(id)), r)
    ensures ComputedAt(e, Previewed(w, op, id, r), UndoAsk(op, ToIssue(id)), r)
  {
  }

  lemma {:induction false} Joined(actions: seq<Action>, a: seq<Action>, b: seq<Action>)
    ensures actions + a + b == actions + (a + b)
  {
  }

  lemma {:induction false} Undoing(e: Setting, w0: World, actions: seq<Action>, w: World, op: nat, id: nat, r: Computed, c: Commit)
    requires w0.heads != [] && w == Play(e, w0, actions) && id !in w.tickets
    requires ComputedAt(e, w, UndoAsk(op, ToIssue(id)), r) && r.allowed && r.head == Head(w)
    requires CarriesOut(e.classifiers, RP.Cascade, r, c)
    ensures Play(e, w0, actions + UndoRun(op, id, r, c, |w.requests|)) == Undone(w, op, id, r, c)
  {
    var n := |w.requests|;
    PreviewRuns(e, w0, actions, w, op, id, r);
    StillComputed(e, w, op, id, r);
    Joined(actions, PreviewRun(op, id, r, n), RedeemRun(id, r, c, n + 1));
    Redeeming(e, w0, actions + PreviewRun(op, id, r, n), Previewed(w, op, id, r), op, id, r, c);
  }

  function UndoCommit(e: Setting, op: nat, head: Commit): Commit
    requires op in e.operations && e.operations[op].source.parents != []
  {
    Commit([head], e.operations[op].source.parents[0].tree, "undo", 0)
  }

  // What an undisturbed cascade undo leaves: one landed request, not yet stored.
  ghost predicate UndoLanded(w: World, v: World, op: nat, id: nat, c: Commit)
  {
    && |v.requests| == |w.requests| + 2 && v.requests[..|w.requests|] == w.requests
    && v.requests[|w.requests| + 1].Landed? && v.requests[|w.requests| + 1].at == Some(|w.log|)
    && v.heads == w.heads + [c] && v.states == w.states && v.saved == w.saved && v.tickets.Keys == w.tickets.Keys + {id}
    && |v.log| == |w.log| + 1 && v.log[..|w.log|] == w.log
    && v.log[|w.log|].op == op && v.log[|w.log|].direction == RP.Undo && v.log[|w.log|].after == c
    && v.seen == w.seen + [Note(w, op)]
  }

  lemma {:induction false} CascadeUndone(e: Setting, w0: World, actions: seq<Action>, w: World, op: nat, id: nat) returns (more: seq<Action>)
    requires w0.heads != [] && w == Play(e, w0, actions) && id !in w.tickets
    requires Cascadable(e, op, Head(w)) && StateOf(w.states, op).lastDirection != Some(RP.Undo)
    ensures UndoLanded(w, Play(e, w0, actions + more), op, id, UndoCommit(e, op, Head(w)))
  {
    var r := CascadeUndo(e, op, Head(w), StateOf(w.states, op));
    var c := UndoCommit(e, op, Head(w));
    CascadeUndoComputes(e, op, Head(w), StateOf(w.states, op));
    Undoing(e, w0, actions, w, op, id, r, c);
    more := UndoRun(op, id, r, c, |w.requests|);
    UndoneIsLanded(w, op, id, r, c);
  }

  lemma {:induction false} UndoneIsLanded(w: World, op: nat, id: nat, r: Computed, c: Commit)
    ensures UndoLanded(w, Undone(w, op, id, r, c), op, id, c)
  {
    assert Note(Previewed(w, op, id, r), op) == Note(w, op);
  }

  // Somebody else brings the undone change back.
  lemma {:induction false} StillCascadable(e: Setting, op: nat, head: Commit, again: Commit)
    requires Cascadable(e, op, head)
    requires again == Commit([UndoCommit(e, op, head)], head.tree, "again", 0)
    ensures Cascadable(e, op, again) && FastForward(UndoCommit(e, op, head), again)
  {
    var undo := UndoCommit(e, op, head);
    assert undo.parents[0] == head && again.parents[0] == undo;
    ParentIsStrictAncestor(undo, 0);
    ParentIsStrictAncestor(again, 0);
    AncestorTransitive(e.operations[op].source, head, undo);
    AncestorTransitive(e.operations[op].source, undo, again);
  }

  // Both halves of a save.
  lemma {:induction false} Storing(e: Setting, w0: World, actions: seq<Action>, w: World, i: nat)
    requires w0.heads != [] && w == Play(e, w0, actions) && i < |w.requests| && w.requests[i].Landed? && w.requests[i].at.Some?
    ensures var v := Play(e, w0, actions + [LoadStates(i), StoreStates(i)]);
            && v.log == w.log && v.seen == w.seen && v.heads == w.heads && v.saved == w.saved + {w.requests[i].at.value}
            && v.requests == w.requests[i := Over]
  {
    Then2(e, w0, actions, LoadStates(i), StoreStates(i));
  }

  // For every operation that a cascade can undo: the undo lands, somebody pushes the change
  // again before it is stored, a second undo is previewed and applied - and lands, too. Both
  // are stored in the end, and the branch has seen two undos in a row.
  lemma {:induction false} TwoUndos(e: Setting, w: World, op: nat) returns (actions: seq<Action>)
    requires Fresh(w) && Cascadable(e, op, Head(w))
    ensures var v := Play(e, w, actions);
            && |v.log| == 2 == |v.seen| && v.log[0].op == v.log[1].op == op && v.log[0].direction == v.log[1].direction == RP.Undo
            && v.saved == {0, 1} && !v.seen[1].alone && !Alternates(v.log, op)
  {
    var first := UndoneAndBack(e, w, op);
    var w2 := Play(e, w, first);
    var second := CascadeUndone(e, w, first, w2, op, 1);
    var w3 := Play(e, w, first + second);
    actions := SaveBoth(e, w, first + second, w3, op);
    assert w2.log[0].op == op && 0 !in w2.saved;
    assert w3.seen[1] == Note(w2, op);
    TwoInARow(w3.log, op);
  }

  // The first half: the undo lands, and what it undid is pushed again.
  lemma {:induction false} UndoneAndBack(e: Setting, w: World, op: nat) returns (actions: seq<Action>)
    requires Fresh(w) && Cascadable(e, op, Head(w))
    ensures var v := Play(e, w, actions);
            && Cascadable(e, op, Head(v)) && v.states == map[] && v.saved == {} && v.tickets.Keys == {0}
            && |v.requests| == 2 && v.requests[1].Landed? && v.requests[1].at == Some(0)
            && |v.log| == 1 == |v.seen| && v.log[0].op == op && v.log[0].direction == RP.Undo
  {
    var first := CascadeUndone(e, w, [], w, op, 0);
    assert [] + first == first;
    var again := Commit([UndoCommit(e, op, Head(w))], Head(w).tree, "again", 0);
    StillCascadable(e, op, Head(w), again);
    Then(e, w, first, PushByOthers(again));
    actions := first + [PushByOthers(again)];
    BackAgain(e, w, Play(e, w, first), op, again);
  }

  lemma {:induction false} BackAgain(e: Setting, w: World, u: World, op: nat, c: Commit)
    requires Fresh(w) && u.heads != [] && UndoLanded(w, u, op, 0, Head(u)) && FastForward(Head(u), c)
    ensures var v := Next(e, u, PushByOthers(c));
            && Head(v) == c && v.states == map[] && v.saved == {} && v.tickets.Keys == {0}
            && |v.requests| == 2 && v.requests[1].Landed? && v.requests[1].at == Some(0)
            && |v.log| == 1 == |v.seen| && v.log[0].op == op && v.log[0].direction == RP.Undo
  {
    ForeignPush(e, u, c);
  }

  lemma {:induction false} ForeignPush(e: Setting, w: World, c: Commit)
    requires w.heads != [] && FastForward(Head(w), c)
    ensures Next(e, w, PushByOthers(c)) == w.(heads := w.heads + [c]) && Head(w.(heads := w.heads + [c])) == c
  {
  }

  lemma {:induction false} SaveBoth(e: Setting, w0: World, actions: seq<Action>, w: World, op: nat) returns (all: seq<Action>)
    requires w0.heads != [] && w == Play(e, w0, actions) && |w.requests| == 4 && w.saved == {}
    requires w.requests[1].Landed? && w.requests[1].at == Some(0) && w.requests[3].Landed? && w.requests[3].at == Some(1)
    ensures var v := Play(e, w0, all); v.log == w.log && v.seen == w.seen && v.saved == {0, 1}
  {
    Storing(e, w0, actions, w, 1);
    var a1 := actions + [LoadStates(1), StoreStates(1)];
    Storing(e, w0, a1, Play(e, w0, a1), 3);
    all := a1 + [LoadStates(3), StoreStates(3)];
  }

  lemma {:induction false} TwoInARow(log: seq<Reversal>, op: nat)
    requires |log| == 2 && log[0].op == log[1].op == op && log[0].direction == log[1].direction
    ensures !Alternates(log, op)
  {
    assert LatestBefore(log, op, 1, 0);
    assert !TakesTurn(log, 1);
  }

  // Two saves that overlap: the state of the operation stored first is what it was before,
  // and the next undo or redo of it is judged by that.
  lemma {:induction false} OverlappingSavesLoseOne(e: Setting, w: World, i: nat, j: nat)
    requires w.heads != [] && i < |w.requests| && j < |w.requests| && i != j
    requires w.requests[i].Landed? && w.requests[j].Landed? && w.requests[i].ask.op != w.requests[j].ask.op
    ensures var v := Play(e, w, [LoadStates(i), LoadStates(j)] + [StoreStates(i), StoreStates(j)]);
            var op := w.requests[i].ask.op;
            && |v.requests| == |w.requests| && v.requests[i].Over? && v.requests[j].Over?
            && StateOf(v.states, op) == StateOf(w.states, op)
  {
    var loads := [LoadStates(i), LoadStates(j)];
    Then2(e, w, [], LoadStates(i), LoadStates(j));
    assert [] + loads == loads;
    BothLoaded(e, w, i, j);
    Then2(e, w, loads, StoreStates(i), StoreStates(j));
    BothStored(e, Play(e, w, loads), i, j);
  }

  lemma {:induction false} BothLoaded(e: Setting, w: World, i: nat, j: nat)
    requires w.heads != [] && i < |w.requests| && j < |w.requests| && i != j
    requires w.requests[i].Landed? && w.requests[j].Landed?
    ensures var v := Next(e, Next(e, w, LoadStates(i)), LoadStates(j));
            && |v.requests| == |w.requests| && v.states == w.states
            && v.requests[i].Saving? && v.requests[i].snapshot == w.states && v.requests[i].ask == w.requests[i].ask
            && v.requests[j].Saving? && v.requests[j].snapshot == w.states && v.requests[j].ask == w.requests[j].ask
  {
    StepIs(e, w, LoadStates(i), i);
    StepIs(e, Next(e, w, LoadStates(i)), LoadStates(j), j);
  }

  lemma {:induction false} BothStored(e: Setting, w: World, i: nat, j: nat)
    requires w.heads != [] && i < |w.requests| && j < |w.requests| && i != j
    requires w.requests[i].Saving? && w.requests[j].Saving? && w.requests[i].ask.op != w.requests[j].ask.op
    ensures var v := Next(e, Next(e, w, StoreStates(i)), StoreStates(j));
            && |v.requests| == |w.requests| && v.requests[i].Over? && v.requests[j].Over?
            && StateOf(v.states, w.requests[i].ask.op) == StateOf(w.requests[j].snapshot, w.requests[i].ask.op)
  {
    StepIs(e, w, StoreStates(i), i);
    StepIs(e, Next(e, w, StoreStates(i)), StoreStates(j), j);
  }
}
