// Requests of reversals that overlap. Every await of a preview or an apply is a point where
// other requests and other people's pushes go on, and where the request may die: the read of
// the head, of the direction state, the marking of the ticket, the commit, the push, and the
// two halves of storing the direction state.
module ReversalRequests {
  import opened Common
  import opened Git
  import opened GuardedCommit
  import opened ReversalHistory
  import opened ReversalRuntime
  import RP = ReversalPlan

  // What does not change: the journalled operations and the classifiers.
  datatype Setting = Setting(operations: map<nat, Operation>, classifiers: Classifiers)

  // A request is to issue a ticket or to carry out the ticket it has read.
  datatype Goal = ToIssue(id: nat) | ToApply(id: nat, ticket: Ticket)

  datatype Ask = Ask(op: nat, direction: RP.Direction, strategy: RP.Strategy, goal: Goal)

  // History, noted when a request reads the direction state: how many reversals the branch
  // had seen, whether the state agreed with the last of the operation's, and whether all of
  // the operation's had been stored.
  datatype Seen = Seen(moves: nat, current: bool, alone: bool)

  datatype Request =
    | Asked(ask: Ask)
    | HeadRead(ask: Ask, head: Commit)
    | Planned(ask: Ask, r: Computed, seen: Seen)
    | Spending(ask: Ask, r: Computed, seen: Seen)
    | Built(ask: Ask, r: Computed, seen: Seen, commit: Commit)
    | Landed(ask: Ask, r: Computed, commit: Commit, at: Option<nat>)
    | Saving(ask: Ask, r: Computed, commit: Commit, at: Option<nat>, snapshot: map<nat, OpState>)
    | Over

  // `log` has the reversals that moved the branch, in branch order, `seen` what each had
  // noted, `saved` those whose direction was stored.
  datatype World = World(
    heads: seq<Commit>, tickets: map<nat, Ticket>, states: map<nat, OpState>, requests: seq<Request>,
    log: seq<Reversal>, seen: seq<Seen>, saved: set<nat>, now: nat)

  datatype Action =
    | BeginPreview(op: nat, direction: RP.Direction, strategy: RP.Strategy, id: nat)
    | BeginApply(id: nat, confirmed: bool, confirmDestructive: bool)
    | ReadHead(i: nat)
    | ReadState(i: nat, edits: seq<RP.ObservedEdit>, r: Computed)
    | Issue(i: nat)
    | Spend(i: nat)
    | Build(i: nat, commit: Commit)
    | Push(i: nat)
    | LoadStates(i: nat)
    | StoreStates(i: nat)
    | Abandon(i: nat)
    | PushByOthers(commit: Commit)
    | Tick(now: nat)

  function Head(w: World): Commit
    requires w.heads != []
  {
    w.heads[|w.heads| - 1]
  }

  function Advance(w: World, i: nat, q: Request): World
    requires i < |w.requests|
  {
    w.(requests := w.requests[i := q])
  }

  // The stored direction is that of the operation's last reversal on the branch, as far as
  // the check of the direction asks.
  predicate Agrees(state: OpState, onBranch: OpState)
  {
    state.lastDirection == Some(RP.Undo) <==> onBranch.lastDirection == Some(RP.Undo)
  }

  predicate Settled(log: seq<Reversal>, saved: set<nat>, op: nat)
  {
    forall k :: 0 <= k < |log| && log[k].op == op ==> k in saved
  }

  ghost function Note(w: World, op: nat): Seen
  {
    Seen(|w.log|, Agrees(StateOf(w.states, op), StateAfter(w.log, op)), Settled(w.log, w.saved, op))
  }

  function EntryOf(ask: Ask, r: Computed, commit: Commit): Reversal
  {
    Reversal(ask.op, ask.direction, ask.strategy, ask.goal.id, r.head, commit)
  }

  // One step of a request; what does not hold ends it.
  ghost function Proceed(e: Setting, w: World, a: Action, i: nat): World
    requires w.heads != [] && i < |w.requests|
  {
    match (a, w.requests[i])
    case (ReadHead(_), Asked(ask)) => Advance(w, i, HeadRead(ask, Head(w)))
    case (ReadState(_, edits, r), HeadRead(ask, head)) =>
      if Computes(e.operations, e.classifiers, ask.op, ask.direction, ask.strategy, edits, head, StateOf(w.states, ask.op), r)
         && (ask.goal.ToApply? ==> Holding(ask.goal.ticket, r))
      then Advance(w, i, Planned(ask, r, Note(w, ask.op))) else Advance(w, i, Over)
    case (Issue(_), Planned(ask, r, _)) =>
      if ask.goal.ToIssue? && ask.goal.id !in w.tickets
      then Advance(w, i, Over).(tickets := w.tickets[ask.goal.id :=
             Ticket(ask.op, ask.direction, ask.strategy, r.head, r.digest, false, w.now + 600000)])
      else w
    case (Spend(_), Planned(ask, r, seen)) =>
      if ask.goal.ToApply?
      then Advance(w, i, Spending(ask, r, seen)).(tickets := w.tickets[ask.goal.id := ask.goal.ticket.(used := true)])
      else w
    case (Build(_, commit), Spending(ask, r, seen)) =>
      if CarriesOut(e.classifiers, ask.strategy, r, commit) then Advance(w, i, Built(ask, r, seen, commit)) else Advance(w, i, Over)
    case (Push(_), Built(ask, r, seen, commit)) => Land(w, i)
    case (LoadStates(_), Landed(ask, r, commit, at)) => Advance(w, i, Saving(ask, r, commit, at, w.states))
    case (StoreStates(_), Saving(ask, r, commit, at, snapshot)) =>
      Advance(w, i, Over).(
        states := snapshot[ask.op := Saved(r.state, EntryOf(ask, r, commit))],
        saved := if at.Some? then w.saved + {at.value} else w.saved)
    case _ => w
  }

  // Moving the branch; a branch already at that very commit stays where it is.
  ghost function Land(w: World, i: nat): World
    requires w.heads != [] && i < |w.requests| && w.requests[i].Built?
  {
    var q := w.requests[i];
    if !FastForward(Head(w), q.commit) then Advance(w, i, Over)
    else if Head(w) == q.commit then Advance(w, i, Landed(q.ask, q.r, q.commit, None))
    else Moved(w, i)
  }

  ghost function Moved(w: World, i: nat): World
    requires i < |w.requests| && w.requests[i].Built?
  {
    var q := w.requests[i];
    Advance(w, i, Landed(q.ask, q.r, q.commit, Some(|w.log|))).(
      heads := w.heads + [q.commit], log := w.log + [EntryOf(q.ask, q.r, q.commit)], seen := w.seen + [q.seen])
  }

  ghost predicate Moves(w: World, i: nat)
    requires w.heads != []
  {
    i < |w.requests| && w.requests[i].Built? && FastForward(Head(w), w.requests[i].commit) && Head(w) != w.requests[i].commit
  }

  function Target(a: Action): Option<nat>
  {
    match a
    case ReadHead(i) => Some(i)
    case ReadState(i, _, _) => Some(i)
    case Issue(i) => Some(i)
    case Spend(i) => Some(i)
    case Build(i, _) => Some(i)
    case Push(i) => Some(i)
    case LoadStates(i) => Some(i)
    case StoreStates(i) => Some(i)
    case Abandon(i) => Some(i)
    case _ => None
  }

  ghost function Next(e: Setting, w: World, a: Action): World
    requires w.heads != []
    ensures Next(e, w, a).heads != []
  {
    match a
    case BeginPreview(op, d, s, id) => w.(requests := w.requests + [Asked(Ask(op, d, s, ToIssue(id)))])
    case BeginApply(id, confirmed, confirmDestructive) =>
      if id in w.tickets && Redeemable(w.tickets[id], confirmed, confirmDestructive, w.now)
      then
        var t := w.tickets[id];
        w.(requests := w.requests + [Asked(Ask(t.op, t.direction, t.strategy, ToApply(id, t)))])
      else w
    case PushByOthers(commit) => if FastForward(Head(w), commit) then w.(heads := w.heads + [commit]) else w
    case Tick(now) => w.(now := Max(w.now, now))
    case Abandon(i) => if i < |w.requests| then Advance(w, i, Over) else w
    case _ => if Target(a).value < |w.requests| then Proceed(e, w, a, Target(a).value) else w
  }

  ghost function Play(e: Setting, w: World, actions: seq<Action>): World
    requires w.heads != []
    ensures Play(e, w, actions).heads != []
  {
    if actions == [] then w else Next(e, Play(e, w, actions[..|actions| - 1]), actions[|actions| - 1])
  }

  ghost predicate Fresh(w: World)
  {
    && w.heads != [] && FastForwards(w.heads) && w.tickets == map[] && w.states == map[] && w.requests == []
    && w.log == [] && w.seen == [] && w.saved == {}
  }

  // ---------------------------------------------------------------- what every run keeps

  predicate SameTicket(t: Ticket, u: Ticket)
  {
    t == u.(used := t.used)
  }

  // The ticket of an apply is the one that was issued.
  predicate TicketFits(tickets: map<nat, Ticket>, ask: Ask)
  {
    ask.goal.ToApply? ==>
      && ask.goal.id in tickets && SameTicket(tickets[ask.goal.id], ask.goal.ticket)
      && (ask.op, ask.direction, ask.strategy) == (ask.goal.ticket.op, ask.goal.ticket.direction, ask.goal.ticket.strategy)
  }

  predicate Allows(state: OpState, d: RP.Direction)
  {
    d == RP.Undo <==> state.lastDirection != Some(RP.Undo)
  }

  // The direction is permitted by the state that was read; and while the head is still the
  // one that was read before, nothing has moved the branch since.
  ghost predicate PlanFits(heads: seq<Commit>, log: seq<Reversal>, ask: Ask, r: Computed, seen: Seen)
    requires heads != []
  {
    && r.head in heads && seen.moves <= |log| && (heads[|heads| - 1] == r.head ==> seen.moves == |log|)
    && (seen.current <==> Agrees(r.state, StateAfter(log[..seen.moves], ask.op)))
    && Allows(r.state, ask.direction)
    && (ask.goal.ToApply? ==> r.head == ask.goal.ticket.head)
  }

  ghost predicate RequestFits(heads: seq<Commit>, tickets: map<nat, Ticket>, log: seq<Reversal>, q: Request)
    requires heads != []
  {
    && (!q.Over? ==> TicketFits(tickets, q.ask))
    && (q.HeadRead? ==> q.head in heads)
    && (q.Planned? || q.Spending? || q.Built? ==> PlanFits(heads, log, q.ask, q.r, q.seen))
    && (q.Spending? || q.Built? ==> q.ask.goal.ToApply?)
    && (q.Built? ==> q.commit.parents == [q.r.head])
  }

  ghost predicate RequestsFit(heads: seq<Commit>, tickets: map<nat, Ticket>, log: seq<Reversal>, requests: seq<Request>)
    requires heads != []
  {
    forall i :: 0 <= i < |requests| ==> RequestFits(heads, tickets, log, requests[i])
  }

  // The entry's direction follows from the state the branch was in.
  ghost predicate InTurn(log: seq<Reversal>, k: nat)
    requires k < |log|
  {
    Allows(StateAfter(log[..k], log[k].op), log[k].direction)
  }

  ghost predicate EntryFits(heads: seq<Commit>, tickets: map<nat, Ticket>, log: seq<Reversal>, seen: seq<Seen>, k: nat)
    requires k < |log| == |seen|
  {
    && log[k].after in heads && log[k].after.parents == [log[k].before]
    && log[k].ticket in tickets && Fulfils(log[k], log[k].ticket, tickets[log[k].ticket])
    && (InTurn(log, k) <==> seen[k].current)
  }

  ghost predicate LogFits(heads: seq<Commit>, tickets: map<nat, Ticket>, log: seq<Reversal>, seen: seq<Seen>)
  {
    && |log| == |seen|
    && (forall k :: 0 <= k < |log| ==> EntryFits(heads, tickets, log, seen, k))
    && (forall j, k :: 0 <= j < k < |log| ==> log[j].after != log[k].after)
  }

  ghost predicate Inv(w: World)
  {
    && w.heads != [] && FastForwards(w.heads)
    && RequestsFit(w.heads, w.tickets, w.log, w.requests)
    && LogFits(w.heads, w.tickets, w.log, w.seen)
  }

  // Nothing changed but one request.
  lemma {:induction false} AdvanceKeeps(w: World, i: nat, q: Request)
    requires Inv(w) && i < |w.requests| && RequestFits(w.heads, w.tickets, w.log, q)
    ensures Inv(Advance(w, i, q))
  {
  }

  lemma {:induction false} BeginKeeps(w: World, q: Request)
    requires Inv(w) && RequestFits(w.heads, w.tickets, w.log, q)
    ensures Inv(w.(requests := w.requests + [q]))
  {
  }

  // Tickets are added and marked, never changed otherwise.
  ghost predicate TicketsGrow(before: map<nat, Ticket>, after: map<nat, Ticket>)
  {
    forall id :: id in before ==> id in after && SameTicket(after[id], before[id])
  }

  lemma {:induction false} TicketsKeep(w: World, tickets: map<nat, Ticket>)
    requires Inv(w) && TicketsGrow(w.tickets, tickets)
    ensures Inv(w.(tickets := tickets))
  {
    forall i | 0 <= i < |w.requests| ensures RequestFits(w.heads, tickets, w.log, w.requests[i]) {
      assert RequestFits(w.heads, w.tickets, w.log, w.requests[i]);
    }
    forall k | 0 <= k < |w.log| ensures EntryFits(w.heads, tickets, w.log, w.seen, k) {
      assert EntryFits(w.heads, w.tickets, w.log, w.seen, k);
    }
  }

  // A branch that moves on never stands on a head of its past again.
  lemma {:induction false} NewHeadIsNew(heads: seq<Commit>, c: Commit)
    requires heads != [] && FastForwards(heads) && FastForward(heads[|heads| - 1], c)
    requires c in heads
    ensures c == heads[|heads| - 1]
  {
    var p :| 0 <= p < |heads| && heads[p] == c;
    EarlierIsAncestor(heads, p, |heads| - 1);
    NoReturn(c, heads[|heads| - 1]);
  }

  // Somebody else's push.
  lemma {:induction false} HeadsKeepRequest(heads: seq<Commit>, c: Commit, tickets: map<nat, Ticket>, log: seq<Reversal>, q: Request)
    requires heads != [] && (c in heads ==> c == heads[|heads| - 1])
    requires RequestFits(heads, tickets, log, q)
    ensures RequestFits(heads + [c], tickets, log, q)
  {
  }

  lemma {:induction false} HeadsKeep(w: World, c: Commit)
    requires Inv(w) && FastForward(Head(w), c)
    ensures Inv(w.(heads := w.heads + [c]))
  {
    var heads := w.heads + [c];
    assert FastForwards(heads);
    if c in w.heads {
      NewHeadIsNew(w.heads, c);
    }
    forall i | 0 <= i < |w.requests| ensures RequestFits(heads, w.tickets, w.log, w.requests[i]) {
      HeadsKeepRequest(w.heads, c, w.tickets, w.log, w.requests[i]);
    }
    forall k | 0 <= k < |w.log| ensures EntryFits(heads, w.tickets, w.log, w.seen, k) {
      assert EntryFits(w.heads, w.tickets, w.log, w.seen, k);
    }
  }

  // ---------------------------------------------------------------- landing

  // What a push that moves the branch knows: the head is still the one the plan was made
  // for, and the commit is new.
  lemma {:induction false} ChildIsNew(heads: seq<Commit>, base: Commit, c: Commit)
    requires FastForwards(heads) && base in heads && c.parents == [base]
    requires FastForward(heads[|heads| - 1], c) && heads[|heads| - 1] != c
    ensures heads[|heads| - 1] == base && c !in heads
  {
    var p :| 0 <= p < |heads| && heads[p] == base;
    EarlierIsAncestor(heads, p, |heads| - 1);
    ChildAcceptance(heads[|heads| - 1], base, c);
    if c in heads {
      NewHeadIsNew(heads, c);
    }
  }

  // ... so nothing landed since the state was read.
  lemma {:induction false} Lands(w: World, i: nat)
    requires Inv(w) && Moves(w, i)
    ensures var q := w.requests[i]; Head(w) == q.r.head && q.commit !in w.heads && q.seen.moves == |w.log|
  {
    assert RequestFits(w.heads, w.tickets, w.log, w.requests[i]);
    ChildIsNew(w.heads, w.requests[i].r.head, w.requests[i].commit);
  }

  lemma {:induction false} LandingKeepsRequest(heads: seq<Commit>, c: Commit, tickets: map<nat, Ticket>,
                                               log: seq<Reversal>, entry: Reversal, q: Request)
    requires heads != [] && c !in heads && RequestFits(heads, tickets, log, q)
    ensures RequestFits(heads + [c], tickets, log + [entry], q)
  {
    if q.Planned? || q.Spending? || q.Built? {
      assert (log + [entry])[..q.seen.moves] == log[..q.seen.moves];
    }
  }

  lemma {:induction false} EntryStays(heads: seq<Commit>, c: Commit, tickets: map<nat, Ticket>,
                                      log: seq<Reversal>, seen: seq<Seen>, entry: Reversal, note: Seen, k: nat)
    requires k < |log| == |seen| && EntryFits(heads, tickets, log, seen, k)
    ensures EntryFits(heads + [c], tickets, log + [entry], seen + [note], k)
  {
    assert (log + [entry])[..k] == log[..k];
  }

  // A direction is permitted by the state read; it is in turn exactly when that state
  // agreed with the branch.
  lemma {:induction false} EntryLands(heads: seq<Commit>, tickets: map<nat, Ticket>, log: seq<Reversal>, seen: seq<Seen>, q: Request)
    requires heads != [] && |log| == |seen| && q.Built? && RequestFits(heads, tickets, log, q) && q.seen.moves == |log|
    ensures EntryFits(heads + [q.commit], tickets, log + [EntryOf(q.ask, q.r, q.commit)], seen + [q.seen], |log|)
  {
    assert (log + [EntryOf(q.ask, q.r, q.commit)])[..|log|] == log == log[..q.seen.moves];
  }

  lemma {:induction false} LogGrowsBy(w: World, i: nat)
    requires Inv(w) && Moves(w, i)
    ensures var v := Moved(w, i); LogFits(v.heads, v.tickets, v.log, v.seen)
  {
    var q, v := w.requests[i], Moved(w, i);
    Lands(w, i);
    forall k | 0 <= k < |v.log| ensures EntryFits(v.heads, v.tickets, v.log, v.seen, k) {
      if k < |w.log| {
        EntryStays(w.heads, q.commit, w.tickets, w.log, w.seen, EntryOf(q.ask, q.r, q.commit), q.seen, k);
      } else {
        EntryLands(w.heads, w.tickets, w.log, w.seen, q);
      }
    }
    forall j, k | 0 <= j < k < |v.log| ensures v.log[j].after != v.log[k].after {
      assert EntryFits(w.heads, w.tickets, w.log, w.seen, j);
    }
  }

  lemma {:induction false} MoveKeeps(w: World, i: nat)
    requires Inv(w) && Moves(w, i)
    ensures Inv(Moved(w, i))
  {
    var q, v := w.requests[i], Moved(w, i);
    Lands(w, i);
    assert FastForwards(v.heads);
    forall j | 0 <= j < |v.requests| ensures RequestFits(v.heads, v.tickets, v.log, v.requests[j]) {
      LandingKeepsRequest(w.heads, q.commit, w.tickets, w.log, EntryOf(q.ask, q.r, q.commit), w.requests[j]);
    }
    LogGrowsBy(w, i);
  }

  lemma {:induction false} LandKeeps(w: World, i: nat)
    requires Inv(w) && i < |w.requests| && w.requests[i].Built?
    ensures Inv(Land(w, i))
  {
    var q := w.requests[i];
    assert RequestFits(w.heads, w.tickets, w.log, q);
    if Moves(w, i) {
      MoveKeeps(w, i);
    } else {
      AdvanceKeeps(w, i, if FastForward(Head(w), q.commit) then Landed(q.ask, q.r, q.commit, None) else Over);
    }
  }

  // ---------------------------------------------------------------- every step

  lemma {:induction false} ComputedIsAllowed(e: Setting, ask: Ask, edits: seq<RP.ObservedEdit>, head: Commit, state: OpState, r: Computed)
    requires Computes(e.operations, e.classifiers, ask.op, ask.direction, ask.strategy, edits, head, state, r)
    ensures r.head == head && r.state == state && Allows(r.state, ask.direction)
  {
  }

  lemma {:induction false} ReadStateKeeps(e: Setting, w: World, a: Action, i: nat)
    requires Inv(w) && i < |w.requests| && w.requests[i].HeadRead? && a.ReadState?
    ensures Inv(Proceed(e, w, a, i))
  {
    var q := w.requests[i];
    assert RequestFits(w.heads, w.tickets, w.log, q);
    var v := Proceed(e, w, a, i);
    if v.requests[i].Planned? {
      assert w.log[..|w.log|] == w.log;
      ComputedIsAllowed(e, q.ask, a.edits, q.head, StateOf(w.states, q.ask.op), a.r);
      AdvanceKeeps(w, i, Planned(q.ask, a.r, Note(w, q.ask.op)));
    } else {
      AdvanceKeeps(w, i, Over);
    }
  }

  lemma {:induction false} TicketStepKeeps(e: Setting, w: World, a: Action, i: nat)
    requires Inv(w) && i < |w.requests| && w.requests[i].Planned? && (a.Issue? || a.Spend?)
    ensures Inv(Proceed(e, w, a, i))
  {
    var q, v := w.requests[i], Proceed(e, w, a, i);
    if v != w {
      assert RequestFits(w.heads, w.tickets, w.log, q);
      var u := Advance(w, i, if a.Issue? then Over else Spending(q.ask, q.r, q.seen));
      AdvanceKeeps(w, i, u.requests[i]);
      TicketsKeep(u, v.tickets);
    }
  }

  lemma {:induction false} BuildKeeps(e: Setting, w: World, a: Action, i: nat)
    requires Inv(w) && i < |w.requests| && w.requests[i].Spending? && a.Build?
    ensures Inv(Proceed(e, w, a, i))
  {
    var q := w.requests[i];
    assert RequestFits(w.heads, w.tickets, w.log, q);
    if CarriesOut(e.classifiers, q.ask.strategy, q.r, a.commit) {
      assert a.commit.parents == [q.r.head];
      AdvanceKeeps(w, i, Built(q.ask, q.r, q.seen, a.commit));
    } else {
      AdvanceKeeps(w, i, Over);
    }
  }

  lemma {:induction false} StateStepKeeps(e: Setting, w: World, a: Action, i: nat)
    requires Inv(w) && i < |w.requests| && (w.requests[i].Asked? || w.requests[i].Landed? || w.requests[i].Saving?)
    ensures Inv(Proceed(e, w, a, i))
  {
    var q := w.requests[i];
    assert RequestFits(w.heads, w.tickets, w.log, q);
    AdvanceKeeps(w, i, Proceed(e, w, a, i).requests[i]);
  }

  lemma {:induction false} ProceedKeeps(e: Setting, w: World, a: Action, i: nat)
    requires Inv(w) && i < |w.requests|
    ensures Inv(Proceed(e, w, a, i))
  {
    match w.requests[i]
    case Asked(_) => StateStepKeeps(e, w, a, i);
    case HeadRead(_, _) => if a.ReadState? { ReadStateKeeps(e, w, a, i); }
    case Planned(_, _, _) => if a.Issue? || a.Spend? { TicketStepKeeps(e, w, a, i); }
    case Spending(_, _, _) => if a.Build? { BuildKeeps(e, w, a, i); }
    case Built(_, _, _, _) => if a.Push? { LandKeeps(w, i); }
    case Landed(_, _, _, _) => StateStepKeeps(e, w, a, i);
    case Saving(_, _, _, _, _) => StateStepKeeps(e, w, a, i);
    case Over =>
  }

  lemma {:induction false} NextKeeps(e: Setting, w: World, a: Action)
    requires Inv(w)
    ensures Inv(Next(e, w, a))
  {
    match a
    case BeginPreview(op, d, s, id) => BeginKeeps(w, Asked(Ask(op, d, s, ToIssue(id))));
    case BeginApply(id, _, _) =>
      if id in w.tickets {
        var t := w.tickets[id];
        BeginKeeps(w, Asked(Ask(t.op, t.direction, t.strategy, ToApply(id, t))));
      }
    case PushByOthers(commit) => if FastForward(Head(w), commit) { HeadsKeep(w, commit); }
    case Tick(_) =>
    case Abandon(i) => if i < |w.requests| { AdvanceKeeps(w, i, Over); }
    case _ => if Target(a).value < |w.requests| { ProceedKeeps(e, w, a, Target(a).value); }
  }

  lemma {:induction false} EveryRunFits(e: Setting, w: World, actions: seq<Action>)
    requires Inv(w)
    ensures Inv(Play(e, w, actions))
  {
    if actions != [] {
      EveryRunFits(e, w, actions[..|actions| - 1]);
      NextKeeps(e, Play(e, w, actions[..|actions| - 1]), actions[|actions| - 1]);
    }
  }

  // ---------------------------------------------------------------- what holds of every run

  // However previews, applies, crashes and foreign pushes interleave - also when one ticket is
  // redeemed several times at once - a ticket moves the branch at most once, on the head it
  // was issued for.
  lemma {:induction false} TicketMovesOnce(e: Setting, w: World, actions: seq<Action>, j: nat, k: nat)
    requires Fresh(w)
    requires j < |Play(e, w, actions).log| && k < |Play(e, w, actions).log|
    ensures var v := Play(e, w, actions);
            && v.log[k].ticket in v.tickets && Fulfils(v.log[k], v.log[k].ticket, v.tickets[v.log[k].ticket])
            && v.log[k].after in v.heads && v.log[k].after.parents == [v.log[k].before]
            && (v.log[j].ticket == v.log[k].ticket ==> j == k)
  {
    EveryRunFits(e, w, actions);
    var v := Play(e, w, actions);
    assert EntryFits(v.heads, v.tickets, v.log, v.seen, j);
    assert EntryFits(v.heads, v.tickets, v.log, v.seen, k);
    if v.log[j].ticket == v.log[k].ticket {
      OneChildOf(v.heads, v.log[k].before, v.log[j].after, v.log[k].after);
      assert !(j < k) && !(k < j);
    }
  }

  lemma {:induction false} OneChildOf(heads: seq<Commit>, base: Commit, a: Commit, b: Commit)
    requires FastForwards(heads) && a in heads && b in heads && a.parents == [base] && b.parents == [base]
    ensures a == b
  {
    var i :| 0 <= i < |heads| && heads[i] == a;
    var j :| 0 <= j < |heads| && heads[j] == b;
    if i <= j {
      NoLostUpdate(heads, i, j, base);
    } else {
      NoLostUpdate(heads, j, i, base);
    }
  }

  // Every reversal of the operation that moved the branch came in its turn: undo first, then
  // redo, undo, ...
  ghost predicate Alternates(log: seq<Reversal>, op: nat)
  {
    forall k :: 0 <= k < |log| && log[k].op == op ==> TakesTurn(log, k)
  }

  ghost predicate TakesTurn(log: seq<Reversal>, k: nat)
    requires k < |log|
  {
    && (NoneBefore(log, log[k].op, k) ==> log[k].direction == RP.Undo)
    && forall i: nat :: LatestBefore(log, log[k].op, k, i) ==> log[i].direction != log[k].direction
  }

  lemma {:induction false} TurnIsInTurn(log: seq<Reversal>, k: nat)
    requires k < |log|
    ensures TakesTurn(log, k) <==> InTurn(log, k)
  {
    if NoneBefore(log, log[k].op, k) {
      StateIsUntouched(log, log[k].op, k);
    } else {
      var i := Latest(log, log[k].op, k);
      StateIsLatest(log, log[k].op, k, i);
      forall j: nat | LatestBefore(log, log[k].op, k, j) ensures j == i {
        assert !(i < j) && !(j < i);
      }
    }
  }

  // The reversals of an operation alternate if and only if each that moved the branch had
  // read a direction state that agreed with the branch when it read it.
  lemma {:induction false} AlternationExactly(e: Setting, w: World, actions: seq<Action>, op: nat)
    requires Fresh(w)
    ensures var v := Play(e, w, actions);
            Alternates(v.log, op) <==> AllCurrent(v.log, v.seen, op)
  {
    EveryRunFits(e, w, actions);
    var v := Play(e, w, actions);
    forall k | 0 <= k < |v.log| ensures TakesTurn(v.log, k) <==> v.seen[k].current {
      assert EntryFits(v.heads, v.tickets, v.log, v.seen, k);
      TurnIsInTurn(v.log, k);
    }
  }

  ghost predicate AllCurrent(log: seq<Reversal>, seen: seq<Seen>, op: nat)
  {
    |log| == |seen| && forall k :: 0 <= k < |log| && log[k].op == op ==> seen[k].current
  }

  // ---------------------------------------------------------------- what the moves do

  // The plan was computed at its head, with the state the request had read.
  ghost predicate Plans(e: Setting, op: nat, d: RP.Direction, s: RP.Strategy, r: Computed)
  {
    exists edits :: Computes(e.operations, e.classifiers, op, d, s, edits, r.head, r.state, r)
  }

  ghost predicate RequestPlanned(e: Setting, q: Request)
  {
    && (q.Planned? || q.Spending? || q.Built? ==>
          Plans(e, q.ask.op, q.ask.direction, q.ask.strategy, q.r) && (q.ask.goal.ToApply? ==> Holding(q.ask.goal.ticket, q.r)))
    && (q.Built? ==> CarriesOut(e.classifiers, q.ask.strategy, q.r, q.commit))
  }

  // The entry is what the preview of its ticket showed, carried out exactly.
  ghost predicate AsPreviewed(e: Setting, tickets: map<nat, Ticket>, entry: Reversal)
  {
    entry.ticket in tickets && exists r :: Shown(e, tickets[entry.ticket], entry, r)
  }

  ghost predicate Shown(e: Setting, ticket: Ticket, entry: Reversal, r: Computed)
  {
    && Plans(e, entry.op, entry.direction, entry.strategy, r) && r.head == entry.before
    && Holding(ticket, r) && CarriesOut(e.classifiers, entry.strategy, r, entry.after)
  }

  ghost predicate PlansInv(e: Setting, w: World)
  {
    && (forall i :: 0 <= i < |w.requests| ==> RequestPlanned(e, w.requests[i]))
    && (forall k :: 0 <= k < |w.log| ==> AsPreviewed(e, w.tickets, w.log[k]))
  }

  lemma {:induction false} ProceedIsPlanned(e: Setting, w: World, a: Action, i: nat)
    requires w.heads != [] && i < |w.requests| && RequestPlanned(e, w.requests[i])
    ensures RequestPlanned(e, Proceed(e, w, a, i).requests[i])
  {
    var q := w.requests[i];
    if q.HeadRead? && a.ReadState? && Proceed(e, w, a, i).requests[i].Planned? {
      ComputedIsAllowed(e, q.ask, a.edits, q.head, StateOf(w.states, q.ask.op), a.r);
      assert Plans(e, q.ask.op, q.ask.direction, q.ask.strategy, a.r);
    }
  }

  lemma {:induction false} ProceedTouchesOne(e: Setting, w: World, a: Action, i: nat)
    requires w.heads != [] && i < |w.requests|
    ensures var v := Proceed(e, w, a, i); v.requests == w.requests[i := v.requests[i]]
    ensures var v := Proceed(e, w, a, i);
            if w.requests[i].Built? && a.Push? && Moves(w, i)
            then v.log == w.log + [EntryOf(w.requests[i].ask, w.requests[i].r, w.requests[i].commit)]
            else v.log == w.log
  {
  }

  lemma {:induction false} TicketsOnlyGrow(e: Setting, w: World, a: Action)
    requires Inv(w)
    ensures TicketsGrow(w.tickets, Next(e, w, a).tickets)
  {
    if Target(a).Some? && !a.Abandon? && Target(a).value < |w.requests| {
      ProceedTickets(e, w, a, Target(a).value);
    }
  }

  lemma {:induction false} ProceedTickets(e: Setting, w: World, a: Action, i: nat)
    requires Inv(w) && i < |w.requests|
    ensures TicketsGrow(w.tickets, Proceed(e, w, a, i).tickets)
  {
    if a.Spend? && w.requests[i].Planned? {
      assert RequestFits(w.heads, w.tickets, w.log, w.requests[i]);
    }
  }

  lemma {:induction false} TicketsKeepEntry(e: Setting, tickets: map<nat, Ticket>, more: map<nat, Ticket>, entry: Reversal)
    requires TicketsGrow(tickets, more) && AsPreviewed(e, tickets, entry)
    ensures AsPreviewed(e, more, entry)
  {
    var r :| Shown(e, tickets[entry.ticket], entry, r);
    assert Shown(e, more[entry.ticket], entry, r);
  }

  lemma {:induction false} LandedAsPreviewed(e: Setting, w: World, i: nat)
    requires Inv(w) && i < |w.requests| && w.requests[i].Built? && RequestPlanned(e, w.requests[i])
    ensures AsPreviewed(e, w.tickets, EntryOf(w.requests[i].ask, w.requests[i].r, w.requests[i].commit))
  {
    var q := w.requests[i];
    assert RequestFits(w.heads, w.tickets, w.log, q);
    assert Shown(e, w.tickets[q.ask.goal.id], EntryOf(q.ask, q.r, q.commit), q.r);
  }

  lemma {:induction false} ProceedKeepsPlans(e: Setting, w: World, a: Action, i: nat)
    requires Inv(w) && PlansInv(e, w) && i < |w.requests|
    requires TicketsGrow(w.tickets, Proceed(e, w, a, i).tickets)
    ensures PlansInv(e, Proceed(e, w, a, i))
  {
    var v := Proceed(e, w, a, i);
    ProceedIsPlanned(e, w, a, i);
    ProceedTouchesOne(e, w, a, i);
    forall k | 0 <= k < |v.log| ensures AsPreviewed(e, v.tickets, v.log[k]) {
      if k < |w.log| {
        assert v.log[k] == w.log[k];
      } else {
        LandedAsPreviewed(e, w, i);
      }
      TicketsKeepEntry(e, w.tickets, v.tickets, v.log[k]);
    }
  }

  lemma {:induction false} NextKeepsPlans(e: Setting, w: World, a: Action)
    requires Inv(w) && PlansInv(e, w)
    ensures PlansInv(e, Next(e, w, a))
  {
    TicketsOnlyGrow(e, w, a);
    if Target(a).Some? && !a.Abandon? && Target(a).value < |w.requests| {
      ProceedKeepsPlans(e, w, a, Target(a).value);
    }
  }

  lemma {:induction false} EveryRunIsPlanned(e: Setting, w: World, actions: seq<Action>)
    requires Inv(w) && PlansInv(e, w)
    ensures Inv(Play(e, w, actions)) && PlansInv(e, Play(e, w, actions))
  {
    if actions != [] {
      var v := Play(e, w, actions[..|actions| - 1]);
      EveryRunIsPlanned(e, w, actions[..|actions| - 1]);
      NextKeeps(e, v, actions[|actions| - 1]);
      NextKeepsPlans(e, v, actions[|actions| - 1]);
    }
  }

  // In every run whatever moved the branch is exactly what its ticket's preview showed: the
  // same plan, recomputed on the same head, and nothing else.
  lemma {:induction false} MovesAreAsPreviewed(e: Setting, w: World, actions: seq<Action>, k: nat)
    requires Fresh(w) && k < |Play(e, w, actions).log|
    ensures AsPreviewed(e, Play(e, w, actions).tickets, Play(e, w, actions).log[k])
  {
    EveryRunIsPlanned(e, w, actions);
  }
}
