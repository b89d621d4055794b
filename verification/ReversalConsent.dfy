// What a human had seen and said before a reversal moved the branch, over every interleaving
// of requests.
module ReversalConsent {
  import opened Common
  import opened Git
  import opened ReversalRuntime
  import opened ReversalRequests

  // At this action somebody confirmed the ticket: it was known, unused and in time, and where
  // it loses work that was confirmed too.
  ghost predicate ConfirmedAt(e: Setting, w: World, actions: seq<Action>, id: nat, n: nat)
    requires w.heads != [] && n < |actions|
  {
    var u, a := Play(e, w, actions[..n]), actions[n];
    && a.BeginApply? && a.id == id && a.confirmed && id in u.tickets
    && !u.tickets[id].used && u.now < u.tickets[id].expires
    && (u.tickets[id].digest.destructive ==> a.confirmDestructive)
  }

  // At this action the ticket was issued, with ten minutes to live, for a preview.
  ghost predicate IssuedAt(e: Setting, w: World, actions: seq<Action>, id: nat, ticket: Ticket, m: nat)
    requires w.heads != [] && m < |actions|
  {
    var u, a := Play(e, w, actions[..m]), actions[m];
    && a.Issue? && a.i < |u.requests| && u.requests[a.i].Planned? && id !in u.tickets
    && var (ask, r) := (u.requests[a.i].ask, u.requests[a.i].r);
       && ask.goal == ToIssue(id)
       && (ticket.op, ticket.direction, ticket.strategy) == (ask.op, ask.direction, ask.strategy)
       && ticket.head == r.head && ticket.digest == r.digest && ticket.expires == u.now + 600000
  }

  ghost predicate Confirmed(e: Setting, w: World, actions: seq<Action>, id: nat)
    requires w.heads != []
  {
    exists n :: 0 <= n < |actions| && ConfirmedAt(e, w, actions, id, n)
  }

  ghost predicate Issued(e: Setting, w: World, actions: seq<Action>, id: nat, ticket: Ticket)
    requires w.heads != []
  {
    exists m :: 0 <= m < |actions| && IssuedAt(e, w, actions, id, ticket, m)
  }

  lemma {:induction false} StaysConfirmed(e: Setting, w: World, actions: seq<Action>, a: Action, id: nat)
    requires w.heads != [] && Confirmed(e, w, actions, id)
    ensures Confirmed(e, w, actions + [a], id)
  {
    var n :| 0 <= n < |actions| && ConfirmedAt(e, w, actions, id, n);
    assert (actions + [a])[..n] == actions[..n];
    assert ConfirmedAt(e, w, actions + [a], id, n);
  }

  lemma {:induction false} StaysIssued(e: Setting, w: World, actions: seq<Action>, a: Action, id: nat, t: Ticket, u: Ticket)
    requires w.heads != [] && Issued(e, w, actions, id, t) && SameTicket(u, t)
    ensures Issued(e, w, actions + [a], id, u)
  {
    var m :| 0 <= m < |actions| && IssuedAt(e, w, actions, id, t, m);
    assert (actions + [a])[..m] == actions[..m];
    assert IssuedAt(e, w, actions + [a], id, u, m);
  }

  // A request keeps what it was asked for; a new one to apply was confirmed.
  lemma {:induction false} AsksStay(e: Setting, v: World, a: Action, i: nat)
    requires v.heads != [] && i < |Next(e, v, a).requests| && !Next(e, v, a).requests[i].Over?
    ensures i < |v.requests| ==> !v.requests[i].Over? && v.requests[i].ask == Next(e, v, a).requests[i].ask
    ensures i >= |v.requests| && Next(e, v, a).requests[i].ask.goal.ToApply? ==>
              && a.BeginApply? && a.id == Next(e, v, a).requests[i].ask.goal.id && a.id in v.tickets
              && Redeemable(v.tickets[a.id], a.confirmed, a.confirmDestructive, v.now)
  {
    if Target(a).Some? && !a.Abandon? && Target(a).value < |v.requests| {
      ProceedTouchesOne(e, v, a, Target(a).value);
      if i == Target(a).value {
        AskStays(e, v, a, i);
      }
    }
  }

  lemma {:induction false} AskStays(e: Setting, v: World, a: Action, i: nat)
    requires v.heads != [] && i < |v.requests| && !Proceed(e, v, a, i).requests[i].Over?
    ensures !v.requests[i].Over? && v.requests[i].ask == Proceed(e, v, a, i).requests[i].ask
  {
  }

  // The log grows by what a request to apply had built.
  lemma {:induction false} EntriesAreAsked(e: Setting, v: World, a: Action, k: nat)
    requires Inv(v) && k < |Next(e, v, a).log|
    ensures if k < |v.log| then Next(e, v, a).log[k] == v.log[k]
            else exists i :: 0 <= i < |v.requests| && Asks(v.requests[i], Next(e, v, a).log[k].ticket)
  {
    if Target(a).Some? && !a.Abandon? && Target(a).value < |v.requests| {
      var i := Target(a).value;
      ProceedTouchesOne(e, v, a, i);
      assert RequestFits(v.heads, v.tickets, v.log, v.requests[i]);
      if k >= |v.log| {
        assert Asks(v.requests[i], Next(e, v, a).log[k].ticket);
      }
    }
  }

  predicate Asks(q: Request, id: nat)
  {
    !q.Over? && q.ask.goal.ToApply? && q.ask.goal.id == id
  }

  // Tickets are those there were, possibly marked, and the one that is issued.
  lemma {:induction false} TicketsAreIssued(e: Setting, v: World, a: Action, id: nat)
    requires Inv(v) && id in Next(e, v, a).tickets
    ensures if id in v.tickets then SameTicket(Next(e, v, a).tickets[id], v.tickets[id])
            else && a.Issue? && a.i < |v.requests| && v.requests[a.i].Planned?
                 && v.requests[a.i].ask.goal == ToIssue(id)
                 && Next(e, v, a).tickets[id] == Ticket(v.requests[a.i].ask.op, v.requests[a.i].ask.direction,
                      v.requests[a.i].ask.strategy, v.requests[a.i].r.head, v.requests[a.i].r.digest, false, v.now + 600000)
  {
    TicketsOnlyGrow(e, v, a);
    if id !in v.tickets && Target(a).Some? && !a.Abandon? && Target(a).value < |v.requests| {
      var q := v.requests[Target(a).value];
      assert RequestFits(v.heads, v.tickets, v.log, q);
    }
  }

  ghost predicate AllConsented(e: Setting, w: World, actions: seq<Action>)
    requires w.heads != []
  {
    var v := Play(e, w, actions);
    && (forall i, id :: 0 <= i < |v.requests| && Asks(v.requests[i], id) ==> Confirmed(e, w, actions, id))
    && (forall k :: 0 <= k < |v.log| ==> Confirmed(e, w, actions, v.log[k].ticket))
  }

  lemma {:induction false} StepIsConsented(e: Setting, w: World, actions: seq<Action>, a: Action)
    requires Fresh(w) && AllConsented(e, w, actions)
    ensures AllConsented(e, w, actions + [a])
  {
    var v, all := Play(e, w, actions), actions + [a];
    assert all[..|all| - 1] == actions && all[|all| - 1] == a;
    var u := Play(e, w, all);
    assert u == Next(e, v, a);
    EveryRunFits(e, w, actions);
    forall i, id | 0 <= i < |u.requests| && Asks(u.requests[i], id) ensures Confirmed(e, w, all, id) {
      AsksStay(e, v, a, i);
      if i < |v.requests| {
        assert Asks(v.requests[i], id);
        StaysConfirmed(e, w, actions, a, id);
      } else {
        assert ConfirmedAt(e, w, all, id, |actions|);
      }
    }
    forall k | 0 <= k < |u.log| ensures Confirmed(e, w, all, u.log[k].ticket) {
      EntriesAreAsked(e, v, a, k);
      StaysConfirmed(e, w, actions, a, u.log[k].ticket);
    }
  }

  lemma {:induction false} EveryoneConsented(e: Setting, w: World, actions: seq<Action>)
    requires Fresh(w)
    ensures AllConsented(e, w, actions)
  {
    if actions != [] {
      var before := actions[..|actions| - 1];
      EveryoneConsented(e, w, before);
      StepIsConsented(e, w, before, actions[|actions| - 1]);
      assert before + [actions[|actions| - 1]] == actions;
    }
  }

  lemma {:induction false} EveryTicketWasIssued(e: Setting, w: World, actions: seq<Action>, id: nat)
    requires Fresh(w) && id in Play(e, w, actions).tickets
    ensures Issued(e, w, actions, id, Play(e, w, actions).tickets[id])
  {
    if actions != [] {
      var before, a := actions[..|actions| - 1], actions[|actions| - 1];
      var v, u := Play(e, w, before), Play(e, w, actions);
      assert before + [a] == actions;
      EveryRunFits(e, w, before);
      TicketsAreIssued(e, v, a, id);
      if id in v.tickets {
        EveryTicketWasIssued(e, w, before, id);
        StaysIssued(e, w, before, a, id, v.tickets[id], u.tickets[id]);
      } else {
        assert IssuedAt(e, w, actions, id, u.tickets[id], |before|);
      }
    }
  }

  // In every run: whatever moved the branch had been previewed, with the ticket it spent,
  // and confirmed on that ticket less than ten minutes later - once more where it loses work.
  lemma {:induction false} EveryMoveWasConfirmed(e: Setting, w: World, actions: seq<Action>, k: nat) returns (m: nat, n: nat)
    requires Fresh(w) && k < |Play(e, w, actions).log|
    ensures m < n < |actions|
    ensures var id := Play(e, w, actions).log[k].ticket;
            && ConfirmedAt(e, w, actions, id, n)
            && IssuedAt(e, w, actions[..n], id, Play(e, w, actions[..n]).tickets[id], m)
            && Play(e, w, actions[..n]).now < Play(e, w, actions[..m]).now + 600000
  {
    EveryoneConsented(e, w, actions);
    var id := Play(e, w, actions).log[k].ticket;
    n :| 0 <= n < |actions| && ConfirmedAt(e, w, actions, id, n);
    var t := Play(e, w, actions[..n]).tickets[id];
    EveryTicketWasIssued(e, w, actions[..n], id);
    m :| 0 <= m < n && IssuedAt(e, w, actions[..n], id, t, m);
    assert actions[..n][..m] == actions[..m];
  }
}
