// Carrying reversals out: a preview issues a one-shot ticket; an apply checks that nothing
// changed since, publishes and records what was done. Other people push meanwhile.
module ReversalRuntime {
  import opened Common
  import opened Git
  import opened ShadowDelta
  import opened GuardedCommit
  import opened ReversalHistory
  import RP = ReversalPlan
  import Hunks
  import Lines

  datatype Change = Change(path: string, action: RP.FileAction, destructive: bool)

  // What a preview shows, the hash standing for what it hashes.
  datatype Fingerprint = Fingerprint(destructive: bool, changes: set<Change>, conflicts: set<(string, RP.Code)>)

  datatype Ticket = Ticket(
    op: nat, direction: RP.Direction, strategy: RP.Strategy, head: Commit, digest: Fingerprint, used: bool, expires: nat)

  datatype Computed = Computed(
    head: Commit, parent: Commit, state: OpState, allowed: bool, digest: Fingerprint,
    changes: seq<RP.FilePlan>, destination: Option<Commit>)

  datatype Refusal =
    | OperationNotFound | SourceNotAncestor | ParentMissing | DirectionRefused | PathCountInvalid | NonTextUseCascade
    | CascadeDestinationMissing | CascadeNoChanges | CascadeTooLarge
    | Unconfirmed | TicketNotFound | TicketUsed | TicketExpired | HeadChanged | Stale | NotAllowed
    | CommitRefused | BranchRefused | VerifyFailed | NotRecorded

  // Paths whose content differs between two trees, files only.
  function Differing(a: Tree, b: Tree): (paths: set<string>)
    ensures forall path :: path in paths <==> StateIn(a, path) != StateIn(b, path)
  {
    set path | path in a.Keys + b.Keys && StateIn(a, path) != StateIn(b, path)
  }

  function CascadeChange(cur: Tree, goal: Tree, path: string): Change
  {
    var action := if StateIn(goal, path).Absent? then RP.DeleteIt else if StateIn(cur, path).Present? then RP.UpdateIt else RP.CreateIt;
    Change(path, action, true)
  }

  function CascadeDigest(c: Classifiers, cur: Tree, goal: Tree): Fingerprint
  {
    Fingerprint(true, set path | path in Differing(cur, goal) :: CascadeChange(cur, goal, path),
                set path | path in Differing(cur, goal) && c.sensitive(path) :: (path, RP.SensitivePath))
  }

  function PlanDigest(plan: RP.Plan): Fingerprint
  {
    Fingerprint(plan.destructive, set p | p in plan.changes :: Change(p.path, p.action, p.destructive),
                set p | p in plan.conflicts && p.conflict.Some? :: (p.path, p.conflict.value))
  }

  // ---------------------------------------------------------------- what a preview computes

  // The changes are the ready part of a plan for the frames.
  ghost predicate PlannedFrom(frames: seq<RP.Frame>, d: RP.Direction, s: RP.Strategy, edits: seq<RP.ObservedEdit>, r: Computed)
  {
    exists plan :: IsPlan(frames, d, s, edits, plan) && Shows(r, plan)
  }

  ghost predicate IsPlan(frames: seq<RP.Frame>, d: RP.Direction, s: RP.Strategy, edits: seq<RP.ObservedEdit>, plan: RP.Plan)
  {
    RP.FilesPlanned(frames, d, s, edits, plan.files) && RP.Summarizes(plan, plan.files, s)
  }

  predicate Shows(r: Computed, plan: RP.Plan)
  {
    plan.changes == r.changes && plan.allowed == r.allowed && PlanDigest(plan) == r.digest
  }

  // A reversal file by file of the operation's files between parent, source and head.
  ghost predicate FilesComputed(c: Classifiers, operation: Operation, d: RP.Direction, s: RP.Strategy, edits: seq<RP.ObservedEdit>, r: Computed)
  {
    && r.destination == None && Actionable(r.changes)
    && (forall i :: 0 <= i < |operation.paths| ==> c.textual(operation.paths[i]))
    && PlannedFrom(Frames(c, operation.paths, r.parent.tree, operation.source.tree, r.head.tree), d, s, edits, r)
  }

  // A reversal of the whole tree, refused where it would touch a sensitive path.
  ghost predicate CascadeComputed(c: Classifiers, d: RP.Direction, r: Computed)
  {
    && r.changes == [] && r.destination.Some? && r.destination == Destination(d, r.parent, r.state)
    && var paths := Differing(r.head.tree, r.destination.value.tree);
       && 0 < |paths| <= 300
       && (r.allowed <==> forall path :: path in paths ==> !c.sensitive(path))
       && r.digest == CascadeDigest(c, r.head.tree, r.destination.value.tree)
  }

  // The preview of a reversal at a head, with the direction state the request read.
  ghost predicate Computes(operations: map<nat, Operation>, c: Classifiers, op: nat, d: RP.Direction, s: RP.Strategy,
                           edits: seq<RP.ObservedEdit>, head: Commit, state: OpState, r: Computed)
  {
    && op in operations && operations[op].source.parents != [] && r.parent == operations[op].source.parents[0]
    && IsAncestor(operations[op].source, head) && 0 < |operations[op].paths| <= 80
    && r.head == head && r.state == state && Permitted(d, s, state)
    && if s == RP.Cascade then CascadeComputed(c, d, r) else FilesComputed(c, operations[op], d, s, edits, r)
  }

  // The commit does what was computed, and nothing else.
  ghost predicate CarriesOut(c: Classifiers, s: RP.Strategy, r: Computed, after: Commit)
  {
    && after.parents == [r.head]
    && if s == RP.Cascade then r.destination.Some? && after.tree == r.destination.value.tree
       else Realizes(c, r.changes, r.head, after)
  }

  class Runtime {
    const remote: Remote
    const operations: map<nat, Operation>
    const classifiers: Classifiers
    var tickets: map<nat, Ticket>
    var states: map<nat, OpState>
    ghost var log: seq<Reversal>

    // Every recorded reversal was permitted by what was recorded before it, spent a ticket
    // of its own, and moved the branch in one step.
    ghost predicate Valid()
      reads this, remote
    {
      && remote.Valid() && LawfulLog(operations, log)
      && (forall op :: StateOf(states, op) == StateAfter(log, op))
      && Spent(tickets, log)
      && forall k :: 0 <= k < |log| ==> Adjacent(remote.heads, Shadow(log[k].before, log[k].after))
    }

    constructor (remote: Remote, operations: map<nat, Operation>, classifiers: Classifiers)
      requires remote.Valid()
      ensures Valid() && log == [] && this.remote == remote && this.operations == operations
    {
      this.remote, this.operations, this.classifiers := remote, operations, classifiers;
      tickets, states, log := map[], map[], [];
    }

    // A cascade is refused exactly where it leads nowhere, changes nothing or too much.
    method ComputeCascade(d: RP.Direction, head: Commit, parent: Commit, state: OpState) returns (r: Result<Computed, Refusal>)
      ensures r == Err(CascadeDestinationMissing) <==> d == RP.Redo && state.preCascade == None
      ensures r == Err(CascadeNoChanges) <==>
                Destination(d, parent, state).Some? && Differing(head.tree, Destination(d, parent, state).value.tree) == {}
      ensures r == Err(CascadeTooLarge) <==>
                Destination(d, parent, state).Some? && |Differing(head.tree, Destination(d, parent, state).value.tree)| > 300
      ensures r.Err? ==> r.error in {CascadeDestinationMissing, CascadeNoChanges, CascadeTooLarge}
      ensures r.Ok? ==>
                && r.value.head == head && r.value.parent == parent && r.value.state == state
                && CascadeComputed(classifiers, d, r.value)
    {
      var destination := Destination(d, parent, state);
      if destination == None { return Err(CascadeDestinationMissing); }
      var goal := destination.value.tree;
      var paths := Differing(head.tree, goal);
      if paths == {} { return Err(CascadeNoChanges); }
      if |paths| > 300 { return Err(CascadeTooLarge); }
      var conflicts := set path | path in paths && classifiers.sensitive(path) :: (path, RP.SensitivePath);
      var changes := set path | path in paths :: CascadeChange(head.tree, goal, path);
      if conflicts == {} {
        assert forall path :: path in paths && classifiers.sensitive(path) ==> (path, RP.SensitivePath) in conflicts;
      }
      return Ok(Computed(head, parent, state, conflicts == {}, Fingerprint(true, changes, conflicts), [], destination));
    }

    method ComputeFiles(op: nat, d: RP.Direction, s: RP.Strategy, edits: seq<RP.ObservedEdit>, head: Commit, parent: Commit, state: OpState)
      returns (r: Result<Computed, Refusal>)
      requires op in operations && s != RP.Cascade
      ensures r.Err? <==> exists i :: 0 <= i < |operations[op].paths| && !classifiers.textual(operations[op].paths[i])
      ensures r.Err? ==> r.error == NonTextUseCascade
      ensures r.Ok? ==>
                && r.value.head == head && r.value.parent == parent && r.value.state == state
                && FilesComputed(classifiers, operations[op], d, s, edits, r.value)
    {
      var operation := operations[op];
      if exists i :: 0 <= i < |operation.paths| && !classifiers.textual(operation.paths[i]) { return Err(NonTextUseCascade); }
      var frames := Frames(classifiers, operation.paths, parent.tree, operation.source.tree, head.tree);
      var plan := RP.BuildReversalPlan(frames, d, s, edits);
      ReadyIsActionable(frames, d, s, edits, plan.files);
      r := Ok(Computed(head, parent, state, plan.allowed, PlanDigest(plan), plan.changes, None));
      assert IsPlan(frames, d, s, edits, plan) && Shows(r.value, plan);
    }

    // The operation is part of the branch and has a commit to go back to.
    predicate Located(op: nat)
      reads this, remote
    {
      op in operations && IsAncestor(operations[op].source, remote.head) && operations[op].source.parents != []
    }

    // A reversal that can be previewed at the head there is.
    predicate Previewable(op: nat, d: RP.Direction, s: RP.Strategy)
      reads this, remote
    {
      && Located(op) && Permitted(d, s, StateOf(states, op)) && 0 < |operations[op].paths| <= 80
      && if s == RP.Cascade then
           var to := Destination(d, operations[op].source.parents[0], StateOf(states, op));
           to.Some? && 0 < |Differing(remote.head.tree, to.value.tree)| <= 300
         else forall i :: 0 <= i < |operations[op].paths| ==> classifiers.textual(operations[op].paths[i])
    }

    method ComputePreview(op: nat, d: RP.Direction, s: RP.Strategy, edits: seq<RP.ObservedEdit>, adapter: Adapter)
      returns (r: Result<Computed, Refusal>)
      requires adapter.remote == remote
      modifies adapter
      ensures r.Ok? ==> Computes(operations, classifiers, op, d, s, edits, remote.head, StateOf(states, op), r.value)
                        && adapter.lastRef == Some(remote.head)
      // Each refusal is given exactly for its reason, in this order.
      ensures r == Err(OperationNotFound) <==> op !in operations
      ensures r == Err(SourceNotAncestor) <==> op in operations && !IsAncestor(operations[op].source, remote.head)
      ensures r == Err(ParentMissing) <==>
                op in operations && IsAncestor(operations[op].source, remote.head) && operations[op].source.parents == []
      ensures r == Err(DirectionRefused) <==> Located(op) && !Permitted(d, s, StateOf(states, op))
      ensures r == Err(PathCountInvalid) <==>
                Located(op) && Permitted(d, s, StateOf(states, op)) && !(0 < |operations[op].paths| <= 80)
      ensures r.Ok? <==> Previewable(op, d, s)
      ensures r.Err? ==> r.error in {OperationNotFound, SourceNotAncestor, ParentMissing, DirectionRefused, PathCountInvalid,
                                     NonTextUseCascade, CascadeDestinationMissing, CascadeNoChanges, CascadeTooLarge}
    {
      if op !in operations { return Err(OperationNotFound); }
      var operation := operations[op];
      var head := adapter.GetRef();
      if !IsAncestor(operation.source, head) { return Err(SourceNotAncestor); }
      if operation.source.parents == [] { return Err(ParentMissing); }
      var parent := operation.source.parents[0];
      var state := StateOf(states, op);
      if !Permitted(d, s, state) { return Err(DirectionRefused); }
      if operation.paths == [] || |operation.paths| > 80 { return Err(PathCountInvalid); }
      if s == RP.Cascade {
        r := ComputeCascade(d, head, parent, state);
      } else {
        r := ComputeFiles(op, d, s, edits, head, parent, state);
      }
    }

    // Ticket ids are random and never come up twice. The ticket names the reversal, the head
    // and the preview it was issued for, and lasts ten minutes.
    method Preview(op: nat, d: RP.Direction, s: RP.Strategy, edits: seq<RP.ObservedEdit>, id: nat, now: nat) returns (r: Result<nat, Refusal>)
      requires Valid() && id !in tickets
      modifies this
      ensures Valid() && log == old(log) && states == old(states)
      ensures r.Ok? ==>
                && r.value == id && id in tickets && tickets == old(tickets)[id := tickets[id]]
                && exists computed ::
                     && Computes(operations, classifiers, op, d, s, edits, remote.head, StateOf(states, op), computed)
                     && tickets[id] == Ticket(op, d, s, remote.head, computed.digest, false, now + 600000)
      ensures r.Err? ==> tickets == old(tickets)
      ensures r.Ok? <==> Previewable(op, d, s)
    {
      var adapter := new Adapter(remote);
      var computed := ComputePreview(op, d, s, edits, adapter);
      if computed.Err? { return Err(computed.error); }
      tickets := tickets[id := Ticket(op, d, s, computed.value.head, computed.value.digest, false, now + 600000)];
      return Ok(id);
    }

    // A commit with the destination's tree on the head, moved in without force.
    method ApplyCascade(computed: Computed, message: string, stamp: nat, arrivals: Arrivals) returns (r: Result<Commit, Refusal>)
      requires remote.Valid() && computed.head == remote.head && computed.destination.Some?
      modifies remote
      ensures remote.Valid() && Extends(old(remote.heads), remote.heads)
      ensures r.Ok? ==>
                && r.value.parents == [computed.head] && r.value.tree == computed.destination.value.tree
                && Adjacent(remote.heads, Shadow(computed.head, r.value))
      // Only a push by somebody else can stop it.
      ensures arrivals.first == arrivals.second == [] ==> r.Ok?
      ensures r == Err(BranchRefused) ==> arrivals.first != []
      ensures r == Err(VerifyFailed) ==> arrivals.second != []
      ensures r.Err? ==> r.error in {BranchRefused, VerifyFailed}
    {
      ghost var heads0 := remote.heads;
      var commit := Commit([computed.head], computed.destination.value.tree, message, stamp);
      remote.Receive(arrivals.first);
      ghost var heads1 := remote.heads;
      assert heads1[|heads0| - 1] == heads1[..|heads0|][|heads0| - 1];
      ParentIsStrictAncestor(commit, 0);
      var moved := remote.UpdateBranch(commit);
      if !moved { return Err(BranchRefused); }
      ghost var heads2 := remote.heads;
      assert Extends(heads1, heads2);
      ExtendsThrough(heads0, heads1, heads2);
      AdjacentHeads(heads2, |heads0| - 1, Shadow(computed.head, commit));
      remote.Receive(arrivals.second);
      ExtendsThrough(heads0, heads2, remote.heads);
      if remote.head != commit { return Err(VerifyFailed); }
      return Ok(commit);
    }

    // The ready changes through the guarded commit.
    method ApplyFiles(computed: Computed, adapter: Adapter, message: string, stamp: nat, gate: bool, arrivals: Arrivals)
      returns (r: Result<Commit, Refusal>)
      requires remote.Valid() && adapter.remote == remote && adapter.lastRef == Some(computed.head)
      modifies adapter, remote
      ensures remote.Valid() && Extends(old(remote.heads), remote.heads)
      ensures r.Ok? ==>
                && r.value.parents == [computed.head] && Adjacent(remote.heads, Shadow(computed.head, r.value))
                && Realizes(classifiers, computed.changes, computed.head, r.value)
      ensures r.Err? ==> r.error == CommitRefused
      // Left alone, changes that make a sound commit go through the gate.
      ensures Quiet(arrivals) && gate && computed.head == old(remote.head) && Committable(classifiers, computed) ==> r.Ok?
    {
      var files := ChangeFiles(classifiers, computed.changes);
      var committed := adapter.AtomicCommit(files, message, stamp, gate, arrivals);
      if committed.Err? { return Err(CommitRefused); }
      return Ok(committed.value.shadow);
    }

    // What the reversal of a ticket comes to at the head there is.
    ghost predicate ComputedFor(t: Ticket, edits: seq<RP.ObservedEdit>, r: Computed)
      reads this, remote
    {
      Computes(operations, classifiers, t.op, t.direction, t.strategy, edits, remote.head, StateOf(states, t.op), r)
    }

    lemma {:induction false} ComputedIsPreviewable(t: Ticket, edits: seq<RP.ObservedEdit>, r: Computed)
      ensures ComputedFor(t, edits, r) ==> Previewable(t.op, t.direction, t.strategy) && r.head == remote.head
    {
    }

    lemma {:induction false} OneIsCommittable(t: Ticket, edits: seq<RP.ObservedEdit>, r: Computed)
      requires ComputedFor(t, edits, r)
      ensures forall other :: ComputedFor(t, edits, other) && t.strategy != RP.Cascade && Committable(classifiers, other) ==> Committable(classifiers, r)
    {
      forall other | ComputedFor(t, edits, other) && t.strategy != RP.Cascade && Committable(classifiers, other) ensures Committable(classifiers, r) {
        OneComputed(operations, classifiers, t.op, t.direction, t.strategy, edits, remote.head, StateOf(states, t.op), other, r);
        CommittableAlike(classifiers, other, r);
      }
    }

    // The checks before a ticket is spent.
    method Admit(id: nat, confirmed: bool, confirmDestructive: bool, now: nat, edits: seq<RP.ObservedEdit>, adapter: Adapter)
      returns (r: Result<Computed, Refusal>)
      requires Valid() && adapter.remote == remote
      modifies this`tickets, adapter
      ensures Valid()
      ensures r.Ok? ==>
                && tickets == old(tickets) && id in tickets && !tickets[id].used && now < tickets[id].expires && confirmed
                && (tickets[id].digest.destructive ==> confirmDestructive)
                && Computes(operations, classifiers, tickets[id].op, tickets[id].direction, tickets[id].strategy, edits,
                            remote.head, StateOf(states, tickets[id].op), r.value)
                && r.value.head == tickets[id].head && r.value.digest == tickets[id].digest && r.value.allowed
                && adapter.lastRef == Some(remote.head)
      // Each refusal is given exactly for its reason.
      ensures r == Err(TicketNotFound) <==> confirmed && id !in old(tickets)
      ensures r == Err(TicketUsed) <==> confirmed && id in old(tickets) && old(tickets)[id].used
      ensures r == Err(TicketExpired) <==> confirmed && id in old(tickets) && !old(tickets)[id].used && old(tickets)[id].expires <= now
      ensures r == Err(Unconfirmed) <==>
                !confirmed || (&& id in old(tickets) && !old(tickets)[id].used && now < old(tickets)[id].expires
                               && old(tickets)[id].digest.destructive && !confirmDestructive)
      ensures tickets == if r == Err(TicketExpired) then old(tickets) - {id} else old(tickets)
      ensures r.Err? ==> r.error !in {BranchRefused, VerifyFailed, CommitRefused, NotRecorded}
      // A ticket that can be redeemed is refused for what has changed since, and for nothing else.
      ensures id in old(tickets) && Redeemable(old(tickets)[id], confirmed, confirmDestructive, now) ==>
                var t := old(tickets)[id];
                && (r == Err(HeadChanged) <==> Previewable(t.op, t.direction, t.strategy) && remote.head != t.head)
                && (r == Err(Stale) ==> exists computed :: ComputedFor(t, edits, computed) && computed.digest != t.digest)
                && (r == Err(NotAllowed) ==> exists computed :: ComputedFor(t, edits, computed) && !computed.allowed)
                && (r.Err? && r.error !in {HeadChanged, Stale, NotAllowed} ==> !Previewable(t.op, t.direction, t.strategy))
                && (r.Ok? <==> exists computed :: ComputedFor(t, edits, computed) && Holding(t, computed))
    {
      if !confirmed { return Err(Unconfirmed); }
      if id !in tickets { return Err(TicketNotFound); }
      var ticket := tickets[id];
      if ticket.used { return Err(TicketUsed); }
      if ticket.expires <= now {
        tickets := tickets - {id};
        return Err(TicketExpired);
      }
      if ticket.digest.destructive && !confirmDestructive { return Err(Unconfirmed); }
      var computed := ComputePreview(ticket.op, ticket.direction, ticket.strategy, edits, adapter);
      if computed.Err? {
        forall other ensures !ComputedFor(ticket, edits, other) {
          ComputedIsPreviewable(ticket, edits, other);
        }
        return Err(computed.error);
      }
      assert ComputedFor(ticket, edits, computed.value);
      ComputedIsPreviewable(ticket, edits, computed.value);
      forall other | ComputedFor(ticket, edits, other) ensures Same(other, computed.value) {
        OneComputed(operations, classifiers, ticket.op, ticket.direction, ticket.strategy, edits, remote.head,
                    StateOf(states, ticket.op), other, computed.value);
      }
      if computed.value.head != ticket.head { return Err(HeadChanged); }
      if computed.value.digest != ticket.digest { return Err(Stale); }
      if !computed.value.allowed { return Err(NotAllowed); }
      return computed;
    }

    // A ticket is spent before anything is written.
    method Spend(id: nat)
      requires Valid() && id in tickets && !tickets[id].used
      modifies this`tickets
      ensures Valid() && tickets == old(tickets)[id := old(tickets)[id].(used := true)]
      ensures forall k :: 0 <= k < |log| ==> log[k].ticket != id
    {
      tickets := tickets[id := tickets[id].(used := true)];
    }

    method Publish(strategy: RP.Strategy, computed: Computed, adapter: Adapter, message: string, stamp: nat, gate: bool, arrivals: Arrivals)
      returns (r: Result<Commit, Refusal>)
      requires Valid() && adapter.remote == remote && adapter.lastRef == Some(computed.head) && computed.head == remote.head
      requires strategy == RP.Cascade ==> computed.destination.Some?
      modifies adapter, remote
      ensures Valid() && Extends(old(remote.heads), remote.heads)
      ensures r.Ok? ==> CarriesOut(classifiers, strategy, computed, r.value) && Adjacent(remote.heads, Shadow(computed.head, r.value))
      ensures Quiet(arrivals) && (strategy == RP.Cascade || (gate && Committable(classifiers, computed))) ==> r.Ok?
      ensures r.Err? ==> r.error in {BranchRefused, VerifyFailed, CommitRefused}
    {
      ghost var heads := remote.heads;
      if strategy == RP.Cascade {
        r := ApplyCascade(computed, message, stamp, arrivals);
      } else {
        r := ApplyFiles(computed, adapter, message, stamp, gate, arrivals);
      }
    }

    method Record(e: Reversal, computed: Computed)
      requires Valid() && e.ticket in tickets && tickets[e.ticket].used
      requires forall k :: 0 <= k < |log| ==> log[k].ticket != e.ticket
      requires e.op in operations && operations[e.op].source.parents != [] && e.after.parents == [e.before]
      requires e.before == computed.head && computed.state == StateOf(states, e.op)
      requires Permitted(e.direction, e.strategy, computed.state)
      requires e.strategy == RP.Cascade ==>
                 && computed.destination == Destination(e.direction, operations[e.op].source.parents[0], computed.state)
                 && computed.destination.Some? && e.after.tree == computed.destination.value.tree
      requires Adjacent(remote.heads, Shadow(e.before, e.after))
      modifies this`states, this`log
      ensures Valid() && log == old(log) + [e]
      ensures states == old(states)[e.op := Saved(StateOf(old(states), e.op), e)]
    {
      ghost var all := log + [e];
      assert all[..|log|] == log;
      LogGrows(operations, log, e);
      states := states[e.op := Saved(computed.state, e)];
      log := all;
    }

    // A whole apply; `recorded` tells whether the reads and the journal write between
    // publishing and recording go through.
    method Apply(id: nat, confirmed: bool, confirmDestructive: bool, now: nat, edits: seq<RP.ObservedEdit>,
                 message: string, stamp: nat, gate: bool, arrivals: Arrivals, recorded: bool) returns (r: Result<Reversal, Refusal>)
      requires Valid()
      modifies this, remote
      ensures Valid() && Extends(old(remote.heads), remote.heads)
      // Success: one reversal more, confirmed, of the ticket's operation, direction and
      // strategy, on the head of the preview, with the ticket spent. What was computed anew is
      // what the preview showed, and the commit is exactly that.
      ensures r.Ok? ==>
                && log == old(log) + [r.value] && id in old(tickets) && Redeemable(old(tickets)[id], confirmed, confirmDestructive, now)
                && Fulfils(r.value, id, old(tickets)[id]) && r.value.before == old(remote.head)
                && states == old(states)[r.value.op := Saved(StateOf(old(states), r.value.op), r.value)]
                && exists computed ::
                     && Computes(operations, classifiers, r.value.op, r.value.direction, r.value.strategy, edits,
                                 r.value.before, StateOf(old(states), r.value.op), computed)
                     && computed.allowed && computed.digest == old(tickets)[id].digest
                     && CarriesOut(classifiers, r.value.strategy, computed, r.value.after)
      // Failure: nothing is recorded.
      ensures r.Err? ==> log == old(log) && states == old(states)
      // A previewed reversal that still holds, confirmed in time, on an unmoved head, is
      // applied - unless a push comes between, its commit is unsound, or it is not recorded.
      ensures Quiet(arrivals) && recorded && id in old(tickets) && Redeemable(old(tickets)[id], confirmed, confirmDestructive, now)
              && (exists computed :: old(ComputedFor(tickets[id], edits, computed)) && Holding(old(tickets)[id], computed)
                    && (old(tickets)[id].strategy == RP.Cascade || (gate && Committable(classifiers, computed))))
              ==> r.Ok?
      // Each refusal of the ticket is given exactly for its reason.
      ensures r == Err(TicketNotFound) <==> confirmed && id !in old(tickets)
      ensures r == Err(TicketUsed) <==> confirmed && id in old(tickets) && old(tickets)[id].used
      ensures r == Err(TicketExpired) <==> confirmed && id in old(tickets) && !old(tickets)[id].used && old(tickets)[id].expires <= now
      ensures r == Err(Unconfirmed) <==>
                !confirmed || (&& id in old(tickets) && !old(tickets)[id].used && now < old(tickets)[id].expires
                               && old(tickets)[id].digest.destructive && !confirmDestructive)
      ensures r == Err(HeadChanged) ==> id in old(tickets) && old(remote.head) != old(tickets)[id].head
      ensures r == Err(NotRecorded) ==> !recorded
      // The ticket is spent exactly when it was admitted.
      ensures r.Ok? || r.error in {BranchRefused, VerifyFailed, CommitRefused, NotRecorded} ==>
                id in old(tickets) && tickets == old(tickets)[id := old(tickets)[id].(used := true)]
    {
      var adapter := new Adapter(remote);
      var admitted := Admit(id, confirmed, confirmDestructive, now, edits, adapter);
      if admitted.Err? { return Err(admitted.error); }
      var computed, ticket := admitted.value, tickets[id];
      OneIsCommittable(ticket, edits, computed);
      Spend(id);
      var published := Publish(ticket.strategy, computed, adapter, message, stamp, gate, arrivals);
      if published.Err? { return Err(published.error); }
      if !recorded { return Err(NotRecorded); }
      var e := Reversal(ticket.op, ticket.direction, ticket.strategy, id, computed.head, published.value);
      Record(e, computed);
      return Ok(e);
    }
  }

  // The changes make a sound commit on the head.
  ghost predicate Committable(c: Classifiers, r: Computed)
  {
    var files := ChangeFiles(c, r.changes);
    files != [] && Sane(files) && ExactDelta(Items(files), r.head.tree, Overlay(r.head.tree, files))
  }

  lemma {:induction false} CommittableAlike(c: Classifiers, a: Computed, b: Computed)
    requires Same(a, b) && Committable(c, a) && Actionable(a.changes)
    ensures Committable(c, b)
  {
    SameFiles(c, a.changes, b.changes);
  }

  lemma {:induction false} SameFiles(c: Classifiers, a: seq<RP.FilePlan>, b: seq<RP.FilePlan>)
    requires RP.AllAlike(a, b) && Actionable(a)
    ensures ChangeFiles(c, a) == ChangeFiles(c, b)
  {
    forall i | 0 <= i < |a| ensures ChangeFiles(c, a)[i] == ChangeFiles(c, b)[i] {
      assert RP.Alike(a[i], b[i]);
    }
  }

  // The ticket still fits what was computed anew.
  predicate Holding(t: Ticket, r: Computed)
  {
    r.head == t.head && r.digest == t.digest && r.allowed
  }

  // As far as it matters, the same preview.
  predicate Same(a: Computed, b: Computed)
  {
    a.head == b.head && a.allowed == b.allowed && a.digest == b.digest && a.destination == b.destination && RP.AllAlike(a.changes, b.changes)
  }

  lemma {:induction false} DigestAlike(a: RP.Plan, b: RP.Plan)
    requires a.destructive == b.destructive && RP.AllAlike(a.changes, b.changes) && RP.AllAlike(a.conflicts, b.conflicts)
    ensures PlanDigest(a) == PlanDigest(b)
  {
    ChangesAlike(a.changes, b.changes);
    ConflictsAlike(a.conflicts, b.conflicts);
  }

  lemma {:induction false} ChangesAlike(a: seq<RP.FilePlan>, b: seq<RP.FilePlan>)
    requires RP.AllAlike(a, b)
    ensures (set p | p in a :: Change(p.path, p.action, p.destructive)) == (set p | p in b :: Change(p.path, p.action, p.destructive))
  {
    var left, right := (set p | p in a :: Change(p.path, p.action, p.destructive)), (set p | p in b :: Change(p.path, p.action, p.destructive));
    forall p | p in a ensures Change(p.path, p.action, p.destructive) in right {
      var i :| 0 <= i < |a| && a[i] == p;
      assert RP.Alike(a[i], b[i]) && b[i] in b;
    }
    forall p | p in b ensures Change(p.path, p.action, p.destructive) in left {
      var i :| 0 <= i < |b| && b[i] == p;
      assert RP.Alike(a[i], b[i]) && a[i] in a;
    }
  }

  lemma {:induction false} ConflictsAlike(a: seq<RP.FilePlan>, b: seq<RP.FilePlan>)
    requires RP.AllAlike(a, b)
    ensures (set p | p in a && p.conflict.Some? :: (p.path, p.conflict.value)) == (set p | p in b && p.conflict.Some? :: (p.path, p.conflict.value))
  {
    var left, right := (set p | p in a && p.conflict.Some? :: (p.path, p.conflict.value)), (set p | p in b && p.conflict.Some? :: (p.path, p.conflict.value));
    forall p | p in a && p.conflict.Some? ensures (p.path, p.conflict.value) in right {
      var i :| 0 <= i < |a| && a[i] == p;
      assert RP.Alike(a[i], b[i]) && b[i] in b;
    }
    forall p | p in b && p.conflict.Some? ensures (p.path, p.conflict.value) in left {
      var i :| 0 <= i < |b| && b[i] == p;
      assert RP.Alike(a[i], b[i]) && a[i] in a;
    }
  }

  lemma {:induction false} OnePlanShown(frames: seq<RP.Frame>, d: RP.Direction, s: RP.Strategy, edits: seq<RP.ObservedEdit>, a: Computed, b: Computed)
    requires PlannedFrom(frames, d, s, edits, a) && PlannedFrom(frames, d, s, edits, b)
    ensures a.allowed == b.allowed && a.digest == b.digest && RP.AllAlike(a.changes, b.changes)
  {
    var p :| IsPlan(frames, d, s, edits, p) && Shows(a, p);
    var q :| IsPlan(frames, d, s, edits, q) && Shows(b, q);
    TwoPlans(frames, d, s, edits, p, q);
  }

  lemma {:induction false} TwoPlans(frames: seq<RP.Frame>, d: RP.Direction, s: RP.Strategy, edits: seq<RP.ObservedEdit>, p: RP.Plan, q: RP.Plan)
    requires IsPlan(frames, d, s, edits, p) && IsPlan(frames, d, s, edits, q)
    ensures p.allowed == q.allowed && RP.AllAlike(p.changes, q.changes) && PlanDigest(p) == PlanDigest(q)
  {
    RP.FilesAlike(frames, d, s, edits, p.files, q.files);
    RP.OneSummary(p, q, s);
    DigestAlike(p, q);
  }

  // There is one preview of a reversal at a head.
  lemma {:induction false} OneComputed(operations: map<nat, Operation>, c: Classifiers, op: nat, d: RP.Direction, s: RP.Strategy,
                                       edits: seq<RP.ObservedEdit>, head: Commit, state: OpState, a: Computed, b: Computed)
    requires Computes(operations, c, op, d, s, edits, head, state, a) && Computes(operations, c, op, d, s, edits, head, state, b)
    ensures Same(a, b)
  {
    if s != RP.Cascade {
      OnePlanShown(Frames(c, operations[op].paths, a.parent.tree, operations[op].source.tree, head.tree), d, s, edits, a, b);
    }
  }

  predicate Redeemable(t: Ticket, confirmed: bool, confirmDestructive: bool, now: nat)
  {
    !t.used && now < t.expires && confirmed && (t.digest.destructive ==> confirmDestructive)
  }

  predicate Fulfils(e: Reversal, id: nat, t: Ticket)
  {
    e.ticket == id && e.op == t.op && e.direction == t.direction && e.strategy == t.strategy && e.before == t.head
  }

  // Each entry's ticket is spent, and no two entries share one.
  ghost predicate Spent(tickets: map<nat, Ticket>, log: seq<Reversal>)
  {
    && (forall k :: 0 <= k < |log| ==> log[k].ticket in tickets && tickets[log[k].ticket].used)
    && (forall j, k :: 0 <= j < k < |log| ==> log[j].ticket != log[k].ticket)
  }

  lemma {:induction false} LogGrows(operations: map<nat, Operation>, log: seq<Reversal>, e: Reversal)
    requires LawfulLog(operations, log) && Lawful(operations, log + [e], |log|)
    ensures LawfulLog(operations, log + [e])
  {
    var all := log + [e];
    forall k | 0 <= k < |all| ensures Lawful(operations, all, k) {
      if k < |log| {
        assert all[..k] == log[..k];
        assert Lawful(operations, log, k);
      }
    }
  }

  // The commit is the plan's changes on the head, exactly.
  ghost predicate Realizes(c: Classifiers, changes: seq<RP.FilePlan>, before: Commit, after: Commit)
  {
    && after.tree == Overlay(before.tree, ChangeFiles(c, changes))
    && ExactDelta(Items(ChangeFiles(c, changes)), before.tree, after.tree)
  }

  lemma {:induction false} ReadyIsActionable(frames: seq<RP.Frame>, d: RP.Direction, s: RP.Strategy, edits: seq<RP.ObservedEdit>, files: seq<RP.FilePlan>)
    requires RP.FilesPlanned(frames, d, s, edits, files)
    ensures Actionable(RP.ByStatus(files, {RP.Ready}))
  {
    var changes := RP.ByStatus(files, {RP.Ready});
    forall k | 0 <= k < |changes| ensures changes[k].status == RP.Ready && changes[k].action in {RP.CreateIt, RP.UpdateIt, RP.DeleteIt} {
      assert changes[k] in changes;
      var i :| 0 <= i < |files| && files[i] == changes[k];
      ReadyHasAction(frames[i], d, s, RP.EditedSince(edits, frames[i].path), files[i]);
    }
  }

  lemma {:induction false} ReadyHasAction(f: RP.Frame, d: RP.Direction, s: RP.Strategy, edited: bool, r: RP.FilePlan)
    requires RP.Plans(f, d, s, edited, r) && r.status == RP.Ready
    ensures r.action in {RP.CreateIt, RP.UpdateIt, RP.DeleteIt}
  {
    if s != RP.ReplaceTarget {
      RP.KeepsLaterWork(f, d, s, edited, r);
    }
  }

  // ---------------------------------------------------------------- what an apply leaves behind

  // The file is as it was; or nobody had touched it since and it is on the other side of the
  // operation; or one occurrence of the operation's block was exchanged and every other line
  // kept in order.
  ghost predicate LaterWorkKept(f: RP.Frame, d: RP.Direction, edited: bool, next: RP.FileState)
  {
    || next == f.current
    || (f.current == RP.From(f, d) && next == RP.To(f, d) && !edited)
    || (f.current.Present? && next.Present? && RP.From(f, d).Present? && RP.To(f, d).Present?
        && exists h, lines ::
             && Hunks.IsHunk(Lines.Split(RP.From(f, d).content), Lines.Split(RP.To(f, d).content), 3, h)
             && RP.OneBlockReplaced(Lines.Split(f.current.content), lines, h.fromSegment, h.toSegment)
             && next.content == Lines.Join(lines))
  }

  lemma {:induction false} ReadyKeepsLaterWork(f: RP.Frame, d: RP.Direction, edited: bool, p: RP.FilePlan)
    requires RP.Plans(f, d, RP.Preserve, edited, p) && p.status == RP.Ready
    ensures LaterWorkKept(f, d, edited, RP.After(f.current, p))
  {
    RP.KeepsLaterWork(f, d, RP.Preserve, edited, p);
  }

  // The plan a change of the preview stands for.
  lemma {:induction false} ChangeIsPlanned(frames: seq<RP.Frame>, d: RP.Direction, s: RP.Strategy, edits: seq<RP.ObservedEdit>,
                                           r: Computed, p: RP.FilePlan) returns (i: nat)
    requires PlannedFrom(frames, d, s, edits, r) && p in r.changes
    ensures PlanAt(frames, d, s, edits, i, p) && p.status == RP.Ready
  {
    var plan :| IsPlan(frames, d, s, edits, plan) && Shows(r, plan);
    i := RP.ChangeHasFrame(frames, d, s, edits, plan, p);
  }

  ghost predicate PlanAt(frames: seq<RP.Frame>, d: RP.Direction, s: RP.Strategy, edits: seq<RP.ObservedEdit>, i: nat, p: RP.FilePlan)
  {
    i < |frames| && frames[i].path == p.path && RP.Plans(frames[i], d, s, RP.EditedSince(edits, p.path), p)
  }

  // A preserving reversal that was carried out: outside the operation's files nothing
  // changed, and in none of them later work was lost.
  lemma {:induction false} AppliedKeepsLaterWork(operations: map<nat, Operation>, c: Classifiers, op: nat, d: RP.Direction,
      edits: seq<RP.ObservedEdit>, head: Commit, state: OpState, r: Computed, after: Commit, path: string)
    requires Computes(operations, c, op, d, RP.Preserve, edits, head, state, r) && CarriesOut(c, RP.Preserve, r, after)
    ensures path !in operations[op].paths ==> !Changed(head.tree, after.tree, path)
    ensures path in operations[op].paths ==>
              LaterWorkKept(FrameOf(c, path, r.parent.tree, operations[op].source.tree, head.tree), d,
                            RP.EditedSince(edits, path), StateIn(after.tree, path))
  {
    var frames := Frames(c, operations[op].paths, r.parent.tree, operations[op].source.tree, head.tree);
    CommittedReversal(c, r.changes, head.tree, path);
    if p :| p in r.changes && p.path == path {
      var i := ChangeIsPlanned(frames, d, RP.Preserve, edits, r, p);
      ReadyKeepsLaterWork(frames[i], d, RP.EditedSince(edits, path), p);
    }
  }

  // A file still as the operation left it, or as its undo left it, and not edited since, is
  // on the other side afterwards.
  lemma {:induction false} AppliedReverses(operations: map<nat, Operation>, c: Classifiers, op: nat, d: RP.Direction, s: RP.Strategy,
      edits: seq<RP.ObservedEdit>, head: Commit, state: OpState, r: Computed, after: Commit, path: string)
    requires Computes(operations, c, op, d, s, edits, head, state, r) && r.allowed && CarriesOut(c, s, r, after) && s != RP.Cascade
    requires path in operations[op].paths && !RP.EditedSince(edits, path)
    requires var f := FrameOf(c, path, r.parent.tree, operations[op].source.tree, head.tree); f.current == RP.From(f, d)
    ensures StateIn(after.tree, path) == RP.To(FrameOf(c, path, r.parent.tree, operations[op].source.tree, head.tree), d)
  {
    var f := FrameOf(c, path, r.parent.tree, operations[op].source.tree, head.tree);
    var p := AppliedPlan(operations, c, op, d, s, edits, head, state, r, after, path);
    RP.ReachesTheGoal(f, d, s, false, p);
  }

  lemma {:induction false} AllowedPlan(frames: seq<RP.Frame>, d: RP.Direction, s: RP.Strategy, edits: seq<RP.ObservedEdit>,
                                       r: Computed, i: nat) returns (p: RP.FilePlan)
    requires PlannedFrom(frames, d, s, edits, r) && r.allowed && i < |frames|
    ensures PlanAt(frames, d, s, edits, i, p) && (p.status == RP.Noop || (p.status == RP.Ready && p in r.changes))
  {
    var plan :| IsPlan(frames, d, s, edits, plan) && Shows(r, plan);
    p := RP.AllowedFrame(frames, d, s, edits, plan, i);
  }

  // An allowed reversal leaves every file of the operation as its plan says.
  lemma {:induction false} AppliedPlan(operations: map<nat, Operation>, c: Classifiers, op: nat, d: RP.Direction, s: RP.Strategy,
      edits: seq<RP.ObservedEdit>, head: Commit, state: OpState, r: Computed, after: Commit, path: string) returns (p: RP.FilePlan)
    requires Computes(operations, c, op, d, s, edits, head, state, r) && r.allowed && CarriesOut(c, s, r, after) && s != RP.Cascade
    requires path in operations[op].paths
    ensures RP.Plans(FrameOf(c, path, r.parent.tree, operations[op].source.tree, head.tree), d, s, RP.EditedSince(edits, path), p)
    ensures StateIn(after.tree, path) == RP.After(StateIn(head.tree, path), p)
    ensures p.status in {RP.Ready, RP.Noop}
  {
    var frames := Frames(c, operations[op].paths, r.parent.tree, operations[op].source.tree, head.tree);
    var i :| 0 <= i < |frames| && operations[op].paths[i] == path;
    p := AllowedPlan(frames, d, s, edits, r, i);
    CommittedReversal(c, r.changes, head.tree, path);
    if p.status == RP.Noop {
      RestingHasNoChange(frames, d, s, edits, r, i, p);
    }
  }

  lemma {:induction false} RestingHasNoChange(frames: seq<RP.Frame>, d: RP.Direction, s: RP.Strategy, edits: seq<RP.ObservedEdit>,
                                              r: Computed, i: nat, p: RP.FilePlan)
    requires PlannedFrom(frames, d, s, edits, r) && PlanAt(frames, d, s, edits, i, p) && p.status == RP.Noop
    requires forall j :: 0 <= j < |frames| && frames[j].path == p.path ==> frames[j] == frames[i]
    ensures forall q :: q in r.changes ==> q.path != p.path
  {
    forall q | q in r.changes ensures q.path != p.path {
      if q.path == p.path {
        var j := ChangeIsPlanned(frames, d, s, edits, r, q);
        RestsOrActs(frames[i], d, s, RP.EditedSince(edits, p.path), p, q);
      }
    }
  }

  lemma {:induction false} RestsOrActs(f: RP.Frame, d: RP.Direction, s: RP.Strategy, edited: bool, p: RP.FilePlan, q: RP.FilePlan)
    requires RP.Plans(f, d, s, edited, p) && RP.Plans(f, d, s, edited, q)
    ensures p.status == RP.Noop ==> q.status != RP.Ready
  {
  }

  // Undo and redo, both carried out, with nothing else done to the file in between: it is
  // what it was.
  lemma {:induction false} AppliedUndoThenRedo(operations: map<nat, Operation>, c: Classifiers, op: nat, s: RP.Strategy,
      undone: Applied, redone: Applied, path: string)
    requires Carried(operations, c, op, RP.Undo, s, undone) && Carried(operations, c, op, RP.Redo, s, redone) && s != RP.Cascade
    requires path in operations[op].paths && !RP.EditedSince(undone.edits, path) && !RP.EditedSince(redone.edits, path)
    requires StateIn(undone.head.tree, path) == StateIn(operations[op].source.tree, path)
    requires StateIn(redone.head.tree, path) == StateIn(undone.after.tree, path)
    ensures StateIn(redone.after.tree, path) == StateIn(undone.head.tree, path)
  {
    AppliedReverses(operations, c, op, RP.Undo, s, undone.edits, undone.head, undone.state, undone.r, undone.after, path);
    AppliedReverses(operations, c, op, RP.Redo, s, redone.edits, redone.head, redone.state, redone.r, redone.after, path);
  }

  // A reversal that was carried out.
  datatype Applied = Applied(edits: seq<RP.ObservedEdit>, head: Commit, state: OpState, r: Computed, after: Commit)

  ghost predicate Carried(operations: map<nat, Operation>, c: Classifiers, op: nat, d: RP.Direction, s: RP.Strategy, a: Applied)
  {
    Computes(operations, c, op, d, s, a.edits, a.head, a.state, a.r) && a.r.allowed && CarriesOut(c, s, a.r, a.after)
  }

  // The same for a file edited elsewhere since: undone by a merge beside the anchors, it is
  // exactly as edited again.
  lemma {:induction false} AppliedUndoThenRedoMerged(operations: map<nat, Operation>, c: Classifiers, op: nat,
      undone: Applied, redone: Applied, path: string, h: Hunks.Hunk)
    requires Carried(operations, c, op, RP.Undo, RP.Preserve, undone) && Carried(operations, c, op, RP.Redo, RP.Preserve, redone)
    requires path in operations[op].paths && !RP.EditedSince(undone.edits, path) && !RP.EditedSince(redone.edits, path)
    requires StateIn(redone.head.tree, path) == StateIn(undone.after.tree, path)
    requires var f := FrameOf(c, path, undone.r.parent.tree, operations[op].source.tree, undone.head.tree);
             && f.base.Present? && f.applied.Present? && f.current.Present?
             && f.current != f.applied && f.current != f.base
             && StateIn(undone.after.tree, path) != f.base && StateIn(undone.after.tree, path) != f.applied
             && Hunks.IsHunk(Lines.Split(f.applied.content), Lines.Split(f.base.content), 3, h)
             && Hunks.MergeText(f.current.content, h).Merged?
             && Hunks.Anchored(Lines.Split(f.current.content), Hunks.MergeText(f.current.content, h).index, h)
    ensures StateIn(redone.after.tree, path) == StateIn(undone.head.tree, path)
  {
    var f := FrameOf(c, path, undone.r.parent.tree, operations[op].source.tree, undone.head.tree);
    var undo := AppliedPlan(operations, c, op, RP.Undo, RP.Preserve, undone.edits, undone.head, undone.state, undone.r, undone.after, path);
    var redo := AppliedPlan(operations, c, op, RP.Redo, RP.Preserve, redone.edits, redone.head, redone.state, redone.r, redone.after, path);
    MergeIsReady(f, RP.Undo, undo);
    var mid := f.(current := RP.After(f.current, undo));
    assert mid == FrameOf(c, path, redone.r.parent.tree, operations[op].source.tree, redone.head.tree);
    MergeIsReady(mid, RP.Redo, redo);
    RP.UndoThenRedoMerged(f, undo, h);
  }

  // Between two texts, away from both, an allowed plan is a merge that went through.
  lemma {:induction false} MergeIsReady(f: RP.Frame, d: RP.Direction, p: RP.FilePlan)
    requires RP.Plans(f, d, RP.Preserve, false, p) && p.status in {RP.Ready, RP.Noop}
    requires f.base.Present? && f.applied.Present? && f.current.Present? && f.current != f.base && f.current != f.applied
    ensures p.status == RP.Ready && !f.sensitive && f.textual && RP.After(f.current, p).Present?
  {
    if p.status == RP.Ready {
      RP.KeepsLaterWork(f, d, RP.Preserve, false, p);
    }
  }
}
