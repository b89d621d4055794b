// What the recorded reversals of a repository amount to, and what a committed reversal
// leaves in the tree.
module ReversalHistory {
  import opened Common
  import opened Git
  import opened Text
  import opened ShadowDelta
  import opened GuardedCommit
  import RP = ReversalPlan

  // ---------------------------------------------------------------- the record of an operation

  datatype OpState = OpState(lastDirection: Option<RP.Direction>, lastStrategy: Option<RP.Strategy>, preCascade: Option<Commit>)

  const UNTOUCHED := OpState(None, None, None)

  // A reversal that was carried out and recorded.
  datatype Reversal = Reversal(op: nat, direction: RP.Direction, strategy: RP.Strategy, ticket: nat, before: Commit, after: Commit)

  function Saved(s: OpState, e: Reversal): OpState
  {
    OpState(Some(e.direction), Some(e.strategy),
            if e.direction == RP.Undo && e.strategy == RP.Cascade then Some(e.before) else s.preCascade)
  }

  function StateOf(states: map<nat, OpState>, op: nat): OpState
  {
    if op in states then states[op] else UNTOUCHED
  }

  // No undo of what is undone, no redo of what is not, a cascade redo only of a cascade undo.
  predicate Permitted(d: RP.Direction, s: RP.Strategy, state: OpState)
  {
    && !(d == RP.Undo && state.lastDirection == Some(RP.Undo))
    && (d == RP.Redo ==> state.lastDirection == Some(RP.Undo))
    && (d == RP.Redo && s == RP.Cascade ==> state.lastStrategy == Some(RP.Cascade))
  }

  // Where a cascade goes: before the operation, or back to before the cascade undo.
  function Destination(d: RP.Direction, parent: Commit, state: OpState): Option<Commit>
  {
    if d == RP.Undo then Some(parent) else state.preCascade
  }

  // ---------------------------------------------------------------- histories of reversals

  ghost function StateAfter(log: seq<Reversal>, op: nat): OpState
  {
    if log == [] then UNTOUCHED
    else
      var before := StateAfter(log[..|log| - 1], op);
      if log[|log| - 1].op == op then Saved(before, log[|log| - 1]) else before
  }

  // Every entry was permitted by the state the earlier ones left behind.
  ghost predicate Lawful(operations: map<nat, Operation>, log: seq<Reversal>, k: nat)
    requires k < |log|
  {
    var e := log[k];
    var state := StateAfter(log[..k], e.op);
    && Permitted(e.direction, e.strategy, state) && e.after.parents == [e.before]
    && e.op in operations && operations[e.op].source.parents != []
    && (e.strategy == RP.Cascade ==>
          var to := Destination(e.direction, operations[e.op].source.parents[0], state);
          to.Some? && e.after.tree == to.value.tree)
  }

  ghost predicate LawfulLog(operations: map<nat, Operation>, log: seq<Reversal>)
  {
    forall k :: 0 <= k < |log| ==> Lawful(operations, log, k)
  }

  ghost predicate LawfulFor(operations: map<nat, Operation>, log: seq<Reversal>, op: nat)
  {
    forall k :: 0 <= k < |log| && log[k].op == op ==> Lawful(operations, log, k)
  }

  // The latest entry of an operation before `k`, if it has one.
  ghost predicate LatestBefore(log: seq<Reversal>, op: nat, k: nat, i: nat)
    requires k <= |log|
  {
    i < k && log[i].op == op && forall j :: i < j < k ==> log[j].op != op
  }

  ghost predicate NoneBefore(log: seq<Reversal>, op: nat, k: nat)
    requires k <= |log|
  {
    forall j :: 0 <= j < k ==> log[j].op != op
  }

  lemma {:induction false} StateIsLatest(log: seq<Reversal>, op: nat, k: nat, i: nat)
    requires k <= |log| && LatestBefore(log, op, k, i)
    ensures StateAfter(log[..k], op) == Saved(StateAfter(log[..i], op), log[i])
    decreases k
  {
    assert log[..k][..k - 1] == log[..k - 1];
    if i < k - 1 {
      StateIsLatest(log, op, k - 1, i);
    }
  }

  lemma {:induction false} StateIsUntouched(log: seq<Reversal>, op: nat, k: nat)
    requires k <= |log| && NoneBefore(log, op, k)
    ensures StateAfter(log[..k], op) == UNTOUCHED
    decreases k
  {
    if k > 0 {
      assert log[..k][..k - 1] == log[..k - 1];
      StateIsUntouched(log, op, k - 1);
    }
  }

  // The first reversal of an operation is an undo; after that undo and redo alternate.
  lemma {:induction false} Alternation(operations: map<nat, Operation>, log: seq<Reversal>, k: nat)
    requires k < |log| && LawfulFor(operations, log, log[k].op)
    ensures NoneBefore(log, log[k].op, k) ==> log[k].direction == RP.Undo
    ensures forall i :: 0 <= i && LatestBefore(log, log[k].op, k, i) ==> log[i].direction != log[k].direction
  {
    assert Lawful(operations, log, k);
    var op := log[k].op;
    if NoneBefore(log, op, k) {
      StateIsUntouched(log, op, k);
    }
    forall i: nat | LatestBefore(log, op, k, i) ensures log[i].direction != log[k].direction {
      StateIsLatest(log, op, k, i);
    }
  }

  // A cascade redo directly takes back the cascade undo before it: the branch again has
  // the very tree it had before that undo, whatever was pushed in between.
  lemma {:induction false} CascadeRedoRestores(operations: map<nat, Operation>, log: seq<Reversal>, k: nat)
    requires k < |log| && LawfulFor(operations, log, log[k].op)
    requires log[k].strategy == RP.Cascade && log[k].direction == RP.Redo
    ensures log[k].op in operations && operations[log[k].op].source.parents != []
    ensures exists i: nat :: LatestBefore(log, log[k].op, k, i)
              && log[i].direction == RP.Undo && log[i].strategy == RP.Cascade
              && log[k].after.tree == log[i].before.tree
              && log[i].after.tree == operations[log[k].op].source.parents[0].tree
  {
    assert Lawful(operations, log, k);
    var op := log[k].op;
    if NoneBefore(log, op, k) {
      StateIsUntouched(log, op, k);
      assert false;
    }
    var i := Latest(log, op, k);
    StateIsLatest(log, op, k, i);
    assert Lawful(operations, log, i);
  }

  lemma {:induction false} Latest(log: seq<Reversal>, op: nat, k: nat) returns (i: nat)
    requires k <= |log| && !NoneBefore(log, op, k)
    ensures LatestBefore(log, op, k, i)
    decreases k
  {
    if log[k - 1].op == op {
      i := k - 1;
    } else {
      i := Latest(log, op, k - 1);
    }
  }

  // ---------------------------------------------------------------- plans against trees

  // A journalled write: the commit it made and the paths it touched.
  datatype Operation = Operation(source: Commit, paths: seq<string>)

  function StateIn(tree: Tree, path: string): RP.FileState
  {
    if path in tree && tree[path].kind == "blob" then RP.Present(tree[path].content) else RP.Absent
  }

  datatype Classifiers = Classifiers(sensitive: string -> bool, textual: string -> bool, sane: (string, string) -> bool)

  function FrameOf(c: Classifiers, path: string, base: Tree, applied: Tree, current: Tree): RP.Frame
  {
    RP.Frame(path, StateIn(base, path), StateIn(applied, path), StateIn(current, path), c.sensitive(path), c.textual(path))
  }

  function Frames(c: Classifiers, paths: seq<string>, base: Tree, applied: Tree, current: Tree): (frames: seq<RP.Frame>)
    ensures |frames| == |paths| && forall i {:trigger frames[i]} :: 0 <= i < |paths| ==> frames[i] == FrameOf(c, paths[i], base, applied, current)
  {
    seq(|paths|, i requires 0 <= i < |paths| => FrameOf(c, paths[i], base, applied, current))
  }

  function ActionWordOf(a: RP.FileAction): ActionWord
  {
    match a
    case CreateIt => CreateFile
    case UpdateIt => UpdateFile
    case DeleteIt => DeleteFile
    case _ => Unknown
  }

  // The ready changes as the files of a commit.
  function ChangeFiles(c: Classifiers, changes: seq<RP.FilePlan>): (files: seq<PlanFile>)
    ensures |files| == |changes| && Writable(files)
    ensures forall i {:trigger files[i]} :: 0 <= i < |files| ==>
              files[i].path == changes[i].path && files[i].action == ActionWordOf(changes[i].action)
    ensures forall i {:trigger files[i]} :: 0 <= i < |files| && files[i].action != DeleteFile ==> files[i].content == Some(changes[i].proposed)
  {
    seq(|changes|, i requires 0 <= i < |changes| =>
      var content := if changes[i].action == RP.DeleteIt then "" else changes[i].proposed;
      PlanFile(changes[i].path, ActionWordOf(changes[i].action), Some(content), c.sane(changes[i].path, content)))
  }

  predicate Actionable(changes: seq<RP.FilePlan>)
  {
    forall i :: 0 <= i < |changes| ==> changes[i].status == RP.Ready && changes[i].action in {RP.CreateIt, RP.UpdateIt, RP.DeleteIt}
  }

  // A committed reversal leaves every file of the operation as its plan says and every
  // other file alone.
  lemma {:induction false} CommittedReversal(c: Classifiers, changes: seq<RP.FilePlan>, cur: Tree, path: string)
    requires Actionable(changes)
    requires ExactDelta(Items(ChangeFiles(c, changes)), cur, Overlay(cur, ChangeFiles(c, changes)))
    ensures var next := Overlay(cur, ChangeFiles(c, changes));
            && (forall p :: p in changes ==> StateIn(next, p.path) == RP.After(StateIn(cur, p.path), p))
            && ((forall p :: p in changes ==> p.path != path) ==> !Changed(cur, next, path))
  {
    var files := ChangeFiles(c, changes);
    var next := Overlay(cur, files);
    forall p | p in changes ensures StateIn(next, p.path) == RP.After(StateIn(cur, p.path), p) {
      var i :| 0 <= i < |changes| && changes[i] == p;
      PlannedFileIsThere(files, cur, i);
    }
    if forall p :: p in changes ==> p.path != path {
      forall i | 0 <= i < |files| ensures files[i].path != path {
        assert changes[i] in changes;
      }
      OverlayElsewhere(cur, files, path);
    }
  }

  // The changes are the ready ones among the plans, one plan a path.
  ghost predicate ReadyPart(files: seq<RP.FilePlan>, changes: seq<RP.FilePlan>)
  {
    forall p :: p in changes <==> p in files && p.status == RP.Ready
  }

  ghost predicate OnePlanFor(files: seq<RP.FilePlan>, path: string)
  {
    forall p, q :: p in files && q in files && p.path == path && q.path == path ==> p == q
  }

  // With one plan a path, the committed tree shows the outcome of each.
  lemma {:induction false} OutcomeIsCommitted(c: Classifiers, files: seq<RP.FilePlan>, changes: seq<RP.FilePlan>, cur: Tree, r: RP.FilePlan)
    requires r in files && ReadyPart(files, changes) && Actionable(changes) && OnePlanFor(files, r.path)
    requires ExactDelta(Items(ChangeFiles(c, changes)), cur, Overlay(cur, ChangeFiles(c, changes)))
    ensures StateIn(Overlay(cur, ChangeFiles(c, changes)), r.path) == RP.After(StateIn(cur, r.path), r)
  {
    CommittedReversal(c, changes, cur, r.path);
  }

  // Where a file of the operation is still as the operation left it, or as the undo left
  // it, and was not edited since, an allowed reversal leads it to its counterpart.
  lemma {:induction false} UntouchedIsReversed(c: Classifiers, f: RP.Frame, files: seq<RP.FilePlan>, changes: seq<RP.FilePlan>,
                                               cur: Tree, d: RP.Direction, s: RP.Strategy, r: RP.FilePlan)
    requires RP.Plans(f, d, s, false, r) && r.status in {RP.Ready, RP.Noop}
    requires r in files && ReadyPart(files, changes) && Actionable(changes) && OnePlanFor(files, f.path)
    requires ExactDelta(Items(ChangeFiles(c, changes)), cur, Overlay(cur, ChangeFiles(c, changes)))
    requires f.current == StateIn(cur, f.path) == RP.From(f, d)
    ensures StateIn(Overlay(cur, ChangeFiles(c, changes)), f.path) == RP.To(f, d)
  {
    OutcomeIsCommitted(c, files, changes, cur, r);
  }
}
