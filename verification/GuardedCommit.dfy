// The guarded commit: prepare a commit beside the branch, check it, move the branch
// only if nobody else did, verify. Other people push between any two requests.
module GuardedCommit {
  import opened Common
  import opened Git
  import opened ShadowDelta

  // ---------------------------------------------------------------- branch history

  // All heads the branch has had, oldest first.
  ghost predicate FastForwards(heads: seq<Commit>)
  {
    forall i, j :: 0 <= i < j < |heads| && j == i + 1 ==> IsAncestor(heads[i], heads[j])
  }

  lemma {:induction false} EarlierIsAncestor(heads: seq<Commit>, i: nat, j: nat)
    requires FastForwards(heads) && i <= j < |heads|
    ensures IsAncestor(heads[i], heads[j])
    decreases j
  {
    if i < j {
      EarlierIsAncestor(heads, i, j - 1);
      AncestorTransitive(heads[i], heads[j - 1], heads[j]);
    }
  }

  // However pushes interleave: every head the branch ever had stays in its history, and
  // of the commits built on one base at most one ever becomes the head.
  lemma {:induction false} NoLostUpdate(heads: seq<Commit>, i: nat, j: nat, base: Commit)
    requires FastForwards(heads) && i <= j < |heads|
    ensures IsAncestor(heads[i], heads[j])
    ensures heads[i].parents == [base] && heads[j].parents == [base] ==> heads[i] == heads[j]
  {
    EarlierIsAncestor(heads, i, j);
    if heads[i].parents == [base] && heads[j].parents == [base] && heads[i] != heads[j] {
      var k :| 0 <= k < |heads[j].parents| && IsAncestor(heads[i], heads[j].parents[k]);
      assert heads[j].parents[k] == base == heads[i].parents[0];
      ParentIsStrictAncestor(heads[i], 0);
      NoReturn(heads[i], base);
    }
  }

  ghost predicate Extends(before: seq<Commit>, after: seq<Commit>)
  {
    |before| <= |after| && after[..|before|] == before
  }

  ghost predicate OnlyFrom(before: seq<Commit>, after: seq<Commit>, pushes: seq<Commit>)
  {
    forall i :: |before| <= i < |after| ==> after[i] in pushes
  }

  class Remote {
    var head: Commit
    ghost var heads: seq<Commit>

    ghost predicate Valid()
      reads this
    {
      heads != [] && heads[|heads| - 1] == head && FastForwards(heads)
    }

    constructor (first: Commit)
      ensures Valid() && head == first && heads == [first]
    {
      head, heads := first, [first];
    }

    // The ref update, never forced.
    method UpdateBranch(target: Commit) returns (moved: bool)
      requires Valid()
      modifies this
      ensures Valid()
      ensures moved <==> FastForward(old(head), target)
      ensures head == if moved then target else old(head)
      ensures heads == if moved then old(heads) + [target] else old(heads)
    {
      moved := IsAncestor(head, target);
      if moved {
        head := target;
        heads := heads + [target];
      }
    }

    // Pushes of others, each accepted or not.
    method Receive(pushes: seq<Commit>)
      requires Valid()
      modifies this
      ensures Valid() && IsAncestor(old(head), head)
      ensures Extends(old(heads), heads) && OnlyFrom(old(heads), heads, pushes)
      ensures pushes == [] ==> head == old(head) && heads == old(heads)
    {
      for i := 0 to |pushes|
        invariant Valid() && IsAncestor(old(head), head)
        invariant Extends(old(heads), heads) && OnlyFrom(old(heads), heads, pushes)
        invariant i == 0 ==> head == old(head) && heads == old(heads)
      {
        ghost var before := head;
        var moved := UpdateBranch(pushes[i]);
        if moved {
          AncestorTransitive(old(head), before, head);
        }
      }
    }
  }

  // ---------------------------------------------------------------- checkpoints

  datatype CheckpointStatus = PreparedCheckpoint | PublishedCheckpoint | AbortedCheckpoint | RolledBack

  datatype Checkpoint = Checkpoint(baseHead: Commit, baseTree: Tree, shadow: Commit, status: CheckpointStatus)

  datatype Verdict = Verdict(ok: bool, definitive: bool)

  // The check after publishing; a moved head is no evidence against the commit.
  function VerifyPublished(head: Commit, checkpoint: Checkpoint, expected: Commit): Verdict
  {
    if head != expected then Verdict(false, false)
    else if head.parents == [] || head.parents[0] != checkpoint.baseHead || checkpoint.shadow != head then Verdict(false, true)
    else Verdict(true, true)
  }

  // What the check says: nothing definite of a head that is not the expected one; of the
  // expected head, that it is right exactly when it is the checkpoint's commit on its base.
  lemma {:induction false} VerdictExactly(head: Commit, checkpoint: Checkpoint, expected: Commit)
    ensures var v := VerifyPublished(head, checkpoint, expected);
            && (v.ok <==> head == expected && head == checkpoint.shadow && head.parents != [] && head.parents[0] == checkpoint.baseHead)
            && (v.definitive <==> head == expected)
  {
  }

  // A commit prepared on the checkpoint's base never fails verification definitively,
  // whatever happened to the branch since: automatic rollback is unreachable.
  lemma {:induction false} NoDefinitiveFailure(head: Commit, checkpoint: Checkpoint)
    requires checkpoint.shadow.parents == [checkpoint.baseHead]
    ensures var v := VerifyPublished(head, checkpoint, checkpoint.shadow);
            && !(v.definitive && !v.ok)
            && (v.ok <==> head == checkpoint.shadow)
  {
    assert checkpoint.shadow.parents[0] == checkpoint.baseHead;
  }

  // ---------------------------------------------------------------- the guarded commit

  datatype Refusal =
    | NoFilesToCommit | InvalidContent | BaseMoved | DeltaBlocked(violations: seq<Violation>) | GateBlocked | UpdateRejected

  datatype RollbackRefusal = BranchChanged | RollbackRejected

  datatype Shadow = Shadow(base: Commit, commit: Commit)

  // What others push while the commit is prepared, checked, moved in and verified.
  datatype Arrivals = Arrivals(first: seq<Commit>, second: seq<Commit>, third: seq<Commit>, fourth: seq<Commit>)

  predicate Quiet(arrivals: Arrivals)
  {
    arrivals.first == [] && arrivals.second == [] && arrivals.third == []
  }

  predicate Sane(files: seq<PlanFile>)
  {
    forall i :: 0 <= i < |files| ==> files[i].action == DeleteFile || (files[i].content.Some? && files[i].sane)
  }

  // The commit a plan becomes on a base.
  function PlannedCommit(base: Commit, files: seq<PlanFile>, message: string, stamp: nat): (c: Commit)
    requires Writable(files)
    ensures c.parents == [base] && c.tree == Overlay(base.tree, files) && c.message == message && c.stamp == stamp
  {
    Commit([base], Overlay(base.tree, files), message, stamp)
  }

  class Adapter {
    const remote: Remote
    var lastRef: Option<Commit>

    constructor (remote: Remote)
      ensures this.remote == remote && lastRef == None
    {
      this.remote := remote;
      lastRef := None;
    }

    // Every read of the branch is remembered.
    method GetRef() returns (head: Commit)
      modifies this
      ensures head == remote.head && lastRef == Some(head)
    {
      head := remote.head;
      lastRef := Some(head);
    }

    method PrepareShadow(expected: Commit, files: seq<PlanFile>, message: string, stamp: nat) returns (r: Result<Shadow, Refusal>)
      modifies this
      ensures r.Ok? <==> files != [] && Sane(files) && remote.head == expected
      ensures r.Ok? ==> Writable(files) && r.value == Shadow(expected, PlannedCommit(expected, files, message, stamp))
      ensures r.Ok? ==> lastRef == Some(expected)
      ensures r == Err(NoFilesToCommit) <==> files == []
      ensures r == Err(InvalidContent) <==> files != [] && !Sane(files)
      ensures r == Err(BaseMoved) <==> files != [] && Sane(files) && remote.head != expected
    {
      if files == [] { return Err(NoFilesToCommit); }
      for i := 0 to |files|
        invariant Sane(files[..i])
      {
        if files[i].action != DeleteFile && (files[i].content.None? || !files[i].sane) {
          return Err(InvalidContent);
        }
        assert files[..i + 1] == files[..i] + [files[i]];
      }
      assert files[..|files|] == files;
      var base := GetRef();
      if base != expected { return Err(BaseMoved); }
      var tree := base.tree;
      for i := 0 to |files|
        invariant Writable(files[..i]) && tree == Overlay(base.tree, files[..i])
      {
        assert files[..i + 1][..i] == files[..i];
        if files[i].action == DeleteFile {
          tree := tree - {files[i].path};
        } else {
          tree := tree[files[i].path := BlobEntry(files[i].content.value)];
        }
      }
      return Ok(Shadow(base, Commit([base], tree, message, stamp)));
    }

    method ApplyShadow(shadow: Shadow, arrivals: seq<Commit>) returns (r: Result<(), Refusal>)
      requires remote.Valid() && shadow.commit.parents == [shadow.base]
      modifies this, remote
      ensures remote.Valid() && Extends(old(remote.heads), remote.heads)
      ensures r.Ok? ==>
                && |remote.heads| > |old(remote.heads)| && remote.head == shadow.commit
                && Adjacent(remote.heads, shadow)
      ensures r.Err? ==> OnlyFrom(old(remote.heads), remote.heads, arrivals)
      ensures old(remote.head) == shadow.base && arrivals == [] ==> r.Ok?
      ensures r == Err(BaseMoved) <==> old(remote.head) != shadow.base
      ensures r.Err? && r.error != BaseMoved ==> r.error == UpdateRejected && remote.head != shadow.base
    {
      ghost var oldHeads := remote.heads;
      ParentIsStrictAncestor(shadow.commit, 0);
      var current := GetRef();
      if current != shadow.base { return Err(BaseMoved); }
      remote.Receive(arrivals);
      ghost var heads := remote.heads;
      var moved := remote.UpdateBranch(shadow.commit);
      if !moved { return Err(UpdateRejected); }
      assert remote.heads[..|oldHeads|] == heads[..|oldHeads|];
      AdjacentHeads(remote.heads, |oldHeads| - 1, shadow);
      return Ok(());
    }

    // Moving a checked commit in and verifying it.
    method Publish(shadow: Shadow, arrivals: Arrivals) returns (r: Result<Checkpoint, Refusal>)
      requires remote.Valid() && shadow.commit.parents == [shadow.base]
      modifies this, remote
      ensures remote.Valid() && Extends(old(remote.heads), remote.heads)
      ensures r.Ok? ==>
                && r.value == Checkpoint(shadow.base, shadow.base.tree, shadow.commit, PublishedCheckpoint)
                && Adjacent(remote.heads, shadow) && lastRef == Some(remote.head)
      ensures r.Err? ==> OnlyFrom(old(remote.heads), remote.heads, arrivals.second + arrivals.third)
      ensures old(remote.head) == shadow.base && arrivals.second == arrivals.third == [] ==> r.Ok?
      ensures r.Err? ==> r.error == BaseMoved || r.error == UpdateRejected
    {
      var checkpoint := Checkpoint(shadow.base, shadow.base.tree, shadow.commit, PreparedCheckpoint);
      ghost var heads0 := remote.heads;
      remote.Receive(arrivals.second);
      ghost var heads1 := remote.heads;
      var applied := ApplyShadow(shadow, arrivals.third);
      ghost var heads2 := remote.heads;
      ExtendsThrough(heads0, heads1, heads2);
      if applied.Err? {
        checkpoint := checkpoint.(status := AbortedCheckpoint);
        return Err(applied.error);
      }
      checkpoint := checkpoint.(status := PublishedCheckpoint);
      remote.Receive(arrivals.fourth);
      ExtendsThrough(heads0, heads2, remote.heads);
      var seen := GetRef();
      var verdict := VerifyPublished(seen, checkpoint, shadow.commit);
      NoDefinitiveFailure(seen, checkpoint);
      if !verdict.ok && verdict.definitive {
        assert false;
      }
      return Ok(checkpoint);
    }

    // The whole commit path; `gate` is the verdict of the validation gate.
    method AtomicCommit(files: seq<PlanFile>, message: string, stamp: nat, gate: bool, arrivals: Arrivals)
      returns (r: Result<Checkpoint, Refusal>)
      requires remote.Valid()
      modifies this, remote
      ensures remote.Valid() && Extends(old(remote.heads), remote.heads)
      // Success: the published commit sits directly on the base it was prepared from -
      // the branch as last seen by the caller - and is exactly the plan.
      ensures r.Ok? ==>
                && Writable(files) && gate
                && r.value.shadow == PlannedCommit(r.value.baseHead, files, message, stamp)
                && r.value.baseTree == r.value.baseHead.tree && r.value.status == PublishedCheckpoint
                && (old(lastRef).Some? ==> r.value.baseHead == old(lastRef).value)
                && ExactDelta(Items(files), r.value.baseHead.tree, r.value.shadow.tree)
                && Adjacent(remote.heads, Shadow(r.value.baseHead, r.value.shadow))
                && lastRef == Some(remote.head)
      // Failure: nothing was published; the branch holds only what others pushed.
      ensures r.Err? ==> OnlyFrom(old(remote.heads), remote.heads, arrivals.first + (arrivals.second + arrivals.third))
      // Left alone, a sound plan on the branch as last seen is published.
      ensures Quiet(arrivals) && gate && files != [] && Sane(files)
              && (old(lastRef).Some? ==> old(lastRef).value == old(remote.head))
              && ExactDelta(Items(files), old(remote.head).tree, Overlay(old(remote.head).tree, files))
              ==> r.Ok?
      // Every refusal has its reason.
      ensures r == Err(NoFilesToCommit) <==> files == []
      ensures r == Err(InvalidContent) <==> files != [] && !Sane(files)
      ensures r.Err? && r.error.DeltaBlocked? ==>
                && r.error.violations != [] && Writable(files)
                && exists base :: base in remote.heads && !ExactDelta(Items(files), base.tree, Overlay(base.tree, files))
      ensures r == Err(GateBlocked) ==> !gate && files != [] && Sane(files)
      ensures r == Err(BaseMoved) || r == Err(UpdateRejected) ==>
                !Quiet(arrivals) || (old(lastRef).Some? && old(lastRef).value != old(remote.head))
    {
      var expected: Commit;
      if lastRef.Some? {
        expected := lastRef.value;
      } else {
        expected := GetRef();
      }
      ghost var heads0 := remote.heads;
      remote.Receive(arrivals.first);
      ghost var heads1 := remote.heads;
      assert OnlyFrom(heads0, heads1, arrivals.first + (arrivals.second + arrivals.third));
      var prepared := PrepareShadow(expected, files, message, stamp);
      if prepared.Err? { return Err(prepared.error); }
      var shadow := prepared.value;
      var violations := EvaluateDelta(Items(files), shadow.base.tree, shadow.commit.tree);
      if violations != [] { return Err(DeltaBlocked(violations)); }
      if !gate { return Err(GateBlocked); }
      r := Publish(shadow, arrivals);
      ExtendsThrough(heads0, heads1, remote.heads);
    }

    // A new commit with the checkpoint's tree on top of the current head.
    method RollbackCheckpoint(checkpoint: Checkpoint, expected: Option<Commit>, message: string, stamp: nat,
                              arrivals: seq<Commit>) returns (r: Result<Checkpoint, RollbackRefusal>)
      requires remote.Valid()
      modifies this, remote
      ensures remote.Valid() && Extends(old(remote.heads), remote.heads)
      // Success: the head has the base tree and its parent is the head that was seen - the
      // expected one - which was still the head just before.
      ensures r.Ok? ==>
                && remote.head.tree == checkpoint.baseTree && remote.head.parents == [old(remote.head)]
                && old(remote.head) == (if expected.Some? then expected.value else checkpoint.shadow)
                && Adjacent(remote.heads, Shadow(old(remote.head), remote.head))
                && r.value == checkpoint.(status := RolledBack)
      ensures r.Err? ==> OnlyFrom(old(remote.heads), remote.heads, arrivals)
      ensures r == Err(BranchChanged) <==> old(remote.head) != (if expected.Some? then expected.value else checkpoint.shadow)
      // Only somebody else's push, arriving meanwhile, stops a rollback of the expected head.
      ensures r == Err(RollbackRejected) ==> remote.head != old(remote.head) && remote.heads != old(remote.heads)
      ensures old(remote.head) == (if expected.Some? then expected.value else checkpoint.shadow) && arrivals == [] ==> r.Ok?
      ensures r.Ok? ==> remote.head.message == message && remote.head.stamp == stamp
    {
      var current := GetRef();
      if current != (if expected.Some? then expected.value else checkpoint.shadow) { return Err(BranchChanged); }
      ghost var i := |remote.heads| - 1;
      var commit := Commit([current], checkpoint.baseTree, message, stamp);
      ParentIsStrictAncestor(commit, 0);
      remote.Receive(arrivals);
      ghost var heads := remote.heads;
      var moved := remote.UpdateBranch(commit);
      if !moved { return Err(RollbackRejected); }
      assert remote.heads[..i + 1] == heads[..i + 1];
      assert remote.heads[i] == heads[..i + 1][i];
      AdjacentHeads(remote.heads, i, Shadow(current, commit));
      return Ok(checkpoint.(status := RolledBack));
    }
  }

  ghost predicate Adjacent(heads: seq<Commit>, shadow: Shadow)
  {
    exists k :: 0 <= k < |heads| - 1 && heads[k] == shadow.base && heads[k + 1] == shadow.commit
  }

  // The branch went from the base to its child without an intermediate head.
  lemma {:induction false} AdjacentHeads(heads: seq<Commit>, i: nat, shadow: Shadow)
    requires FastForwards(heads) && i < |heads| - 1
    requires heads[i] == shadow.base && heads[|heads| - 1] == shadow.commit
    requires shadow.commit.parents == [shadow.base]
    ensures Adjacent(heads, shadow)
    decreases |heads| - i
  {
    ParentIsStrictAncestor(shadow.commit, 0);
    var last := |heads| - 1;
    if heads[i + 1] != shadow.commit {
      EarlierIsAncestor(heads, i, i + 1);
      EarlierIsAncestor(heads, i + 1, last);
      ChildAcceptance(heads[i + 1], shadow.base, shadow.commit);
      AdjacentHeads(heads, i + 1, shadow);
    }
  }

  lemma {:induction false} ExtendsThrough(a: seq<Commit>, b: seq<Commit>, c: seq<Commit>)
    requires Extends(a, b) && Extends(b, c)
    ensures Extends(a, c)
  {
    assert c[..|a|] == c[..|b|][..|a|];
  }
}
