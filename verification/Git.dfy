// The remote repository as an immutable object store. Object names are hashes of
// what they name, so a blob, a tree and a commit stand for their own identifier.
module Git {
  datatype Entry = Entry(content: string, mode: string, kind: string)

  // The non-directory entries of a recursive tree listing.
  type Tree = map<string, Entry>

  datatype Commit = Commit(parents: seq<Commit>, tree: Tree, message: string, stamp: nat)

  // `a` is `c` or can be reached from `c` through parents.
  predicate IsAncestor(a: Commit, c: Commit)
    decreases c
  {
    a == c || exists i :: 0 <= i < |c.parents| && IsAncestor(a, c.parents[i])
  }

  predicate StrictAncestor(a: Commit, c: Commit)
  {
    a != c && IsAncestor(a, c)
  }

  // The server moves a branch without force exactly when nothing is lost.
  predicate FastForward(head: Commit, target: Commit)
  {
    IsAncestor(head, target)
  }

  lemma {:induction false} AncestorTransitive(a: Commit, b: Commit, c: Commit)
    requires IsAncestor(a, b) && IsAncestor(b, c)
    ensures IsAncestor(a, c)
    decreases c
  {
    if b != c {
      var i :| 0 <= i < |c.parents| && IsAncestor(b, c.parents[i]);
      AncestorTransitive(a, b, c.parents[i]);
    }
  }

  lemma {:induction false} AncestorIsSmaller(a: Commit, c: Commit)
    requires StrictAncestor(a, c)
    ensures a < c
    decreases c
  {
    var i :| 0 <= i < |c.parents| && IsAncestor(a, c.parents[i]);
    if a != c.parents[i] {
      AncestorIsSmaller(a, c.parents[i]);
    }
  }

  // History has no cycles: a branch that has moved on never returns to an old head.
  lemma {:induction false} NoReturn(a: Commit, c: Commit)
    requires IsAncestor(a, c) && IsAncestor(c, a)
    ensures a == c
  {
    if a != c {
      AncestorIsSmaller(a, c);
      AncestorIsSmaller(c, a);
    }
  }

  lemma {:induction false} StrictAncestorExtends(a: Commit, b: Commit, c: Commit)
    requires StrictAncestor(a, b) && IsAncestor(b, c)
    ensures StrictAncestor(a, c)
  {
    AncestorTransitive(a, b, c);
    if a == c {
      NoReturn(a, b);
    }
  }

  lemma {:induction false} ParentIsStrictAncestor(c: Commit, i: nat)
    requires i < |c.parents|
    ensures StrictAncestor(c.parents[i], c)
  {
    assert IsAncestor(c.parents[i], c.parents[i]);
    assert c.parents[i] < c;
  }

  // A commit on top of `base` is accepted only where `base` is still the head, or
  // where the branch already points at that very commit.
  lemma {:induction false} ChildAcceptance(head: Commit, base: Commit, child: Commit)
    requires child.parents == [base]
    requires IsAncestor(base, head)
    ensures FastForward(head, child) <==> head == base || head == child
  {
    if FastForward(head, child) && head != child {
      var i :| 0 <= i < |child.parents| && IsAncestor(head, child.parents[i]);
      assert child.parents[i] == base;
      NoReturn(head, base);
    }
    if head == base {
      ParentIsStrictAncestor(child, 0);
    }
  }
}
