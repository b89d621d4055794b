// Planning the reversal of a recorded operation, file by file: what an undo or a redo may
// do to the current state of a file somebody may have edited since.
module ReversalPlan {
  import opened Common
  import opened Lines
  import opened Hunks

  datatype FileState = Absent | Present(content: string)

  datatype Direction = Undo | Redo

  datatype Strategy = Preserve | ReplaceTarget | Cascade

  // A file before the operation, after it, and now. Whether a path is sensitive or textual
  // is decided by classifiers that are not part of this model.
  datatype Frame = Frame(path: string, base: FileState, applied: FileState, current: FileState, sensitive: bool, textual: bool)

  datatype ObservedEdit = ObservedEdit(byUser: bool, paths: seq<string>)

  datatype Status = Ready | Noop | Conflicting | Blocked

  datatype FileAction = Undecided | NoAction | CreateIt | UpdateIt | DeleteIt

  datatype Code =
    | SensitivePath | NonText | CurrentMissing | EditNotInGit | HunkAmbiguous | HunkConflict
    | DeleteDiscardsEdit | DeleteConflict | CreateConflict

  datatype FilePlan = FilePlan(
    path: string, status: Status, action: FileAction, destructive: bool, conflict: Option<Code>, proposed: string)

  function From(f: Frame, d: Direction): FileState
  {
    if d == Redo then f.base else f.applied
  }

  function To(f: Frame, d: Direction): FileState
  {
    if d == Redo then f.applied else f.base
  }

  predicate EditedSince(edits: seq<ObservedEdit>, path: string)
  {
    exists i :: 0 <= i < |edits| && edits[i].byUser && path in edits[i].paths
  }

  // ---------------------------------------------------------------- one file

  method ScanEdits(edits: seq<ObservedEdit>, path: string) returns (edited: bool)
    ensures edited == EditedSince(edits, path)
  {
    edited := false;
    for i := 0 to |edits|
      invariant edited == EditedSince(edits[..i], path)
    {
      TakeNext(edits, i);
      assert EditedSince(edits[..i + 1], path) == (EditedSince(edits[..i], path) || (edits[i].byUser && path in edits[i].paths)) by {
        assert edits[..i + 1][i] == edits[i];
        assert forall j :: 0 <= j < i ==> edits[..i + 1][j] == edits[..i][j];
      }
      if edits[i].byUser && path in edits[i].paths {
        edited := true;
      }
    }
    assert edits[..|edits|] == edits;
  }

  // The merged text, if the change finds one place in the current text.
  ghost predicate MergesTo(from: seq<string>, to: seq<string>, current: string, merged: Merge<string>)
  {
    exists h :: IsHunk(from, to, AnchorCount(3), h) && merged == MergeText(current, h)
  }

  // What a file plan may be, given the frame and whether the user edited the file since.
  ghost predicate Plans(f: Frame, d: Direction, s: Strategy, edited: bool, r: FilePlan)
  {
    var from, to, cur := From(f, d), To(f, d), f.current;
    && r.path == f.path
    && if f.sensitive then Refuses(r, Blocked, SensitivePath)
       else if s != ReplaceTarget && !f.textual && (from.Present? || to.Present?) then Refuses(r, Blocked, NonText)
       else if cur == to then Rests(r)
       else if s == ReplaceTarget then Takes(r, to, cur, cur != from)
       else PlansKeeping(from, to, cur, edited, r)
  }

  // The strategies that keep later work.
  ghost predicate PlansKeeping(from: FileState, to: FileState, cur: FileState, edited: bool, r: FilePlan)
  {
    if from.Present? && to.Present? then
      if cur == Absent then Refuses(r, Conflicting, CurrentMissing)
      else if cur == from then if edited then Refuses(r, Conflicting, EditNotInGit) else Takes(r, to, cur, false)
      else Merges(Split(from.content), Split(to.content), cur, r)
    else if from.Present? then
      if cur == Absent then Rests(r)
      else if cur != from || edited then Refuses(r, Conflicting, if edited then DeleteDiscardsEdit else DeleteConflict)
      else Takes(r, to, cur, false)
    else if to.Present? then
      if cur.Present? then Refuses(r, Conflicting, CreateConflict)
      else if edited then Refuses(r, Conflicting, EditNotInGit)
      else Takes(r, to, cur, false)
    else Rests(r)
  }

  // The plan follows the merge of the change into the current text.
  ghost predicate Merges(from: seq<string>, to: seq<string>, cur: FileState, r: FilePlan)
    requires cur.Present?
  {
    exists merged :: MergesTo(from, to, cur.content, merged) && Follows(r, merged, cur)
  }

  predicate Follows(r: FilePlan, merged: Merge<string>, cur: FileState)
  {
    match merged
    case Merged(content, _) => Takes(r, Present(content), cur, false)
    case Ambiguous(_) => Refuses(r, Conflicting, HunkAmbiguous)
    case Conflict => Refuses(r, Conflicting, HunkConflict)
  }

  predicate Rests(r: FilePlan)
  {
    r.status == Noop && r.action == NoAction && !r.destructive && r.conflict == None
  }

  predicate Refuses(r: FilePlan, status: Status, code: Code)
  {
    r.status == status && r.conflict == Some(code) && r.action == Undecided && !r.destructive
  }

  // The plan is to bring the file from `cur` to `goal`.
  predicate Takes(r: FilePlan, goal: FileState, cur: FileState, destructive: bool)
  {
    && r.status == Ready && r.conflict == None && r.destructive == destructive
    && match goal
       case Absent => r.action == DeleteIt
       case Present(content) => r.proposed == content && r.action == (if cur.Present? then UpdateIt else CreateIt)
  }

  method PlanFileReversal(f: Frame, d: Direction, s: Strategy, edits: seq<ObservedEdit>) returns (r: FilePlan)
    ensures Plans(f, d, s, EditedSince(edits, f.path), r)
  {
    var from, to, current := From(f, d), To(f, d), f.current;
    var edited := ScanEdits(edits, f.path);
    r := FilePlan(f.path, Ready, Undecided, false, None, "");
    if f.sensitive {
      return r.(status := Blocked, conflict := Some(SensitivePath));
    }
    if s != ReplaceTarget && !f.textual && (from.Present? || to.Present?) {
      return r.(status := Blocked, conflict := Some(NonText));
    }
    if current == to {
      return r.(status := Noop, action := NoAction, proposed := if current.Present? then current.content else "");
    }
    if s == ReplaceTarget {
      r := r.(destructive := current != from);
      if to == Absent {
        r := r.(action := DeleteIt);
      } else {
        r := r.(action := if current.Present? then UpdateIt else CreateIt, proposed := to.content);
      }
      return;
    }
    r := PlanPreserving(f.path, from, to, current, edited);
  }

  // The branches that keep later work.
  method PlanPreserving(path: string, from: FileState, to: FileState, current: FileState, edited: bool) returns (r: FilePlan)
    requires current != to
    ensures r.path == path && PlansKeeping(from, to, current, edited, r)
  {
    r := FilePlan(path, Ready, Undecided, false, None, "");
    if from.Present? && to.Present? {
      if current == Absent {
        return r.(status := Conflicting, conflict := Some(CurrentMissing));
      }
      if current.content == from.content {
        if edited {
          return r.(status := Conflicting, conflict := Some(EditNotInGit));
        }
        return r.(action := UpdateIt, proposed := to.content);
      }
      var h := DeriveHunk(Split(from.content), Split(to.content), 3);
      var merged := ApplyHunk(current.content, h);
      assert MergesTo(Split(from.content), Split(to.content), current.content, merged);
      match merged {
        case Merged(content, _) => r := r.(action := UpdateIt, proposed := content);
        case Ambiguous(_) => r := r.(status := Conflicting, conflict := Some(HunkAmbiguous));
        case Conflict => r := r.(status := Conflicting, conflict := Some(HunkConflict));
      }
    } else if from.Present? {
      if current == Absent {
        return r.(status := Noop, action := NoAction);
      }
      if current != from || edited {
        return r.(status := Conflicting, conflict := Some(if edited then DeleteDiscardsEdit else DeleteConflict));
      }
      r := r.(action := DeleteIt);
    } else if to.Present? {
      if current.Present? {
        return r.(status := Conflicting, conflict := Some(CreateConflict));
      }
      if edited {
        return r.(status := Conflicting, conflict := Some(EditNotInGit));
      }
      r := r.(action := CreateIt, proposed := to.content);
    } else {
      r := r.(status := Noop, action := NoAction);
    }
  }

  // ---------------------------------------------------------------- what a ready plan does

  function After(cur: FileState, r: FilePlan): FileState
  {
    if r.status != Ready then cur
    else if r.action == DeleteIt then Absent
    else if r.action == CreateIt || r.action == UpdateIt then Present(r.proposed)
    else cur
  }

  // Every line of `cur` outside one block, in order, and one other block in its place.
  ghost predicate OneBlockReplaced(cur: seq<string>, next: seq<string>, removed: seq<string>, added: seq<string>)
  {
    exists i: nat :: MatchesAt(cur, i, removed) && next == Splice(cur, i, |removed|, added)
  }

  // A ready plan that keeps later work either starts from exactly the state it reverses
  // and from no later edit, or creates a file that is missing and not edited since, or
  // replaces one occurrence of the changed block by its counterpart and keeps every other
  // line in order. It deletes only what nobody touched.
  lemma {:induction false} KeepsLaterWork(f: Frame, d: Direction, s: Strategy, edited: bool, r: FilePlan)
    requires Plans(f, d, s, edited, r) && s != ReplaceTarget && r.status == Ready
    ensures !r.destructive
    ensures r.action == DeleteIt ==> f.current == From(f, d) && To(f, d) == Absent && !edited
    ensures r.action == CreateIt ==> f.current == Absent == From(f, d) && To(f, d) == Present(r.proposed) && !edited
    ensures r.action == UpdateIt ==>
              && f.current.Present? && From(f, d).Present? && To(f, d).Present?
              && (f.current == From(f, d) ==> !edited && To(f, d) == Present(r.proposed))
              && (f.current != From(f, d) ==>
                    exists h, next ::
                      && IsHunk(Split(From(f, d).content), Split(To(f, d).content), 3, h)
                      && OneBlockReplaced(Split(f.current.content), next, h.fromSegment, h.toSegment)
                      && r.proposed == Join(next))
    ensures r.action in {DeleteIt, CreateIt, UpdateIt}
  {
    var from, to := From(f, d), To(f, d);
    if from.Present? && to.Present? && f.current.Present? && f.current != from {
      MergeReplacesOneBlock(Split(from.content), Split(to.content), f.current, r);
    }
  }

  lemma {:induction false} MergeReplacesOneBlock(from: seq<string>, to: seq<string>, cur: FileState, r: FilePlan)
    requires cur.Present? && r.status == Ready && Merges(from, to, cur, r)
    ensures r.action == UpdateIt && !r.destructive
    ensures exists h, next ::
              && IsHunk(from, to, 3, h)
              && OneBlockReplaced(Split(cur.content), next, h.fromSegment, h.toSegment)
              && r.proposed == Join(next)
  {
    var merged :| MergesTo(from, to, cur.content, merged) && Follows(r, merged, cur);
    var h :| IsHunk(from, to, AnchorCount(3), h) && merged == MergeText(cur.content, h);
    var next := MergeIsReplacement(cur.content, h);
    assert r.proposed == merged.content;
  }

  lemma {:induction false} MergeIsReplacement(text: string, h: Hunk) returns (next: seq<string>)
    requires MergeText(text, h).Merged?
    ensures OneBlockReplaced(Split(text), next, h.fromSegment, h.toSegment) && MergeText(text, h).content == Join(next)
  {
    var lines := Split(text);
    var m := MergeLines(lines, h);
    CandidatesFit(lines, h, m.index);
    next := m.content;
    assert MatchesAt(lines, m.index, h.fromSegment) && next == Splice(lines, m.index, |h.fromSegment|, h.toSegment);
  }

  // Carried out, a plan that is ready reaches the goal whenever it started from the state
  // it reverses, and under the replacing strategy always; and what cannot be reached
  // without loss is refused, not done.
  lemma {:induction false} ReachesTheGoal(f: Frame, d: Direction, s: Strategy, edited: bool, r: FilePlan)
    requires Plans(f, d, s, edited, r)
    ensures r.status == Ready && (s == ReplaceTarget || f.current == From(f, d)) ==> After(f.current, r) == To(f, d)
    ensures s == ReplaceTarget && !f.sensitive ==> After(f.current, r) == To(f, d)
    ensures r.status != Ready ==> After(f.current, r) == f.current
    ensures f.current == To(f, d) ==> After(f.current, r) == f.current
    ensures r.destructive ==> s == ReplaceTarget && f.current != From(f, d) && f.current != To(f, d)
  {
  }

  // When a plan is blocked, and what replacing does to what stands there.
  lemma {:induction false} BlockedExactly(f: Frame, d: Direction, s: Strategy, edited: bool, r: FilePlan)
    requires Plans(f, d, s, edited, r)
    ensures r.status == Blocked <==>
              f.sensitive || (s != ReplaceTarget && !f.textual && (f.base.Present? || f.applied.Present?))
    ensures r.status == Blocked ==> r.conflict == Some(if f.sensitive then SensitivePath else NonText)
    ensures s == ReplaceTarget && !f.sensitive ==>
              && (r.status == Noop <==> f.current == To(f, d))
              && (r.status == Ready <==> f.current != To(f, d))
              && (r.destructive <==> f.current != To(f, d) && f.current != From(f, d))
  {
  }

  // A file some strategy that keeps later work may plan for.
  predicate Kept(f: Frame, s: Strategy)
  {
    s != ReplaceTarget && !f.sensitive && (f.textual || (f.base == Absent && f.applied == Absent))
  }

  // The three texts of an update to a file that is no longer what it was on either side.
  predicate NeedsMerge(f: Frame, d: Direction)
  {
    && f.base.Present? && f.applied.Present? && f.current.Present?
    && f.current != From(f, d) && f.current != To(f, d)
  }

  // Keeping later work, a plan is ready exactly when the file is as the operation left it and
  // nobody edited it since, or the changed block has its one place in what stands there now.
  lemma {:induction false} ReadyExactly(f: Frame, d: Direction, s: Strategy, edited: bool, r: FilePlan)
    requires Plans(f, d, s, edited, r) && Kept(f, s)
    ensures r.status == Noop <==> f.current == To(f, d) || (f.base == Absent && f.applied == Absent)
    ensures r.status == Ready <==>
              || (f.current == From(f, d) && f.current != To(f, d) && !edited)
              || (NeedsMerge(f, d) && exists h, i :: HasPlace(f, d, h, i))
    ensures r.status == Conflicting <==> r.status != Noop && r.status != Ready
  {
    if NeedsMerge(f, d) {
      MergeReadyExactly(f, d, r);
    }
  }

  ghost predicate HasPlace(f: Frame, d: Direction, h: Hunk, i: nat)
    requires NeedsMerge(f, d)
  {
    && IsHunk(Split(From(f, d).content), Split(To(f, d).content), 3, h)
    && GoesTo(Split(f.current.content), h, i)
  }

  lemma {:induction false} MergeReadyExactly(f: Frame, d: Direction, r: FilePlan)
    requires NeedsMerge(f, d) && Merges(Split(From(f, d).content), Split(To(f, d).content), f.current, r)
    ensures r.status == Ready <==> exists h, i :: HasPlace(f, d, h, i)
  {
    var from, to, lines := Split(From(f, d).content), Split(To(f, d).content), Split(f.current.content);
    var h := SomeHunk(from, to, f.current, r);
    FollowsTheMerge(from, to, f.current, r, h);
    MergeExactly(lines, h);
    if r.status == Ready {
      assert HasPlace(f, d, h, MergeLines(lines, h).index);
    }
    if k, i :| HasPlace(f, d, k, i) {
      OneHunk(from, to, 3, h, k);
    }
  }

  // Why a file is in conflict.
  lemma {:induction false} ConflictExactly(f: Frame, d: Direction, s: Strategy, edited: bool, r: FilePlan)
    requires Plans(f, d, s, edited, r) && Kept(f, s) && f.current != To(f, d)
    ensures r.conflict == Some(CurrentMissing) <==> From(f, d).Present? && To(f, d).Present? && f.current == Absent
    ensures r.conflict == Some(EditNotInGit) <==> f.current == From(f, d) && To(f, d).Present? && edited
    ensures r.conflict == Some(DeleteDiscardsEdit) <==> From(f, d).Present? && To(f, d) == Absent && edited
    ensures r.conflict == Some(DeleteConflict) <==>
              From(f, d).Present? && To(f, d) == Absent && f.current != From(f, d) && !edited
    ensures r.conflict == Some(CreateConflict) <==> From(f, d) == Absent && To(f, d).Present? && f.current.Present?
    ensures r.conflict in {Some(HunkConflict), Some(HunkAmbiguous)} <==> r.status == Conflicting && NeedsMerge(f, d)
  {
  }

  // The merge is in conflict when the block has no place, and ambiguous when it has several.
  lemma {:induction false} MergeConflictExactly(f: Frame, d: Direction, s: Strategy, edited: bool, r: FilePlan, h: Hunk)
    requires Plans(f, d, s, edited, r) && Kept(f, s) && NeedsMerge(f, d)
    requires IsHunk(Split(From(f, d).content), Split(To(f, d).content), 3, h)
    ensures r.conflict == Some(HunkConflict) <==>
              && NoPlace(Split(f.current.content), h, true)
              && (h.fromSegment == [] || NoPlace(Split(f.current.content), h, false))
  {
    FollowsTheMerge(Split(From(f, d).content), Split(To(f, d).content), f.current, r, h);
    MergeExactly(Split(f.current.content), h);
  }

  // An untouched file can be undone and redone: undo leads back to the recorded base
  // state, redo from there to the applied one.
  lemma {:induction false} UndoThenRedo(f: Frame, s: Strategy, undo: FilePlan, redo: FilePlan)
    requires !f.sensitive && f.textual && f.current == f.applied
    requires Plans(f, Undo, s, false, undo)
    requires Plans(f.(current := After(f.current, undo)), Redo, s, false, redo)
    ensures After(f.current, undo) == f.base
    ensures After(After(f.current, undo), redo) == f.current
  {
  }

  // The same through a merge: a file edited elsewhere, undone beside the anchors of the
  // change, is back to the edited text once the redo goes through.
  lemma {:induction false} UndoThenRedoMerged(f: Frame, undo: FilePlan, h: Hunk)
    requires !f.sensitive && f.textual && f.base.Present? && f.applied.Present? && f.current.Present?
    requires f.current != f.applied && f.current != f.base
    requires Plans(f, Undo, Preserve, false, undo) && undo.status == Ready
    requires After(f.current, undo) != f.base && After(f.current, undo) != f.applied
    requires IsHunk(Split(f.applied.content), Split(f.base.content), 3, h)
    requires MergeText(f.current.content, h).Merged? && Anchored(Split(f.current.content), MergeText(f.current.content, h).index, h)
    ensures forall redo ::
              Plans(f.(current := After(f.current, undo)), Redo, Preserve, false, redo) && redo.status == Ready ==>
              After(After(f.current, undo), redo) == f.current
  {
    var from, to, cur := Split(f.applied.content), Split(f.base.content), f.current;
    var there := MergedOnce(from, to, h, undo, cur);
    var r := Reversed(h);
    Mirror(from, to, 3, h, r);
    RoundTrip(from, to, 3, cur.content, h);
    var mid := f.(current := After(cur, undo));
    forall redo | Plans(mid, Redo, Preserve, false, redo) && redo.status == Ready ensures After(mid.current, redo) == cur {
      assert From(mid, Redo) == f.base && To(mid, Redo) == f.applied;
      var back := MergedOnce(to, from, r, redo, mid.current);
    }
  }

  // The hunk between two texts being unique, a ready merge is the merge of any of them.
  lemma {:induction false} MergedOnce(from: seq<string>, to: seq<string>, h: Hunk, r: FilePlan, cur: FileState) returns (m: Merge<string>)
    requires IsHunk(from, to, 3, h) && r.status == Ready && cur.Present? && Merges(from, to, cur, r)
    ensures m == MergeText(cur.content, h) && m.Merged? && r.action == UpdateIt && r.proposed == m.content
  {
    m :| MergesTo(from, to, cur.content, m) && Follows(r, m, cur);
    var k :| IsHunk(from, to, AnchorCount(3), k) && m == MergeText(cur.content, k);
    OneHunk(from, to, 3, h, k);
  }

  // ---------------------------------------------------------------- the whole operation

  datatype Plan = Plan(allowed: bool, destructive: bool, files: seq<FilePlan>, conflicts: seq<FilePlan>, changes: seq<FilePlan>, noops: seq<FilePlan>)

  function ByStatus(files: seq<FilePlan>, wanted: set<Status>): (r: seq<FilePlan>)
    ensures forall p :: p in r <==> p in files && p.status in wanted
  {
    if files == [] then []
    else
      var before := ByStatus(files[..|files| - 1], wanted);
      var last := files[|files| - 1];
      assert files == files[..|files| - 1] + [last];
      if last.status in wanted then before + [last] else before
  }

  ghost predicate FilesPlanned(frames: seq<Frame>, d: Direction, s: Strategy, edits: seq<ObservedEdit>, files: seq<FilePlan>)
  {
    |files| == |frames| && forall i :: 0 <= i < |files| ==> Plans(frames[i], d, s, EditedSince(edits, frames[i].path), files[i])
  }

  // Allowed: nothing is in the way and something is to be done.
  ghost predicate Summarizes(plan: Plan, files: seq<FilePlan>, s: Strategy)
  {
    && plan.files == files
    && (plan.allowed <==> (forall p :: p in files ==> p.status !in {Conflicting, Blocked}) && exists p :: p in files && p.status == Ready)
    && (plan.destructive <==> s != Preserve || exists p :: p in files && p.destructive)
    && plan.changes == ByStatus(files, {Ready})
    && plan.conflicts == ByStatus(files, {Conflicting, Blocked}) && plan.noops == ByStatus(files, {Noop})
  }

  method BuildReversalPlan(frames: seq<Frame>, d: Direction, s: Strategy, edits: seq<ObservedEdit>) returns (plan: Plan)
    ensures FilesPlanned(frames, d, s, edits, plan.files) && Summarizes(plan, plan.files, s)
  {
    var files := PlanAll(frames, d, s, edits);
    forall p | p in files && p.destructive ensures p.status == Ready {
      var i :| 0 <= i < |files| && files[i] == p;
      DestructiveIsReady(frames[i], d, s, EditedSince(edits, frames[i].path), p);
    }
    plan := Summarize(files, s);
  }

  lemma {:induction false} DestructiveIsReady(f: Frame, d: Direction, s: Strategy, edited: bool, p: FilePlan)
    requires Plans(f, d, s, edited, p) && p.destructive
    ensures p.status == Ready
  {
  }

  method Summarize(files: seq<FilePlan>, s: Strategy) returns (plan: Plan)
    requires forall p :: p in files && p.destructive ==> p.status == Ready
    ensures Summarizes(plan, files, s)
  {
    var conflicts, changes := ByStatus(files, {Conflicting, Blocked}), ByStatus(files, {Ready});
    var destructive := s != Preserve || exists p :: p in changes && p.destructive;
    plan := Plan(conflicts == [] && changes != [], destructive, files, conflicts, changes, ByStatus(files, {Noop}));
    EmptyFilter(files, {Conflicting, Blocked});
    EmptyFilter(files, {Ready});
    assert forall p :: p in files && p.destructive ==> p in changes;
  }

  method PlanAll(frames: seq<Frame>, d: Direction, s: Strategy, edits: seq<ObservedEdit>) returns (files: seq<FilePlan>)
    ensures FilesPlanned(frames, d, s, edits, files)
  {
    files := [];
    for i := 0 to |frames|
      invariant FilesPlanned(frames[..i], d, s, edits, files)
    {
      var file := PlanFileReversal(frames[i], d, s, edits);
      files := files + [file];
      TakeNext(frames, i);
    }
    assert frames[..|frames|] == frames;
  }

  lemma {:induction false} EmptyFilter(files: seq<FilePlan>, wanted: set<Status>)
    ensures ByStatus(files, wanted) == [] <==> forall p :: p in files ==> p.status !in wanted
  {
    var r := ByStatus(files, wanted);
    if r != [] {
      assert r[0] in r;
    }
  }

  // Every change is the ready plan of some frame.
  lemma {:induction false} ChangeHasFrame(frames: seq<Frame>, d: Direction, s: Strategy, edits: seq<ObservedEdit>, plan: Plan, p: FilePlan)
    returns (i: nat)
    requires FilesPlanned(frames, d, s, edits, plan.files) && Summarizes(plan, plan.files, s) && p in plan.changes
    ensures i < |frames| && frames[i].path == p.path && Plans(frames[i], d, s, EditedSince(edits, p.path), p) && p.status == Ready
  {
    assert p in plan.files;
    i :| 0 <= i < |plan.files| && plan.files[i] == p;
    assert Plans(frames[i], d, s, EditedSince(edits, frames[i].path), plan.files[i]);
  }

  // In an allowed plan every frame is ready, and then among the changes, or at rest.
  lemma {:induction false} AllowedFrame(frames: seq<Frame>, d: Direction, s: Strategy, edits: seq<ObservedEdit>, plan: Plan, i: nat)
    returns (p: FilePlan)
    requires FilesPlanned(frames, d, s, edits, plan.files) && Summarizes(plan, plan.files, s) && plan.allowed && i < |frames|
    ensures p.path == frames[i].path && Plans(frames[i], d, s, EditedSince(edits, p.path), p)
    ensures p.status == Noop || (p.status == Ready && p in plan.changes)
  {
    p := plan.files[i];
    assert Plans(frames[i], d, s, EditedSince(edits, frames[i].path), p);
    assert p in plan.files;
  }

  // ---------------------------------------------------------------- one plan only

  // The same plan, but for a text that is not used.
  predicate Alike(p: FilePlan, q: FilePlan)
  {
    && p.path == q.path && p.status == q.status && p.action == q.action && p.destructive == q.destructive && p.conflict == q.conflict
    && (p.status == Ready && p.action != DeleteIt ==> p.proposed == q.proposed)
  }

  predicate AllAlike(a: seq<FilePlan>, b: seq<FilePlan>)
  {
    |a| == |b| && forall i :: 0 <= i < |a| ==> Alike(a[i], b[i])
  }

  lemma {:induction false} FollowsTheMerge(from: seq<string>, to: seq<string>, cur: FileState, p: FilePlan, h: Hunk)
    requires cur.Present? && Merges(from, to, cur, p) && IsHunk(from, to, 3, h)
    ensures Follows(p, MergeText(cur.content, h), cur)
  {
    var m :| MergesTo(from, to, cur.content, m) && Follows(p, m, cur);
    var k :| IsHunk(from, to, AnchorCount(3), k) && m == MergeText(cur.content, k);
    OneHunk(from, to, 3, h, k);
  }

  lemma {:induction false} SomeHunk(from: seq<string>, to: seq<string>, cur: FileState, p: FilePlan) returns (h: Hunk)
    requires cur.Present? && Merges(from, to, cur, p)
    ensures IsHunk(from, to, 3, h)
  {
    var m :| MergesTo(from, to, cur.content, m) && Follows(p, m, cur);
    h :| IsHunk(from, to, AnchorCount(3), h) && m == MergeText(cur.content, h);
  }

  lemma {:induction false} FollowsAlike(m: Merge<string>, cur: FileState, p: FilePlan, q: FilePlan)
    requires p.path == q.path && Follows(p, m, cur) && Follows(q, m, cur)
    ensures Alike(p, q)
  {
  }

  lemma {:induction false} MergesAlike(from: seq<string>, to: seq<string>, cur: FileState, p: FilePlan, q: FilePlan)
    requires cur.Present? && p.path == q.path && Merges(from, to, cur, p) && Merges(from, to, cur, q)
    ensures Alike(p, q)
  {
    var h := SomeHunk(from, to, cur, p);
    FollowsTheMerge(from, to, cur, p, h);
    FollowsTheMerge(from, to, cur, q, h);
    FollowsAlike(MergeText(cur.content, h), cur, p, q);
  }

  // A frame, a direction, a strategy and the later edits leave one plan.
  lemma {:induction false} OnePlan(f: Frame, d: Direction, s: Strategy, edited: bool, p: FilePlan, q: FilePlan)
    requires Plans(f, d, s, edited, p) && Plans(f, d, s, edited, q)
    ensures Alike(p, q)
  {
    var from, to, cur := From(f, d), To(f, d), f.current;
    if from.Present? && to.Present? && cur.Present? && Merges(Split(from.content), Split(to.content), cur, p)
       && Merges(Split(from.content), Split(to.content), cur, q) {
      MergesAlike(Split(from.content), Split(to.content), cur, p, q);
    }
  }

  lemma {:induction false} FilesAlike(frames: seq<Frame>, d: Direction, s: Strategy, edits: seq<ObservedEdit>, a: seq<FilePlan>, b: seq<FilePlan>)
    requires FilesPlanned(frames, d, s, edits, a) && FilesPlanned(frames, d, s, edits, b)
    ensures AllAlike(a, b)
  {
    forall i | 0 <= i < |a| ensures Alike(a[i], b[i]) {
      OnePlan(frames[i], d, s, EditedSince(edits, frames[i].path), a[i], b[i]);
    }
  }

  lemma {:induction false} ByStatusAlike(a: seq<FilePlan>, b: seq<FilePlan>, wanted: set<Status>)
    requires AllAlike(a, b)
    ensures AllAlike(ByStatus(a, wanted), ByStatus(b, wanted))
  {
    if a != [] {
      ByStatusAlike(a[..|a| - 1], b[..|b| - 1], wanted);
    }
  }

  lemma {:induction false} StatusesAlike(a: seq<FilePlan>, b: seq<FilePlan>, wanted: set<Status>)
    requires AllAlike(a, b)
    ensures (exists p :: p in a && p.status in wanted) <==> (exists p :: p in b && p.status in wanted)
  {
    ByStatusAlike(a, b, wanted);
    EmptyFilter(a, wanted);
    EmptyFilter(b, wanted);
  }

  lemma {:induction false} DestructiveAlike(a: seq<FilePlan>, b: seq<FilePlan>)
    requires AllAlike(a, b)
    ensures (exists p :: p in a && p.destructive) ==> (exists p :: p in b && p.destructive)
  {
    if p :| p in a && p.destructive {
      var i :| 0 <= i < |a| && a[i] == p;
      assert b[i] in b && b[i].destructive;
    }
  }

  lemma {:induction false} AllowedAlike(a: Plan, b: Plan, s: Strategy)
    requires Summarizes(a, a.files, s) && Summarizes(b, b.files, s) && AllAlike(a.files, b.files)
    ensures a.allowed == b.allowed
  {
    StatusesAlike(a.files, b.files, {Ready});
    StatusesAlike(a.files, b.files, {Conflicting, Blocked});
    AllowedMeans(a, s);
    AllowedMeans(b, s);
  }

  lemma {:induction false} AllowedMeans(a: Plan, s: Strategy)
    requires Summarizes(a, a.files, s)
    ensures a.allowed <==> (exists p :: p in a.files && p.status in {Ready}) && !exists p :: p in a.files && p.status in {Conflicting, Blocked}
  {
  }

  lemma {:induction false} DestructionAlike(a: Plan, b: Plan, s: Strategy)
    requires Summarizes(a, a.files, s) && Summarizes(b, b.files, s) && AllAlike(a.files, b.files)
    ensures a.destructive == b.destructive
  {
    forall i | 0 <= i < |a.files| ensures Alike(b.files[i], a.files[i]) {
      assert Alike(a.files[i], b.files[i]);
    }
    DestructiveAlike(a.files, b.files);
    DestructiveAlike(b.files, a.files);
  }

  // Two plans for the same frames show and do the same.
  lemma {:induction false} OneSummary(a: Plan, b: Plan, s: Strategy)
    requires Summarizes(a, a.files, s) && Summarizes(b, b.files, s) && AllAlike(a.files, b.files)
    ensures a.allowed == b.allowed && a.destructive == b.destructive
    ensures AllAlike(a.changes, b.changes) && AllAlike(a.conflicts, b.conflicts)
  {
    AllowedAlike(a, b, s);
    DestructionAlike(a, b, s);
    ByStatusAlike(a.files, b.files, {Ready});
    ByStatusAlike(a.files, b.files, {Conflicting, Blocked});
  }
}
