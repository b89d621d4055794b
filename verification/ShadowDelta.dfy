// What a plan of file changes makes of a tree, and the check that a prepared tree
// differs from its base by exactly that plan.
module ShadowDelta {
  import opened Common
  import opened Git
  import opened Text

  datatype ActionWord = CreateFile | UpdateFile | DeleteFile | Unstated | Unknown

  // `sane` is the outcome of the conflict-marker and JSON checks on the content.
  datatype PlanFile = PlanFile(path: string, action: ActionWord, content: Option<string>, sane: bool)

  function NormalizeAction(a: ActionWord): ActionWord
  {
    if a == Unstated then UpdateFile else a
  }

  // ---------------------------------------------------------------- the tree a plan describes

  function BlobEntry(content: string): Entry
  {
    Entry(content, "100644", "blob")
  }

  function Put(tree: Tree, f: PlanFile): Tree
    requires f.action == DeleteFile || f.content.Some?
  {
    if f.action == DeleteFile then tree - {f.path} else tree[f.path := BlobEntry(f.content.value)]
  }

  predicate Writable(files: seq<PlanFile>)
  {
    forall i :: 0 <= i < |files| ==> files[i].action == DeleteFile || files[i].content.Some?
  }

  // The base tree with the plan's entries laid over it, in order.
  function Overlay(tree: Tree, files: seq<PlanFile>): Tree
    requires Writable(files)
  {
    if files == [] then tree else Put(Overlay(tree, files[..|files| - 1]), files[|files| - 1])
  }

  // ---------------------------------------------------------------- the delta check

  // A planned file as the check reads it: its path trimmed, its action normalised.
  datatype Item = Item(name: string, action: ActionWord, hasContent: bool)

  function ItemOf(f: PlanFile): Item
  {
    Item(Trim(f.path), NormalizeAction(f.action), f.content.Some?)
  }

  function Items(files: seq<PlanFile>): (items: seq<Item>)
    ensures |items| == |files| && forall i {:trigger items[i]} :: 0 <= i < |files| ==> items[i] == ItemOf(files[i])
  {
    seq(|files|, i requires 0 <= i < |files| => ItemOf(files[i]))
  }

  predicate Changed(base: Tree, shadow: Tree, path: string)
  {
    if path in base && path in shadow then base[path] != shadow[path] else path in base || path in shadow
  }

  predicate ActionHolds(action: ActionWord, base: Tree, shadow: Tree, path: string)
  {
    match action
    case CreateFile => path !in base && path in shadow
    case UpdateFile => path in base && path in shadow
    case DeleteFile => path in base && path !in shadow
    case Unstated => false
    case Unknown => false
  }

  predicate ItemWellFormed(item: Item)
  {
    item.name != "" && item.action != Unknown && (item.action != DeleteFile ==> item.hasContent)
  }

  predicate DistinctNames(items: seq<Item>)
  {
    forall i, j :: 0 <= i < j < |items| ==> items[i].name != items[j].name
  }

  predicate PlanWellFormed(items: seq<Item>)
  {
    (forall i :: 0 <= i < |items| ==> ItemWellFormed(items[i])) && DistinctNames(items)
  }

  predicate Planned(items: seq<Item>, path: string)
  {
    exists i :: 0 <= i < |items| && items[i].name == path
  }

  // The plan is well formed, touches exactly the paths that changed, and each change is
  // the create, update or delete it says it is.
  ghost predicate ExactDelta(items: seq<Item>, base: Tree, shadow: Tree)
  {
    && items != [] && PlanWellFormed(items)
    && (forall path :: Changed(base, shadow, path) <==> Planned(items, path))
    && (forall i :: 0 <= i < |items| ==> ActionHolds(items[i].action, base, shadow, items[i].name))
  }

  datatype Violation =
    | NoFiles | EmptyPath | InvalidAction(path: string) | Duplicate(path: string) | MissingContent(path: string)
    | OutsidePlan(path: string) | NotChanged(path: string) | WrongAction(path: string)

  // What the plan says should happen, path by path.
  ghost predicate Expects(items: seq<Item>, expected: map<string, ActionWord>)
  {
    && (forall path :: path in expected <==> Planned(items, path))
    && (forall i :: 0 <= i < |items| ==> items[i].name in expected && expected[items[i].name] == items[i].action)
  }

  // The first file of this name with a known action decides what is expected of the path.
  predicate Decides(items: seq<Item>, path: string, i: nat)
  {
    && i < |items| && path != "" && items[i].name == path && items[i].action != Unknown
    && forall j :: 0 <= j < i ==> items[j].name != path || items[j].action == Unknown
  }

  ghost predicate Decided(items: seq<Item>, path: string)
  {
    exists i: nat :: Decides(items, path, i)
  }

  // What is wrong with the plan itself.
  ghost predicate PlanFlaw(items: seq<Item>, v: Violation)
  {
    match v
    case NoFiles => items == []
    case EmptyPath => exists i :: 0 <= i < |items| && items[i].name == ""
    case InvalidAction(path) => path != "" && exists i :: 0 <= i < |items| && items[i].name == path && items[i].action == Unknown
    case Duplicate(path) =>
      path != "" && exists i, j :: 0 <= i < j < |items| && items[i].name == path && items[j].name == path
                      && items[i].action != Unknown && items[j].action != Unknown
    case MissingContent(path) => exists i: nat :: Decides(items, path, i) && items[i].action != DeleteFile && !items[i].hasContent
    case _ => false
  }

  // ... and with the trees, given what is expected.
  predicate TreeFlaw(expected: map<string, ActionWord>, base: Tree, shadow: Tree, v: Violation)
  {
    match v
    case OutsidePlan(path) => Changed(base, shadow, path) && path !in expected
    case NotChanged(path) => path in expected && !Changed(base, shadow, path)
    case WrongAction(path) => path in expected && Changed(base, shadow, path) && !ActionHolds(expected[path], base, shadow, path)
    case _ => false
  }

  // The map has the deciding action of every path, and no other path.
  ghost predicate Collected(items: seq<Item>, expected: map<string, ActionWord>)
  {
    && (forall path :: path in expected <==> Decided(items, path))
    && (forall path, i: nat :: Decides(items, path, i) ==> path in expected && expected[path] == items[i].action)
  }

  lemma {:induction false} DecidesMore(items: seq<Item>, item: Item, path: string)
    ensures Decided(items + [item], path) <==> Decided(items, path) || (path != "" && path == item.name && item.action != Unknown)
    ensures forall i: nat :: Decides(items + [item], path, i) <==>
              Decides(items, path, i)
              || (i == |items| && path != "" && path == item.name && item.action != Unknown && !Decided(items, path))
  {
    var all := items + [item];
    assert all[|items|] == item && forall j :: 0 <= j < |items| ==> all[j] == items[j];
    forall i: nat | Decides(items, path, i) ensures Decides(all, path, i) {
    }
    if !Decided(items, path) {
      if path != "" {
        NoneDecides(items, path, |items|);
      }
      assert path != "" && path == item.name && item.action != Unknown ==> Decides(all, path, |items|);
    }
    forall i: nat | Decides(all, path, i) && i < |items| ensures Decides(items, path, i) {
    }
  }

  lemma {:induction false} NoneDecides(items: seq<Item>, path: string, n: nat)
    requires n <= |items| && path != "" && !Decided(items, path)
    ensures forall j :: 0 <= j < n ==> items[j].name != path || items[j].action == Unknown
  {
    if n > 0 {
      NoneDecides(items, path, n - 1);
      assert !Decides(items, path, n - 1);
    }
  }

  lemma {:induction false} CollectMore(items: seq<Item>, item: Item, expected: map<string, ActionWord>)
    requires Collected(items, expected)
    ensures item.name == "" || item.action == Unknown || item.name in expected ==> Collected(items + [item], expected)
    ensures item.name != "" && item.action != Unknown && item.name !in expected ==>
              Collected(items + [item], expected[item.name := item.action])
  {
    var all := items + [item];
    assert all[|items|] == item && forall j :: 0 <= j < |items| ==> all[j] == items[j];
    forall path ensures Decided(all, path) <==> Decided(items, path) || (path != "" && path == item.name && item.action != Unknown) {
      DecidesMore(items, item, path);
    }
    forall path, i: nat | Decides(all, path, i)
      ensures Decides(items, path, i) || (i == |items| && path == item.name && path !in expected)
    {
      DecidesMore(items, item, path);
    }
  }

  // What one file more adds to the flaws of the plan.
  predicate Adds(expected: map<string, ActionWord>, item: Item, v: Violation)
  {
    if item.name == "" then v == EmptyPath
    else if item.action == Unknown then v == InvalidAction(item.name)
    else if item.name in expected then v == Duplicate(item.name)
    else v == MissingContent(item.name) && item.action != DeleteFile && !item.hasContent
  }

  lemma {:induction false} FlawsGrow(items: seq<Item>, item: Item, expected: map<string, ActionWord>, v: Violation)
    requires Collected(items, expected) && v != NoFiles
    ensures PlanFlaw(items + [item], v) <==> PlanFlaw(items, v) || Adds(expected, item, v)
  {
    var all := items + [item];
    assert all[|items|] == item && forall j :: 0 <= j < |items| ==> all[j] == items[j];
    match v {
      case Duplicate(path) => DuplicatesMore(items, item, expected, path);
      case MissingContent(path) => MissingMore(items, item, expected, path);
      case _ =>
    }
  }

  lemma {:induction false} MissingMore(items: seq<Item>, item: Item, expected: map<string, ActionWord>, path: string)
    requires Collected(items, expected)
    ensures PlanFlaw(items + [item], MissingContent(path)) <==>
            PlanFlaw(items, MissingContent(path)) || Adds(expected, item, MissingContent(path))
  {
    var all := items + [item];
    assert all[|items|] == item && forall j :: 0 <= j < |items| ==> all[j] == items[j];
    DecidesMore(items, item, path);
    if PlanFlaw(items, MissingContent(path)) {
      var i: nat :| Decides(items, path, i) && items[i].action != DeleteFile && !items[i].hasContent;
      assert Decides(all, path, i) && all[i] == items[i];
    }
    if Adds(expected, item, MissingContent(path)) {
      assert Decides(all, path, |items|);
    }
  }

  lemma {:induction false} DuplicatesMore(items: seq<Item>, item: Item, expected: map<string, ActionWord>, path: string)
    requires Collected(items, expected)
    ensures PlanFlaw(items + [item], Duplicate(path)) <==>
            PlanFlaw(items, Duplicate(path)) || Adds(expected, item, Duplicate(path))
  {
    var all := items + [item];
    assert all[|items|] == item && forall j :: 0 <= j < |items| ==> all[j] == items[j];
    if Adds(expected, item, Duplicate(path)) {
      var i: nat :| Decides(items, path, i);
      assert all[i].name == path && all[i].action != Unknown;
    }
    if PlanFlaw(items, Duplicate(path)) {
      var i, j :| 0 <= i < j < |items| && items[i].name == path && items[j].name == path && items[i].action != Unknown && items[j].action != Unknown;
      assert all[i] == items[i] && all[j] == items[j];
    }
    if PlanFlaw(all, Duplicate(path)) {
      var i, j :| 0 <= i < j < |all| && all[i].name == path && all[j].name == path && all[i].action != Unknown && all[j].action != Unknown;
      if j == |items| && path !in expected {
        NoneDecides(items, path, |items|);
      }
    }
  }

  // One file against those before it.
  method JudgeItem(expected: map<string, ActionWord>, item: Item) returns (faults: seq<Violation>)
    ensures forall v :: v in faults <==> Adds(expected, item, v)
    ensures faults == [] <==> ItemWellFormed(item) && item.name !in expected
  {
    if item.name == "" { return [EmptyPath]; }
    if item.action == Unknown { return [InvalidAction(item.name)]; }
    if item.name in expected { return [Duplicate(item.name)]; }
    return if item.action != DeleteFile && !item.hasContent then [MissingContent(item.name)] else [];
  }

  // The plan's part of the check: every file's own faults, and the map of what to expect.
  // Each fault is reported, and no other.
  method ExpectedChanges(items: seq<Item>) returns (violations: seq<Violation>, expected: map<string, ActionWord>)
    ensures violations == [] <==> items != [] && PlanWellFormed(items)
    ensures violations == [] ==> Expects(items, expected)
    ensures Collected(items, expected) && forall v :: v in violations <==> PlanFlaw(items, v)
  {
    violations, expected := [], map[];
    if items == [] {
      violations := violations + [NoFiles];
    }
    for i := 0 to |items|
      invariant violations == [] <==> items != [] && PlanWellFormed(items[..i])
      invariant violations == [] ==> Expects(items[..i], expected)
      invariant Collected(items[..i], expected)
      invariant forall v :: v in violations <==> (v == NoFiles && items == []) || (v != NoFiles && PlanFlaw(items[..i], v))
    {
      var item := items[i];
      assert items[..i + 1] == items[..i] + [item];
      PlanExtends(items[..i], item);
      CollectMore(items[..i], item, expected);
      forall v | v != NoFiles ensures PlanFlaw(items[..i + 1], v) <==> PlanFlaw(items[..i], v) || Adds(expected, item, v) {
        FlawsGrow(items[..i], item, expected, v);
      }
      ghost var before := violations;
      var faults := JudgeItem(expected, item);
      violations := violations + faults;
      assert forall v :: v in violations <==> v in before || Adds(expected, item, v);
      if item.name == "" || item.action == Unknown || item.name in expected { continue; }
      if before == [] {
        ExpectsExtends(items[..i], item, expected);
      }
      expected := expected[item.name := item.action];
    }
    assert items[..|items|] == items;
  }

  lemma {:induction false} PlanExtends(items: seq<Item>, item: Item)
    ensures PlanWellFormed(items + [item]) <==> PlanWellFormed(items) && ItemWellFormed(item) && !Planned(items, item.name)
  {
    var all := items + [item];
    assert all[|items|] == item;
    assert forall i :: 0 <= i < |items| ==> all[i] == items[i];
    if PlanWellFormed(all) {
      forall i | 0 <= i < |items| ensures ItemWellFormed(items[i]) && items[i].name != item.name {
        assert ItemWellFormed(all[i]) && all[i].name != all[|items|].name;
      }
      forall i, j | 0 <= i < j < |items| ensures items[i].name != items[j].name {
        assert all[i].name != all[j].name;
      }
    }
  }

  lemma {:induction false} ExpectsExtends(items: seq<Item>, item: Item, expected: map<string, ActionWord>)
    requires Expects(items, expected) && !Planned(items, item.name)
    ensures Expects(items + [item], expected[item.name := item.action])
  {
    var all := items + [item];
    assert all[|items|] == item;
    forall path ensures Planned(all, path) <==> Planned(items, path) || path == item.name {
      if Planned(items, path) {
        var i :| 0 <= i < |items| && items[i].name == path;
        assert all[i] == items[i];
      }
    }
  }

  // The regression check on a plan and the two trees: every flaw of the plan, every change
  // outside it, every path that did not change or not as it says - and nothing else.
  method EvaluateDelta(items: seq<Item>, base: Tree, shadow: Tree) returns (violations: seq<Violation>)
    ensures violations == [] <==> ExactDelta(items, base, shadow)
    ensures exists expected :: Collected(items, expected) && Reported(items, expected, base, shadow, violations)
  {
    var expected;
    violations, expected := ExpectedChanges(items);
    ghost var planOk := violations == [];
    var outside := ChangesOutside(expected, base, shadow);
    var wrong := ChangesInside(expected, base, shadow);
    violations := violations + outside + wrong;
    assert Reported(items, expected, base, shadow, violations);
    if planOk {
      ExactDeltaFromMap(items, base, shadow, expected);
    }
  }

  ghost predicate Reported(items: seq<Item>, expected: map<string, ActionWord>, base: Tree, shadow: Tree, violations: seq<Violation>)
  {
    forall v :: v in violations <==> PlanFlaw(items, v) || TreeFlaw(expected, base, shadow, v)
  }

  method ChangesOutside(expected: map<string, ActionWord>, base: Tree, shadow: Tree) returns (violations: seq<Violation>)
    ensures forall v :: v in violations <==> v.OutsidePlan? && TreeFlaw(expected, base, shadow, v)
    ensures violations == [] <==> forall path :: path in base.Keys + shadow.Keys && Changed(base, shadow, path) ==> path in expected
  {
    violations := [];
    var remaining := base.Keys + shadow.Keys;
    while remaining != {}
      invariant remaining <= base.Keys + shadow.Keys
      invariant forall v :: v in violations <==> v.OutsidePlan? && TreeFlaw(expected, base, shadow, v) && v.path !in remaining
      invariant violations == [] <==>
                  forall path :: path in base.Keys + shadow.Keys - remaining && Changed(base, shadow, path) ==> path in expected
      decreases |remaining|
    {
      var path :| path in remaining;
      remaining := remaining - {path};
      if Changed(base, shadow, path) && path !in expected {
        violations := violations + [OutsidePlan(path)];
      }
    }
  }

  method ChangesInside(expected: map<string, ActionWord>, base: Tree, shadow: Tree) returns (violations: seq<Violation>)
    ensures forall v :: v in violations <==> (v.NotChanged? || v.WrongAction?) && TreeFlaw(expected, base, shadow, v)
    ensures violations == [] <==> forall path :: path in expected ==> Changed(base, shadow, path) && ActionHolds(expected[path], base, shadow, path)
  {
    violations := [];
    var remaining := expected.Keys;
    while remaining != {}
      invariant remaining <= expected.Keys
      invariant forall v :: v in violations <==>
                  (v.NotChanged? || v.WrongAction?) && TreeFlaw(expected, base, shadow, v) && v.path !in remaining
      invariant violations == [] <==>
                  forall path :: path in expected.Keys - remaining ==>
                    Changed(base, shadow, path) && ActionHolds(expected[path], base, shadow, path)
      decreases |remaining|
    {
      var path :| path in remaining;
      remaining := remaining - {path};
      if !Changed(base, shadow, path) {
        violations := violations + [NotChanged(path)];
      } else if !ActionHolds(expected[path], base, shadow, path) {
        violations := violations + [WrongAction(path)];
      }
    }
  }

  lemma {:induction false} ExactDeltaFromMap(items: seq<Item>, base: Tree, shadow: Tree, expected: map<string, ActionWord>)
    requires items != [] && PlanWellFormed(items) && Expects(items, expected)
    ensures ExactDelta(items, base, shadow) <==>
              && (forall path :: path in base.Keys + shadow.Keys && Changed(base, shadow, path) ==> path in expected)
              && (forall path :: path in expected ==>
                    Changed(base, shadow, path) && ActionHolds(expected[path], base, shadow, path))
  {
    if ExactDelta(items, base, shadow) {
      forall path | path in expected ensures ActionHolds(expected[path], base, shadow, path) {
        var i :| 0 <= i < |items| && items[i].name == path;
      }
    }
  }

  // ---------------------------------------------------------------- what passing the check means

  lemma {:induction false} OverlayElsewhere(tree: Tree, files: seq<PlanFile>, path: string)
    requires Writable(files) && forall i :: 0 <= i < |files| ==> files[i].path != path
    ensures !Changed(tree, Overlay(tree, files), path)
  {
    if files != [] {
      OverlayElsewhere(tree, files[..|files| - 1], path);
    }
  }

  lemma {:induction false} OverlayAt(tree: Tree, files: seq<PlanFile>, i: nat)
    requires Writable(files) && i < |files|
    requires forall j :: i < j < |files| ==> files[j].path != files[i].path
    ensures var r := Overlay(tree, files);
            if files[i].action == DeleteFile then files[i].path !in r
            else files[i].path in r && r[files[i].path] == BlobEntry(files[i].content.value)
  {
    if i < |files| - 1 {
      OverlayAt(tree, files[..|files| - 1], i);
    }
  }

  lemma {:induction false} OverlayTouches(tree: Tree, files: seq<PlanFile>, path: string)
    requires Writable(files) && Changed(tree, Overlay(tree, files), path)
    ensures exists i :: 0 <= i < |files| && files[i].path == path
  {
    if forall i :: 0 <= i < |files| ==> files[i].path != path {
      OverlayElsewhere(tree, files, path);
    }
  }

  lemma {:induction false} SameNameSameItem(items: seq<Item>, i: nat, j: nat)
    requires DistinctNames(items) && i < |items| && j < |items| && items[i].name == items[j].name
    ensures i == j
  {
    assert !(i < j) && !(j < i);
  }

  lemma {:induction false} PathsAreTrimmed(files: seq<PlanFile>, base: Tree, i: nat)
    requires Writable(files) && ExactDelta(Items(files), base, Overlay(base, files)) && i < |files|
    ensures Items(files)[i].name == files[i].path
  {
    var j := NamedItem(files, base, i);
    SameNameSameItem(Items(files), i, j);
  }

  // The planned name is the raw path of some file.
  lemma {:induction false} NamedItem(files: seq<PlanFile>, base: Tree, i: nat) returns (j: nat)
    requires Writable(files) && ExactDelta(Items(files), base, Overlay(base, files)) && i < |files|
    ensures j < |files| && files[j].path == Items(files)[i].name == Items(files)[j].name
  {
    var name := Items(files)[i].name;
    assert Planned(Items(files), name);
    assert Changed(base, Overlay(base, files), name);
    OverlayTouches(base, files, name);
    j :| 0 <= j < |files| && files[j].path == name;
  }

  lemma {:induction false} ChangedPathsArePlanned(files: seq<PlanFile>, base: Tree, path: string)
    requires Writable(files) && ExactDelta(Items(files), base, Overlay(base, files))
    ensures Changed(base, Overlay(base, files), path) <==> NamedIn(files, path)
  {
    if Changed(base, Overlay(base, files), path) {
      OverlayTouches(base, files, path);
    }
    if i :| 0 <= i < |files| && files[i].path == path {
      PathsAreTrimmed(files, base, i);
      assert Planned(Items(files), path);
    }
  }

  // The planned file is in the tree as planned.
  predicate Materialized(f: PlanFile, base: Tree, shadow: Tree)
  {
    if f.action == DeleteFile then f.path in base && f.path !in shadow
    else
      && f.content.Some? && f.path in shadow && shadow[f.path] == BlobEntry(f.content.value)
      && (f.path in base <==> f.action != CreateFile)
  }

  lemma {:induction false} RawPathsDiffer(files: seq<PlanFile>, base: Tree, i: nat, j: nat)
    requires Writable(files) && ExactDelta(Items(files), base, Overlay(base, files)) && i < j < |files|
    ensures files[i].path != files[j].path
  {
    PathsAreTrimmed(files, base, i);
    PathsAreTrimmed(files, base, j);
    assert Items(files)[i].name != Items(files)[j].name;
  }

  lemma {:induction false} PlannedFileIsThere(files: seq<PlanFile>, base: Tree, i: nat)
    requires Writable(files) && ExactDelta(Items(files), base, Overlay(base, files)) && i < |files|
    ensures Materialized(files[i], base, Overlay(base, files))
  {
    PathsAreTrimmed(files, base, i);
    forall j | i < j < |files| ensures files[j].path != files[i].path {
      RawPathsDiffer(files, base, i, j);
    }
    OverlayAt(base, files, i);
    var item := Items(files)[i];
    assert ActionHolds(item.action, base, Overlay(base, files), item.name);
  }

  lemma {:induction false} RawPathsAreDistinct(files: seq<PlanFile>, base: Tree)
    requires Writable(files) && ExactDelta(Items(files), base, Overlay(base, files))
    ensures forall i, j :: 0 <= i < j < |files| ==> files[i].path != files[j].path
  {
    forall i, j | 0 <= i < j < |files| ensures files[i].path != files[j].path {
      RawPathsDiffer(files, base, i, j);
    }
  }

  ghost predicate NamedIn(files: seq<PlanFile>, path: string)
  {
    exists i :: 0 <= i < |files| && files[i].path == path
  }

  lemma {:induction false} PlannedFilesAreThere(files: seq<PlanFile>, base: Tree)
    requires Writable(files) && ExactDelta(Items(files), base, Overlay(base, files))
    ensures forall i :: 0 <= i < |files| ==> Materialized(files[i], base, Overlay(base, files))
  {
    forall i | 0 <= i < |files| ensures Materialized(files[i], base, Overlay(base, files)) {
      PlannedFileIsThere(files, base, i);
    }
  }

  // A plan that passes on the tree built from it names distinct paths, spelled exactly;
  // those are the paths that differ, each holding the planned content or gone, and a
  // create was absent, an update or a delete present before.
  lemma {:induction false} PassedPlanIsExact(files: seq<PlanFile>, base: Tree)
    requires Writable(files) && ExactDelta(Items(files), base, Overlay(base, files))
    ensures forall i, j :: 0 <= i < j < |files| ==> files[i].path != files[j].path
    ensures forall path :: Changed(base, Overlay(base, files), path) <==> NamedIn(files, path)
    ensures forall i :: 0 <= i < |files| ==> Materialized(files[i], base, Overlay(base, files))
  {
    RawPathsAreDistinct(files, base);
    PlannedFilesAreThere(files, base);
    forall path ensures Changed(base, Overlay(base, files), path) <==> NamedIn(files, path) {
      ChangedPathsArePlanned(files, base, path);
    }
  }
}
