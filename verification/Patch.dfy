// Exact text patches: finding an occurrence of a text, counting occurrences, replacing one.
module Patch {
  import opened Common
  import opened Lines

  predicate Occurs(s: string, n: string, i: int)
  {
    0 <= i && i + |n| <= |s| && s[i..i + |n|] == n
  }

  // indexOf: the first occurrence from `from` on, or -1.
  function IndexOf(s: string, n: string, from: nat): (i: int)
    ensures i == -1 || (from <= i && Occurs(s, n, i))
    ensures forall j :: from <= j && Occurs(s, n, j) ==> 0 <= i <= j
    decreases |s| - from
  {
    if from + |n| > |s| then -1 else if s[from..from + |n|] == n then from else IndexOf(s, n, from + 1)
  }

  // The occurrences a left-to-right search takes, each from the end of the one before.
  function Greedy(s: string, n: string, from: nat): seq<nat>
    requires n != []
    decreases |s| - from
  {
    var i := IndexOf(s, n, from);
    if i < 0 then [] else [i] + Greedy(s, n, i + |n|)
  }

  method CountOccurrences(source: string, needle: string) returns (count: nat)
    ensures count == if needle == [] then 0 else |Greedy(source, needle, 0)|
  {
    if needle == [] { return 0; }
    count := 0;
    var from := 0;
    ghost var total := |Greedy(source, needle, 0)|;
    while from <= |source|
      invariant count + |Greedy(source, needle, from)| == total
      decreases |source| - from
    {
      var index := IndexOf(source, needle, from);
      if index < 0 { return; }
      count := count + 1;
      from := index + Max(1, |needle|);
    }
  }

  function Replaced(s: string, n: string, after: string, i: nat): string
    requires i + |n| <= |s|
  {
    s[..i] + after + s[i + |n|..]
  }

  method ReplaceOccurrence(source: string, before: string, after: string, occurrence: int) returns (r: Option<string>)
    requires before != []
    ensures r.Some? <==> 1 <= occurrence <= |Greedy(source, before, 0)|
    ensures r.Some? ==>
              var at := Greedy(source, before, 0)[occurrence - 1];
              Occurs(source, before, at) && r.value == Replaced(source, before, after, at)
  {
    var from, current := 0, 0;
    ghost var all := Greedy(source, before, 0);
    while from <= |source|
      invariant current <= |all| && all[current..] == Greedy(source, before, from)
      invariant current < occurrence || occurrence < 1
      decreases |source| - from
    {
      var index := IndexOf(source, before, from);
      if index < 0 { break; }
      assert all[current..][0] == index;
      assert all[current..][1..] == all[current + 1..];
      current := current + 1;
      if current == occurrence { return Some(source[..index] + after + source[index + |before|..]); }
      from := index + Max(1, |before|);
    }
    return None;
  }

  // ---------------------------------------------------------------- the count is the best possible

  // Occurrences no two of which overlap.
  ghost predicate Disjoint(s: string, n: string, places: set<nat>)
  {
    && (forall p :: p in places ==> Occurs(s, n, p))
    && (forall p, q :: p in places && q in places && p < q ==> p + |n| <= q)
  }

  lemma {:induction false} OneBefore(s: string, n: string, from: nat, i: nat, later: set<nat>) returns (places: set<nat>)
    requires n != [] && from <= i && Occurs(s, n, i) && Disjoint(s, n, later) && forall p :: p in later ==> i + |n| <= p
    ensures Disjoint(s, n, places) && |places| == 1 + |later| && forall p :: p in places ==> from <= p
  {
    assert i !in later;
    places := {i} + later;
  }

  lemma {:induction false} GreedyOneMore(s: string, n: string, from: nat)
    requires n != [] && IndexOf(s, n, from) >= 0
    ensures |Greedy(s, n, from)| == 1 + |Greedy(s, n, IndexOf(s, n, from) + |n|)|
  {
  }

  // Disjoint places from `from` on, `count` of them.
  ghost predicate Places(s: string, n: string, from: nat, places: set<nat>, count: nat)
  {
    Disjoint(s, n, places) && |places| == count && forall p :: p in places ==> from <= p
  }

  lemma {:induction false} OnePlaceMore(s: string, n: string, from: nat, i: nat, later: set<nat>, count: nat) returns (places: set<nat>)
    requires n != [] && from <= i && Occurs(s, n, i) && Places(s, n, i + |n|, later, count)
    ensures Places(s, n, from, places, 1 + count)
  {
    places := OneBefore(s, n, from, i, later);
  }

  // The taken occurrences do not overlap.
  lemma {:induction false} GreedyIsDisjoint(s: string, n: string, from: nat) returns (places: set<nat>)
    requires n != []
    ensures Places(s, n, from, places, |Greedy(s, n, from)|)
    decreases |s| - from
  {
    var i := IndexOf(s, n, from);
    if i < 0 {
      places := {};
    } else {
      GreedyOneMore(s, n, from);
      var later := GreedyIsDisjoint(s, n, i + |n|);
      places := OnePlaceMore(s, n, from, i, later, |Greedy(s, n, i + |n|)|);
    }
  }

  lemma {:induction false} NoneBeatsGreedy(s: string, n: string, from: nat, places: set<nat>)
    requires n != [] && Disjoint(s, n, places) && forall p :: p in places ==> from <= p
    ensures |places| <= |Greedy(s, n, from)|
    decreases |s| - from
  {
    if places != {} {
      var i := IndexOf(s, n, from);
      AllFromFirst(s, n, from, places);
      var later := set p | p in places && p >= i + |n|;
      NoneBeatsGreedy(s, n, i + |n|, later);
      AtMostOneMore(places, later, i, |n|);
    }
  }

  lemma {:induction false} AllFromFirst(s: string, n: string, from: nat, places: set<nat>)
    requires n != [] && places != {} && Disjoint(s, n, places) && forall p :: p in places ==> from <= p
    ensures var i := IndexOf(s, n, from); i >= from && i + |n| <= |s| && forall p :: p in places ==> i <= p
  {
    var some :| some in places;
    assert Occurs(s, n, some);
    forall p | p in places ensures IndexOf(s, n, from) <= p {
      assert Occurs(s, n, p);
    }
  }

  // Of pairwise disjoint places from `i` on, one at most starts within `n` of `i`.
  lemma {:induction false} AtMostOneMore(places: set<nat>, later: set<nat>, i: nat, n: nat)
    requires later == set p | p in places && p >= i + n
    requires forall p :: p in places ==> i <= p
    requires forall p, q :: p in places && q in places && p < q ==> p + n <= q
    ensures |places| <= |later| + 1
  {
    var early := places - later;
    assert places == early + later;
    if early != {} {
      var p :| p in early;
      assert early == {p};
    }
  }

  // The count is the largest number of occurrences that do not overlap.
  lemma {:induction false} CountIsMaximal(s: string, n: string, places: set<nat>)
    requires n != [] && Disjoint(s, n, places)
    ensures |places| <= |Greedy(s, n, 0)|
    ensures exists best :: Disjoint(s, n, best) && |best| == |Greedy(s, n, 0)|
  {
    NoneBeatsGreedy(s, n, 0, places);
    var best := GreedyIsDisjoint(s, n, 0);
  }

  // A count of one does not make an occurrence the only one: others may overlap it.
  lemma {:induction false} OneIsNotUnique(s: string, n: string, i: nat)
    requires n != [] && |Greedy(s, n, 0)| == 1 && Occurs(s, n, i)
    ensures var first := Greedy(s, n, 0)[0]; first <= i < first + |n|
  {
    var first := IndexOf(s, n, 0);
    assert Greedy(s, n, first + |n|) == [];
    assert IndexOf(s, n, first + |n|) < 0;
  }

  // The text begins and ends with the same `b` characters.
  predicate Border(n: string, b: nat)
  {
    0 < b < |n| && n[..b] == n[|n| - b..]
  }

  ghost predicate Unique(s: string, n: string)
  {
    forall i, j :: Occurs(s, n, i) && Occurs(s, n, j) ==> i == j
  }

  // A bordered text overlaps itself: two occurrences, counted as one.
  lemma {:induction false} OverlapIsNotSeen(n: string, b: nat)
    requires Border(n, b)
    ensures var s := n + n[b..]; |Greedy(s, n, 0)| == 1 && Occurs(s, n, 0) && Occurs(s, n, |n| - b)
  {
    var s := n + n[b..];
    assert s[0..|n|] == n;
    assert s[|n| - b..|n| - b + |n|] == n[|n| - b..] + n[b..] == n;
    assert IndexOf(s, n, 0) == 0;
    assert Greedy(s, n, |n|) == [];
  }

  // Two occurrences that overlap make a border.
  lemma {:induction false} OverlapIsBorder(s: string, n: string, i: nat, j: nat)
    requires Occurs(s, n, i) && Occurs(s, n, j) && i < j < i + |n|
    ensures Border(n, i + |n| - j)
  {
    var b := i + |n| - j;
    assert n[|n| - b..] == s[i..i + |n|][j - i..] == s[j..i + |n|];
    assert n[..b] == s[j..j + |n|][..b] == s[j..i + |n|];
  }

  // The ambiguity check lets exactly the unambiguous edits pass, in every text, if and only
  // if the text searched for has no border.
  lemma {:induction false} UniqueUnlessBordered(n: string)
    requires n != []
    ensures (forall s :: |Greedy(s, n, 0)| == 1 ==> Unique(s, n)) <==> (forall b :: !Border(n, b))
  {
    if forall b :: !Border(n, b) {
      forall s, i, j | |Greedy(s, n, 0)| == 1 && Occurs(s, n, i) && Occurs(s, n, j) ensures i == j {
        OneIsNotUnique(s, n, i);
        OneIsNotUnique(s, n, j);
        if i < j {
          OverlapIsBorder(s, n, i, j);
        } else if j < i {
          OverlapIsBorder(s, n, j, i);
        }
      }
    } else {
      var b :| Border(n, b);
      OverlapIsNotSeen(n, b);
    }
  }

  // ---------------------------------------------------------------- a patch

  datatype Edit = Edit(before: string, after: string, occurrence: Option<int>)

  // Contents stand for their own hashes.
  datatype TextPatch = TextPatch(baseBlob: Option<string>, baseContent: Option<string>, edits: seq<Edit>)

  datatype PatchError =
    | StaleBlob | StaleContent | EditsEmpty | EmptyMatch(index: nat) | MatchNotFound(index: nat)
    | AmbiguousMatch(index: nat, matches: nat) | OccurrenceOutOfRange(index: nat, matches: nat)

  datatype Patched = Patched(content: string, changed: bool, lineDelta: int, editCount: nat)

  // What is wrong with one edit of a text.
  function EditFault(text: string, e: Edit, index: nat): Option<PatchError>
  {
    if e.before == [] then Some(EmptyMatch(index))
    else
      var matches := |Greedy(text, e.before, 0)|;
      if matches == 0 then Some(MatchNotFound(index))
      else if e.occurrence.None? && matches != 1 then Some(AmbiguousMatch(index, matches))
      else if e.occurrence.Some? && (e.occurrence.value < 1 || e.occurrence.value > matches) then Some(OccurrenceOutOfRange(index, matches))
      else None
  }

  // `next` is `text` with the one named occurrence replaced.
  ghost predicate Edited(text: string, e: Edit, next: string)
  {
    && e.before != []
    && var g := Greedy(text, e.before, 0);
       var k := if e.occurrence.Some? then e.occurrence.value else 1;
       && (e.occurrence.None? ==> |g| == 1) && 1 <= k <= |g|
       && Occurs(text, e.before, g[k - 1]) && next == Replaced(text, e.before, e.after, g[k - 1])
  }

  // An edit exchanges one occurrence - the named one of those a left-to-right search takes,
  // or the only one - and keeps what is before and behind it.
  lemma {:induction false} EditIsReplacement(text: string, e: Edit, next: string)
    ensures Edited(text, e, next) ==>
              && e.before != []
              && exists head, tail ::
                   && text == head + e.before + tail && next == head + e.after + tail
                   && |head| == Greedy(text, e.before, 0)[if e.occurrence.Some? then e.occurrence.value - 1 else 0]
  {
    if Edited(text, e, next) {
      var at := Greedy(text, e.before, 0)[if e.occurrence.Some? then e.occurrence.value - 1 else 0];
      var head, tail := text[..at], text[at + |e.before|..];
      assert text == head + e.before + tail && next == head + e.after + tail && |head| == at;
    }
  }

  // The texts a patch goes through.
  ghost predicate Steps(texts: seq<string>, edits: seq<Edit>)
  {
    |texts| == |edits| + 1 && forall i :: 0 <= i < |edits| ==> Edited(texts[i], edits[i], texts[i + 1])
  }

  // The patch was made for this blob and this text, as far as it says.
  predicate UpToDate(text: string, blob: string, patch: TextPatch)
  {
    (patch.baseBlob.Some? ==> patch.baseBlob.value == blob) && (patch.baseContent.Some? ==> patch.baseContent.value == text)
  }

  method ApplyTextPatch(text: string, blob: string, patch: TextPatch) returns (r: Result<Patched, PatchError>, ghost texts: seq<string>)
    // Each refusal is given exactly for its reason.
    ensures r == Err(StaleBlob) <==> patch.baseBlob.Some? && patch.baseBlob.value != blob
    ensures r == Err(StaleContent) <==>
              !(patch.baseBlob.Some? && patch.baseBlob.value != blob) && patch.baseContent.Some? && patch.baseContent.value != text
    ensures r == Err(EditsEmpty) <==> UpToDate(text, blob, patch) && patch.edits == []
    // The patch goes through exactly when it is for this text and every edit can be made in turn.
    ensures r.Ok? <==> UpToDate(text, blob, patch) && patch.edits != [] && exists chain :: Steps(chain, patch.edits) && chain[0] == text
    // Success: every edit replaced one occurrence, in order.
    ensures r.Ok? ==>
              && Steps(texts, patch.edits) && texts[0] == text && r.value.content == texts[|texts| - 1]
              && (r.value.changed <==> r.value.content != text)
              && r.value.lineDelta == LinesAdded(patch.edits) && r.value.editCount == |patch.edits|
    // Failure at an edit: the edits before it went through, this one could not.
    ensures r.Err? && !(r.error.StaleBlob? || r.error.StaleContent? || r.error.EditsEmpty?) ==>
              StoppedAt(text, patch.edits, texts, r.error)
  {
    texts := [text];
    if patch.baseBlob.Some? && patch.baseBlob.value != blob { return Err(StaleBlob), texts; }
    if patch.baseContent.Some? && patch.baseContent.value != text { return Err(StaleContent), texts; }
    if patch.edits == [] { return Err(EditsEmpty), texts; }
    var edited;
    edited, texts := ApplyEdits(text, patch.edits);
    if edited.Err? {
      NoChain(text, patch.edits, texts, edited.error);
      return Err(edited.error), texts;
    }
    var next := edited.value;
    return Ok(Patched(next, next != text, |Split(next)| - |Split(text)|, |patch.edits|)), texts;
  }

  ghost predicate StoppedAt(text: string, edits: seq<Edit>, texts: seq<string>, error: PatchError)
  {
    && !(error.StaleBlob? || error.StaleContent? || error.EditsEmpty?)
    && error.index < |edits| && Steps(texts, edits[..error.index]) && texts[0] == text
    && EditFault(texts[|texts| - 1], edits[error.index], error.index) == Some(error)
  }

  // An edit with a fault cannot be made, any other can, in one way.
  lemma {:induction false} FaultyIsNotEdited(text: string, e: Edit, index: nat)
    ensures EditFault(text, e, index).Some? <==> forall next :: !Edited(text, e, next)
    ensures forall a, b :: Edited(text, e, a) && Edited(text, e, b) ==> a == b
  {
    if EditFault(text, e, index).None? {
      var g := Greedy(text, e.before, 0);
      var k := if e.occurrence.Some? then e.occurrence.value else 1;
      GreedyOccurs(text, e.before, 0, k - 1);
      assert Edited(text, e, Replaced(text, e.before, e.after, g[k - 1]));
    }
  }

  lemma {:induction false} GreedyOccurs(s: string, n: string, from: nat, k: nat)
    requires n != [] && k < |Greedy(s, n, from)|
    ensures Occurs(s, n, Greedy(s, n, from)[k])
    decreases k
  {
    if k > 0 {
      GreedyOccurs(s, n, IndexOf(s, n, from) + |n|, k - 1);
    }
  }

  // What is wrong with an edit: no text to look for, none of it there, more than one with
  // none named, or a number out of range.
  lemma {:induction false} FaultExactly(text: string, e: Edit, index: nat)
    ensures var f := EditFault(text, e, index);
            && (f == Some(EmptyMatch(index)) <==> e.before == [])
            && (f == Some(MatchNotFound(index)) <==> e.before != [] && forall i :: !Occurs(text, e.before, i))
            && (e.before != [] ==>
                  var n := |Greedy(text, e.before, 0)|;
                  && (f == Some(AmbiguousMatch(index, n)) <==> e.occurrence == None && n > 1)
                  && (f == Some(OccurrenceOutOfRange(index, n)) <==> n > 0 && e.occurrence.Some? && !(1 <= e.occurrence.value <= n)))
  {
    if e.before != [] {
      if i :| Occurs(text, e.before, i) {
        assert IndexOf(text, e.before, 0) >= 0;
      }
      if |Greedy(text, e.before, 0)| > 0 {
        GreedyOccurs(text, e.before, 0, 0);
      }
    }
  }

  // Where an edit could not be made, no chain of texts leads through the patch.
  lemma {:induction false} NoChain(text: string, edits: seq<Edit>, texts: seq<string>, error: PatchError)
    requires StoppedAt(text, edits, texts, error)
    ensures forall chain :: Steps(chain, edits) ==> chain[0] != text
  {
    forall chain | Steps(chain, edits) ensures chain[0] != text {
      if chain[0] == text {
        assert Edited(chain[error.index], edits[error.index], chain[error.index + 1]);
        ChainsAgree(chain, edits, texts, error.index);
        FaultyIsNotEdited(chain[error.index], edits[error.index], error.index);
      }
    }
  }

  lemma {:induction false} ChainsAgree(chain: seq<string>, edits: seq<Edit>, texts: seq<string>, n: nat)
    requires n <= |edits| && Steps(chain, edits) && Steps(texts, edits[..n]) && chain[0] == texts[0]
    ensures chain[n] == texts[n]
  {
    if n > 0 {
      assert Steps(texts[..n], edits[..n - 1]) by {
        forall i | 0 <= i < n - 1 ensures Edited(texts[..n][i], edits[..n - 1][i], texts[..n][i + 1]) {
          assert Edited(texts[i], edits[..n][i], texts[i + 1]);
        }
      }
      ChainsAgree(chain, edits, texts[..n], n - 1);
      assert Edited(texts[n - 1], edits[..n][n - 1], texts[n]) && Edited(chain[n - 1], edits[n - 1], chain[n]);
      FaultyIsNotEdited(chain[n - 1], edits[n - 1], 0);
    }
  }

  ghost predicate Through(text: string, edits: seq<Edit>, texts: seq<string>, next: string)
  {
    Steps(texts, edits) && texts[0] == text && texts[|texts| - 1] == next && |Split(next)| - |Split(text)| == LinesAdded(edits)
  }

  lemma {:induction false} OneEditMore(text: string, edits: seq<Edit>, texts: seq<string>, current: string, e: Edit, next: string)
    requires Through(text, edits, texts, current) && Edited(current, e, next)
    ensures Through(text, edits + [e], texts + [next], next)
  {
    LinesReplaced(current, e, next);
    assert (edits + [e])[..|edits|] == edits;
  }

  method ApplyEdits(text: string, edits: seq<Edit>) returns (r: Result<string, PatchError>, ghost texts: seq<string>)
    ensures r.Ok? ==> Through(text, edits, texts, r.value)
    ensures r.Err? ==> StoppedAt(text, edits, texts, r.error)
  {
    var next := text;
    texts := [text];
    for i := 0 to |edits|
      invariant Through(text, edits[..i], texts, next)
    {
      var edit := edits[i];
      var replaced := ApplyEdit(next, edit, i);
      if replaced.Err? { return Err(replaced.error), texts; }
      TakeNext(edits, i);
      OneEditMore(text, edits[..i], texts, next, edit, replaced.value);
      next := replaced.value;
      texts := texts + [next];
    }
    assert edits[..|edits|] == edits;
    return Ok(next), texts;
  }

  method ApplyEdit(text: string, edit: Edit, index: nat) returns (r: Result<string, PatchError>)
    ensures r.Err? <==> EditFault(text, edit, index).Some?
    ensures r.Err? ==> Some(r.error) == EditFault(text, edit, index) && r.error.index == index
                       && !(r.error.StaleBlob? || r.error.StaleContent? || r.error.EditsEmpty?)
    ensures r.Ok? ==> Edited(text, edit, r.value)
  {
    if edit.before == [] { return Err(EmptyMatch(index)); }
    var matches := CountOccurrences(text, edit.before);
    if matches == 0 { return Err(MatchNotFound(index)); }
    if edit.occurrence.None? && matches != 1 { return Err(AmbiguousMatch(index, matches)); }
    if edit.occurrence.Some? && (edit.occurrence.value < 1 || edit.occurrence.value > matches) {
      return Err(OccurrenceOutOfRange(index, matches));
    }
    var selected := if edit.occurrence.Some? then edit.occurrence.value else 1;
    var replaced := ReplaceOccurrence(text, edit.before, edit.after, selected);
    // The count having been checked, the replacement cannot fail.
    if replaced == None {
      assert false;
    }
    return Ok(replaced.value);
  }

  // ---------------------------------------------------------------- lines

  function LinesAdded(edits: seq<Edit>): int
  {
    if edits == [] then 0
    else LinesAdded(edits[..|edits| - 1]) + |Split(edits[|edits| - 1].after)| - |Split(edits[|edits| - 1].before)|
  }

  lemma {:induction false} LinesOfConcat(a: string, b: string)
    ensures |Split(a + b)| == |Split(a)| + |Split(b)| - 1
  {
    if a == [] {
      assert a + b == b;
    } else {
      assert (a + b)[1..] == a[1..] + b;
      LinesOfConcat(a[1..], b);
    }
  }

  // Replacing one occurrence changes the line count by what the edit itself does.
  lemma {:induction false} LinesReplaced(text: string, e: Edit, next: string)
    requires Edited(text, e, next)
    ensures |Split(next)| - |Split(text)| == |Split(e.after)| - |Split(e.before)|
  {
    var k := if e.occurrence.Some? then e.occurrence.value else 1;
    var at := Greedy(text, e.before, 0)[k - 1];
    var head, tail := text[..at], text[at + |e.before|..];
    assert text == head + e.before + tail;
    LinesOfConcat(head, e.before);
    LinesOfConcat(head + e.before, tail);
    LinesOfConcat(head, e.after);
    LinesOfConcat(head + e.after, tail);
  }
}
