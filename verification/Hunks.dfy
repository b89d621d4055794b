// The one replaced block between two texts, finding its place in a third text, and
// taking the replacement back.
module Hunks {
  import opened Common
  import opened Lines

  // ---------------------------------------------------------------- the block between two texts

  datatype Hunk = Hunk(
    prefix: nat, suffix: nat, fromSegment: seq<string>, toSegment: seq<string>,
    prefixAnchor: seq<string>, suffixAnchor: seq<string>)

  // Zero asks for the default; at least one line, at most eight.
  function AnchorCount(lines: int): (n: nat)
    ensures 1 <= n <= 8
    ensures n == (if lines == 0 then 3 else if lines < 1 then 1 else if lines > 8 then 8 else lines)
  {
    Max(1, Min(8, if lines == 0 then 3 else lines))
  }

  function Back(k: nat, n: nat): (r: nat)
    ensures r <= k
  {
    if k <= n then 0 else k - n
  }

  // The block between `p` shared lines at the top and `s` at the bottom, with up to
  // `anchors` of the shared lines next to it.
  function HunkAt(from: seq<string>, to: seq<string>, p: nat, s: nat, anchors: nat): Hunk
    requires p + s <= |from| && p + s <= |to|
  {
    Hunk(p, s, from[p..|from| - s], to[p..|to| - s],
         from[Back(p, anchors)..p], from[|from| - s..|from| - Back(s, anchors)])
  }

  predicate IsHunk(from: seq<string>, to: seq<string>, anchors: nat, h: Hunk)
  {
    SharedEnds(from, to, h.prefix, h.suffix) && h == HunkAt(from, to, h.prefix, h.suffix, anchors)
  }

  // The same block seen from the other side.
  function Reversed(h: Hunk): Hunk
  {
    h.(fromSegment := h.toSegment, toSegment := h.fromSegment)
  }

  method DeriveHunk(from: seq<string>, to: seq<string>, anchorLines: int) returns (h: Hunk)
    ensures IsHunk(from, to, AnchorCount(anchorLines), h)
  {
    var prefix, suffix := CommonEnds(from, to);
    var anchors := AnchorCount(anchorLines);
    var end := |from| - suffix;
    var start := if prefix <= anchors then 0 else prefix - anchors;
    var stop := Min(|from|, end + anchors);
    assert start == Back(prefix, anchors) && stop == |from| - Back(suffix, anchors);
    h := Hunk(prefix, suffix, from[prefix..end], to[prefix..|to| - suffix], from[start..prefix], from[end..stop]);
  }

  // Next to the block stand as many shared lines as were asked for and exist: the last ones of
  // the shared top, the first ones of the shared bottom.
  lemma {:induction false} AnchorsExactly(from: seq<string>, to: seq<string>, anchors: nat, h: Hunk, top: seq<string>, bottom: seq<string>)
    requires IsHunk(from, to, anchors, h)
    requires from == top + h.fromSegment + bottom && |top| == h.prefix && |bottom| == h.suffix
    ensures |h.prefixAnchor| == Min(anchors, |top|) && h.prefixAnchor == top[|top| - |h.prefixAnchor|..]
    ensures |h.suffixAnchor| == Min(anchors, |bottom|) && h.suffixAnchor == bottom[..|h.suffixAnchor|]
  {
    var p, s := h.prefix, h.suffix;
    assert top == from[..p] && bottom == from[|from| - s..];
    assert top[Back(p, anchors)..] == from[Back(p, anchors)..p];
    assert bottom[..s - Back(s, anchors)] == from[|from| - s..|from| - Back(s, anchors)];
  }

  // The block stands between the lines shared at the top and at the bottom, and its two sides
  // neither begin nor end with the same line.
  lemma {:induction false} HunkExactly(from: seq<string>, to: seq<string>, anchors: nat, h: Hunk) returns (top: seq<string>, bottom: seq<string>)
    requires IsHunk(from, to, anchors, h)
    ensures from == top + h.fromSegment + bottom && to == top + h.toSegment + bottom
    ensures |top| == h.prefix && |bottom| == h.suffix
    ensures h.fromSegment != [] && h.toSegment != [] ==> h.fromSegment[0] != h.toSegment[0]
    ensures h.fromSegment != [] && h.toSegment != [] ==>
              h.fromSegment[|h.fromSegment| - 1] != h.toSegment[|h.toSegment| - 1]
  {
    var p, s := h.prefix, h.suffix;
    top, bottom := from[..p], from[|from| - s..];
    assert top == to[..p] && bottom == to[|to| - s..];
  }

  // There is one hunk between two texts.
  lemma {:induction false} OneHunk(from: seq<string>, to: seq<string>, anchors: nat, h: Hunk, k: Hunk)
    requires IsHunk(from, to, anchors, h) && IsHunk(from, to, anchors, k)
    ensures h == k
  {
  }

  // The hunk of the opposite change is the mirror image, anchors included.
  lemma {:induction false} Mirror(from: seq<string>, to: seq<string>, anchors: nat, h: Hunk, r: Hunk)
    requires IsHunk(from, to, anchors, h)
    ensures IsHunk(to, from, anchors, r) <==> r == Reversed(h)
  {
    var p, s := h.prefix, h.suffix;
    var start, n := Back(p, anchors), s - Back(s, anchors);
    assert from[start..p] == from[..p][start..];
    assert to[start..p] == to[..p][start..];
    assert from[|from| - s..|from| - s + n] == from[|from| - s..][..n];
    assert to[|to| - s..|to| - s + n] == to[|to| - s..][..n];
    assert IsHunk(to, from, anchors, Reversed(h));
    if IsHunk(to, from, anchors, r) {
      OneHunk(to, from, anchors, r, Reversed(h));
    }
  }

  // No way of writing the change as one replaced block has a smaller block on either side.
  lemma {:induction false} Minimal(a: seq<string>, f: seq<string>, t: seq<string>, b: seq<string>, anchors: nat, h: Hunk)
    requires IsHunk(a + f + b, a + t + b, anchors, h)
    ensures |h.fromSegment| <= |f| && |h.toSegment| <= |t|
  {
    var from, to := a + f + b, a + t + b;
    assert from[..|a|] == a == to[..|a|];
    assert from[|from| - |b|..] == b == to[|to| - |b|..];
    EndsAreLong(from, to, h.prefix, h.suffix, |a|, |b|);
  }

  // ---------------------------------------------------------------- finding the block in a text

  predicate MatchesAt(lines: seq<string>, at: int, s: seq<string>)
  {
    0 <= at && at + |s| <= |lines| && lines[at..at + |s|] == s
  }

  predicate Anchored(lines: seq<string>, at: int, h: Hunk)
  {
    && MatchesAt(lines, at, h.fromSegment)
    && MatchesAt(lines, at - |h.prefixAnchor|, h.prefixAnchor)
    && MatchesAt(lines, at + |h.fromSegment|, h.suffixAnchor)
  }

  predicate Fits(lines: seq<string>, at: int, h: Hunk, anchored: bool)
  {
    if anchored then Anchored(lines, at, h) else MatchesAt(lines, at, h.fromSegment)
  }

  // The places before `end`, in order.
  function Places(lines: seq<string>, h: Hunk, anchored: bool, end: nat): (places: seq<nat>)
    ensures forall i :: i in places <==> 0 <= i < end && Fits(lines, i, h, anchored)
  {
    if end == 0 then []
    else
      var before := Places(lines, h, anchored, end - 1);
      if Fits(lines, end - 1, h, anchored) then before + [end - 1] else before
  }

  lemma {:induction false} NoPlaces(lines: seq<string>, h: Hunk, anchored: bool, end: nat)
    requires forall p: nat :: p < end ==> !Fits(lines, p, h, anchored)
    ensures Places(lines, h, anchored, end) == []
  {
    if end > 0 {
      NoPlaces(lines, h, anchored, end - 1);
    }
  }

  lemma {:induction false} OnePlace(lines: seq<string>, h: Hunk, anchored: bool, end: nat, at: nat)
    requires at < end && Fits(lines, at, h, anchored)
    requires forall p: nat :: p < end && p != at ==> !Fits(lines, p, h, anchored)
    ensures Places(lines, h, anchored, end) == [at]
  {
    if at == end - 1 {
      NoPlaces(lines, h, anchored, end - 1);
    } else {
      OnePlace(lines, h, anchored, end - 1, at);
    }
  }

  // Anchored places; where there is none, a replaced block may stand without its anchors,
  // a pure insertion may not.
  function Candidates(lines: seq<string>, h: Hunk): seq<nat>
  {
    var anchored := Places(lines, h, true, |lines| + 1);
    if anchored == [] && h.fromSegment != [] then Places(lines, h, false, |lines| + 1) else anchored
  }

  function Splice(lines: seq<string>, at: nat, count: nat, s: seq<string>): seq<string>
    requires at + count <= |lines|
  {
    lines[..at] + s + lines[at + count..]
  }

  datatype Merge<T> = Merged(content: T, index: nat) | Ambiguous(candidates: nat) | Conflict

  lemma {:induction false} CandidatesFit(lines: seq<string>, h: Hunk, at: nat)
    requires at in Candidates(lines, h)
    ensures MatchesAt(lines, at, h.fromSegment)
    ensures Anchored(lines, at, h) || forall p: nat :: !Anchored(lines, p, h)
  {
    var anchored := Places(lines, h, true, |lines| + 1);
    forall p: nat | Anchored(lines, p, h) ensures p in anchored {
    }
  }

  function MergeLines(lines: seq<string>, h: Hunk): Merge<seq<string>>
  {
    var c := Candidates(lines, h);
    if |c| == 0 then Conflict
    else if |c| > 1 then Ambiguous(|c|)
    else
      CandidatesFit(lines, h, c[0]);
      Merged(Splice(lines, c[0], |h.fromSegment|, h.toSegment), c[0])
  }

  ghost predicate NoPlace(lines: seq<string>, h: Hunk, anchored: bool)
  {
    forall j: nat :: !Fits(lines, j, h, anchored)
  }

  // The one place there is.
  ghost predicate OnlyPlace(lines: seq<string>, h: Hunk, anchored: bool, i: nat)
  {
    Fits(lines, i, h, anchored) && forall j: nat :: Fits(lines, j, h, anchored) ==> j == i
  }

  lemma {:induction false} PlacesTell(lines: seq<string>, h: Hunk, anchored: bool)
    ensures var p := Places(lines, h, anchored, |lines| + 1); p == [] <==> NoPlace(lines, h, anchored)
    ensures forall i: nat :: Places(lines, h, anchored, |lines| + 1) == [i] <==> OnlyPlace(lines, h, anchored, i)
  {
    var p := Places(lines, h, anchored, |lines| + 1);
    forall j: nat | Fits(lines, j, h, anchored) ensures j in p {
    }
    if p != [] {
      assert p[0] in p;
    }
    forall i: nat ensures p == [i] <==> OnlyPlace(lines, h, anchored, i) {
      if OnlyPlace(lines, h, anchored, i) {
        OnePlace(lines, h, anchored, |lines| + 1, i);
      }
      if p == [i] {
        assert i in p;
        forall j: nat | Fits(lines, j, h, anchored) ensures j == i {
          assert j in p;
        }
      }
    }
  }

  // Where a change goes: beside its anchors, when they are at one place only; without them,
  // when they are nowhere, something is replaced, and it is at one place only.
  ghost predicate GoesTo(lines: seq<string>, h: Hunk, i: nat)
  {
    OnlyPlace(lines, h, true, i) || (NoPlace(lines, h, true) && h.fromSegment != [] && OnlyPlace(lines, h, false, i))
  }

  lemma {:induction false} CandidatesTell(lines: seq<string>, h: Hunk)
    ensures forall i: nat :: Candidates(lines, h) == [i] <==> GoesTo(lines, h, i)
    ensures Candidates(lines, h) == [] <==> NoPlace(lines, h, true) && (h.fromSegment == [] || NoPlace(lines, h, false))
  {
    PlacesTell(lines, h, true);
    PlacesTell(lines, h, false);
  }

  // A change is merged at the one place where it goes; it is a conflict when it has no place at
  // all, and ambiguous when it has several.
  lemma {:induction false} MergeExactly(lines: seq<string>, h: Hunk)
    ensures forall i: nat :: GoesTo(lines, h, i) ==>
              && i + |h.fromSegment| <= |lines|
              && MergeLines(lines, h) == Merged(lines[..i] + h.toSegment + lines[i + |h.fromSegment|..], i)
    ensures MergeLines(lines, h).Merged? ==> GoesTo(lines, h, MergeLines(lines, h).index)
    ensures MergeLines(lines, h).Conflict? <==>
              NoPlace(lines, h, true) && (h.fromSegment == [] || NoPlace(lines, h, false))
  {
    CandidatesTell(lines, h);
    var c := Candidates(lines, h);
    if |c| == 1 {
      CandidatesFit(lines, h, c[0]);
      assert c == [c[0]];
    }
  }

  function MergeText(text: string, h: Hunk): Merge<string>
  {
    match MergeLines(Split(text), h)
    case Merged(lines, index) => Merged(Join(lines), index)
    case Ambiguous(n) => Ambiguous(n)
    case Conflict => Conflict
  }

  method SliceEqual(source: seq<string>, start: int, expected: seq<string>) returns (equal: bool)
    ensures equal == MatchesAt(source, start, expected)
  {
    if start < 0 || start + |expected| > |source| { return false; }
    for i := 0 to |expected|
      invariant source[start..start + i] == expected[..i]
    {
      if source[start + i] != expected[i] {
        assert source[start..start + |expected|][i] != expected[i];
        return false;
      }
      assert source[start..start + i + 1] == source[start..start + i] + [source[start + i]];
      TakeNext(expected, i);
    }
    return true;
  }

  lemma {:induction false} NoPlaceNearTheEnd(lines: seq<string>, h: Hunk, from: nat, end: nat)
    requires from <= end && from + |h.fromSegment| > |lines|
    ensures Places(lines, h, false, end) == Places(lines, h, false, from)
  {
    if from < end {
      NoPlaceNearTheEnd(lines, h, from, end - 1);
    }
  }

  method SequenceMatches(lines: seq<string>, ghost h: Hunk, s: seq<string>) returns (matches: seq<nat>)
    requires s == h.fromSegment && s != []
    ensures matches == Places(lines, h, false, |lines| + 1)
  {
    matches := [];
    var i := 0;
    while i <= |lines| - |s|
      invariant i <= |lines| && matches == Places(lines, h, false, i)
    {
      var equal := SliceEqual(lines, i, s);
      if equal {
        matches := matches + [i];
      }
      i := i + 1;
    }
    NoPlaceNearTheEnd(lines, h, i, |lines| + 1);
  }

  function OnlyAnchored(lines: seq<string>, h: Hunk, places: seq<nat>): seq<nat>
  {
    if places == [] then []
    else
      var before := OnlyAnchored(lines, h, places[..|places| - 1]);
      var last := places[|places| - 1];
      if Anchored(lines, last, h) then before + [last] else before
  }

  lemma {:induction false} AnchoredPlaces(lines: seq<string>, h: Hunk, end: nat)
    ensures OnlyAnchored(lines, h, Places(lines, h, false, end)) == Places(lines, h, true, end)
  {
    if end > 0 {
      AnchoredPlaces(lines, h, end - 1);
      var before := Places(lines, h, false, end - 1);
      assert (before + [end - 1])[..|before|] == before;
    }
  }

  // Of the places of the block, those with both anchors beside them.
  method KeepAnchored(lines: seq<string>, h: Hunk, matches: seq<nat>) returns (kept: seq<nat>)
    requires forall k :: 0 <= k < |matches| ==> MatchesAt(lines, matches[k], h.fromSegment)
    ensures kept == OnlyAnchored(lines, h, matches)
  {
    kept := [];
    for i := 0 to |matches|
      invariant kept == OnlyAnchored(lines, h, matches[..i])
    {
      var at := matches[i];
      var before := SliceEqual(lines, at - |h.prefixAnchor|, h.prefixAnchor);
      var after := SliceEqual(lines, at + |h.fromSegment|, h.suffixAnchor);
      assert matches[..i + 1][..i] == matches[..i];
      if (h.prefixAnchor == [] || before) && (h.suffixAnchor == [] || after) {
        kept := kept + [at];
      }
    }
    assert matches[..|matches|] == matches;
  }

  method BoundaryMatches(lines: seq<string>, index: nat, prefixAnchor: seq<string>, suffixAnchor: seq<string>) returns (ok: bool)
    requires index <= |lines|
    ensures ok == (MatchesAt(lines, index - |prefixAnchor|, prefixAnchor) && MatchesAt(lines, index, suffixAnchor))
  {
    if prefixAnchor != [] {
      var before := SliceEqual(lines, index - |prefixAnchor|, prefixAnchor);
      if !before { return false; }
    }
    if suffixAnchor != [] {
      var after := SliceEqual(lines, index, suffixAnchor);
      if !after { return false; }
    }
    return true;
  }

  lemma {:induction false} AnchoredGap(lines: seq<string>, h: Hunk, i: nat)
    requires h.fromSegment == [] && i <= |lines|
    ensures Fits(lines, i, h, true)
            <==> MatchesAt(lines, i - |h.prefixAnchor|, h.prefixAnchor) && MatchesAt(lines, i, h.suffixAnchor)
  {
    assert lines[i..i] == [];
  }

  // The pure-insertion case: every gap between lines is a place.
  method Gaps(lines: seq<string>, h: Hunk) returns (candidates: seq<nat>)
    requires h.fromSegment == []
    ensures candidates == Places(lines, h, true, |lines| + 1)
  {
    candidates := [];
    var i := 0;
    while i <= |lines|
      invariant i <= |lines| + 1 && candidates == Places(lines, h, true, i)
    {
      var ok := BoundaryMatches(lines, i, h.prefixAnchor, h.suffixAnchor);
      AnchoredGap(lines, h, i);
      if ok {
        candidates := candidates + [i];
      }
      i := i + 1;
    }
  }

  method FindCandidates(lines: seq<string>, h: Hunk) returns (candidates: seq<nat>)
    ensures candidates == Candidates(lines, h)
  {
    if h.fromSegment != [] {
      var matches := SequenceMatches(lines, h, h.fromSegment);
      forall k | 0 <= k < |matches| ensures MatchesAt(lines, matches[k], h.fromSegment) {
        assert matches[k] in matches;
      }
      candidates := KeepAnchored(lines, h, matches);
      AnchoredPlaces(lines, h, |lines| + 1);
      if candidates == [] {
        candidates := matches;
      }
    } else {
      candidates := Gaps(lines, h);
    }
  }

  method ApplyHunk(currentText: string, h: Hunk) returns (r: Merge<string>)
    ensures r == MergeText(currentText, h)
  {
    var current := Split(currentText);
    var candidates := FindCandidates(current, h);
    if |candidates| != 1 {
      return if candidates != [] then Ambiguous(|candidates|) else Conflict;
    }
    var index := candidates[0];
    CandidatesFit(current, h, index);
    var next := current[..index] + h.toSegment + current[index + |h.fromSegment|..];
    return Merged(Join(next), index);
  }

  // ---------------------------------------------------------------- taking the replacement back

  // Replacing at one place: the new block is there, and what is beside it has not changed.
  lemma {:induction false} Replacing(lines: seq<string>, at: nat, from: seq<string>, to: seq<string>)
    requires MatchesAt(lines, at, from)
    ensures var next := Splice(lines, at, |from|, to);
            && at + |to| <= |next| && MatchesAt(next, at, to)
            && next[..at] == lines[..at] && next[at + |to|..] == lines[at + |from|..]
            && Splice(next, at, |to|, from) == lines
  {
  }

  // Replacing and replacing back at one place; the anchors do not notice.
  lemma {:induction false} SamePlace(lines: seq<string>, h: Hunk, at: nat)
    requires MatchesAt(lines, at, h.fromSegment)
    ensures var next := Splice(lines, at, |h.fromSegment|, h.toSegment);
            && MatchesAt(next, at, h.toSegment) && Splice(next, at, |h.toSegment|, h.fromSegment) == lines
            && (Anchored(lines, at, h) <==> Anchored(next, at, Reversed(h)))
  {
    var next := Splice(lines, at, |h.fromSegment|, h.toSegment);
    Replacing(lines, at, h.fromSegment, h.toSegment);
    AnchorsStay(lines, next, h, at);
  }

  lemma {:induction false} AnchorsStay(a: seq<string>, b: seq<string>, h: Hunk, at: nat)
    requires MatchesAt(a, at, h.fromSegment) && MatchesAt(b, at, h.toSegment)
    requires a[..at] == b[..at] && a[at + |h.fromSegment|..] == b[at + |h.toSegment|..]
    ensures Anchored(a, at, h) <==> Anchored(b, at, Reversed(h))
  {
    var r := Reversed(h);
    assert r.prefixAnchor == h.prefixAnchor && r.suffixAnchor == h.suffixAnchor && r.fromSegment == h.toSegment;
    assert MatchesAt(a, at - |h.prefixAnchor|, h.prefixAnchor) <==> MatchesAt(b, at - |h.prefixAnchor|, h.prefixAnchor) by {
      SameBefore(a, b, at, h.prefixAnchor);
    }
    assert MatchesAt(a, at + |h.fromSegment|, h.suffixAnchor) <==> MatchesAt(b, at + |h.toSegment|, h.suffixAnchor) by {
      SameAfter(a, b, at + |h.fromSegment|, at + |h.toSegment|, h.suffixAnchor);
    }
  }

  lemma {:induction false} SameAfter(a: seq<string>, b: seq<string>, i: nat, j: nat, s: seq<string>)
    requires i <= |a| && j <= |b| && a[i..] == b[j..]
    ensures MatchesAt(a, i, s) <==> MatchesAt(b, j, s)
  {
    assert |a| - i == |a[i..]| == |b| - j;
    if i + |s| <= |a| {
      assert a[i..i + |s|] == a[i..][..|s|];
      assert b[j..j + |s|] == b[j..][..|s|];
    }
  }

  lemma {:induction false} SameBefore(a: seq<string>, b: seq<string>, at: nat, s: seq<string>)
    requires at <= |a| && at <= |b| && a[..at] == b[..at]
    ensures MatchesAt(a, at - |s|, s) <==> MatchesAt(b, at - |s|, s)
  {
    if |s| <= at {
      assert a[at - |s|..at] == a[..at][at - |s|..];
      assert b[at - |s|..at] == b[..at][at - |s|..];
    }
  }

  // Of a hunk that went in and came out again: it came out where it went in exactly when
  // it went in beside its anchors or the anchors are nowhere afterwards - and then the
  // lines are back as they were.
  lemma {:induction false} BackAtTheSamePlace(lines: seq<string>, h: Hunk)
    requires MergeLines(lines, h).Merged?
    requires MergeLines(MergeLines(lines, h).content, Reversed(h)).Merged?
    ensures var there := MergeLines(lines, h);
            var back := MergeLines(there.content, Reversed(h));
            && (back.index == there.index <==>
                  Anchored(lines, there.index, h) || forall p: nat :: !Anchored(there.content, p, Reversed(h)))
            && (back.index == there.index ==> back.content == lines)
  {
    var there := MergeLines(lines, h);
    var r := Reversed(h);
    var at := there.index;
    CandidatesFit(lines, h, at);
    SamePlace(lines, h, at);
    var next := there.content;
    var back := MergeLines(next, r);
    var c := Candidates(next, r);
    assert c == [back.index];
    CandidatesFit(next, r, back.index);
    var anchored := Places(next, r, true, |next| + 1);
    if Anchored(next, at, r) {
      assert at in anchored;
    } else if forall p: nat :: !Anchored(next, p, r) {
      NoPlaces(next, r, true, |next| + 1);
      assert h.toSegment != [];
      assert Fits(next, at, r, false);
      assert at in Places(next, r, false, |next| + 1);
    }
  }

  predicate Clean(lines: seq<string>)
  {
    forall i :: 0 <= i < |lines| ==> '\n' !in lines[i]
  }

  // The way back of a text-level replacement is the way back of its lines.
  lemma {:induction false} BackOnText(text: string, h: Hunk)
    requires MergeLines(Split(text), h).Merged? && Clean(h.toSegment)
    requires MergeLines(Split(text), h).content != []
    ensures var there := MergeLines(Split(text), h);
            && MergeText(text, h) == Merged(Join(there.content), there.index)
            && Split(MergeText(text, h).content) == there.content
  {
    var lines := Split(text);
    var there := MergeLines(lines, h);
    CandidatesFit(lines, h, there.index);
    assert there.content == Splice(lines, there.index, |h.fromSegment|, h.toSegment);
    assert Clean(there.content);
    SplitOfJoin(there.content);
  }

  // Undoing what was done beside its anchors restores the text exactly, whatever else the
  // text holds and also for pure insertions and deletions.
  lemma {:induction false} RoundTrip(from: seq<string>, to: seq<string>, anchorLines: int, text: string, h: Hunk)
    requires to != [] && Clean(to) && IsHunk(from, to, AnchorCount(anchorLines), h)
    requires MergeText(text, h).Merged? && Anchored(Split(text), MergeText(text, h).index, h)
    ensures forall r :: IsHunk(to, from, AnchorCount(anchorLines), r) && MergeText(MergeText(text, h).content, r).Merged? ==>
              MergeText(MergeText(text, h).content, r) == Merged(text, MergeText(text, h).index)
  {
    var n := AnchorCount(anchorLines);
    var next := MergeText(text, h).content;
    forall r | IsHunk(to, from, n, r) && MergeText(next, r).Merged? ensures MergeText(next, r) == Merged(text, MergeText(text, h).index) {
      Mirror(from, to, n, h, r);
      RoundTripOfMirror(from, to, n, text, h);
    }
  }

  lemma {:induction false} RoundTripOfMirror(from: seq<string>, to: seq<string>, anchors: nat, text: string, h: Hunk)
    requires IsHunk(from, to, anchors, h) && anchors > 0 && to != [] && Clean(to)
    requires MergeText(text, h).Merged? && Anchored(Split(text), MergeText(text, h).index, h)
    requires MergeText(MergeText(text, h).content, Reversed(h)).Merged?
    ensures MergeText(MergeText(text, h).content, Reversed(h)) == Merged(text, MergeText(text, h).index)
  {
    var lines := Split(text);
    var there := MergeLines(lines, h);
    CandidatesFit(lines, h, there.index);
    assert Clean(h.toSegment);
    BackOnText(text, h);
    BackAtTheSamePlace(lines, h);
    JoinOfSplit(text);
  }

  // Without the anchors the way back can lead elsewhere: deleting the "b" after "a" from
  // the lines "b", "a" takes the only "b" there is; putting it back follows the anchor.
  lemma {:induction false} AnchorsMatter(h: Hunk)
    requires h == Hunk(1, 0, ["b"], [], ["a"], [])
    ensures IsHunk(["a", "b"], ["a"], 3, h)
    ensures MergeLines(["b", "a"], h) == Merged(["a"], 0)
    ensures MergeLines(["a"], Reversed(h)) == Merged(["a", "b"], 1)
  {
    OnlyB(["b", "a"], h);
    AfterA(["a"], Reversed(h));
    assert ["a", "b"][..1] == ["a"] && ["a"][..1] == ["a"];
  }

  lemma {:induction false} OnlyB(lines: seq<string>, h: Hunk)
    requires h == Hunk(1, 0, ["b"], [], ["a"], []) && lines == ["b", "a"]
    ensures MergeLines(lines, h) == Merged(["a"], 0)
  {
    assert lines[1..2] == ["a"] && lines[0..1] == ["b"];
    assert forall p: nat :: p < 3 ==> !Fits(lines, p, h, true);
    assert forall p: nat :: p < 3 && p != 0 ==> !Fits(lines, p, h, false);
    NoPlaces(lines, h, true, 3);
    OnePlace(lines, h, false, 3, 0);
    assert Splice(lines, 0, 1, []) == ["a"];
  }

  lemma {:induction false} AfterA(lines: seq<string>, h: Hunk)
    requires h == Hunk(1, 0, [], ["b"], ["a"], []) && lines == ["a"]
    ensures MergeLines(lines, h) == Merged(["a", "b"], 1)
  {
    assert MatchesAt(lines, 0, ["a"]) by {
      assert lines[0..1] == ["a"];
    }
    OnlyAnchoredPlace(lines, h, 1);
    assert Splice(lines, 1, 0, ["b"]) == ["a", "b"];
  }

  lemma {:induction false} OnlyAnchoredPlace(lines: seq<string>, h: Hunk, at: nat)
    requires at <= |lines| && Anchored(lines, at, h)
    requires forall p: nat :: p <= |lines| && p != at ==> !Anchored(lines, p, h)
    ensures MergeLines(lines, h) == Merged(Splice(lines, at, |h.fromSegment|, h.toSegment), at)
  {
    OnePlace(lines, h, true, |lines| + 1, at);
  }
}
