// Two more views of a change - the line counts of the scope report and the window of the
// patch preview. They find the block the reversal hunk finds.
module ChangeViews {
  import opened Common
  import opened Lines
  import opened Hunks

  // `touchedRatio`, a rounded quotient of two of these counts, is left out.
  datatype Delta = Delta(beforeLines: nat, afterLines: nat, added: nat, removed: nat, touched: nat, prefix: nat, suffix: nat)

  method LineDelta(before: seq<string>, after: seq<string>) returns (d: Delta)
    ensures exists h ::
              && IsHunk(before, after, 3, h)
              && d.prefix == h.prefix && d.suffix == h.suffix && d.removed == |h.fromSegment| && d.added == |h.toSegment|
    ensures d.touched >= d.added && d.touched >= d.removed && d.touched in {d.added, d.removed}
    ensures d.beforeLines == |before| && d.afterLines == |after|
  {
    var prefix, suffix := CommonEnds(before, after);
    var removed := Max(0, |before| - prefix - suffix);
    var added := Max(0, |after| - prefix - suffix);
    d := Delta(|before|, |after|, added, removed, Max(removed, added), prefix, suffix);
    assert IsHunk(before, after, 3, HunkAt(before, after, prefix, suffix, 3));
  }

  datatype Window = Window(prefix: seq<string>, removed: seq<string>, added: seq<string>, suffix: seq<string>, truncated: bool)

  function WindowLimit(maxLines: int): (n: nat)
    ensures 4 <= n <= 80
  {
    Max(4, Min(80, if maxLines == 0 then 18 else maxLines))
  }

  // The first `limit` lines of either side, two lines of context.
  function WindowOf(left: seq<string>, right: seq<string>, h: Hunk, limit: nat): Window
    requires h.prefix <= |left| && h.suffix <= |right|
  {
    Window(left[Back(h.prefix, 2)..h.prefix],
           h.fromSegment[..Min(|h.fromSegment|, limit)], h.toSegment[..Min(|h.toSegment|, limit)],
           right[|right| - h.suffix..|right| - Back(h.suffix, 2)],
           |h.fromSegment| > limit || |h.toSegment| > limit)
  }

  // Here the bottom ends are counted down as two indices.
  method ChangedEnds(left: seq<string>, right: seq<string>) returns (start: nat, leftEnd: int, rightEnd: int)
    ensures start - 1 <= leftEnd < |left| && start - 1 <= rightEnd < |right| && |left| - leftEnd == |right| - rightEnd
    ensures SharedEnds(left, right, start, |left| - 1 - leftEnd)
  {
    start := 0;
    while start < |left| && start < |right| && left[start] == right[start]
      invariant start <= |left| && start <= |right| && left[..start] == right[..start]
    {
      start := start + 1;
    }
    leftEnd, rightEnd := |left| - 1, |right| - 1;
    while leftEnd >= start && rightEnd >= start && left[leftEnd] == right[rightEnd]
      invariant start - 1 <= leftEnd < |left| && start - 1 <= rightEnd < |right| && |left| - leftEnd == |right| - rightEnd
      invariant left[leftEnd + 1..] == right[rightEnd + 1..]
    {
      assert left[leftEnd..] == [left[leftEnd]] + left[leftEnd + 1..];
      assert right[rightEnd..] == [right[rightEnd]] + right[rightEnd + 1..];
      leftEnd, rightEnd := leftEnd - 1, rightEnd - 1;
    }
  }

  method ChangedWindow(left: seq<string>, right: seq<string>, maxLines: int) returns (w: Window)
    ensures exists h :: IsHunk(left, right, 3, h) && w == WindowOf(left, right, h, WindowLimit(maxLines))
  {
    var start, leftEnd, rightEnd := ChangedEnds(left, right);
    ghost var h := HunkAt(left, right, start, |left| - 1 - leftEnd, 3);
    w := CutWindow(left, right, start, leftEnd, rightEnd, WindowLimit(maxLines), h);
    assert IsHunk(left, right, 3, h);
  }

  method CutWindow(left: seq<string>, right: seq<string>, start: nat, leftEnd: int, rightEnd: int, limit: nat, ghost h: Hunk)
    returns (w: Window)
    requires start - 1 <= leftEnd < |left| && start - 1 <= rightEnd < |right| && |left| - leftEnd == |right| - rightEnd
    requires h == HunkAt(left, right, start, |left| - 1 - leftEnd, 3)
    ensures w == WindowOf(left, right, h, limit)
  {
    var context := if start <= 2 then 0 else start - 2;
    var from, to := Max(start, rightEnd + 1), Min(|right|, rightEnd + 3);
    var removedEnd, addedEnd := Min(leftEnd + 1, start + limit), Min(rightEnd + 1, start + limit);
    FirstLines(left, start, leftEnd + 1, limit);
    FirstLines(right, start, rightEnd + 1, limit);
    assert from == |right| - h.suffix && to == |right| - Back(h.suffix, 2);
    w := Window(left[context..start], left[start..removedEnd], right[start..addedEnd], right[from..to],
                leftEnd - start + 1 > limit || rightEnd - start + 1 > limit);
  }

  lemma {:induction false} FirstLines(s: seq<string>, start: nat, end: nat, limit: nat)
    requires start <= end <= |s|
    ensures s[start..Min(end, start + limit)] == s[start..end][..Min(end - start, limit)]
  {
  }

  // A window that is not cut off turns the old text into the new one and back.
  lemma {:induction false} WindowRebuilds(left: seq<string>, right: seq<string>, h: Hunk, limit: nat)
    requires IsHunk(left, right, 3, h) && !WindowOf(left, right, h, limit).truncated
    ensures var w := WindowOf(left, right, h, limit);
            && Splice(left, h.prefix, |w.removed|, w.added) == right
            && Splice(right, h.prefix, |w.added|, w.removed) == left
  {
    var p, s := h.prefix, h.suffix;
    assert h.fromSegment[..|h.fromSegment|] == h.fromSegment && h.toSegment[..|h.toSegment|] == h.toSegment;
    assert left == left[..p] + h.fromSegment + left[|left| - s..];
    assert right == right[..p] + h.toSegment + right[|right| - s..];
  }
}
