// Texts as lists of lines, and the longest common ends of two such lists.
module Lines {
  // split('\n'): always at least one line.
  function Split(s: string): (lines: seq<string>)
    ensures lines != [] && forall i :: 0 <= i < |lines| ==> '\n' !in lines[i]
  {
    if s == [] then [""]
    else
      var rest := Split(s[1..]);
      if s[0] == '\n' then [""] + rest else [[s[0]] + rest[0]] + rest[1..]
  }

  // join('\n'): no lines and one empty line both give the empty text.
  function Join(lines: seq<string>): string
  {
    if lines == [] then "" else if |lines| == 1 then lines[0] else lines[0] + "\n" + Join(lines[1..])
  }

  lemma {:induction false} JoinOfSplit(s: string)
    ensures Join(Split(s)) == s
  {
    if s != [] {
      JoinOfSplit(s[1..]);
      var rest := Split(s[1..]);
      assert [s[0]] + s[1..] == s;
      if s[0] == '\n' {
        assert ([""] + rest)[1..] == rest;
      } else if |rest| > 1 {
        var lines := [[s[0]] + rest[0]] + rest[1..];
        assert lines[1..] == rest[1..];
        assert Join(lines) == [s[0]] + (rest[0] + "\n" + Join(rest[1..]));
      }
    }
  }

  lemma {:induction false} SplitLine(line: string)
    requires '\n' !in line
    ensures Split(line) == [line]
  {
    if line != [] {
      SplitLine(line[1..]);
      assert [line[0]] + line[1..] == line && [line[1..]][1..] == [];
    }
  }

  lemma {:induction false} SplitHead(line: string, rest: string)
    requires '\n' !in line
    ensures Split(line + "\n" + rest) == [line] + Split(rest)
  {
    var s := line + "\n" + rest;
    if line == [] {
      assert s[1..] == rest;
    } else {
      assert s[1..] == line[1..] + "\n" + rest;
      SplitHead(line[1..], rest);
      assert [line[0]] + line[1..] == line && ([line[1..]] + Split(rest))[1..] == Split(rest);
    }
  }

  lemma {:induction false} SplitOfJoin(lines: seq<string>)
    requires lines != [] && forall i :: 0 <= i < |lines| ==> '\n' !in lines[i]
    ensures Split(Join(lines)) == lines
  {
    if |lines| == 1 {
      SplitLine(lines[0]);
    } else {
      SplitOfJoin(lines[1..]);
      SplitHead(lines[0], Join(lines[1..]));
    }
  }

  // ---------------------------------------------------------------- common ends

  // `p` lines are shared at the top and `s` more at the bottom, below those; neither end
  // can be extended.
  predicate SharedEnds(a: seq<string>, b: seq<string>, p: nat, s: nat)
  {
    && p + s <= |a| && p + s <= |b|
    && a[..p] == b[..p] && a[|a| - s..] == b[|b| - s..]
    && (p < |a| && p < |b| ==> a[p] != b[p])
    && (p + s < |a| && p + s < |b| ==> a[|a| - 1 - s] != b[|b| - 1 - s])
  }

  // The shared ends cover whatever else the two have in common at top and bottom.
  lemma {:induction false} EndsAreLong(a: seq<string>, b: seq<string>, p: nat, s: nat, n: nat, m: nat)
    requires SharedEnds(a, b, p, s)
    requires n + m <= |a| && n + m <= |b| && a[..n] == b[..n] && a[|a| - m..] == b[|b| - m..]
    ensures n <= p && n + m <= p + s
  {
  }

  // Counting equal lines from the top, then from the bottom without meeting the top.
  method CommonEnds(a: seq<string>, b: seq<string>) returns (prefix: nat, suffix: nat)
    ensures SharedEnds(a, b, prefix, suffix)
  {
    prefix := 0;
    while prefix < |a| && prefix < |b| && a[prefix] == b[prefix]
      invariant prefix <= |a| && prefix <= |b| && a[..prefix] == b[..prefix]
    {
      prefix := prefix + 1;
    }
    suffix := 0;
    while suffix < |a| - prefix && suffix < |b| - prefix && a[|a| - 1 - suffix] == b[|b| - 1 - suffix]
      invariant prefix + suffix <= |a| && prefix + suffix <= |b| && a[|a| - suffix..] == b[|b| - suffix..]
    {
      assert a[|a| - 1 - suffix..] == [a[|a| - 1 - suffix]] + a[|a| - suffix..];
      assert b[|b| - 1 - suffix..] == [b[|b| - 1 - suffix]] + b[|b| - suffix..];
      suffix := suffix + 1;
    }
  }
}
