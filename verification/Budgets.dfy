// Byte budgets of the context pack. Texts are UTF-16 code units, budgets count the bytes
// of their UTF-8 form.
module Budgets {
  import opened Common

  type Unit = x: nat | x < 0x10000

  type Text = seq<Unit>

  predicate IsHigh(u: Unit) { 0xD800 <= u < 0xDC00 }

  predicate IsLow(u: Unit) { 0xDC00 <= u < 0xE000 }

  // A unit on its own; a lone surrogate is encoded as the replacement character.
  function UnitBytes(u: Unit): (n: nat)
    ensures 1 <= n <= 3
  {
    if u < 0x80 then 1 else if u < 0x800 then 2 else 3
  }

  function Utf8(s: Text): nat
  {
    if s == [] then 0
    else if |s| > 1 && IsHigh(s[0]) && IsLow(s[1]) then 4 + Utf8(s[2..])
    else UnitBytes(s[0]) + Utf8(s[1..])
  }

  // One more unit always costs something, also the one that completes a surrogate pair.
  lemma {:induction false} OneMoreUnit(s: Text, u: Unit)
    ensures Utf8(s) < Utf8(s + [u]) <= Utf8(s) + 3
  {
    var t := s + [u];
    if s == [] {
      assert t[1..] == [];
    } else if |s| > 1 && IsHigh(s[0]) && IsLow(s[1]) {
      assert t[2..] == s[2..] + [u];
      OneMoreUnit(s[2..], u);
    } else {
      assert t[1..] == s[1..] + [u];
      if |s| == 1 && IsHigh(s[0]) && IsLow(u) {
        assert t[2..] == [] && s[1..] == [];
      } else {
        OneMoreUnit(s[1..], u);
      }
    }
  }

  lemma {:induction false} LongerCostsMore(s: Text, i: nat, j: nat)
    requires i <= j <= |s|
    ensures Utf8(s[..i]) <= Utf8(s[..j])
    decreases j
  {
    if i < j {
      LongerCostsMore(s, i, j - 1);
      TakeNext(s, j - 1);
      OneMoreUnit(s[..j - 1], s[j - 1]);
    }
  }

  // ---------------------------------------------------------------- cutting a text to a budget

  // The longest prefix within the budget.
  ghost predicate Fits(s: Text, budget: nat, r: Text)
  {
    r <= s && Utf8(r) <= budget && forall k :: |r| < k <= |s| ==> Utf8(s[..k]) > budget
  }

  method BudgetedText(s: Text, budget: nat) returns (text: Text, truncated: bool, size: nat)
    ensures Fits(s, budget, text) && size == Utf8(text)
    ensures truncated <==> text != s
    // Little is given away: the next unit would not have fitted.
    ensures truncated ==> size + 3 > budget
  {
    var whole := Utf8(s);
    if whole <= budget { return s, false, whole; }
    assert s[..|s|] == s;
    var low, high := 0, |s|;
    while low < high
      invariant low <= high <= |s| && Utf8(s[..low]) <= budget
      invariant forall k :: high < k <= |s| ==> Utf8(s[..k]) > budget
    {
      var mid := (low + high + 1) / 2;
      if Utf8(s[..mid]) <= budget {
        low := mid;
      } else {
        forall k | mid <= k <= |s| ensures Utf8(s[..k]) > budget {
          LongerCostsMore(s, mid, k);
        }
        high := mid - 1;
      }
    }
    text := s[..low];
    TakeNext(s, low);
    OneMoreUnit(text, s[low]);
    return text, true, Utf8(text);
  }

  lemma {:induction false} FitIsUnique(s: Text, budget: nat, r: Text, t: Text)
    requires Fits(s, budget, r) && Fits(s, budget, t)
    ensures r == t
  {
    assert r == s[..|r|] && t == s[..|t|];
  }

  // ---------------------------------------------------------------- an excerpt of a long file

  datatype Piece = Shown(line: nat) | Omitted(first: int, last: int)

  // Cut at the line feeds.
  function LinesOf(s: Text): (lines: seq<Text>)
    ensures lines != []
  {
    if s == [] then [[]]
    else
      var rest := LinesOf(s[1..]);
      if s[0] == 10 then [[]] + rest else [[s[0]] + rest[0]] + rest[1..]
  }

  function JoinLines(parts: seq<Text>): Text
  {
    if parts == [] then []
    else if |parts| == 1 then parts[0]
    else parts[0] + [10] + JoinLines(parts[1..])
  }

  // Of the first `n` lines those that mention a word of the request, at most sixteen.
  function Hits(lines: seq<Text>, mentions: Text -> bool, n: nat): (hits: seq<nat>)
    requires n <= |lines|
    ensures |hits| <= 16 && forall k :: 0 <= k < |hits| ==> hits[k] < n && mentions(lines[hits[k]])
  {
    if n == 0 then []
    else
      var before := Hits(lines, mentions, n - 1);
      if |before| < 16 && mentions(lines[n - 1]) then before + [n - 1] else before
  }

  method FindMatches(lines: seq<Text>, mentions: Text -> bool) returns (matches: seq<nat>)
    ensures matches == Hits(lines, mentions, |lines|)
  {
    matches := [];
    for i := 0 to |lines|
      invariant matches == Hits(lines, mentions, i) && |matches| < 16
    {
      if mentions(lines[i]) {
        matches := matches + [i];
      }
      if |matches| >= 16 {
        FullStays(lines, mentions, i + 1, |lines|);
        break;
      }
    }
  }

  lemma {:induction false} FullStays(lines: seq<Text>, mentions: Text -> bool, m: nat, n: nat)
    requires m <= n <= |lines| && |Hits(lines, mentions, m)| == 16
    ensures Hits(lines, mentions, n) == Hits(lines, mentions, m)
    decreases n
  {
    if m < n {
      FullStays(lines, mentions, m, n - 1);
    }
  }

  // The hits are in order; a mention that is not among them comes after sixteen others.
  lemma {:induction false} HitsAreFirst(lines: seq<Text>, mentions: Text -> bool, n: nat, i: nat)
    requires i < n <= |lines|
    ensures var hits := Hits(lines, mentions, n);
            && (forall j, k :: 0 <= j < k < |hits| ==> hits[j] < hits[k])
            && (mentions(lines[i]) && i !in hits ==> |hits| == 16 && forall k :: 0 <= k < |hits| ==> hits[k] < i)
  {
    if i < n - 1 {
      HitsAreFirst(lines, mentions, n - 1, i);
    } else if n > 1 {
      HitsAreFirst(lines, mentions, n - 1, 0);
    }
    var before := Hits(lines, mentions, n - 1);
    var hits := Hits(lines, mentions, n);
    if hits != before {
      assert hits[|before|] == n - 1;
    }
  }

  predicate NearMatch(matches: seq<nat>, i: int)
  {
    exists k :: 0 <= k < |matches| && matches[k] - 18 <= i <= matches[k] + 30
  }

  function LastShown(pieces: seq<Piece>): int
  {
    if pieces == [] then -2
    else if pieces[|pieces| - 1].Shown? then pieces[|pieces| - 1].line
    else LastShown(pieces[..|pieces| - 1])
  }

  // The lines near a match, in order, a marker before each that does not follow the last.
  function Excerpt(matches: seq<nat>, count: nat): seq<Piece>
  {
    if count == 0 then []
    else
      var before := Excerpt(matches, count - 1);
      var i := count - 1;
      if !NearMatch(matches, i) then before
      else if i > LastShown(before) + 1 then before + [Omitted(LastShown(before) + 2, i), Shown(i)]
      else before + [Shown(i)]
  }

  method Assemble(matches: seq<nat>, count: nat) returns (out: seq<Piece>)
    ensures out == Excerpt(matches, count)
  {
    out := [];
    var last := -2;
    for i := 0 to count
      invariant out == Excerpt(matches, i) && last == LastShown(out)
    {
      if NearMatch(matches, i) {
        if i > last + 1 {
          out := out + [Omitted(last + 2, i)];
        }
        out := out + [Shown(i)];
        last := i;
      }
    }
  }

  lemma {:induction false} LastShownIsLast(matches: seq<nat>, count: nat)
    ensures var p := Excerpt(matches, count); LastShown(p) < count && (p != [] ==> p[|p| - 1].Shown? && p[|p| - 1].line == LastShown(p))
    ensures forall i :: LastShown(Excerpt(matches, count)) < i < count && i >= 0 ==> !NearMatch(matches, i)
    ensures Excerpt(matches, count) == [] <==> LastShown(Excerpt(matches, count)) == -2
  {
    if count > 0 {
      LastShownIsLast(matches, count - 1);
    }
  }

  // The excerpt shows exactly the lines near a match.
  lemma {:induction false} ShowsWhatIsNear(matches: seq<nat>, count: nat, i: nat)
    requires i < count
    ensures Shown(i) in Excerpt(matches, count) <==>
            exists k :: 0 <= k < |matches| && matches[k] - 18 <= i <= matches[k] + 30
  {
    if i < count - 1 {
      ShowsWhatIsNear(matches, count - 1, i);
    } else {
      NotYetShown(matches, count - 1, i);
    }
  }

  lemma {:induction false} NotYetShown(matches: seq<nat>, count: nat, i: nat)
    requires count <= i
    ensures Shown(i) !in Excerpt(matches, count)
  {
    if count > 0 {
      NotYetShown(matches, count - 1, i);
    }
  }

  // A marker between two shown lines names the lines left out between them, counted from
  // one. A marker at the start counts from zero, even where nothing is left out.
  lemma {:induction false} MarkersTell(matches: seq<nat>, count: nat, k: nat)
    requires k < |Excerpt(matches, count)| && Excerpt(matches, count)[k].Omitted?
    ensures var p := Excerpt(matches, count);
            && k + 1 < |p| && p[k + 1].Shown? && p[k + 1].line == p[k].last
            && (k > 0 ==> p[k - 1].Shown? && p[k].first == p[k - 1].line + 2 && p[k].first <= p[k].last)
            && (k == 0 ==> p[k].first == 0)
  {
    var before := Excerpt(matches, count - 1);
    LastShownIsLast(matches, count - 1);
    if k < |before| {
      MarkersTell(matches, count - 1, k);
    }
  }

  // An excerpt that shows anything starts with a marker counting from zero.
  lemma {:induction false} StartsWithMarker(matches: seq<nat>, count: nat)
    requires Excerpt(matches, count) != []
    ensures var p := Excerpt(matches, count);
            |p| >= 2 && p[0].Omitted? && p[0].first == 0 && p[1].Shown? && p[1].line == p[0].last
  {
    if Excerpt(matches, count - 1) != [] {
      StartsWithMarker(matches, count - 1);
    }
  }

  // ---------------------------------------------------------------- the text of an excerpt

  function UnitsOf(s: string): Text
    requires forall i :: 0 <= i < |s| ==> s[i] as int < 0x10000
  {
    seq(|s|, i requires 0 <= i < |s| => s[i] as int)
  }

  function Digits(n: nat): Text
  {
    if n < 10 then [48 + n] else Digits(n / 10) + [48 + n % 10]
  }

  // The line of a marker: a comment that says which lines were left out.
  function MarkerLine(first: nat, last: nat): Text
  {
    UnitsOf("/* \U{2026} omitted lines ") + Digits(first) + UnitsOf("-") + Digits(last) + UnitsOf(" \U{2026} */")
  }

  function Marker(first: nat, last: nat): Text
  {
    [10] + MarkerLine(first, last)
  }

  function PieceText(lines: seq<Text>, p: Piece): Text
  {
    match p
    case Shown(i) => if i < |lines| then lines[i] else []
    case Omitted(first, last) => Marker(Max(0, first), Max(0, last))
  }

  function PieceTexts(lines: seq<Text>, pieces: seq<Piece>): (parts: seq<Text>)
    ensures |parts| == |pieces|
  {
    if pieces == [] then [] else [PieceText(lines, pieces[0])] + PieceTexts(lines, pieces[1..])
  }

  function ExcerptText(lines: seq<Text>, matches: seq<nat>): Text
  {
    JoinLines(PieceTexts(lines, Excerpt(matches, |lines|)))
  }

  // What a text too long for its budget is cut from.
  function Condensed(raw: Text, mentions: Text -> bool): Text
  {
    var lines := LinesOf(raw);
    var hits := Hits(lines, mentions, |lines|);
    if hits == [] then raw else ExcerptText(lines, hits)
  }

  // ---------------------------------------------------------------- what the excerpt says

  function ValueOf(digits: Text): nat
  {
    if digits == [] then 0
    else ValueOf(digits[..|digits| - 1]) * 10 + (if digits[|digits| - 1] >= 48 then digits[|digits| - 1] - 48 else 0)
  }

  predicate Decimal(digits: Text)
  {
    && digits != [] && (forall i :: 0 <= i < |digits| ==> 48 <= digits[i] <= 57)
    && (|digits| > 1 ==> digits[0] != 48)
  }

  // The digits of a number spell it.
  lemma {:induction false} DigitsSpell(n: nat)
    ensures Decimal(Digits(n)) && ValueOf(Digits(n)) == n && (n > 0 ==> Digits(n)[0] != 48)
  {
    if n >= 10 {
      DigitsSpell(n / 10);
      var front := Digits(n / 10);
      assert (front + [48 + n % 10])[..|front|] == front;
    } else {
      assert [48 + n][..0] == [];
    }
  }

  // A marker is an empty line and a comment with the two numbers in decimal digits.
  lemma {:induction false} MarkerSpells(first: nat, last: nat) returns (a: Text, b: Text)
    ensures Marker(first, last)
            == [10] + (UnitsOf("/* \U{2026} omitted lines ") + a + UnitsOf("-") + b + UnitsOf(" \U{2026} */"))
    ensures Decimal(a) && ValueOf(a) == first && Decimal(b) && ValueOf(b) == last
  {
    a, b := Digits(first), Digits(last);
    DigitsSpell(first);
    DigitsSpell(last);
  }

  lemma {:induction false} LinesOfJoined(a: Text, b: Text)
    ensures LinesOf(a + [10] + b) == LinesOf(a) + LinesOf(b)
  {
    if a == [] {
      assert a + [10] + b == [10] + b;
      assert ([10] + b)[1..] == b;
    } else {
      assert (a + [10] + b)[0] == a[0] && (a + [10] + b)[1..] == a[1..] + [10] + b;
      LinesOfJoined(a[1..], b);
    }
  }

  lemma {:induction false} OneLine(a: Text)
    requires 10 !in a
    ensures LinesOf(a) == [a]
  {
    if a != [] {
      OneLine(a[1..]);
      assert [a[0]] + a[1..] == a;
    }
  }

  lemma {:induction false} LinesAreLines(s: Text, i: nat)
    requires i < |LinesOf(s)|
    ensures 10 !in LinesOf(s)[i]
  {
    if s != [] {
      var rest := LinesOf(s[1..]);
      if s[0] == 10 {
        if i > 0 { LinesAreLines(s[1..], i - 1); }
      } else {
        LinesAreLines(s[1..], i);
      }
    }
  }

  lemma {:induction false} NoFeed(n: nat)
    ensures 10 !in Digits(n)
  {
    DigitsSpell(n);
  }

  lemma {:induction false} CleanUnits(s: string)
    requires forall i :: 0 <= i < |s| ==> s[i] as int < 0x10000 && s[i] != '\n'
    ensures 10 !in UnitsOf(s)
  {
    assert '\n' as int == 10;
  }

  lemma {:induction false} CleanMarker(first: nat, last: nat)
    ensures 10 !in MarkerLine(first, last)
  {
    NoFeed(first);
    NoFeed(last);
    CleanUnits("/* \U{2026} omitted lines ");
    CleanUnits("-");
    CleanUnits(" \U{2026} */");
  }

  lemma {:induction false} MarkerLines(first: nat, last: nat)
    ensures LinesOf(Marker(first, last)) == [[], MarkerLine(first, last)]
  {
    var line := MarkerLine(first, last);
    CleanMarker(first, last);
    OneLine(line);
    FeedFirst(line);
  }

  lemma {:induction false} FeedFirst(s: Text)
    ensures LinesOf([10] + s) == [[]] + LinesOf(s)
  {
    assert ([10] + s)[1..] == s;
  }

  // The lines a piece of the excerpt comes to.
  function PieceLines(lines: seq<Text>, p: Piece): seq<Text>
  {
    match p
    case Shown(i) => if i < |lines| then [lines[i]] else [[]]
    case Omitted(first, last) => [[], MarkerLine(Max(0, first), Max(0, last))]
  }

  function AllLines(lines: seq<Text>, pieces: seq<Piece>): seq<Text>
  {
    if pieces == [] then [] else PieceLines(lines, pieces[0]) + AllLines(lines, pieces[1..])
  }

  lemma {:induction false} PieceHasLines(lines: seq<Text>, p: Piece)
    requires forall i :: 0 <= i < |lines| ==> 10 !in lines[i]
    ensures LinesOf(PieceText(lines, p)) == PieceLines(lines, p)
  {
    match p
    case Shown(i) => OneLine(if i < |lines| then lines[i] else []);
    case Omitted(first, last) => MarkerLines(Max(0, first), Max(0, last));
  }

  lemma {:induction false} JoinedHasLines(lines: seq<Text>, pieces: seq<Piece>)
    requires pieces != [] && forall i :: 0 <= i < |lines| ==> 10 !in lines[i]
    ensures LinesOf(JoinLines(PieceTexts(lines, pieces))) == AllLines(lines, pieces)
  {
    PieceHasLines(lines, pieces[0]);
    var parts := PieceTexts(lines, pieces);
    assert parts == [PieceText(lines, pieces[0])] + PieceTexts(lines, pieces[1..]);
    if |pieces| == 1 {
      assert pieces[1..] == [] && AllLines(lines, []) == [];
    } else {
      assert parts[1..] == PieceTexts(lines, pieces[1..]);
      JoinedHasLines(lines, pieces[1..]);
      LinesOfJoined(parts[0], JoinLines(parts[1..]));
    }
  }

  // Which lines of the excerpt are a marker's own: an empty one and its text.
  function Own(pieces: seq<Piece>): seq<bool>
  {
    if pieces == [] then [] else (if pieces[0].Omitted? then [true, true] else [false]) + Own(pieces[1..])
  }

  // The lines that are, or are not, marked.
  function Keep(lines: seq<Text>, marks: seq<bool>, wanted: bool): seq<Text>
    requires |lines| == |marks|
  {
    if lines == [] then [] else (if marks[0] == wanted then [lines[0]] else []) + Keep(lines[1..], marks[1..], wanted)
  }

  // The lines of the text near a match, in order.
  function NearLines(lines: seq<Text>, matches: seq<nat>, n: nat): seq<Text>
    requires n <= |lines|
  {
    if n == 0 then [] else NearLines(lines, matches, n - 1) + if NearMatch(matches, n - 1) then [lines[n - 1]] else []
  }

  // What every marker of the excerpt comes to, in order.
  function MarkersOf(pieces: seq<Piece>): seq<Text>
  {
    if pieces == [] then []
    else (if pieces[0].Omitted? then [[], MarkerLine(Max(0, pieces[0].first), Max(0, pieces[0].last))] else []) + MarkersOf(pieces[1..])
  }

  function ShownLines(lines: seq<Text>, pieces: seq<Piece>): seq<Text>
  {
    if pieces == [] then []
    else (if pieces[0].Shown? && pieces[0].line < |lines| then [lines[pieces[0].line]] else []) + ShownLines(lines, pieces[1..])
  }

  predicate AllInside(lines: seq<Text>, pieces: seq<Piece>)
  {
    forall k :: 0 <= k < |pieces| && pieces[k].Shown? ==> pieces[k].line < |lines|
  }

  lemma {:induction false} KeepJoined(a: seq<Text>, b: seq<Text>, ma: seq<bool>, mb: seq<bool>, wanted: bool)
    requires |a| == |ma| && |b| == |mb|
    ensures Keep(a + b, ma + mb, wanted) == Keep(a, ma, wanted) + Keep(b, mb, wanted)
  {
    if a == [] {
      assert a + b == b && ma + mb == mb;
    } else {
      assert (a + b)[1..] == a[1..] + b && (ma + mb)[1..] == ma[1..] + mb;
      KeepJoined(a[1..], b, ma[1..], mb, wanted);
    }
  }

  lemma {:induction false} PieceKept(lines: seq<Text>, p: Piece)
    requires p.Shown? ==> p.line < |lines|
    ensures var own := if p.Omitted? then [true, true] else [false];
            && |PieceLines(lines, p)| == |own|
            && Keep(PieceLines(lines, p), own, false) == (if p.Shown? then [lines[p.line]] else [])
            && Keep(PieceLines(lines, p), own, true) == (if p.Omitted? then PieceLines(lines, p) else [])
  {
    if p.Omitted? {
      var ls: seq<Text> := PieceLines(lines, p);
      var own := [true, true];
      var rest: seq<Text> := ls[1..];
      assert |rest[1..]| == 0 && own[1..] == [true] && |own[1..][1..]| == 0;
      assert Keep(ls[1..], own[1..], true) == [ls[1]] && |Keep(ls[1..], own[1..], false)| == 0;
    } else {
      var ls: seq<Text> := PieceLines(lines, p);
      assert |ls[1..]| == 0 && |[false][1..]| == 0;
    }
  }

  lemma {:induction false} KeptLines(lines: seq<Text>, pieces: seq<Piece>)
    requires AllInside(lines, pieces)
    ensures |AllLines(lines, pieces)| == |Own(pieces)|
    ensures Keep(AllLines(lines, pieces), Own(pieces), false) == ShownLines(lines, pieces)
    ensures Keep(AllLines(lines, pieces), Own(pieces), true) == MarkersOf(pieces)
  {
    if pieces != [] {
      PieceKept(lines, pieces[0]);
      KeptLines(lines, pieces[1..]);
      var own := if pieces[0].Omitted? then [true, true] else [false];
      KeepJoined(PieceLines(lines, pieces[0]), AllLines(lines, pieces[1..]), own, Own(pieces[1..]), false);
      KeepJoined(PieceLines(lines, pieces[0]), AllLines(lines, pieces[1..]), own, Own(pieces[1..]), true);
    }
  }

  lemma {:induction false} ShownJoined(lines: seq<Text>, a: seq<Piece>, b: seq<Piece>)
    ensures ShownLines(lines, a + b) == ShownLines(lines, a) + ShownLines(lines, b)
  {
    if a == [] {
      assert a + b == b;
    } else {
      assert (a + b)[1..] == a[1..] + b;
      ShownJoined(lines, a[1..], b);
    }
  }

  lemma {:induction false} ExcerptInside(lines: seq<Text>, matches: seq<nat>, n: nat)
    requires n <= |lines|
    ensures AllInside(lines, Excerpt(matches, n))
  {
    if n > 0 {
      ExcerptInside(lines, matches, n - 1);
    }
  }

  lemma {:induction false} ShownIsNear(lines: seq<Text>, matches: seq<nat>, n: nat)
    requires n <= |lines|
    ensures ShownLines(lines, Excerpt(matches, n)) == NearLines(lines, matches, n)
  {
    if n > 0 {
      ShownIsNear(lines, matches, n - 1);
      if NearMatch(matches, n - 1) {
        var before := Excerpt(matches, n - 1);
        var marker := if n - 1 > LastShown(before) + 1 then [Omitted(LastShown(before) + 2, n - 1)] else [];
        assert Excerpt(matches, n) == before + (marker + [Shown(n - 1)]);
        ShownStep(lines, before, marker, n - 1);
      }
    }
  }

  lemma {:induction false} ShownStep(lines: seq<Text>, before: seq<Piece>, marker: seq<Piece>, i: nat)
    requires i < |lines| && |marker| <= 1 && forall p :: p in marker ==> p.Omitted?
    ensures ShownLines(lines, before + (marker + [Shown(i)])) == ShownLines(lines, before) + [lines[i]]
  {
    ShownJoined(lines, before, marker + [Shown(i)]);
    ShownJoined(lines, marker, [Shown(i)]);
    MarkerShowsNothing(lines, marker);
    LineIsShown(lines, i);
  }

  lemma {:induction false} MarkerShowsNothing(lines: seq<Text>, marker: seq<Piece>)
    requires |marker| <= 1 && forall p :: p in marker ==> p.Omitted?
    ensures ShownLines(lines, marker) == []
  {
    if marker != [] {
      assert marker[0] in marker;
    }
  }

  lemma {:induction false} LineIsShown(lines: seq<Text>, i: nat)
    requires i < |lines|
    ensures ShownLines(lines, [Shown(i)]) == [lines[i]]
  {
    assert ShownLines(lines, [Shown(i)][1..]) == [];
  }

  // A text that is too long and mentions the request is cut from an excerpt. Its lines are
  // the lines near a mention, in order, and between them the markers, each an empty line
  // and a comment that spells the numbers of the lines left out.
  lemma {:induction false} ExcerptSays(raw: Text, mentions: Text -> bool)
    requires var lines := LinesOf(raw); exists i :: 0 <= i < |lines| && mentions(lines[i])
    ensures var lines := LinesOf(raw);
            var hits := Hits(lines, mentions, |lines|);
            var pieces := Excerpt(hits, |lines|);
            var all := LinesOf(Condensed(raw, mentions));
            && |all| == |Own(pieces)|
            && Keep(all, Own(pieces), false) == NearLines(lines, hits, |lines|)
            && Keep(all, Own(pieces), true) == MarkersOf(pieces)
  {
    var lines := LinesOf(raw);
    var hits := Hits(lines, mentions, |lines|);
    SomeHit(lines, mentions, |lines|);
    var pieces := Excerpt(hits, |lines|);
    assert NearMatch(hits, hits[0]);
    ShowsWhatIsNear(hits, |lines|, hits[0]);
    forall i | 0 <= i < |lines| ensures 10 !in lines[i] {
      LinesAreLines(raw, i);
    }
    JoinedHasLines(lines, pieces);
    ShownIsNear(lines, hits, |lines|);
    ExcerptInside(lines, hits, |lines|);
    KeptLines(lines, pieces);
  }

  lemma {:induction false} SomeHit(lines: seq<Text>, mentions: Text -> bool, n: nat)
    requires n <= |lines| && exists i :: 0 <= i < n && mentions(lines[i])
    ensures Hits(lines, mentions, n) != []
  {
    if !mentions(lines[n - 1]) {
      SomeHit(lines, mentions, n - 1);
    }
  }

  // A text that does not mention the request is cut as it is.
  lemma {:induction false} NothingMentioned(raw: Text, mentions: Text -> bool)
    requires forall i :: 0 <= i < |LinesOf(raw)| ==> !mentions(LinesOf(raw)[i])
    ensures Condensed(raw, mentions) == raw
  {
    NoHit(LinesOf(raw), mentions, |LinesOf(raw)|);
  }

  lemma {:induction false} NoHit(lines: seq<Text>, mentions: Text -> bool, n: nat)
    requires n <= |lines| && forall i :: 0 <= i < n ==> !mentions(lines[i])
    ensures Hits(lines, mentions, n) == []
  {
    if n > 0 {
      NoHit(lines, mentions, n - 1);
    }
  }

  // It is empty only for an empty text.
  lemma {:induction false} CondensedIsThere(raw: Text, mentions: Text -> bool)
    requires raw != []
    ensures Condensed(raw, mentions) != []
  {
    var lines := LinesOf(raw);
    var hits := Hits(lines, mentions, |lines|);
    if hits != [] {
      assert NearMatch(hits, hits[0]);
      ShowsWhatIsNear(hits, |lines|, hits[0]);
      StartsWithMarker(hits, |lines|);
      var pieces := Excerpt(hits, |lines|);
      var parts := PieceTexts(lines, pieces);
      assert parts[0] == PieceText(lines, pieces[0]) != [];
    }
  }

  // ---------------------------------------------------------------- selecting files

  function Sum(sizes: seq<nat>): nat
  {
    if sizes == [] then 0 else Sum(sizes[..|sizes| - 1]) + sizes[|sizes| - 1]
  }

  // `raw` is the file's text, if it can be read.
  datatype Candidate = Candidate(path: string, score: int, raw: Option<Text>)

  datatype PackedFile = PackedFile(path: string, content: Text, contextBytes: nat, truncated: bool)

  // The whole text, else what fits of the excerpt, else - nothing being mentioned - of the text.
  ghost predicate Selects(c: Candidate, mentions: Text -> bool, budget: nat, content: Text, truncated: bool)
  {
    && c.raw.Some?
    && (truncated <==> Utf8(c.raw.value) > budget)
    && if truncated then Fits(Condensed(c.raw.value, mentions), budget, content) else content == c.raw.value
  }

  method SelectedFileContent(c: Candidate, mentions: Text -> bool, budget: nat) returns (content: Text, truncated: bool)
    requires c.raw.Some?
    ensures Selects(c, mentions, budget, content, truncated) && Utf8(content) <= budget
  {
    var source := c.raw.value;
    if Utf8(source) <= budget { return source, false; }
    var lines := LinesOf(source);
    var matches := FindMatches(lines, mentions);
    var cut, size;
    if matches == [] {
      content, cut, size := BudgetedText(source, budget);
    } else {
      var pieces := Assemble(matches, |lines|);
      content, cut, size := BudgetedText(JoinLines(PieceTexts(lines, pieces)), budget);
    }
    return content, true;
  }

  datatype Limits = Limits(total: nat, code: nat, file: nat, maxFiles: nat)

  function Clamp(low: int, high: int, value: int): int
  {
    Max(low, Min(high, value))
  }

  // The limits for the requested numbers; a fractional budget acts like its integer part.
  function LimitsFor(total: int, code: int, file: int, maxFiles: int): (l: Limits)
    ensures 80000 <= l.total <= 900000 && 50000 <= l.code <= l.total && 12000 <= l.file <= 120000 && 4 <= l.maxFiles <= 40
    // What was asked for is kept where it lies within its limits, else the nearer limit taken.
    ensures l.total == (if total < 80000 then 80000 else if total > 900000 then 900000 else total)
    ensures l.code == (if code < 50000 then 50000 else if code > l.total then l.total else code)
    ensures l.file == (if file < 12000 then 12000 else if file > 120000 then 120000 else file)
    ensures l.maxFiles == (if maxFiles < 4 then 4 else if maxFiles > 40 then 40 else maxFiles)
  {
    var t := Clamp(80000, 900000, total);
    Limits(t, Clamp(50000, t, code), Clamp(12000, 120000, file), Clamp(4, 40, maxFiles))
  }

  function Sizes(files: seq<PackedFile>): (sizes: seq<nat>)
    ensures |sizes| == |files| && forall i :: 0 <= i < |files| ==> sizes[i] == files[i].contextBytes
  {
    seq(|files|, i requires 0 <= i < |files| => files[i].contextBytes)
  }

  predicate StopsAt(l: Limits, files: seq<PackedFile>, used: nat, score: int)
  {
    |files| >= l.maxFiles || used >= l.code || (score <= 0 && |files| >= 5) || l.code - used < 4000
  }

  // File `j` of a pack is what its candidate gives within the room left by the earlier ones.
  ghost predicate Entered(l: Limits, mentions: Text -> bool, c: Candidate, files: seq<PackedFile>, j: nat)
    requires j < |files|
  {
    var used := Sum(Sizes(files[..j]));
    && used <= l.code && files[j].path == c.path
    && Selects(c, mentions, Min(l.file, l.code - used), files[j].content, files[j].truncated)
    && files[j].contextBytes == Utf8(files[j].content) > 0
  }

  // The files come from the candidates at `from`, in order; every other candidate before
  // `stop` had nothing to give.
  ghost predicate DrawnFrom(l: Limits, mentions: Text -> bool, candidates: seq<Candidate>, stop: nat, files: seq<PackedFile>, from: seq<nat>)
  {
    && stop <= |candidates| && |from| == |files|
    && (forall j :: 0 <= j < |files| ==> from[j] < stop && Entered(l, mentions, candidates[from[j]], files, j))
    && (forall j :: 0 <= j < |files| ==> !StopsAt(l, files[..j], Sum(Sizes(files[..j])), candidates[from[j]].score))
    && (forall j, k :: 0 <= j < k < |from| ==> from[j] < from[k])
    && (forall i :: 0 <= i < stop && i !in from ==> NothingToGive(candidates[i]))
  }

  predicate NothingToGive(c: Candidate)
  {
    c.raw.None? || c.raw.value == []
  }

  lemma {:induction false} FirstUnitCosts(s: Text)
    requires s != []
    ensures Utf8(s[..1]) <= 3
  {
    assert s[..1] == [] + [s[0]];
    OneMoreUnit([], s[0]);
  }

  lemma {:induction false} SomethingFits(c: Candidate, mentions: Text -> bool, budget: nat, content: Text, truncated: bool)
    requires budget >= 3 && Selects(c, mentions, budget, content, truncated) && !NothingToGive(c)
    ensures Utf8(content) > 0
  {
    CondensedIsThere(c.raw.value, mentions);
    FirstUnitCosts(c.raw.value);
    FirstUnitCosts(Condensed(c.raw.value, mentions));
  }

  lemma {:induction false} OneFileMore(l: Limits, mentions: Text -> bool, candidates: seq<Candidate>, files: seq<PackedFile>, from: seq<nat>, stop: nat, f: PackedFile)
    requires DrawnFrom(l, mentions, candidates, stop, files, from) && stop < |candidates| && Sum(Sizes(files)) <= l.code
    requires !StopsAt(l, files, Sum(Sizes(files)), candidates[stop].score)
    requires f.path == candidates[stop].path && f.contextBytes == Utf8(f.content) > 0
    requires Selects(candidates[stop], mentions, Min(l.file, l.code - Sum(Sizes(files))), f.content, f.truncated)
    ensures DrawnFrom(l, mentions, candidates, stop + 1, files + [f], from + [stop])
    ensures Sum(Sizes(files + [f])) == Sum(Sizes(files)) + f.contextBytes
  {
    var all, at := files + [f], from + [stop];
    assert Sizes(all)[..|files|] == Sizes(files);
    forall j | 0 <= j < |all| ensures at[j] < stop + 1 && Entered(l, mentions, candidates[at[j]], all, j) {
      assert all[..j] == files[..j];
      if j < |files| {
        assert Entered(l, mentions, candidates[from[j]], files, j);
      } else {
        assert files[..j] == files;
      }
    }
    forall j | 0 <= j < |all| ensures !StopsAt(l, all[..j], Sum(Sizes(all[..j])), candidates[at[j]].score) {
      assert all[..j] == files[..j];
      assert j < |files| || files[..j] == files;
    }
    forall i | 0 <= i < stop + 1 && i !in at ensures NothingToGive(candidates[i]) {
      assert at[|from|] == stop;
      forall j | 0 <= j < |from| ensures from[j] != i {
        assert at[j] == from[j];
      }
    }
  }

  // No file was entered after a limit was reached.
  lemma {:induction false} LimitsAreKept(l: Limits, mentions: Text -> bool, candidates: seq<Candidate>, stop: nat,
                                         files: seq<PackedFile>, from: seq<nat>, j: nat)
    requires DrawnFrom(l, mentions, candidates, stop, files, from) && j < |files|
    ensures var before := Sum(Sizes(files[..j]));
            j < l.maxFiles && before < l.code && l.code - before >= 4000 && (candidates[from[j]].score > 0 || j < 5)
  {
    assert !StopsAt(l, files[..j], Sum(Sizes(files[..j])), candidates[from[j]].score);
  }

  // The code part: files until a limit stops the selection.
  method SelectFiles(l: Limits, mentions: Text -> bool, candidates: seq<Candidate>)
    returns (files: seq<PackedFile>, used: nat, ghost from: seq<nat>, ghost stop: nat)
    requires l.file >= 4000
    ensures used == Sum(Sizes(files)) <= l.code && |files| <= l.maxFiles
    ensures DrawnFrom(l, mentions, candidates, stop, files, from)
    // It stops exactly at a limit: enough files, the code budget spent but for less than four
    // thousand bytes, or five files and nothing that scores.
    ensures stop < |candidates| ==>
              |files| >= l.maxFiles || used >= l.code || l.code - used < 4000 || (candidates[stop].score <= 0 && |files| >= 5)
  {
    files, used, from, stop := [], 0, [], 0;
    assert Sizes([]) == [];
    for i := 0 to |candidates|
      invariant stop == i && used == Sum(Sizes(files)) <= l.code && |files| <= l.maxFiles
      invariant DrawnFrom(l, mentions, candidates, i, files, from)
    {
      if StopsAt(l, files, used, candidates[i].score) { return; }
      stop := i + 1;
      var packed := Pack(l, mentions, candidates[i], used);
      if packed == None {
        NoFileMore(l, mentions, candidates, files, from, i);
        continue;
      }
      OneFileMore(l, mentions, candidates, files, from, i, packed.value);
      files, from, used := files + [packed.value], from + [i], used + packed.value.contextBytes;
    }
  }

  // One candidate: nothing of a file that cannot be read or is empty, else what fits.
  method Pack(l: Limits, mentions: Text -> bool, c: Candidate, used: nat) returns (f: Option<PackedFile>)
    requires l.file >= 4000 && used < l.code && l.code - used >= 4000
    ensures f == None <==> NothingToGive(c)
    ensures f.Some? ==>
              && f.value.path == c.path && f.value.contextBytes == Utf8(f.value.content) > 0
              && Selects(c, mentions, Min(l.file, l.code - used), f.value.content, f.value.truncated)
              && used + f.value.contextBytes <= l.code
  {
    if c.raw.None? { return None; }
    var content, truncated := SelectedFileContent(c, mentions, Min(l.file, l.code - used));
    if !NothingToGive(c) {
      SomethingFits(c, mentions, Min(l.file, l.code - used), content, truncated);
    }
    if Utf8(content) == 0 { return None; }
    return Some(PackedFile(c.path, content, Utf8(content), truncated));
  }

  lemma {:induction false} NoFileMore(l: Limits, mentions: Text -> bool, candidates: seq<Candidate>, files: seq<PackedFile>, from: seq<nat>, stop: nat)
    requires DrawnFrom(l, mentions, candidates, stop, files, from) && stop < |candidates| && NothingToGive(candidates[stop])
    ensures DrawnFrom(l, mentions, candidates, stop + 1, files, from)
  {
  }

  // Code and knowledge text together stay within the total.
  method BuildContextPack(total: int, code: int, file: int, maxFiles: int, mentions: Text -> bool,
                          candidates: seq<Candidate>, knowledge: Text)
    returns (l: Limits, files: seq<PackedFile>, used: nat, context: Text, ghost from: seq<nat>, ghost stop: nat)
    ensures l == LimitsFor(total, code, file, maxFiles)
    ensures used == Sum(Sizes(files)) <= l.code <= l.total && |files| <= l.maxFiles
    ensures DrawnFrom(l, mentions, candidates, stop, files, from)
    // It stops exactly at a limit: enough files, the code budget spent but for less than four
    // thousand bytes, or five files and nothing that scores.
    ensures stop < |candidates| ==>
              |files| >= l.maxFiles || used >= l.code || l.code - used < 4000 || (candidates[stop].score <= 0 && |files| >= 5)
    ensures used + Utf8(context) <= l.total && Fits(knowledge, Min(24000, l.total - used), context)
  {
    l := LimitsFor(total, code, file, maxFiles);
    files, used, from, stop := SelectFiles(l, mentions, candidates);
    var cut, size;
    context, cut, size := BudgetedText(knowledge, Min(24000, Max(0, l.total - used)));
  }
}
