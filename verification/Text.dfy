// The string operations the repository's checks are written with.
module Text {
  import opened Common

  // Everything the source's trim and \s treat as white space.
  predicate IsSpace(c: char)
  {
    '\t' <= c <= '\r' || c == ' ' || c == '\U{00A0}' || c == '\U{1680}' || '\U{2000}' <= c <= '\U{200A}'
    || c == '\U{2028}' || c == '\U{2029}' || c == '\U{202F}' || c == '\U{205F}' || c == '\U{3000}' || c == '\U{FEFF}'
  }

  // The first index from `i` on that does not hold a space, or the length.
  function SkipSpaces(s: string, i: nat): (r: nat)
    requires i <= |s|
    ensures i <= r <= |s| && (r < |s| ==> !IsSpace(s[r]))
    decreases |s| - i
  {
    if i < |s| && IsSpace(s[i]) then SkipSpaces(s, i + 1) else i
  }

  // The last index up to `i` after something that is not a space, not before `low`.
  function SkipBack(s: string, low: nat, i: nat): (r: nat)
    requires low <= i <= |s|
    ensures low <= r <= i && (r > low ==> !IsSpace(s[r - 1]))
  {
    if i > low && IsSpace(s[i - 1]) then SkipBack(s, low, i - 1) else i
  }

  function Trim(s: string): (r: string)
    ensures r == [] || (!IsSpace(r[0]) && !IsSpace(r[|r| - 1]))
  {
    var a := SkipSpaces(s, 0);
    s[a..SkipBack(s, a, |s|)]
  }

  predicate Trimmed(s: string)
  {
    s == [] || (!IsSpace(s[0]) && !IsSpace(s[|s| - 1]))
  }

  function ForwardSlashes(s: string): (r: string)
    ensures |r| == |s| && forall i :: 0 <= i < |s| ==> r[i] == if s[i] == '\\' then '/' else s[i]
  {
    seq(|s|, i requires 0 <= i < |s| => if s[i] == '\\' then '/' else s[i])
  }

  function StripSlashes(s: string): string
  {
    if s != [] && s[0] == '/' then StripSlashes(s[1..]) else s
  }

  function NormalizePath(s: string): string
  {
    StripSlashes(ForwardSlashes(Trim(s)))
  }

  // ---------------------------------------------------------------- paths inside a repository

  function Segments(s: string): (r: seq<string>)
    ensures r != []
  {
    if s == [] then [""]
    else
      var rest := Segments(s[1..]);
      if s[0] == '/' then [""] + rest else [[s[0]] + rest[0]] + rest[1..]
  }

  predicate IsControl(c: char) { c < ' ' || c == '\U{007F}' }

  predicate IsLetter(c: char) { 'a' <= c <= 'z' || 'A' <= c <= 'Z' }

  predicate DriveLetter(s: string) { |s| >= 3 && IsLetter(s[0]) && s[1] == ':' && s[2] == '/' }

  predicate GitDirectory(s: string)
  {
    |s| == 4 && s[0] == '.' && s[1] in {'g', 'G'} && s[2] in {'i', 'I'} && s[3] in {'t', 'T'}
  }

  // Without its backslashes the path names a file below the root. Undoing percent escapes
  // must change nothing, so there is none; a scheme has an empty segment.
  predicate StaysInside(s: string)
  {
    && s != [] && s[0] != '/' && !DriveLetter(s) && '%' !in s
    && (forall i :: 0 <= i < |Segments(s)| ==> Segments(s)[i] !in {"", ".", ".."})
    && !GitDirectory(Segments(s)[0])
  }

  // The safe-path check; the path it returns has forward slashes only.
  function SafeRepoPath(raw: string): Option<string>
  {
    var path := ForwardSlashes(raw);
    if Trimmed(raw) && (forall c :: c in raw ==> !IsControl(c)) && StaysInside(path) then Some(path) else None
  }

  // A path as the check returns it.
  predicate SafePath(s: string)
  {
    SafeRepoPath(s) == Some(s)
  }

  lemma {:induction false} SafePathIsNormal(s: string)
    requires SafePath(s)
    ensures NormalizePath(s) == s
  {
  }

  // What the check returns it would return again, and it is the normal form that was
  // compared with the whitelist.
  lemma {:induction false} ReturnedPathIsSafe(raw: string)
    requires SafeRepoPath(raw).Some?
    ensures SafePath(SafeRepoPath(raw).value)
    ensures NormalizePath(raw) == SafeRepoPath(raw).value
  {
    var path := ForwardSlashes(raw);
    assert ForwardSlashes(path) == path;
    forall c | c in path ensures !IsControl(c) {
      var i :| 0 <= i < |path| && path[i] == c;
      assert raw[i] in raw;
    }
  }

  // ---------------------------------------------------------------- which paths are safe

  function SlashJoined(segments: seq<string>): string
    requires segments != []
  {
    if |segments| == 1 then segments[0] else segments[0] + "/" + SlashJoined(segments[1..])
  }

  function Lower(c: char): char
  {
    if 'A' <= c <= 'Z' then c + 32 as char else c
  }

  // Names of directories and a file, none of them empty or a dot name; the first is neither
  // the repository's own directory nor, with more to follow, a drive; nothing is escaped.
  ghost predicate Names(segments: seq<string>)
  {
    && segments != []
    && (forall s :: s in segments ==> s != "" && s != "." && s != ".." && '/' !in s && '%' !in s)
    && (|segments[0]| == 4 ==> [Lower(segments[0][0]), Lower(segments[0][1]), Lower(segments[0][2]), Lower(segments[0][3])] != ".git")
    && (|segments| > 1 && |segments[0]| == 2 && segments[0][1] == ':' ==> !('a' <= Lower(segments[0][0]) <= 'z'))
  }

  lemma {:induction false} JoinedSegments(s: string)
    ensures SlashJoined(Segments(s)) == s
    ensures forall i :: 0 <= i < |Segments(s)| ==> '/' !in Segments(s)[i]
    ensures '%' !in s ==> forall i :: 0 <= i < |Segments(s)| ==> '%' !in Segments(s)[i]
  {
    if s != [] {
      JoinedSegments(s[1..]);
      var rest := Segments(s[1..]);
      assert s == [s[0]] + s[1..];
      if s[0] == '/' {
        assert ([""] + rest)[1..] == rest;
      } else {
        var r := [[s[0]] + rest[0]] + rest[1..];
        assert r[1..] == rest[1..];
      }
    }
  }

  lemma {:induction false} SegmentsOfJoined(segments: seq<string>)
    requires segments != [] && forall s :: s in segments ==> '/' !in s
    ensures Segments(SlashJoined(segments)) == segments
    decreases |segments|, |segments[0]|
  {
    var first, rest := segments[0], segments[1..];
    var text := SlashJoined(segments);
    assert first in segments;
    if first != "" {
      assert first == [first[0]] + first[1..];
      var shorter := [first[1..]] + rest;
      assert shorter[1..] == rest && '/' !in first[1..];
      forall s | s in shorter ensures '/' !in s {
        assert s == first[1..] || s in rest;
      }
      SegmentsOfJoined(shorter);
      assert text == [first[0]] + SlashJoined(shorter);
      assert segments == [[first[0]] + first[1..]] + rest;
    } else if rest != [] {
      SegmentsOfJoined(rest);
      assert text == "/" + SlashJoined(rest) && text[1..] == SlashJoined(rest);
      assert segments == [""] + rest;
    } else {
      assert segments == [""];
    }
  }

  lemma {:induction false} JoinedHasNo(c: char, segments: seq<string>)
    requires segments != [] && c != '/' && forall s :: s in segments ==> c !in s
    ensures c !in SlashJoined(segments)
  {
    assert segments[0] in segments;
    if |segments| > 1 {
      JoinedHasNo(c, segments[1..]);
    }
  }

  lemma {:induction false} DriveIsFirst(segments: seq<string>)
    requires segments != [] && forall s :: s in segments ==> s != "" && '/' !in s
    ensures DriveLetter(SlashJoined(segments)) <==>
              |segments| > 1 && |segments[0]| == 2 && IsLetter(segments[0][0]) && segments[0][1] == ':'
  {
    var first, text := segments[0], SlashJoined(segments);
    assert first in segments;
    assert forall i :: 0 <= i < |first| ==> text[i] == first[i];
    assert |segments| > 1 ==> text[|first|] == '/';
  }

  lemma {:induction false} NamesStayInside(segments: seq<string>)
    requires segments != [] && forall s :: s in segments ==> '/' !in s && '%' !in s
    ensures StaysInside(SlashJoined(segments)) <==> Names(segments)
  {
    var text := SlashJoined(segments);
    SegmentsOfJoined(segments);
    JoinedHasNo('%', segments);
    if forall s :: s in segments ==> s != "" {
      DriveIsFirst(segments);
      assert segments[0] in segments && text[0] == segments[0][0];
    } else {
      var s :| s in segments && s == "";
      var i :| 0 <= i < |segments| && segments[i] == s;
    }
    if Names(segments) {
      forall i | 0 <= i < |segments| ensures segments[i] !in {"", ".", ".."} {
        assert segments[i] in segments;
      }
    }
  }

  // A path is safe exactly when, its backslashes turned, it spells such names, with neither
  // white space around it nor control characters in it.
  lemma {:induction false} SafePathExactly(raw: string)
    ensures SafeRepoPath(raw).Some? <==>
              && Trimmed(raw) && (forall i :: 0 <= i < |raw| ==> ' ' <= raw[i] != '\U{007F}')
              && exists segments :: Names(segments) && SlashJoined(segments) == ForwardSlashes(raw)
    ensures SafeRepoPath(raw).Some? ==> SafeRepoPath(raw).value == ForwardSlashes(raw)
  {
    var path := ForwardSlashes(raw);
    forall segments | Names(segments) && SlashJoined(segments) == path ensures StaysInside(path) {
      NamesStayInside(segments);
    }
    if StaysInside(path) {
      JoinedSegments(path);
      NamesStayInside(Segments(path));
    }
    assert (forall c :: c in raw ==> !IsControl(c)) <==> forall i :: 0 <= i < |raw| ==> !IsControl(raw[i]);
  }
}
