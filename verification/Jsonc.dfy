// Two scanners that turn JSON with comments and trailing commas into JSON, and what they
// make of the tokens (RFC 8259, section 2) and of the strings in it (section 7).
module Jsonc {
  import opened Text

  // ---------------------------------------------------------------- the scanners

  // The text from the first line feed on.
  function FromNewline(s: string): (r: string)
    ensures |r| <= |s|
  {
    if s == [] || s[0] == '\n' then s else FromNewline(s[1..])
  }

  // The text from the first end of a block comment on.
  function FromBlockEnd(s: string): (r: string)
    ensures |r| <= |s|
  {
    if s == [] || "*/" <= s then s else FromBlockEnd(s[1..])
  }

  function Skip(s: string, n: nat): (r: string)
    ensures |r| <= |s|
  {
    if n <= |s| then s[n..] else []
  }

  // Where a scanner stands with respect to string literals.
  datatype Mode = Outside | Inside | Escaped

  function NextMode(m: Mode, c: char): Mode
  {
    match m
    case Outside => if c == '"' then Inside else Outside
    case Inside => if c == '\\' then Escaped else if c == '"' then Outside else Inside
    case Escaped => Inside
  }

  // Outside strings comments go: a line comment leaves a line feed, a block comment nothing.
  function StripComments(s: string, m: Mode): string
    decreases |s|
  {
    if s == [] then []
    else if m == Outside && "//" <= s then "\n" + StripComments(Skip(FromNewline(s[2..]), 1), Outside)
    else if m == Outside && "/*" <= s then StripComments(Skip(FromBlockEnd(s[2..]), 2), Outside)
    else [s[0]] + StripComments(s[1..], NextMode(m, s[0]))
  }

  // The next character that is not white space closes an array or an object.
  predicate ClosesNext(s: string)
  {
    s != [] && if IsSpace(s[0]) then ClosesNext(s[1..]) else s[0] == '}' || s[0] == ']'
  }

  // Outside strings a comma goes if what closes comes next.
  function StripCommas(s: string, m: Mode): string
    decreases |s|
  {
    if s == [] then []
    else if m == Outside && s[0] == ',' && ClosesNext(s[1..]) then StripCommas(s[1..], m)
    else [s[0]] + StripCommas(s[1..], NextMode(m, s[0]))
  }

  function ModeOf(inString: bool, escaped: bool): Mode
  {
    if !inString then Outside else if escaped then Escaped else Inside
  }

  // The two flags a scanner keeps, after one more character.
  method Track(inString: bool, escaped: bool, ch: char) returns (nowInString: bool, nowEscaped: bool)
    requires !inString ==> !escaped
    ensures ModeOf(nowInString, nowEscaped) == NextMode(ModeOf(inString, escaped), ch) && (!nowInString ==> !nowEscaped)
  {
    nowInString, nowEscaped := inString, escaped;
    if inString {
      if escaped {
        nowEscaped := false;
      } else if ch == '\\' {
        nowEscaped := true;
      } else if ch == '"' {
        nowInString := false;
      }
    } else if ch == '"' {
      nowInString := true;
    }
  }

  // One more character copied.
  lemma {:induction false} Copied(out: string, c: char, rest: string)
    ensures out + [c] + rest == out + ([c] + rest)
  {
  }

  predicate SlashAt(input: string, i: nat, second: char)
  {
    i + 1 < |input| && input[i] == '/' && input[i + 1] == second
  }

  lemma {:induction false} CopyStep(input: string, i: nat, m: Mode)
    requires i < |input| && (m == Outside ==> !SlashAt(input, i, '/') && !SlashAt(input, i, '*'))
    ensures StripComments(Skip(input, i), m) == [input[i]] + StripComments(Skip(input, i + 1), NextMode(m, input[i]))
  {
    var s := input[i..];
    assert s[1..] == input[i + 1..];
    assert "//" <= s ==> s[1] == '/';
    assert "/*" <= s ==> s[1] == '*';
  }

  lemma {:induction false} LineStep(input: string, i: nat, end: nat)
    requires SlashAt(input, i, '/') && end <= |input| && input[end..] == FromNewline(input[i + 2..])
    ensures StripComments(Skip(input, i), Outside) == "\n" + StripComments(Skip(input, end + 1), Outside)
  {
    var s := input[i..];
    assert "//" <= s && s[2..] == input[i + 2..];
    assert Skip(input[end..], 1) == Skip(input, end + 1);
  }

  lemma {:induction false} BlockStep(input: string, i: nat, end: nat)
    requires SlashAt(input, i, '*') && end <= |input| && input[end..] == FromBlockEnd(input[i + 2..])
    ensures StripComments(Skip(input, i), Outside) == StripComments(Skip(input, end + 2), Outside)
  {
    var s := input[i..];
    assert "/*" <= s && s[2..] == input[i + 2..];
    assert s[1] == '*' && !("//" <= s);
    assert Skip(input[end..], 2) == Skip(input, end + 2);
  }

  method StripJsonComments(input: string) returns (out: string)
    ensures out == StripComments(input, Outside)
  {
    out := "";
    var inString, escaped := false, false;
    var i := 0;
    while i < |input|
      invariant !inString ==> !escaped
      invariant out + StripComments(Skip(input, i), ModeOf(inString, escaped)) == StripComments(input, Outside)
    {
      var ch := input[i];
      var next := if i + 1 < |input| then input[i + 1] else '\0';
      if !inString && ch == '/' && next == '/' {
        var end := LineEnd(input, i);
        LineStep(input, i, end);
        Copied(out, '\n', StripComments(Skip(input, end + 1), Outside));
        out := out + "\n";
        i := end + 1;
      } else if !inString && ch == '/' && next == '*' {
        var end := BlockEnd(input, i + 2);
        BlockStep(input, i, end);
        i := end + 2;
      } else {
        ghost var mode := ModeOf(inString, escaped);
        CopyStep(input, i, mode);
        Copied(out, ch, StripComments(Skip(input, i + 1), NextMode(mode, ch)));
        out := out + [ch];
        i := i + 1;
        inString, escaped := Track(inString, escaped, ch);
      }
    }
    assert out + [] == out;
  }

  method LineEnd(input: string, start: nat) returns (i: nat)
    requires start + 2 <= |input| && input[start] == input[start + 1] == '/'
    ensures start + 2 <= i <= |input| && input[i..] == FromNewline(input[start + 2..])
  {
    i := start;
    while i < |input| && input[i] != '\n'
      invariant start <= i <= |input|
      invariant i >= start + 2 ==> FromNewline(input[i..]) == FromNewline(input[start + 2..])
    {
      i := i + 1;
      assert i - 1 >= start + 2 ==> input[i - 1..][1..] == input[i..];
    }
  }

  method BlockEnd(input: string, start: nat) returns (i: nat)
    requires start <= |input|
    ensures i <= |input| && input[i..] == FromBlockEnd(input[start..])
  {
    i := start;
    while i < |input| && !(input[i] == '*' && i + 1 < |input| && input[i + 1] == '/')
      invariant start <= i <= |input| && FromBlockEnd(input[i..]) == FromBlockEnd(input[start..])
    {
      assert input[i..][1..] == input[i + 1..];
      i := i + 1;
    }
  }

  method StripTrailingCommas(input: string) returns (out: string)
    ensures out == StripCommas(input, Outside)
  {
    out := "";
    var inString, escaped := false, false;
    for i := 0 to |input|
      invariant !inString ==> !escaped
      invariant out + StripCommas(input[i..], ModeOf(inString, escaped)) == StripCommas(input, Outside)
    {
      var ch := input[i];
      ghost var rest, mode := input[i..], ModeOf(inString, escaped);
      assert rest[0] == ch && rest[1..] == input[i + 1..];
      Copied(out, ch, StripCommas(rest[1..], NextMode(mode, ch)));
      if !inString && ch == ',' {
        var closes := LooksClosed(input, i + 1);
        if closes { continue; }
      }
      out := out + [ch];
      inString, escaped := Track(inString, escaped, ch);
    }
    assert out + [] == out;
  }

  method LooksClosed(input: string, start: nat) returns (closes: bool)
    requires start <= |input|
    ensures closes == ClosesNext(input[start..])
  {
    var j := start;
    while j < |input| && IsSpace(input[j])
      invariant start <= j <= |input| && ClosesNext(input[j..]) == ClosesNext(input[start..])
    {
      assert input[j..][1..] == input[j + 1..];
      j := j + 1;
    }
    return j < |input| && (input[j] == '}' || input[j] == ']');
  }
}
