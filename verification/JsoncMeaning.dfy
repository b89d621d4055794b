// Whatever JSON value is written with comments and trailing commas, the stripped text has
// the value's own tokens.
module JsoncMeaning {
  import opened Common
  import opened Text
  import opened Jsonc

  // ---------------------------------------------------------------- tokens of strict JSON

  datatype Token = Punct(c: char) | Quoted(raw: string) | Word(raw: string)

  predicate IsBlank(c: char) { c in {' ', '\t', '\n', '\r'} }

  predicate IsPunct(c: char) { c in {'{', '}', '[', ']', ',', ':'} }

  // Numbers and the three literal names.
  predicate IsWordChar(c: char) { 'a' <= c <= 'z' || 'A' <= c <= 'Z' || '0' <= c <= '9' || c in {'+', '-', '.'} }

  // The characters of a string literal after its opening quote: one unescaped quote, last.
  predicate ClosesString(s: string, m: Mode)
  {
    s != [] && m != Outside && if NextMode(m, s[0]) == Outside then |s| == 1 else ClosesString(s[1..], NextMode(m, s[0]))
  }

  predicate TokenOk(t: Token)
  {
    match t
    case Punct(c) => IsPunct(c)
    case Quoted(raw) => raw != [] && raw[0] == '"' && ClosesString(raw[1..], Inside)
    case Word(raw) => raw != [] && forall i :: 0 <= i < |raw| ==> IsWordChar(raw[i])
  }

  function TokenText(t: Token): string
  {
    match t
    case Punct(c) => [c]
    case Quoted(raw) => raw
    case Word(raw) => raw
  }

  // The length of the literal whose text after the opening quote starts `s`; 0 if it never ends.
  function StringLength(s: string, m: Mode): (n: nat)
    ensures n <= |s|
  {
    if s == [] || m == Outside then 0
    else if NextMode(m, s[0]) == Outside then 1
    else
      var n := StringLength(s[1..], NextMode(m, s[0]));
      if n == 0 then 0 else n + 1
  }

  function WordLength(s: string): (n: nat)
    ensures n <= |s|
  {
    if s == [] || !IsWordChar(s[0]) then 0 else 1 + WordLength(s[1..])
  }

  function Prepend(t: Token, r: Option<seq<Token>>): Option<seq<Token>>
  {
    if r.None? then None else Some([t] + r.value)
  }

  // A tokenizer for strict JSON; None where no token can start.
  function Lex(s: string): Option<seq<Token>>
    decreases |s|
  {
    if s == [] then Some([])
    else if IsBlank(s[0]) then Lex(s[1..])
    else if IsPunct(s[0]) then Prepend(Punct(s[0]), Lex(s[1..]))
    else if s[0] == '"' then
      var n := StringLength(s[1..], Inside);
      if n == 0 then None else Prepend(Quoted(s[..n + 1]), Lex(s[n + 1..]))
    else
      var n := WordLength(s);
      if n == 0 then None else Prepend(Word(s[..n]), Lex(s[n..]))
  }

  // ---------------------------------------------------------------- texts with comments

  datatype Item = T(token: Token) | Blank(c: char) | Line(body: string) | Block(body: string)

  predicate NoBlockEnd(s: string)
  {
    forall i :: 0 <= i < |s| - 1 ==> !(s[i] == '*' && s[i + 1] == '/')
  }

  predicate ItemOk(item: Item)
  {
    match item
    case T(token) => TokenOk(token)
    case Blank(c) => IsBlank(c)
    case Line(body) => '\n' !in body
    case Block(body) => NoBlockEnd(body)
  }

  predicate ItemsOk(items: seq<Item>)
  {
    forall i :: 0 <= i < |items| ==> ItemOk(items[i])
  }

  function ItemText(item: Item): string
  {
    match item
    case T(token) => TokenText(token)
    case Blank(c) => [c]
    case Line(body) => "//" + body + "\n"
    case Block(body) => "/*" + body + "*/"
  }

  // The text, ended by `tail`: nothing, or a line comment that runs to the end.
  function Render(items: seq<Item>, tail: string): string
  {
    if items == [] then tail else ItemText(items[0]) + Render(items[1..], tail)
  }

  predicate TailOk(tail: string)
  {
    tail == [] || ("//" <= tail && '\n' !in tail)
  }

  function Tokens(items: seq<Item>): seq<Token>
  {
    if items == [] then [] else if items[0].T? then [items[0].token] + Tokens(items[1..]) else Tokens(items[1..])
  }

  // ---------------------------------------------------------------- comments

  // What each item becomes: line comments line feeds, block comments nothing.
  function Uncommented(items: seq<Item>): seq<Item>
  {
    if items == [] then []
    else
      (match items[0]
       case Line(_) => [Blank('\n')]
       case Block(_) => []
       case _ => [items[0]]) + Uncommented(items[1..])
  }

  lemma {:induction false} StringIsCopied(s: string, m: Mode, rest: string)
    requires ClosesString(s, m)
    ensures StripComments(s + rest, m) == s + StripComments(rest, Outside)
    ensures StripCommas(s + rest, m) == s + StripCommas(rest, Outside)
    ensures StringLength(s + rest, m) == |s|
  {
    assert (s + rest)[1..] == s[1..] + rest;
    if |s| > 1 {
      StringIsCopied(s[1..], NextMode(m, s[0]), rest);
    } else {
      assert s == [s[0]] && s[1..] + rest == rest;
    }
  }

  lemma {:induction false} WordIsCopied(s: string, rest: string)
    requires forall i :: 0 <= i < |s| ==> IsWordChar(s[i])
    ensures StripComments(s + rest, Outside) == s + StripComments(rest, Outside)
    ensures StripCommas(s + rest, Outside) == s + StripCommas(rest, Outside)
  {
    if s == [] {
      assert s + rest == rest;
    } else {
      assert (s + rest)[1..] == s[1..] + rest;
      WordIsCopied(s[1..], rest);
    }
  }

  // A token survives comment stripping as it is.
  lemma {:induction false} TokenIsCopied(t: Token, rest: string)
    requires TokenOk(t)
    ensures StripComments(TokenText(t) + rest, Outside) == TokenText(t) + StripComments(rest, Outside)
  {
    match t {
      case Punct(c) => assert ([c] + rest)[1..] == rest;
      case Quoted(raw) =>
        assert raw == [raw[0]] + raw[1..];
        assert (raw + rest)[1..] == raw[1..] + rest && (raw + rest)[0] == '"';
        StringIsCopied(raw[1..], Inside, rest);
        assert [raw[0]] + (raw[1..] + StripComments(rest, Outside)) == raw + StripComments(rest, Outside);
      case Word(raw) => WordIsCopied(raw, rest);
    }
  }

  lemma {:induction false} LineIsSkipped(body: string, rest: string)
    requires '\n' !in body
    ensures FromNewline(body + "\n" + rest) == "\n" + rest
  {
    var s := body + "\n" + rest;
    if body == [] {
      assert s == "\n" + rest;
    } else {
      assert s[1..] == body[1..] + "\n" + rest;
      LineIsSkipped(body[1..], rest);
    }
  }

  lemma {:induction false} LastLineIsSkipped(body: string)
    requires '\n' !in body
    ensures FromNewline(body) == []
  {
    if body != [] {
      LastLineIsSkipped(body[1..]);
    }
  }

  lemma {:induction false} BlockIsSkipped(body: string, rest: string)
    requires NoBlockEnd(body)
    ensures FromBlockEnd(body + "*/" + rest) == "*/" + rest
  {
    var s := body + "*/" + rest;
    if body == [] {
      assert s == "*/" + rest;
    } else {
      assert s[0] == body[0] && (|body| > 1 ==> s[1] == body[1]) && (|body| == 1 ==> s[1] == '*');
      assert !("*/" <= s);
      assert s[1..] == body[1..] + "*/" + rest;
      BlockIsSkipped(body[1..], rest);
    }
  }

  lemma {:induction false} LineIsStripped(body: string, rest: string)
    requires '\n' !in body
    ensures StripComments("//" + body + "\n" + rest, Outside) == "\n" + StripComments(rest, Outside)
  {
    var s := "//" + body + "\n" + rest;
    assert "//" <= s && s[2..] == body + "\n" + rest;
    LineIsSkipped(body, rest);
    assert Skip("\n" + rest, 1) == rest;
  }

  lemma {:induction false} BlockIsStripped(body: string, rest: string)
    requires NoBlockEnd(body)
    ensures StripComments("/*" + body + "*/" + rest, Outside) == StripComments(rest, Outside)
  {
    var s := "/*" + body + "*/" + rest;
    assert s[0] == '/' && s[1] == '*' && s[2..] == body + "*/" + rest;
    BlockIsSkipped(body, rest);
    assert Skip("*/" + rest, 2) == rest;
  }

  function StrippedText(item: Item): string
  {
    match item
    case T(token) => TokenText(token)
    case Blank(c) => [c]
    case Line(_) => "\n"
    case Block(_) => ""
  }

  lemma {:induction false} ItemIsUncommented(item: Item, rest: string)
    requires ItemOk(item)
    ensures StripComments(ItemText(item) + rest, Outside) == StrippedText(item) + StripComments(rest, Outside)
  {
    match item {
      case T(token) => TokenIsCopied(token, rest);
      case Blank(c) => assert ([c] + rest)[0] == c && ([c] + rest)[1..] == rest;
      case Line(body) =>
        LineIsStripped(body, rest);
        assert ItemText(item) + rest == "//" + body + "\n" + rest;
      case Block(body) =>
        BlockIsStripped(body, rest);
        assert ItemText(item) + rest == "/*" + body + "*/" + rest;
        assert "" + StripComments(rest, Outside) == StripComments(rest, Outside);
    }
  }

  // The stripped text is the text of the items without their comments.
  lemma {:induction false} CommentsAreStripped(items: seq<Item>, tail: string)
    requires ItemsOk(items) && TailOk(tail)
    ensures StripComments(Render(items, tail), Outside) == Render(Uncommented(items), if tail == [] then "" else "\n")
  {
    if items != [] {
      CommentsAreStripped(items[1..], tail);
      ItemIsUncommented(items[0], Render(items[1..], tail));
      UncommentedText(items, if tail == [] then "" else "\n");
    } else if tail != [] {
      LastLineIsSkipped(tail[2..]);
    }
  }

  lemma {:induction false} UncommentedText(items: seq<Item>, tail: string)
    requires items != []
    ensures Render(Uncommented(items), tail) == StrippedText(items[0]) + Render(Uncommented(items[1..]), tail)
  {
    var rest := Uncommented(items[1..]);
    match items[0] {
      case Line(_) => assert ([Blank('\n')] + rest)[1..] == rest;
      case Block(_) => assert [] + rest == rest;
      case _ => assert ([items[0]] + rest)[1..] == rest;
    }
  }

  // ---------------------------------------------------------------- trailing commas

  predicate Plain(items: seq<Item>)
  {
    forall i :: 0 <= i < |items| ==> ItemOk(items[i]) && (items[i].T? || items[i].Blank?)
  }

  predicate IsCloser(t: Token)
  {
    t == Punct('}') || t == Punct(']')
  }

  function DropCommas(ts: seq<Token>): seq<Token>
  {
    if ts == [] then []
    else if ts[0] == Punct(',') && |ts| > 1 && IsCloser(ts[1]) then DropCommas(ts[1..])
    else [ts[0]] + DropCommas(ts[1..])
  }

  function Uncomma(items: seq<Item>): seq<Item>
  {
    if items == [] then []
    else if items[0] == T(Punct(',')) && Tokens(items[1..]) != [] && IsCloser(Tokens(items[1..])[0]) then Uncomma(items[1..])
    else [items[0]] + Uncomma(items[1..])
  }

  lemma {:induction false} SolidStart(t: Token, rest: string)
    requires TokenOk(t)
    ensures ClosesNext(TokenText(t) + rest) <==> IsCloser(t)
  {
    var s := TokenText(t) + rest;
    assert s[0] == TokenText(t)[0] && !IsSpace(s[0]);
  }

  lemma {:induction false} LooksAhead(items: seq<Item>, tail: string)
    requires Plain(items) && tail in {"", "\n"}
    ensures ClosesNext(Render(items, tail)) <==> Tokens(items) != [] && IsCloser(Tokens(items)[0])
  {
    if items != [] {
      var rest := Render(items[1..], tail);
      LooksAhead(items[1..], tail);
      match items[0] {
        case T(t) => SolidStart(t, rest);
        case Blank(c) => assert ([c] + rest)[1..] == rest;
      }
    }
  }

  lemma {:induction false} TokenKeepsItsText(t: Token, rest: string)
    requires TokenOk(t) && (t == Punct(',') ==> !ClosesNext(rest))
    ensures StripCommas(TokenText(t) + rest, Outside) == TokenText(t) + StripCommas(rest, Outside)
  {
    match t {
      case Punct(c) => assert ([c] + rest)[1..] == rest;
      case Quoted(raw) =>
        assert raw == [raw[0]] + raw[1..];
        assert (raw + rest)[1..] == raw[1..] + rest;
        StringIsCopied(raw[1..], Inside, rest);
      case Word(raw) => WordIsCopied(raw, rest);
    }
  }

  lemma {:induction false} CommasAreStripped(items: seq<Item>, tail: string)
    requires Plain(items) && tail in {"", "\n"}
    ensures StripCommas(Render(items, tail), Outside) == Render(Uncomma(items), tail)
  {
    if items != [] {
      var rest := Render(items[1..], tail);
      CommasAreStripped(items[1..], tail);
      LooksAhead(items[1..], tail);
      assert ([items[0]] + Uncomma(items[1..]))[1..] == Uncomma(items[1..]);
      match items[0] {
        case T(t) =>
          if t == Punct(',') && ClosesNext(rest) {
            assert (TokenText(t) + rest)[1..] == rest;
          } else {
            TokenKeepsItsText(t, rest);
          }
        case Blank(c) => assert ([c] + rest)[1..] == rest;
      }
    }
  }

  lemma {:induction false} UncommaTokens(items: seq<Item>)
    requires Plain(items)
    ensures Plain(Uncomma(items)) && Tokens(Uncomma(items)) == DropCommas(Tokens(items))
  {
    if items != [] {
      UncommaTokens(items[1..]);
      var rest := Uncomma(items[1..]);
      assert ([items[0]] + rest)[1..] == rest;
      if items[0].T? {
        var ts := [items[0].token] + Tokens(items[1..]);
        assert ts[1..] == Tokens(items[1..]);
      }
    }
  }

  lemma {:induction false} UncommentedTokens(items: seq<Item>)
    requires ItemsOk(items)
    ensures Plain(Uncommented(items)) && Tokens(Uncommented(items)) == Tokens(items)
  {
    if items != [] {
      UncommentedTokens(items[1..]);
      var rest := Uncommented(items[1..]);
      match items[0] {
        case Line(_) => assert ([Blank('\n')] + rest)[1..] == rest;
        case Block(_) => assert [] + rest == rest;
        case _ => assert ([items[0]] + rest)[1..] == rest;
      }
    }
  }

  // ---------------------------------------------------------------- reading the tokens back

  predicate WordsApart(ts: seq<Token>)
  {
    forall i :: 0 <= i < |ts| - 1 ==> !(ts[i].Word? && ts[i + 1].Word?)
  }

  lemma {:induction false} WordEnds(raw: string, rest: string)
    requires forall i :: 0 <= i < |raw| ==> IsWordChar(raw[i])
    requires rest == [] || !IsWordChar(rest[0])
    ensures WordLength(raw + rest) == |raw|
  {
    if raw == [] {
      assert raw + rest == rest;
    } else {
      assert (raw + rest)[1..] == raw[1..] + rest;
      WordEnds(raw[1..], rest);
    }
  }

  lemma {:induction false} LexToken(t: Token, rest: string)
    requires TokenOk(t) && (t.Word? ==> rest == [] || !IsWordChar(rest[0]))
    ensures Lex(TokenText(t) + rest) == Prepend(t, Lex(rest))
  {
    var s := TokenText(t) + rest;
    match t {
      case Punct(c) => assert s[1..] == rest;
      case Quoted(raw) =>
        assert s[1..] == raw[1..] + rest;
        StringIsCopied(raw[1..], Inside, rest);
        assert s[..|raw|] == raw && s[|raw|..] == rest;
      case Word(raw) =>
        WordEnds(raw, rest);
        assert s[0] == raw[0];
        assert s[..|raw|] == raw && s[|raw|..] == rest;
    }
  }

  // Between words stands something else, so the text after a word does not continue it.
  lemma {:induction false} WordStops(items: seq<Item>, tail: string)
    requires Plain(items) && tail in {"", "\n"}
    requires items == [] || !items[0].T? || !items[0].token.Word?
    ensures var rest := Render(items, tail); rest == [] || !IsWordChar(rest[0])
  {
  }

  lemma {:induction false} TokensAreRead(items: seq<Item>, tail: string)
    requires Plain(items) && tail in {"", "\n"} && WordsApart(Tokens(items))
    ensures Lex(Render(items, tail)) == Some(Tokens(items))
  {
    if items != [] {
      var rest := Render(items[1..], tail);
      if items[0].T? {
        var ts := Tokens(items);
        assert ts == [items[0].token] + Tokens(items[1..]);
        assert ts[1..] == Tokens(items[1..]);
        assert WordsApart(ts[1..]) by {
          forall i | 0 <= i < |ts[1..]| - 1 ensures !(ts[1..][i].Word? && ts[1..][i + 1].Word?) {
            assert !(ts[i + 1].Word? && ts[i + 2].Word?);
          }
        }
        TokensAreRead(items[1..], tail);
        if items[0].token.Word? {
          if |items| > 1 && items[1].T? {
            assert items[1..][0] == items[1] && ts[1] == items[1].token;
            assert !(ts[0].Word? && ts[1].Word?);
          }
          WordStops(items[1..], tail);
        }
        LexToken(items[0].token, rest);
      } else {
        TokensAreRead(items[1..], tail);
        assert ([items[0].c] + rest)[1..] == rest;
      }
    } else if tail == "\n" {
      assert Lex("\n"[1..]) == Some([]);
    }
  }

  // ---------------------------------------------------------------- values and their spellings

  // A value as written: an array (no keys) or an object, perhaps with a comma before what
  // closes it.
  datatype Value = Leaf(token: Token) | Group(braces: bool, elements: seq<Element>, trailing: bool)

  datatype Element = Element(key: Token, value: Value)

  predicate ValueOk(v: Value)
  {
    match v
    case Leaf(t) => TokenOk(t) && !t.Punct?
    case Group(braces, elements, trailing) =>
      (elements == [] ==> !trailing) && forall i :: 0 <= i < |elements| ==> ElementOk(elements[i])
  }

  predicate ElementOk(e: Element)
  {
    e.key.Quoted? && ValueOk(e.value)
  }

  function Opener(braces: bool): Token { Punct(if braces then '{' else '[') }

  function Closer(braces: bool): Token { Punct(if braces then '}' else ']') }

  // The tokens of a value, followed by others; `lax` writes the trailing commas.
  function Spell(v: Value, lax: bool, after: seq<Token>): seq<Token>
    decreases v, 1
  {
    match v
    case Leaf(t) => [t] + after
    case Group(braces, elements, trailing) =>
      [Opener(braces)] + SpellElements(braces, elements, lax && trailing, lax, [Closer(braces)] + after)
  }

  function SpellElements(braces: bool, elements: seq<Element>, comma: bool, lax: bool, after: seq<Token>): seq<Token>
    decreases elements, 0
  {
    if elements == [] then after
    else
      var rest := SpellElements(braces, elements[1..], comma, lax, after);
      var more := if |elements| > 1 || comma then [Punct(',')] + rest else rest;
      assert elements[0].value < elements[0];
      var value := Spell(elements[0].value, lax, more);
      if braces then [elements[0].key, Punct(':')] + value else value
  }

  lemma {:induction false} SpellStart(v: Value, lax: bool, after: seq<Token>)
    requires ValueOk(v)
    ensures Spell(v, lax, after) != [] && !IsCloser(Spell(v, lax, after)[0]) && Spell(v, lax, after)[0] != Punct(',')
  {
  }

  lemma {:induction false} SpellElementsStart(braces: bool, elements: seq<Element>, comma: bool, lax: bool, after: seq<Token>)
    requires elements != [] && forall i :: 0 <= i < |elements| ==> ElementOk(elements[i])
    ensures var ts := SpellElements(braces, elements, comma, lax, after); ts != [] && !IsCloser(ts[0])
  {
    var rest := SpellElements(braces, elements[1..], comma, lax, after);
    SpellStart(elements[0].value, lax, if |elements| > 1 || comma then [Punct(',')] + rest else rest);
  }

  // Dropping the commas before what closes leaves the strict spelling.
  lemma {:induction false} SpellingIsStrict(v: Value, after: seq<Token>)
    requires ValueOk(v)
    ensures DropCommas(Spell(v, true, after)) == Spell(v, false, DropCommas(after))
    decreases v, 1
  {
    match v {
      case Leaf(t) => assert ([t] + after)[1..] == after;
      case Group(braces, elements, trailing) =>
        var end := [Closer(braces)] + after;
        assert end[1..] == after;
        var ts := SpellElements(braces, elements, trailing, true, end);
        assert ([Opener(braces)] + ts)[1..] == ts;
        ElementsAreStrict(braces, elements, trailing, end);
        assert DropCommas(end) == [Closer(braces)] + DropCommas(after);
    }
  }

  lemma {:induction false} ElementsAreStrict(braces: bool, elements: seq<Element>, comma: bool, after: seq<Token>)
    requires forall i :: 0 <= i < |elements| ==> ElementOk(elements[i])
    requires after != [] && IsCloser(after[0])
    ensures DropCommas(SpellElements(braces, elements, comma, true, after)) == SpellElements(braces, elements, false, false, DropCommas(after))
    decreases elements, 0
  {
    if elements != [] {
      var e := elements[0];
      var rest := SpellElements(braces, elements[1..], comma, true, after);
      ElementsAreStrict(braces, elements[1..], comma, after);
      var more := if |elements| > 1 || comma then [Punct(',')] + rest else rest;
      assert ([Punct(',')] + rest)[1..] == rest;
      if |elements| > 1 {
        SpellElementsStart(braces, elements[1..], comma, true, after);
      }
      assert ElementOk(e);
      assert e.value < e;
      SpellingIsStrict(e.value, more);
      var value := Spell(e.value, true, more);
      if braces {
        KeyIsKept(e.key, value);
      }
    }
  }

  lemma {:induction false} KeyIsKept(key: Token, value: seq<Token>)
    requires key.Quoted?
    ensures DropCommas([key, Punct(':')] + value) == [key, Punct(':')] + DropCommas(value)
  {
    var ts := [key, Punct(':')] + value;
    assert ts[1..] == [Punct(':')] + value && ts[1..][1..] == value;
  }

  lemma {:induction false} ApartAfter(t: Token, ts: seq<Token>)
    requires WordsApart(ts) && (t.Word? && ts != [] ==> !ts[0].Word?)
    ensures WordsApart([t] + ts)
  {
  }

  lemma {:induction false} SpellingIsApart(v: Value, lax: bool, after: seq<Token>)
    requires ValueOk(v) && WordsApart(after) && (after == [] || !after[0].Word?)
    ensures WordsApart(Spell(v, lax, after))
    decreases v, 1
  {
    match v {
      case Leaf(t) => ApartAfter(t, after);
      case Group(braces, elements, trailing) =>
        ApartAfter(Closer(braces), after);
        ElementsAreApart(braces, elements, lax && trailing, lax, [Closer(braces)] + after);
        ApartAfter(Opener(braces), SpellElements(braces, elements, lax && trailing, lax, [Closer(braces)] + after));
    }
  }

  lemma {:induction false} ElementsAreApart(braces: bool, elements: seq<Element>, comma: bool, lax: bool, after: seq<Token>)
    requires forall i :: 0 <= i < |elements| ==> ElementOk(elements[i])
    requires WordsApart(after) && after != [] && !after[0].Word?
    ensures WordsApart(SpellElements(braces, elements, comma, lax, after))
    decreases elements, 0
  {
    if elements != [] {
      var e := elements[0];
      var rest := SpellElements(braces, elements[1..], comma, lax, after);
      ElementsAreApart(braces, elements[1..], comma, lax, after);
      ApartAfter(Punct(','), rest);
      var more := if |elements| > 1 || comma then [Punct(',')] + rest else rest;
      assert ElementOk(e);
      assert e.value < e;
      SpellingIsApart(e.value, lax, more);
      var value := Spell(e.value, lax, more);
      ApartAfter(Punct(':'), value);
      ApartAfter(e.key, [Punct(':')] + value);
      assert [e.key] + ([Punct(':')] + value) == [e.key, Punct(':')] + value;
    }
  }

  // ---------------------------------------------------------------- the guarantees

  // `layout` writes the value with white space and comments between the tokens.
  predicate Writes(layout: seq<Item>, tail: string, v: Value, lax: bool)
  {
    ItemsOk(layout) && TailOk(tail) && ValueOk(v) && Tokens(layout) == Spell(v, lax, [])
  }

  function Strip(text: string): string
  {
    StripCommas(StripComments(text, Outside), Outside)
  }

  // However a value is laid out, the stripped text reads as its strict tokens - strings to
  // the letter.
  lemma {:induction false} StrippingKeepsMeaning(layout: seq<Item>, tail: string, v: Value)
    requires Writes(layout, tail, v, true)
    ensures Lex(Strip(Render(layout, tail))) == Some(Spell(v, false, []))
  {
    var plain := Uncommented(layout);
    var end := if tail == [] then "" else "\n";
    CommentsAreStripped(layout, tail);
    UncommentedTokens(layout);
    CommasAreStripped(plain, end);
    UncommaTokens(plain);
    SpellingIsStrict(v, []);
    SpellingIsApart(v, false, []);
    TokensAreRead(Uncomma(plain), end);
  }

  lemma {:induction false} NothingToUncomment(items: seq<Item>)
    requires Plain(items)
    ensures Uncommented(items) == items
  {
    if items != [] {
      NothingToUncomment(items[1..]);
    }
  }

  lemma {:induction false} NothingToUncomma(items: seq<Item>)
    requires Plain(items) && DropCommas(Tokens(items)) == Tokens(items)
    ensures Uncomma(items) == items
  {
    if items != [] {
      if items[0].T? {
        var ts := Tokens(items);
        assert ts[1..] == Tokens(items[1..]);
        DroppingShortens(ts[1..]);
        assert DropCommas(ts) == [ts[0]] + DropCommas(ts[1..]);
        assert DropCommas(ts)[1..] == DropCommas(ts[1..]);
      }
      NothingToUncomma(items[1..]);
    }
  }

  lemma {:induction false} DroppingShortens(ts: seq<Token>)
    ensures |DropCommas(ts)| <= |ts|
  {
    if ts != [] {
      DroppingShortens(ts[1..]);
    }
  }

  lemma {:induction false} StrictHasNoneToDrop(v: Value, after: seq<Token>)
    requires ValueOk(v)
    ensures DropCommas(Spell(v, false, after)) == Spell(v, false, DropCommas(after))
  {
    var strict := Strict(v);
    SpellingIsStrict(strict, after);
    StrictSpells(v, false, after);
    StrictSpells(v, false, DropCommas(after));
  }

  // The value written without trailing commas.
  function Strict(v: Value): (r: Value)
    requires ValueOk(v)
    ensures ValueOk(r)
    decreases v, 1
  {
    match v
    case Leaf(_) => v
    case Group(braces, elements, _) => Group(braces, StrictElements(elements), false)
  }

  function StrictElements(elements: seq<Element>): (r: seq<Element>)
    requires forall i :: 0 <= i < |elements| ==> ElementOk(elements[i])
    ensures |r| == |elements| && forall i :: 0 <= i < |r| ==> ElementOk(r[i])
    decreases elements, 0
  {
    if elements == [] then []
    else
      assert ElementOk(elements[0]) && elements[0].value < elements[0];
      [Element(elements[0].key, Strict(elements[0].value))] + StrictElements(elements[1..])
  }

  // Without trailing commas both spellings agree with the strict one of the original.
  lemma {:induction false} StrictSpells(v: Value, lax: bool, after: seq<Token>)
    requires ValueOk(v)
    ensures Spell(Strict(v), true, after) == Spell(v, false, after) == Spell(Strict(v), false, after)
    decreases v, 1
  {
    match v {
      case Leaf(_) =>
      case Group(braces, elements, _) => StrictElementsSpell(braces, elements, [Closer(braces)] + after);
    }
  }

  lemma {:induction false} StrictElementsSpell(braces: bool, elements: seq<Element>, after: seq<Token>)
    requires forall i :: 0 <= i < |elements| ==> ElementOk(elements[i])
    ensures SpellElements(braces, StrictElements(elements), false, true, after) == SpellElements(braces, elements, false, false, after)
         == SpellElements(braces, StrictElements(elements), false, false, after)
    decreases elements, 0
  {
    if elements != [] {
      var e := elements[0];
      assert ElementOk(e);
      StrictElementsSpell(braces, elements[1..], after);
      var rest := SpellElements(braces, elements[1..], false, false, after);
      var more := if |elements| > 1 then [Punct(',')] + rest else rest;
      assert e.value < e;
      StrictSpells(e.value, true, more);
      assert StrictElements(elements)[1..] == StrictElements(elements[1..]);
    }
  }

  // Strict JSON passes through unchanged.
  lemma {:induction false} StrictIsUnchanged(layout: seq<Item>, v: Value)
    requires Writes(layout, "", v, false) && Plain(layout)
    ensures Strip(Render(layout, "")) == Render(layout, "")
  {
    NothingToUncomment(layout);
    CommentsAreStripped(layout, "");
    StrictHasNoneToDrop(v, []);
    NothingToUncomma(layout);
    CommasAreStripped(layout, "");
  }
}
