/** Reading the compiled text as a regular expression, what that expression accepts, and its agreement
    with the meaning of the Ant wildcards. */
module AntMatcher {
  import opened Text
  import opened AntCompiler

  // ----- regular expressions, in the fragment the compiler emits -----

  datatype Re =
    | Empty
    | Char(c: char)
    | NotSlash
    | Cat(first: Re, second: Re)
    | Or(left: Re, right: Re)
    | Repeat(body: Re)
    | Plus(body: Re)
    | Maybe(body: Re)

  function Size(r: Re): nat {
    match r
    case Empty | Char(_) | NotSlash => 1
    case Cat(a, b) => 1 + Size(a) + Size(b)
    case Or(a, b) => 1 + Size(a) + Size(b)
    case Repeat(b) => 1 + Size(b)
    case Plus(b) => 1 + Size(b)
    case Maybe(b) => 1 + Size(b)
  }

  ghost predicate Accepts(r: Re, s: string)
    decreases Size(r), 0, |s|, 0
  {
    match r
    case Empty => s == []
    case Char(c) => s == [c]
    case NotSlash => |s| == 1 && s[0] != '/'
    case Cat(a, b) => exists k :: CutAt(a, b, s, k)
    case Or(a, b) => Accepts(a, s) || Accepts(b, s)
    case Repeat(b) => AcceptsRepeated(b, s)
    case Plus(b) => exists k :: OnceThenAt(b, s, k)
    case Maybe(b) => s == [] || Accepts(b, s)
  }

  /** `a` accepts the first `k` characters and `b` the others. */
  ghost predicate CutAt(a: Re, b: Re, s: string, k: int)
    decreases Size(a) + Size(b), 3, |s|, 0
  {
    0 <= k <= |s| && Accepts(a, s[..k]) && Accepts(b, s[k..])
  }

  ghost predicate OnceThenAt(b: Re, s: string, k: int)
    decreases Size(b), 2, |s|, 0
  {
    0 <= k <= |s| && Accepts(b, s[..k]) && AcceptsRepeated(b, s[k..])
  }

  ghost predicate AcceptsRepeated(b: Re, s: string)
    decreases Size(b), 1, |s|, 1
  {
    s == [] || exists k :: RoundAt(b, s, k)
  }

  ghost predicate RoundAt(b: Re, s: string, k: int)
    decreases Size(b), 1, |s|, 0
  {
    0 < k <= |s| && Accepts(b, s[..k]) && AcceptsRepeated(b, s[k..])
  }

  /** Characters with a meaning of their own outside a character class. */
  const META := ".^$*+?{}[]\\|()"

  predicate IsAlphanumeric(c: char) {
    'a' <= c <= 'z' || 'A' <= c <= 'Z' || '0' <= c <= '9' || c as int > 127
  }

  datatype Parse = Parsed(re: Re, rest: string) | Rejected

  /** alternatives separated by bars */
  function ParseAlternatives(s: string): (p: Parse)
    ensures p.Parsed? ==> |p.rest| <= |s|
    decreases |s|, 3
  {
    var first := ParseSequence(s);
    if first.Rejected? then Rejected
    else if first.rest != [] && first.rest[0] == '|' then
      var others := ParseAlternatives(first.rest[1..]);
      if others.Rejected? then Rejected else Parsed(Or(first.re, others.re), others.rest)
    else first
  }

  function ParseSequence(s: string): (p: Parse)
    ensures p.Parsed? ==> |p.rest| <= |s|
    decreases |s|, 2
  {
    if s == [] || s[0] == ')' || s[0] == '|' then Parsed(Empty, s)
    else
      var item := ParseItem(s);
      if item.Rejected? then Rejected
      else
        var more := ParseSequence(item.rest);
        if more.Rejected? then Rejected else Parsed(Cat(item.re, more.re), more.rest)
  }

  /** an atom and at most one quantifier; lazy, possessive and counted ones are not in the fragment */
  function ParseItem(s: string): (p: Parse)
    requires s != []
    ensures p.Parsed? ==> |p.rest| < |s|
    decreases |s|, 1
  {
    var atom := ParseAtom(s);
    if atom.Rejected? || atom.rest == [] then atom
    else if atom.rest[0] == '{' then Rejected
    else if atom.rest[0] in "*+?" then
      var rest := atom.rest[1..];
      if rest != [] && rest[0] in "*+?{" then Rejected
      else if atom.rest[0] == '*' then Parsed(Repeat(atom.re), rest)
      else if atom.rest[0] == '+' then Parsed(Plus(atom.re), rest)
      else Parsed(Maybe(atom.re), rest)
    else atom
  }

  function ParseAtom(s: string): (p: Parse)
    requires s != []
    ensures p.Parsed? ==> |p.rest| < |s|
    decreases |s|, 0
  {
    if s[0] == '\\' then
      if |s| > 1 && !IsAlphanumeric(s[1]) then Parsed(Char(s[1]), s[2..]) else Rejected
    else if "(?:" <= s then
      var inner := ParseAlternatives(s[3..]);
      if inner.Parsed? && inner.rest != [] && inner.rest[0] == ')' then Parsed(inner.re, inner.rest[1..]) else Rejected
    else if "[^/]" <= s then Parsed(NotSlash, s[4..])
    else if s[0] in META then Rejected
    else Parsed(Char(s[0]), s[1..])
  }

  /** `re.compile(text).match(path)` for a text anchored at both ends; the closing anchor also
      holds in front of a final line feed. */
  ghost predicate TextMatches(text: string, path: string) {
    && |text| >= 2 && text[0] == '^' && text[|text| - 1] == '$'
    && var p := ParseAlternatives(text[1..|text| - 1]);
       && p.Parsed? && p.rest == []
       && (|| Accepts(p.re, path)
           || (path != [] && path[|path| - 1] == '\n' && Accepts(p.re, path[..|path| - 1])))
  }

  // ----- the meaning of Ant patterns -----

  /** What one token stands for. */
  ghost predicate Means(t: Token, s: string) {
    match t
    case Literal(c) => s == [c]
    case One => |s| == 1 && s[0] != '/'
    case Star => '/' !in s
    case Deep => s == [] || forall i :: 0 <= i < |Split(s, "/")| ==> Split(s, "/")[i] != []
    case Any => s != [] && s[0] == '/' && s[|s| - 1] == '/'
  }

  ghost predicate AntMatches(ts: seq<Token>, s: string)
    decreases |ts|, 1
  {
    if ts == [] then s == []
    else exists k :: TokenAt(ts, s, k)
  }

  /** The first token stands for the first `k` characters. */
  ghost predicate TokenAt(ts: seq<Token>, s: string, k: int)
    requires ts != []
    decreases |ts|, 0
  {
    0 <= k <= |s| && Means(ts[0], s[..k]) && AntMatches(ts[1..], s[k..])
  }

  // ----- the emitted text is read as the expression of its tokens -----

  const SEGMENT := Cat(Plus(NotSlash), Cat(Char('/'), Empty))
  const DEEP_BODY := Cat(Repeat(SEGMENT), Cat(Plus(NotSlash), Empty))
  const ANY_BODY := Cat(Repeat(NotSlash), Cat(Char('/'), Empty))

  /** The expression of a token followed by `rest`. */
  function TokenRegex(t: Token, rest: Re): Re {
    match t
    case Literal(c) => Cat(Char(c), rest)
    case One => Cat(NotSlash, rest)
    case Star => Cat(Repeat(NotSlash), rest)
    case Deep => Cat(Maybe(DEEP_BODY), rest)
    case Any => Cat(Char('/'), Cat(Repeat(ANY_BODY), rest))
  }

  function Regex(ts: seq<Token>): Re {
    if ts == [] then Empty else TokenRegex(ts[0], Regex(ts[1..]))
  }

  /** Text that neither continues a quantifier nor is one. */
  predicate StartsItem(s: string) {
    s == [] || s[0] !in "*+?{"
  }

  predicate EndsSequence(s: string) {
    s == [] || s[0] == ')' || s[0] == '|'
  }

  lemma AtomNotSlash(rest: string)
    ensures ParseAtom("[^/]" + rest) == Parsed(NotSlash, rest)
  {
    var s := "[^/]" + rest;
    assert s[0] == '[';
    assert !("(?:" <= s);
    assert s[..4] == "[^/]";
    assert s[4..] == rest;
  }

  lemma AtomGroup(inner: string, re: Re, rest: string)
    requires ParseAlternatives(inner + ")" + rest) == Parsed(re, ")" + rest)
    ensures ParseAtom("(?:" + inner + ")" + rest) == Parsed(re, rest)
  {
    var s := "(?:" + inner + ")" + rest;
    assert s[0] == '(' && s[..3] == "(?:";
    assert s[3..] == inner + ")" + rest;
    assert (")" + rest)[1..] == rest;
  }

  /** Where an atom is read, its quantifier is read with it. */
  lemma ItemQuantified(s: string, atom: Re, q: char, rest: string)
    requires s != [] && ParseAtom(s) == Parsed(atom, [q] + rest) && q in "*+?" && StartsItem(rest)
    ensures ParseItem(s) == Parsed(if q == '*' then Repeat(atom) else if q == '+' then Plus(atom) else Maybe(atom), rest)
  {
    assert ([q] + rest)[1..] == rest;
  }

  lemma ItemPlain(s: string, atom: Re, rest: string)
    requires s != [] && ParseAtom(s) == Parsed(atom, rest) && StartsItem(rest)
    ensures ParseItem(s) == Parsed(atom, rest)
  {
  }

  lemma ItemSlash(rest: string)
    requires StartsItem(rest)
    ensures ParseItem("/" + rest) == Parsed(Char('/'), rest)
  {
    var s := "/" + rest;
    assert s[0] == '/' && !("(?:" <= s) && !("[^/]" <= s) && s[1..] == rest;
    ItemPlain(s, Char('/'), rest);
  }

  lemma ItemNotSlash(q: string, rest: string)
    requires q == [] || q == "*" || q == "+"
    requires StartsItem(rest)
    ensures ParseItem("[^/]" + q + rest)
            == Parsed(if q == [] then NotSlash else if q == "*" then Repeat(NotSlash) else Plus(NotSlash), rest)
  {
    if q == [] {
      AtomNotSlash(rest);
      assert "[^/]" + q + rest == "[^/]" + rest;
    } else {
      AtomNotSlash([q[0]] + rest);
      assert "[^/]" + q + rest == "[^/]" + ([q[0]] + rest);
      ItemQuantified("[^/]" + ([q[0]] + rest), NotSlash, q[0], rest);
    }
  }

  lemma SequenceStep(s: string, item: Re, rest: string, more: Re, end: string)
    requires s != [] && s[0] != ')' && s[0] != '|'
    requires ParseItem(s) == Parsed(item, rest)
    requires ParseSequence(rest) == Parsed(more, end)
    ensures ParseSequence(s) == Parsed(Cat(item, more), end)
  {
  }

  lemma AlternativeOfOne(s: string, re: Re, rest: string)
    requires ParseSequence(s) == Parsed(re, rest)
    requires rest == [] || rest[0] != '|'
    ensures ParseAlternatives(s) == Parsed(re, rest)
  {
  }

  /** An item and a slash inside a group. */
  lemma GroupedItem(text: string, item: Re, rest: string)
    requires text != [] && text[0] != ')' && text[0] != '|'
    requires ParseItem(text + ("/" + (")" + rest))) == Parsed(item, "/" + (")" + rest))
    ensures ParseAtom("(?:" + (text + "/") + ")" + rest) == Parsed(Cat(item, Cat(Char('/'), Empty)), rest)
  {
    var close := ")" + rest;
    var slash := "/" + close;
    var inner := text + slash;
    ItemSlash(close);
    SequenceStep(slash, Char('/'), close, Empty, close);
    SequenceStep(inner, item, slash, Cat(Char('/'), Empty), close);
    AlternativeOfOne(inner, Cat(item, Cat(Char('/'), Empty)), close);
    assert inner == (text + "/") + ")" + rest;
    AtomGroup(text + "/", Cat(item, Cat(Char('/'), Empty)), rest);
  }

  /** `[^/]q/` inside a group */
  lemma GroupedSegment(q: string, rest: string)
    requires q == "*" || q == "+"
    ensures ParseAtom("(?:" + ("[^/]" + q + "/") + ")" + rest)
            == Parsed(Cat(if q == "*" then Repeat(NotSlash) else Plus(NotSlash), Cat(Char('/'), Empty)), rest)
  {
    ItemNotSlash(q, "/" + (")" + rest));
    GroupedItem("[^/]" + q, if q == "*" then Repeat(NotSlash) else Plus(NotSlash), rest);
  }

  lemma ItemAnyBody(rest: string)
    requires StartsItem(rest)
    ensures ParseItem("(?:[^/]*/)*" + rest) == Parsed(Repeat(ANY_BODY), rest)
  {
    GroupedSegment("*", ['*'] + rest);
    assert "(?:[^/]*/)*" + rest == "(?:" + ("[^/]" + "*" + "/") + ")" + (['*'] + rest);
    ItemQuantified("(?:[^/]*/)*" + rest, ANY_BODY, '*', rest);
  }

  /** The last segment of the deep wildcard. */
  lemma DeepLast(close: string)
    requires EndsSequence(close)
    ensures ParseSequence("[^/]+" + close) == Parsed(Cat(Plus(NotSlash), Empty), close)
  {
    ItemNotSlash("+", close);
    assert "[^/]" + "+" + close == "[^/]+" + close;
    SequenceStep("[^/]+" + close, Plus(NotSlash), close, Empty, close);
  }

  lemma ItemSegments(last: string)
    requires StartsItem(last)
    ensures ParseItem("(?:[^/]+/)*" + last) == Parsed(Repeat(SEGMENT), last)
  {
    GroupedSegment("+", ['*'] + last);
    assert "(?:[^/]+/)*" + last == "(?:" + ("[^/]" + "+" + "/") + ")" + (['*'] + last);
    ItemQuantified("(?:[^/]+/)*" + last, SEGMENT, '*', last);
  }

  /** The inside of the deep wildcard's group. */
  lemma DeepInside(close: string)
    requires EndsSequence(close)
    ensures ParseSequence("(?:[^/]+/)*[^/]+" + close) == Parsed(DEEP_BODY, close)
  {
    var last := "[^/]+" + close;
    DeepLast(close);
    ItemSegments(last);
    SequenceStep("(?:[^/]+/)*" + last, Repeat(SEGMENT), last, Cat(Plus(NotSlash), Empty), close);
    assert "(?:[^/]+/)*" + last == "(?:[^/]+/)*[^/]+" + close;
  }

  /** An optional group. */
  lemma ItemOptionalGroup(inner: string, re: Re, rest: string)
    requires StartsItem(rest)
    requires ParseSequence(inner + (")" + (['?'] + rest))) == Parsed(re, ")" + (['?'] + rest))
    ensures ParseItem("(?:" + inner + ")" + (['?'] + rest)) == Parsed(Maybe(re), rest)
  {
    var after := ['?'] + rest;
    AlternativeOfOne(inner + (")" + after), re, ")" + after);
    assert inner + (")" + after) == inner + ")" + after;
    AtomGroup(inner, re, after);
    ItemQuantified("(?:" + inner + ")" + after, re, '?', rest);
  }

  lemma ItemDeep(rest: string)
    requires StartsItem(rest)
    ensures ParseItem(DEEP + rest) == Parsed(Maybe(DEEP_BODY), rest)
  {
    var inner := DEEP[3..|DEEP| - 2];
    assert inner == "(?:[^/]+/)*[^/]+";
    DeepInside(")" + (['?'] + rest));
    ItemOptionalGroup(inner, DEEP_BODY, rest);
    assert DEEP + rest == "(?:" + inner + ")" + (['?'] + rest);
  }

  lemma ItemLiteral(c: char, rest: string)
    requires StartsItem(rest)
    ensures ParseItem(EscapeChar(c) + rest) == Parsed(Char(c), rest)
    ensures EscapeChar(c)[0] != ')' && EscapeChar(c)[0] != '|' && EscapeChar(c)[0] !in "*+?{"
  {
    var s := EscapeChar(c) + rest;
    if c in ESCAPED {
      assert s[0] == '\\' && s[1] == c && s[2..] == rest;
      assert !IsAlphanumeric(c);
    } else {
      assert c !in META;
      assert s[0] == c && s[1..] == rest;
      assert !("(?:" <= s) && !("[^/]" <= s);
    }
    ItemPlain(s, Char(c), rest);
  }

  lemma {:induction false} EmitStarts(ts: seq<Token>, rest: string)
    requires EndsSequence(rest)
    ensures StartsItem(Emit(ts) + rest)
    ensures ts != [] ==> Emit(ts) != [] && Emit(ts)[0] != ')' && Emit(ts)[0] != '|'
  {
    if ts == [] {
      assert Emit(ts) + rest == rest;
    } else {
      TokenStarts(ts[0]);
      assert Emit(ts)[0] == EmitToken(ts[0])[0];
    }
  }

  lemma TokenStarts(t: Token)
    ensures EmitToken(t) != [] && EmitToken(t)[0] !in ")|*+?{"
  {
    if t.Literal? {
      ItemLiteral(t.c, []);
    }
  }

  lemma ReadsAny(tail: string, more: Re, end: string)
    requires StartsItem(tail) && ParseSequence(tail) == Parsed(more, end)
    ensures ParseSequence(ANY + tail) == Parsed(TokenRegex(Any, more), end)
  {
    var mid := "(?:[^/]*/)*" + tail;
    ItemAnyBody(tail);
    SequenceStep(mid, Repeat(ANY_BODY), tail, more, end);
    ItemSlash(mid);
    assert ANY + tail == "/" + mid;
    SequenceStep("/" + mid, Char('/'), mid, Cat(Repeat(ANY_BODY), more), end);
  }

  lemma ReadsDeep(tail: string, more: Re, end: string)
    requires StartsItem(tail) && ParseSequence(tail) == Parsed(more, end)
    ensures ParseSequence(DEEP + tail) == Parsed(TokenRegex(Deep, more), end)
  {
    ItemDeep(tail);
    SequenceStep(DEEP + tail, Maybe(DEEP_BODY), tail, more, end);
  }

  lemma ReadsSimple(t: Token, tail: string, more: Re, end: string)
    requires t.Literal? || t.One? || t.Star?
    requires StartsItem(tail) && ParseSequence(tail) == Parsed(more, end)
    ensures ParseSequence(EmitToken(t) + tail) == Parsed(TokenRegex(t, more), end)
  {
    var s := EmitToken(t) + tail;
    if t.Literal? {
      ItemLiteral(t.c, tail);
      SequenceStep(s, Char(t.c), tail, more, end);
    } else {
      var q := if t.One? then "" else "*";
      ItemNotSlash(q, tail);
      assert s == "[^/]" + q + tail;
      SequenceStep(s, if t.One? then NotSlash else Repeat(NotSlash), tail, more, end);
    }
  }

  lemma ReadsToken(t: Token, tail: string, more: Re, end: string)
    requires StartsItem(tail) && ParseSequence(tail) == Parsed(more, end)
    ensures ParseSequence(EmitToken(t) + tail) == Parsed(TokenRegex(t, more), end)
  {
    if t.Any? {
      ReadsAny(tail, more, end);
    } else if t.Deep? {
      ReadsDeep(tail, more, end);
    } else {
      ReadsSimple(t, tail, more, end);
    }
  }

  /** The text emitted for tokens is read as exactly their expression. */
  lemma {:induction false} ReadsEmittedText(ts: seq<Token>, rest: string)
    requires EndsSequence(rest)
    ensures ParseSequence(Emit(ts) + rest) == Parsed(Regex(ts), rest)
  {
    if ts == [] {
      assert Emit(ts) + rest == rest;
    } else {
      var tail := Emit(ts[1..]) + rest;
      ReadsEmittedText(ts[1..], rest);
      EmitStarts(ts[1..], rest);
      ReadsToken(ts[0], tail, Regex(ts[1..]), rest);
      assert Emit(ts) + rest == EmitToken(ts[0]) + tail;
    }
  }

  // ----- the expression accepts what the tokens mean -----

  lemma CatIntro(a: Re, b: Re, s: string, k: nat)
    requires k <= |s| && Accepts(a, s[..k]) && Accepts(b, s[k..])
    ensures Accepts(Cat(a, b), s)
  {
    assert CutAt(a, b, s, k);
  }

  lemma CatElim(a: Re, b: Re, s: string) returns (k: nat)
    requires Accepts(Cat(a, b), s)
    ensures k <= |s| && Accepts(a, s[..k]) && Accepts(b, s[k..])
  {
    k :| CutAt(a, b, s, k);
  }

  lemma RepeatIntro(b: Re, s: string, k: nat)
    requires 0 < k <= |s| && Accepts(b, s[..k]) && AcceptsRepeated(b, s[k..])
    ensures AcceptsRepeated(b, s)
  {
    assert RoundAt(b, s, k);
  }

  lemma RepeatElim(b: Re, s: string) returns (k: nat)
    requires s != [] && AcceptsRepeated(b, s)
    ensures 0 < k <= |s| && Accepts(b, s[..k]) && AcceptsRepeated(b, s[k..])
  {
    k :| RoundAt(b, s, k);
  }

  lemma PlusIntro(b: Re, s: string, k: nat)
    requires k <= |s| && Accepts(b, s[..k]) && AcceptsRepeated(b, s[k..])
    ensures Accepts(Plus(b), s)
  {
    assert OnceThenAt(b, s, k);
  }

  lemma PlusElim(b: Re, s: string) returns (k: nat)
    requires Accepts(Plus(b), s)
    ensures k <= |s| && Accepts(b, s[..k]) && AcceptsRepeated(b, s[k..])
  {
    k :| OnceThenAt(b, s, k);
  }

  lemma TokenElim(ts: seq<Token>, s: string) returns (k: nat)
    requires ts != [] && AntMatches(ts, s)
    ensures k <= |s| && Means(ts[0], s[..k]) && AntMatches(ts[1..], s[k..])
  {
    k :| TokenAt(ts, s, k);
  }

  /** Cutting twice is cutting once at the sum. */
  lemma CutTwice(s: string, k: nat, j: nat)
    requires k + j <= |s|
    ensures s[..k + j][..k] == s[..k]
    ensures s[..k + j][k..] == s[k..][..j]
    ensures s[k..][j..] == s[k + j..]
  {
  }

  lemma {:induction false} RepeatNotSlash(s: string)
    ensures AcceptsRepeated(NotSlash, s) <==> '/' !in s
  {
    if s != [] {
      RepeatNotSlash(s[1..]);
      assert s == s[..1] + s[1..];
      if '/' !in s {
        RepeatIntro(NotSlash, s, 1);
      }
      if AcceptsRepeated(NotSlash, s) {
        var k := RepeatElim(NotSlash, s);
        assert k == 1;
      }
    }
  }

  lemma PlusNotSlash(s: string)
    ensures Accepts(Plus(NotSlash), s) <==> s != [] && '/' !in s
  {
    if s != [] && '/' !in s {
      RepeatNotSlash(s[1..]);
      PlusIntro(NotSlash, s, 1);
    }
    if Accepts(Plus(NotSlash), s) {
      var k := PlusElim(NotSlash, s);
      RepeatNotSlash(s[k..]);
      assert s == s[..k] + s[k..];
    }
  }

  lemma CatEmpty(r: Re, s: string)
    ensures Accepts(Cat(r, Empty), s) <==> Accepts(r, s)
  {
    if Accepts(r, s) {
      assert s[..|s|] == s;
      CatIntro(r, Empty, s, |s|);
    }
    if Accepts(Cat(r, Empty), s) {
      var k := CatElim(r, Empty, s);
      assert k == |s| && s[..k] == s;
    }
  }

  lemma SlashOnly(s: string)
    ensures Accepts(Cat(Char('/'), Empty), s) <==> s == "/"
  {
    CatEmpty(Char('/'), s);
  }

  /** `r` followed by a slash. */
  lemma CatSlash(r: Re, slash: Re, s: string)
    requires slash == Cat(Char('/'), Empty)
    ensures Accepts(Cat(r, slash), s) <==> s != [] && s[|s| - 1] == '/' && Accepts(r, s[..|s| - 1])
  {
    if s != [] && s[|s| - 1] == '/' && Accepts(r, s[..|s| - 1]) {
      assert s[|s| - 1..] == "/";
      SlashOnly(s[|s| - 1..]);
      CatIntro(r, slash, s, |s| - 1);
    }
    if Accepts(Cat(r, slash), s) {
      var k := CatElim(r, slash, s);
      SlashOnly(s[k..]);
      assert k == |s| - 1;
    }
  }

  lemma AnySegment(s: string)
    ensures Accepts(ANY_BODY, s) <==> s != [] && s[|s| - 1] == '/' && '/' !in s[..|s| - 1]
  {
    CatSlash(Repeat(NotSlash), ANY_BODY.second, s);
    if s != [] {
      RepeatNotSlash(s[..|s| - 1]);
    }
  }

  lemma DeepSegment(s: string)
    ensures Accepts(SEGMENT, s) <==> |s| >= 2 && s[|s| - 1] == '/' && '/' !in s[..|s| - 1]
  {
    CatSlash(Plus(NotSlash), SEGMENT.second, s);
    if s != [] {
      PlusNotSlash(s[..|s| - 1]);
    }
  }

  /** Position of the first slash. */
  function FirstSlash(s: string): (k: nat)
    requires '/' in s
    ensures k < |s| && s[k] == '/' && '/' !in s[..k]
  {
    if s[0] == '/' then 0
    else
      assert s == [s[0]] + s[1..];
      var k := FirstSlash(s[1..]);
      assert s[..k + 1] == [s[0]] + s[1..][..k];
      k + 1
  }

  /** Any number of segments, each closed by a slash: the empty text or one that ends with a slash. */
  lemma {:induction false} RepeatAnySegment(s: string)
    ensures AcceptsRepeated(ANY_BODY, s) <==> s == [] || s[|s| - 1] == '/'
    decreases |s|
  {
    if s != [] && s[|s| - 1] == '/' {
      var k := FirstSlash(s);
      AnySegment(s[..k + 1]);
      assert s[..k + 1][..k] == s[..k];
      RepeatAnySegment(s[k + 1..]);
      RepeatIntro(ANY_BODY, s, k + 1);
    }
    if s != [] && AcceptsRepeated(ANY_BODY, s) {
      var k := RepeatElim(ANY_BODY, s);
      AnySegment(s[..k]);
      RepeatAnySegment(s[k..]);
    }
  }

  ghost predicate NonEmptySegments(s: string) {
    forall i :: 0 <= i < |Split(s, "/")| ==> Split(s, "/")[i] != []
  }

  /** A first segment followed by a slash. */
  lemma SegmentsStep(s: string, k: nat)
    requires k < |s| && s[k] == '/' && '/' !in s[..k]
    ensures NonEmptySegments(s) <==> k > 0 && NonEmptySegments(s[k + 1..])
  {
    SplitPrefix(s[..k], '/', s[k + 1..]);
    assert s == s[..k] + ['/'] + s[k + 1..];
    var rest := Split(s[k + 1..], "/");
    assert Split(s, "/") == [s[..k]] + rest;
    if NonEmptySegments(s) {
      assert Split(s, "/")[0] == s[..k];
      forall i | 0 <= i < |rest|
        ensures rest[i] != []
      {
        assert Split(s, "/")[i + 1] == rest[i];
      }
    }
  }

  /** A repetition in front of `last` may begin with one more round. */
  lemma RepeatThenIntro(b: Re, last: Re, s: string, k: nat)
    requires 0 < k <= |s| && Accepts(b, s[..k]) && Accepts(Cat(Repeat(b), last), s[k..])
    ensures Accepts(Cat(Repeat(b), last), s)
  {
    var tail := s[k..];
    var j := CatElim(Repeat(b), last, tail);
    var front := s[..k + j];
    CutTwice(s, k, j);
    RepeatIntro(b, front, k);
    CatIntro(Repeat(b), last, s, k + j);
  }

  /** A repetition in front of `last` is no round at all or begins with one. */
  lemma RepeatThenElim(b: Re, last: Re, s: string) returns (k: nat)
    requires Accepts(Cat(Repeat(b), last), s)
    ensures k <= |s|
    ensures k == 0 ==> Accepts(last, s)
    ensures k > 0 ==> Accepts(b, s[..k]) && Accepts(Cat(Repeat(b), last), s[k..])
  {
    var j := CatElim(Repeat(b), last, s);
    if j == 0 {
      assert s[0..] == s;
      return 0;
    }
    var front := s[..j];
    k := RepeatElim(b, front);
    var tail := s[k..];
    CutTwice(s, k, j - k);
    CatIntro(Repeat(b), last, tail, j - k);
  }

  /** Without a slash only the last segment can match. */
  lemma DeepBodyLast(s: string)
    requires '/' !in s
    ensures Accepts(DEEP_BODY, s) <==> s != []
  {
    var last := Cat(Plus(NotSlash), Empty);
    CatEmpty(Plus(NotSlash), s);
    PlusNotSlash(s);
    if s != [] {
      assert s[0..] == s;
      CatIntro(Repeat(SEGMENT), last, s, 0);
    }
    if Accepts(DEEP_BODY, s) {
      var k := RepeatThenElim(SEGMENT, last, s);
    }
  }

  lemma SameFirstSlash(s: string, k: nat, i: nat)
    requires k < |s| && s[k] == '/' && '/' !in s[..k]
    requires 0 < i <= |s| && s[i - 1] == '/' && '/' !in s[..i - 1]
    ensures i == k + 1
  {
    forall j | 0 <= j < k
      ensures s[j] != '/'
    {
      assert s[j] in s[..k];
    }
    forall j | 0 <= j < i - 1
      ensures s[j] != '/'
    {
      assert s[j] in s[..i - 1];
    }
  }

  /** The first slash closes the first segment. */
  lemma DeepBodyStep(s: string, k: nat)
    requires k < |s| && s[k] == '/' && '/' !in s[..k]
    ensures Accepts(DEEP_BODY, s) <==> k > 0 && Accepts(DEEP_BODY, s[k + 1..])
  {
    var last := Cat(Plus(NotSlash), Empty);
    if k > 0 && Accepts(DEEP_BODY, s[k + 1..]) {
      DeepSegment(s[..k + 1]);
      assert s[..k + 1][..k] == s[..k];
      RepeatThenIntro(SEGMENT, last, s, k + 1);
    }
    if Accepts(DEEP_BODY, s) {
      var i := RepeatThenElim(SEGMENT, last, s);
      CatEmpty(Plus(NotSlash), s);
      PlusNotSlash(s);
      DeepSegment(s[..i]);
      assert s[..i][..i - 1] == s[..i - 1];
      SameFirstSlash(s, k, i);
    }
  }

  /** Segments closed by slashes and a last segment are non-empty segments joined by slashes. */
  lemma {:induction false} DeepSplits(s: string)
    ensures Accepts(DEEP_BODY, s) <==> NonEmptySegments(s)
    decreases |s|
  {
    if '/' in s {
      var k := FirstSlash(s);
      SegmentsStep(s, k);
      DeepSplits(s[k + 1..]);
      DeepBodyStep(s, k);
    } else {
      SplitPrefix(s, '/', []);
      assert Split(s, "/") == [s] && Split(s, "/")[0] == s;
      DeepBodyLast(s);
    }
  }

  /** What follows a token's own text. */
  lemma CatMeans(r: Re, t: Token, rest: Re, ts: seq<Token>, s: string)
    requires forall x: string :: Accepts(r, x) <==> Means(t, x)
    requires forall x: string :: Accepts(rest, x) <==> AntMatches(ts, x)
    ensures Accepts(Cat(r, rest), s) <==> AntMatches([t] + ts, s)
  {
    assert ([t] + ts)[1..] == ts;
    if Accepts(Cat(r, rest), s) {
      var k := CatElim(r, rest, s);
      assert TokenAt([t] + ts, s, k);
    }
    if AntMatches([t] + ts, s) {
      var k := TokenElim([t] + ts, s);
      CatIntro(r, rest, s, k);
    }
  }

  lemma DeepMeans(x: string)
    ensures Accepts(Maybe(DEEP_BODY), x) <==> Means(Deep, x)
  {
    DeepSplits(x);
  }

  lemma AnyMeans(x: string)
    ensures Accepts(Cat(Char('/'), Repeat(ANY_BODY)), x) <==> Means(Any, x)
  {
    if Means(Any, x) {
      RepeatAnySegment(x[1..]);
      assert x[..1] == "/";
      CatIntro(Char('/'), Repeat(ANY_BODY), x, 1);
    }
    if Accepts(Cat(Char('/'), Repeat(ANY_BODY)), x) {
      var k := CatElim(Char('/'), Repeat(ANY_BODY), x);
      assert x[..k] == "/" && k == 1;
      assert x[0] == x[..k][0];
      RepeatAnySegment(x[1..]);
    }
  }

  lemma RegroupLeft(a: Re, b: Re, c: Re, s: string)
    requires Accepts(Cat(a, Cat(b, c)), s)
    ensures Accepts(Cat(Cat(a, b), c), s)
  {
    var bc, ab := Cat(b, c), Cat(a, b);
    var k := CatElim(a, bc, s);
    var j := CatElim(b, c, s[k..]);
    CutTwice(s, k, j);
    assert Accepts(ab, s[..k + j]) by {
      CatIntro(a, b, s[..k + j], k);
    }
    CatIntro(ab, c, s, k + j);
  }

  lemma RegroupRight(a: Re, b: Re, c: Re, s: string)
    requires Accepts(Cat(Cat(a, b), c), s)
    ensures Accepts(Cat(a, Cat(b, c)), s)
  {
    var bc, ab := Cat(b, c), Cat(a, b);
    var m := CatElim(ab, c, s);
    var k := CatElim(a, b, s[..m]);
    CutTwice(s, k, m - k);
    assert Accepts(bc, s[k..]) by {
      CatIntro(b, c, s[k..], m - k);
    }
    CatIntro(a, bc, s, k);
  }

  /** The regular expression of a token sequence accepts exactly the paths the tokens match. */
  lemma {:induction false} RegexMeans(ts: seq<Token>, s: string)
    ensures Accepts(Regex(ts), s) <==> AntMatches(ts, s)
    decreases |ts|
  {
    if ts != [] {
      var t, rest := ts[0], Regex(ts[1..]);
      forall x: string
        ensures Accepts(rest, x) <==> AntMatches(ts[1..], x)
      {
        RegexMeans(ts[1..], x);
      }
      assert ts == [t] + ts[1..];
      if t.Any? {
        forall x: string
          ensures Accepts(Cat(Char('/'), Repeat(ANY_BODY)), x) <==> Means(Any, x)
        {
          AnyMeans(x);
        }
        if Accepts(Regex(ts), s) {
          RegroupLeft(Char('/'), Repeat(ANY_BODY), rest, s);
        }
        if Accepts(Cat(Cat(Char('/'), Repeat(ANY_BODY)), rest), s) {
          RegroupRight(Char('/'), Repeat(ANY_BODY), rest, s);
        }
        CatMeans(Cat(Char('/'), Repeat(ANY_BODY)), t, rest, ts[1..], s);
      } else {
        forall x: string
          ensures Accepts(Maybe(DEEP_BODY), x) <==> Means(Deep, x)
          ensures Accepts(Repeat(NotSlash), x) <==> Means(Star, x)
        {
          DeepMeans(x);
          RepeatNotSlash(x);
        }
        CatMeans(Regex(ts).first, t, rest, ts[1..], s);
      }
    }
  }

  // ----- the whole configuration text -----

  function Alternatives(patterns: seq<string>): Re
    requires patterns != []
  {
    var first := Regex(PatternTokens(patterns[0]));
    if |patterns| == 1 then first else Or(first, Alternatives(patterns[1..]))
  }

  lemma AlternativesStep(first: string, re: Re, others: string, more: Re, rest: string)
    requires ParseSequence(first + ("|" + others)) == Parsed(re, "|" + others)
    requires ParseAlternatives(others) == Parsed(more, rest)
    ensures ParseAlternatives(first + ("|" + others)) == Parsed(Or(re, more), rest)
  {
    assert ("|" + others)[1..] == others;
  }

  lemma JoinsFirst(f: string -> string, patterns: seq<string>, sep: string, rest: string)
    requires |patterns| > 1
    ensures Join(Map(f, patterns), sep) + rest == f(patterns[0]) + (sep + (Join(Map(f, patterns[1..]), sep) + rest))
  {
    var joined := Join(Map(f, patterns[1..]), sep);
    var first := f(patterns[0]);
    assert Map(f, patterns)[1..] == Map(f, patterns[1..]);
    assert first + sep + joined + rest == first + (sep + (joined + rest));
  }

  lemma {:induction false} ReadsAlternatives(patterns: seq<string>, rest: string)
    requires patterns != [] && rest != [] && rest[0] == ')'
    ensures ParseAlternatives(Join(Map(CompilePattern, patterns), "|") + rest) == Parsed(Alternatives(patterns), rest)
  {
    var ts := PatternTokens(patterns[0]);
    CompilesToTokens(patterns[0]);
    if |patterns| == 1 {
      ReadsEmittedText(ts, rest);
      AlternativeOfOne(Emit(ts) + rest, Regex(ts), rest);
      assert Map(CompilePattern, patterns) == [Emit(ts)];
    } else {
      var joined := Join(Map(CompilePattern, patterns[1..]), "|");
      ReadsAlternatives(patterns[1..], rest);
      ReadsEmittedText(ts, "|" + (joined + rest));
      AlternativesStep(Emit(ts), Regex(ts), joined + rest, Alternatives(patterns[1..]), rest);
      JoinsFirst(CompilePattern, patterns, "|", rest);
    }
  }

  /** Some pattern of the list matches the path. */
  ghost predicate AnyMatches(patterns: seq<string>, path: string) {
    exists i :: 0 <= i < |patterns| && AntMatches(PatternTokens(patterns[i]), path)
  }

  lemma AnyMatchesStep(patterns: seq<string>, s: string)
    requires patterns != []
    ensures AnyMatches(patterns, s) <==> AntMatches(PatternTokens(patterns[0]), s) || AnyMatches(patterns[1..], s)
  {
    var rest := patterns[1..];
    if AnyMatches(patterns, s) {
      var i :| 0 <= i < |patterns| && AntMatches(PatternTokens(patterns[i]), s);
      assert i > 0 ==> rest[i - 1] == patterns[i];
    }
    if AnyMatches(rest, s) {
      var i :| 0 <= i < |rest| && AntMatches(PatternTokens(rest[i]), s);
      assert patterns[i + 1] == rest[i];
    }
  }

  lemma {:induction false} AlternativesAccept(patterns: seq<string>, s: string)
    requires patterns != []
    ensures Accepts(Alternatives(patterns), s) <==> AnyMatches(patterns, s)
  {
    RegexMeans(PatternTokens(patterns[0]), s);
    AnyMatchesStep(patterns, s);
    if |patterns| > 1 {
      AlternativesAccept(patterns[1..], s);
    }
  }

  /** Some configured pattern matches the path. */
  ghost predicate Ignored(paths: string, path: string) {
    AnyMatches(Split(paths, ","), path)
  }

  /** A group that fills the whole text. */
  lemma ReadsWholeGroup(body: string, re: Re)
    requires ParseAlternatives(body + ")") == Parsed(re, ")")
    ensures ParseAlternatives("(?:" + body + ")") == Parsed(Cat(re, Empty), [])
  {
    var inside := "(?:" + body + ")" + [];
    assert body + ")" + [] == body + ")" && ")" + [] == ")";
    AtomGroup(body, re, []);
    ItemPlain(inside, re, []);
    SequenceStep(inside, re, [], Empty, []);
    AlternativeOfOne(inside, Cat(re, Empty), []);
    assert inside == "(?:" + body + ")";
  }

  lemma AnchoredShape(body: string)
    ensures var text := "^(?:" + body + ")$";
            |text| >= 2 && text[0] == '^' && text[|text| - 1] == '$' && text[1..|text| - 1] == "(?:" + body + ")"
  {
  }

  lemma ReadsCompiledText(paths: string)
    ensures var text := Compile(paths);
            && |text| >= 2 && text[0] == '^' && text[|text| - 1] == '$'
            && ParseAlternatives(text[1..|text| - 1]) == Parsed(Cat(Alternatives(Split(paths, ",")), Empty), [])
  {
    var patterns := Split(paths, ",");
    var body := Join(Map(CompilePattern, patterns), "|");
    AnchoredShape(body);
    ReadsAlternatives(patterns, ")");
    ReadsWholeGroup(body, Alternatives(patterns));
  }

  /** The compiled text matches a path exactly when some pattern of the list does, or does so
      once a final line feed is dropped. */
  lemma CompiledTextMatches(paths: string, path: string)
    ensures TextMatches(Compile(paths), path)
            <==> || Ignored(paths, path)
                 || (path != [] && path[|path| - 1] == '\n' && Ignored(paths, path[..|path| - 1]))
  {
    var patterns := Split(paths, ",");
    ReadsCompiledText(paths);
    CatEmpty(Alternatives(patterns), path);
    AlternativesAccept(patterns, path);
    if path != [] {
      CatEmpty(Alternatives(patterns), path[..|path| - 1]);
      AlternativesAccept(patterns, path[..|path| - 1]);
    }
  }
}
