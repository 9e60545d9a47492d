/** Compilation of Ant-style path patterns to the text of a regular expression, stage by stage, and its
    equality with one left-to-right tokenisation. */
module AntCompiler {
  import opened Text

  /** The characters that the compiler puts a backslash in front of. */
  const ESCAPED := ".*+?^=!:${}()|[]\\"

  const ONE := "[^/]"
  const STAR := "[^/]*"
  const DEEP := "(?:(?:[^/]+/)*[^/]+)?"
  const ANY := "/(?:[^/]*/)*"

  function EscapeChar(c: char): string {
    if c in ESCAPED then ['\\', c] else [c]
  }

  function Escape(s: string): string {
    if s == [] then [] else EscapeChar(s[0]) + Escape(s[1..])
  }

  function Map(f: string -> string, xs: seq<string>): (r: seq<string>)
    ensures |r| == |xs|
  {
    if xs == [] then [] else [f(xs[0])] + Map(f, xs[1..])
  }

  /** One stage: cut at `sep`, compile the pieces, join them with `text`. */
  function Stage(f: string -> string, s: string, sep: string, text: string): string
    requires sep != []
  {
    Join(Map(f, Split(s, sep)), text)
  }

  function CompileQuestion(p3: string): string {
    Stage(Escape, p3, "?", ONE)
  }

  function CompileStar(p2: string): string {
    Stage(CompileQuestion, p2, "*", STAR)
  }

  function CompileDeep(p1: string): string {
    Stage(CompileStar, Strip(p1), "**", DEEP)
  }

  function CompilePattern(p0: string): string {
    Stage(CompileDeep, p0, "/**/", ANY)
  }

  /** The `path` text that `finalize_regex` builds from `agent_trace_ignore_path`. */
  function Compile(paths: string): string {
    "^(?:" + Stage(CompilePattern, paths, ",", "|") + ")$"
  }

  // ----- tokens -----

  datatype Token = Literal(c: char) | One | Star | Deep | Any

  function EmitToken(t: Token): string {
    match t
    case Literal(c) => EscapeChar(c)
    case One => ONE
    case Star => STAR
    case Deep => DEEP
    case Any => ANY
  }

  function Emit(ts: seq<Token>): string {
    if ts == [] then [] else EmitToken(ts[0]) + Emit(ts[1..])
  }

  function CharToken(c: char): Token {
    if c == '*' then Star else if c == '?' then One else Literal(c)
  }

  /** Tokens of text between two occurrences of the slashed wildcard. */
  function ChunkTokens(s: string): seq<Token>
    decreases |s|
  {
    if s == [] then []
    else if "**" <= s then [Deep] + ChunkTokens(s[2..])
    else [CharToken(s[0])] + ChunkTokens(s[1..])
  }

  /** One pass over the pattern, longest wildcard first. */
  function Tokens(s: string): seq<Token>
    decreases |s|
  {
    if s == [] then []
    else if "/**/" <= s then [Any] + Tokens(s[4..])
    else if "**" <= s then [Deep] + Tokens(s[2..])
    else [CharToken(s[0])] + Tokens(s[1..])
  }

  /** Tokens of chunks separated by the slashed wildcard. */
  function JoinTokens(chunks: seq<string>): seq<Token> {
    if chunks == [] then []
    else if |chunks| == 1 then ChunkTokens(chunks[0])
    else ChunkTokens(chunks[0]) + [Any] + JoinTokens(chunks[1..])
  }

  /** What a pattern stands for: its chunks are stripped of surrounding white space. */
  function PatternTokens(p0: string): seq<Token> {
    JoinTokens(Map(Strip, Split(p0, "/**/")))
  }

  predicate NoSpace(s: string) {
    forall i :: 0 <= i < |s| ==> !IsSpace(s[i])
  }

  lemma {:induction false} EmitConcat(a: seq<Token>, b: seq<Token>)
    ensures Emit(a + b) == Emit(a) + Emit(b)
  {
    if a == [] {
      assert [] + b == b;
    } else {
      assert (a + b)[1..] == a[1..] + b;
      EmitConcat(a[1..], b);
    }
  }

  /** `f` compiles the text one character at a time, the first one to `first`. */
  ghost predicate PrefixedBy(f: string -> string, c: char, first: string) {
    forall x: string :: f([c] + x) == first + f(x)
  }

  /** A stage whose piece compiler works character by character consumes a separator or a character. */
  lemma StageStep(f: string -> string, s: string, sep: string, text: string, first: string)
    requires sep != [] && s != []
    requires sep <= s ==> f([]) == []
    requires !(sep <= s) ==> PrefixedBy(f, s[0], first)
    ensures sep <= s ==> Stage(f, s, sep, text) == text + Stage(f, s[|sep|..], sep, text)
    ensures !(sep <= s) ==> Stage(f, s, sep, text) == first + Stage(f, s[1..], sep, text)
  {
    if sep <= s {
      var rest := Split(s[|sep|..], sep);
      assert ([[]] + rest)[1..] == rest;
      assert Map(f, [[]] + rest)[1..] == Map(f, rest);
      assert [] + text == text;
    } else {
      var rest := Split(s[1..], sep);
      var whole := [[s[0]] + rest[0]] + rest[1..];
      assert whole[1..] == rest[1..];
      assert Map(f, whole)[1..] == Map(f, rest)[1..] == Map(f, rest[1..]);
      assert f(whole[0]) == first + f(rest[0]);
      if |rest| > 1 {
        assert first + f(rest[0]) + text + Join(Map(f, rest[1..]), text)
            == first + (f(rest[0]) + text + Join(Map(f, rest[1..]), text));
      }
    }
  }

  lemma StageEmpty(f: string -> string, sep: string, text: string)
    requires sep != [] && f([]) == []
    ensures Stage(f, [], sep, text) == []
  {
    assert Split([], sep) == [[]];
    assert Map(f, [[]]) == [[]];
  }

  lemma EscapePrefixed(c: char)
    ensures PrefixedBy(Escape, c, EscapeChar(c))
  {
    forall x: string
      ensures Escape([c] + x) == EscapeChar(c) + Escape(x)
    {
      assert ([c] + x)[1..] == x;
    }
  }

  lemma QuestionPrefixed(c: char)
    ensures PrefixedBy(CompileQuestion, c, if c == '?' then ONE else EscapeChar(c))
    ensures CompileQuestion([]) == []
  {
    StageEmpty(Escape, "?", ONE);
    forall x: string
      ensures CompileQuestion([c] + x) == (if c == '?' then ONE else EscapeChar(c)) + CompileQuestion(x)
    {
      EscapePrefixed(c);
      StageStep(Escape, [c] + x, "?", ONE, EscapeChar(c));
      assert ([c] + x)[1..] == x;
      assert "?" <= [c] + x <==> c == '?';
    }
  }

  lemma StarPrefixed(c: char)
    ensures PrefixedBy(CompileStar, c, EmitToken(CharToken(c)))
    ensures CompileStar([]) == []
  {
    QuestionPrefixed(c);
    StageEmpty(CompileQuestion, "*", STAR);
    forall x: string
      ensures CompileStar([c] + x) == EmitToken(CharToken(c)) + CompileStar(x)
    {
      StageStep(CompileQuestion, [c] + x, "*", STAR, if c == '?' then ONE else EscapeChar(c));
      assert ([c] + x)[1..] == x;
      assert "*" <= [c] + x <==> c == '*';
    }
  }

  /** The three inner stages together emit the tokens of a chunk. */
  lemma {:induction false} DeepStageEmits(s: string)
    ensures Stage(CompileStar, s, "**", DEEP) == Emit(ChunkTokens(s))
    decreases |s|
  {
    if s == [] {
      StarPrefixed('*');
      StageEmpty(CompileStar, "**", DEEP);
    } else {
      StarPrefixed(s[0]);
      StageStep(CompileStar, s, "**", DEEP, EmitToken(CharToken(s[0])));
      if "**" <= s {
        DeepStageEmits(s[2..]);
        assert ([Deep] + ChunkTokens(s[2..]))[1..] == ChunkTokens(s[2..]);
      } else {
        DeepStageEmits(s[1..]);
        assert ([CharToken(s[0])] + ChunkTokens(s[1..]))[1..] == ChunkTokens(s[1..]);
      }
    }
  }

  lemma {:induction false} ChunksEmit(chunks: seq<string>)
    requires chunks != []
    ensures Join(Map(CompileDeep, chunks), ANY) == Emit(JoinTokens(Map(Strip, chunks)))
  {
    DeepStageEmits(Strip(chunks[0]));
    if |chunks| > 1 {
      ChunksEmit(chunks[1..]);
      var first := ChunkTokens(Strip(chunks[0]));
      var rest := JoinTokens(Map(Strip, chunks[1..]));
      EmitConcat(first + [Any], rest);
      EmitConcat(first, [Any]);
      assert Emit([Any]) == ANY + [] == ANY;
    }
  }

  /** Every pattern compiles to the emitted text of its tokens. */
  lemma CompilesToTokens(p0: string)
    ensures CompilePattern(p0) == Emit(PatternTokens(p0))
  {
    ChunksEmit(Split(p0, "/**/"));
  }

  lemma {:induction false} SplitHeadIsPrefix(s: string, sep: string)
    requires sep != []
    ensures Split(s, sep)[0] <= s
    decreases |s|
  {
    if s != [] && !(sep <= s) {
      SplitHeadIsPrefix(s[1..], sep);
    }
  }

  /** Characters in front of the first separator stay in the first piece. */
  lemma SplitKeepsTwo(s: string, sep: string)
    requires |s| >= 2 && sep != [] && !(sep <= s) && !(sep <= s[1..])
    ensures var rest := Split(s[2..], sep); Split(s, sep) == [s[..2] + rest[0]] + rest[1..]
  {
    var rest := Split(s[2..], sep);
    assert s[1..][1..] == s[2..];
    var mid := [[s[1]] + rest[0]] + rest[1..];
    assert Split(s[1..], sep) == mid;
    assert mid[1..] == rest[1..];
    assert [s[0]] + ([s[1]] + rest[0]) == s[..2] + rest[0];
  }

  lemma FirstChunkStep(s: string, n: nat, tail: string)
    requires 0 < n <= 2 && n <= |s| && tail <= s[n..]
    requires n == 2 <==> "**" <= s
    ensures ChunkTokens(s[..n] + tail) == [if n == 2 then Deep else CharToken(s[0])] + ChunkTokens(tail)
  {
    var chunk := s[..n] + tail;
    assert chunk[n..] == tail;
    assert chunk <= s;
    assert "**" <= chunk <==> n == 2;
  }

  /** A token at the front of the first chunk is the first token of all. */
  lemma JoinTokensFront(front: string, t: Token, chunks: seq<string>)
    requires chunks != [] && ChunkTokens(front + chunks[0]) == [t] + ChunkTokens(chunks[0])
    ensures JoinTokens([front + chunks[0]] + chunks[1..]) == [t] + JoinTokens(chunks)
  {
    var whole := [front + chunks[0]] + chunks[1..];
    assert whole[1..] == chunks[1..];
    if |chunks| > 1 {
      assert [t] + ChunkTokens(chunks[0]) + [Any] + JoinTokens(chunks[1..])
          == [t] + (ChunkTokens(chunks[0]) + [Any] + JoinTokens(chunks[1..]));
    }
  }

  lemma JoinTokensStep(s: string, n: nat, sep: string)
    requires 0 < n <= 2 && n <= |s| && sep == "/**/" && !(sep <= s)
    requires n == 2 <==> "**" <= s
    ensures JoinTokens(Split(s, sep)) == [if n == 2 then Deep else CharToken(s[0])] + JoinTokens(Split(s[n..], sep))
  {
    var rest := Split(s[n..], sep);
    if n == 2 {
      assert s[1] == '*' && sep[0] == '/';
      SplitKeepsTwo(s, sep);
    } else {
      assert s[..1] == [s[0]];
    }
    SplitHeadIsPrefix(s[n..], sep);
    FirstChunkStep(s, n, rest[0]);
    JoinTokensFront(s[..n], if n == 2 then Deep else CharToken(s[0]), rest);
  }

  /** Cutting at the slashed wildcard first and tokenising the chunks is the same as one pass. */
  lemma {:induction false} ChunksAreOnePass(s: string)
    ensures JoinTokens(Split(s, "/**/")) == Tokens(s)
    decreases |s|
  {
    if s == [] {
    } else if "/**/" <= s {
      var rest := Split(s[4..], "/**/");
      ChunksAreOnePass(s[4..]);
      assert ([[]] + rest)[1..] == rest;
      assert [] + [Any] + JoinTokens(rest) == [Any] + JoinTokens(rest);
    } else if "**" <= s {
      JoinTokensStep(s, 2, "/**/");
      ChunksAreOnePass(s[2..]);
    } else {
      JoinTokensStep(s, 1, "/**/");
      ChunksAreOnePass(s[1..]);
    }
  }

  // ----- white space -----

  function SpaceChars(s: string): nat {
    if s == [] then 0 else (if IsSpace(s[0]) then 1 else 0) + SpaceChars(s[1..])
  }

  function SpaceTokens(ts: seq<Token>): nat {
    if ts == [] then 0
    else (if ts[0].Literal? && IsSpace(ts[0].c) then 1 else 0) + SpaceTokens(ts[1..])
  }

  lemma {:induction false} SpaceTokensConcat(a: seq<Token>, b: seq<Token>)
    ensures SpaceTokens(a + b) == SpaceTokens(a) + SpaceTokens(b)
  {
    if a == [] {
      assert [] + b == b;
    } else {
      assert (a + b)[1..] == a[1..] + b;
      SpaceTokensConcat(a[1..], b);
    }
  }

  /** White space is always literal, so a chunk has as many white-space tokens as characters. */
  lemma {:induction false} ChunkSpaces(s: string)
    ensures SpaceTokens(ChunkTokens(s)) == SpaceChars(s)
    decreases |s|
  {
    if s == [] {
    } else if "**" <= s {
      ChunkSpaces(s[2..]);
      assert s[..2] == "**" && s[1..][1..] == s[2..] && s[1] == '*';
      assert SpaceChars(s) == SpaceChars(s[1..]) == SpaceChars(s[2..]);
    } else {
      ChunkSpaces(s[1..]);
    }
  }

  lemma {:induction false} SpaceCharsOfPrefix(s: string)
    requires s != []
    ensures SpaceChars(s) == SpaceChars(s[..|s| - 1]) + (if IsSpace(s[|s| - 1]) then 1 else 0)
  {
    if |s| > 1 {
      SpaceCharsOfPrefix(s[1..]);
      assert s[..|s| - 1][1..] == s[1..][..|s| - 2];
    }
  }

  /** Stripping removes white space or nothing. */
  lemma {:induction false} StripRemovesSpaces(s: string)
    ensures SpaceChars(Strip(s)) <= SpaceChars(s)
    ensures SpaceChars(Strip(s)) == SpaceChars(s) <==> Strip(s) == s
    decreases |s|
  {
    if s == [] {
    } else if IsSpace(s[0]) {
      StripRemovesSpaces(s[1..]);
    } else if IsSpace(s[|s| - 1]) {
      SpaceCharsOfPrefix(s);
      StripRemovesSpaces(s[..|s| - 1]);
    }
  }

  function TotalSpaces(chunks: seq<string>): nat {
    if chunks == [] then 0 else SpaceChars(chunks[0]) + TotalSpaces(chunks[1..])
  }

  lemma {:induction false} JoinedSpaces(chunks: seq<string>)
    ensures SpaceTokens(JoinTokens(chunks)) == TotalSpaces(chunks)
  {
    if chunks != [] {
      ChunkSpaces(chunks[0]);
      if |chunks| > 1 {
        JoinedSpaces(chunks[1..]);
        SpaceTokensConcat(ChunkTokens(chunks[0]) + [Any], JoinTokens(chunks[1..]));
        SpaceTokensConcat(ChunkTokens(chunks[0]), [Any]);
      }
    }
  }

  lemma PrependEquals<T>(head: T, tail: seq<T>, s: seq<T>)
    requires s != []
    ensures [head] + tail == s <==> head == s[0] && tail == s[1..]
  {
    assert ([head] + tail)[1..] == tail && ([head] + tail)[0] == head;
    assert s == [s[0]] + s[1..];
  }

  lemma TotalSpacesStep(head: string, tail: seq<string>)
    ensures TotalSpaces([head] + tail) == SpaceChars(head) + TotalSpaces(tail)
  {
    assert ([head] + tail)[1..] == tail;
  }

  lemma {:induction false} StrippedSpaces(chunks: seq<string>)
    ensures TotalSpaces(Map(Strip, chunks)) <= TotalSpaces(chunks)
    ensures TotalSpaces(Map(Strip, chunks)) == TotalSpaces(chunks) <==> Map(Strip, chunks) == chunks
  {
    if chunks != [] {
      StripRemovesSpaces(chunks[0]);
      StrippedSpaces(chunks[1..]);
      PrependEquals(Strip(chunks[0]), Map(Strip, chunks[1..]), chunks);
      TotalSpacesStep(Strip(chunks[0]), Map(Strip, chunks[1..]));
    }
  }

  lemma {:induction false} MapKeeps(f: string -> string, xs: seq<string>)
    ensures Map(f, xs) == xs <==> forall i :: 0 <= i < |xs| ==> f(xs[i]) == xs[i]
  {
    if xs != [] {
      MapKeeps(f, xs[1..]);
      PrependEquals(f(xs[0]), Map(f, xs[1..]), xs);
      assert xs == [xs[0]] + xs[1..];
    }
  }

  /** Compilation is one left-to-right tokenisation exactly when no chunk between two slashed
      wildcards begins or ends with white space. */
  lemma CompilesAsOnePass(p0: string)
    ensures var chunks := Split(p0, "/**/");
            PatternTokens(p0) == Tokens(p0) <==>
              forall i :: 0 <= i < |chunks| && chunks[i] != [] ==>
                !IsSpace(chunks[i][0]) && !IsSpace(chunks[i][|chunks[i]| - 1])
    ensures CompilePattern(p0) == Emit(PatternTokens(p0))
  {
    var chunks := Split(p0, "/**/");
    ChunksAreOnePass(p0);
    CompilesToTokens(p0);
    JoinedSpaces(chunks);
    JoinedSpaces(Map(Strip, chunks));
    StrippedSpaces(chunks);
    MapKeeps(Strip, chunks);
    forall i | 0 <= i < |chunks|
      ensures Strip(chunks[i]) == chunks[i] <==> Trimmed(chunks[i])
    {
      StripKeeps(chunks[i]);
    }
  }

  /** A pattern that is compiled otherwise than in one pass: a blank in front of a slashed wildcard. */
  lemma BlankIsLost()
    ensures PatternTokens(" /**/") != Tokens(" /**/")
  {
    var p0 := " /**/";
    var rest := "/**/";
    assert rest[4..] == [] && "/**/" <= rest;
    assert Split(rest, rest) == [[]] + Split([], rest) == [[], []];
    assert p0[0] == ' ' && p0[1..] == rest && !(rest <= p0);
    assert Split(p0, rest)[0] == " ";
    CompilesAsOnePass(p0);
  }

  lemma {:induction false} SplitKeepsNoSpace(s: string, sep: string)
    requires sep != [] && NoSpace(s)
    ensures forall i :: 0 <= i < |Split(s, sep)| ==> NoSpace(Split(s, sep)[i])
    decreases |s|
  {
    if s != [] {
      if sep <= s {
        SplitKeepsNoSpace(s[|sep|..], sep);
      } else {
        SplitKeepsNoSpace(s[1..], sep);
      }
    }
  }

  /** In particular for every pattern without white space. */
  lemma SpaceFreeCompilesAsOnePass(p0: string)
    requires NoSpace(p0)
    ensures CompilePattern(p0) == Emit(Tokens(p0))
  {
    SplitKeepsNoSpace(p0, "/**/");
    CompilesAsOnePass(p0);
  }

  // ----- blanks around a pattern -----

  /** A character that cannot begin a separator goes to the first chunk. */
  lemma SplitPlain(c: char, s: string, sep: string)
    requires sep != [] && c != sep[0]
    ensures var chunks := Split(s, sep); Split([c] + s, sep) == [[c] + chunks[0]] + chunks[1..]
  {
    var t := [c] + s;
    assert t[0] == c && t[1..] == s;
  }

  lemma {:induction false} SplitFront(a: string, s: string, sep: string)
    requires sep != [] && sep[0] !in a
    ensures var chunks := Split(s, sep); Split(a + s, sep) == [a + chunks[0]] + chunks[1..]
  {
    var chunks := Split(s, sep);
    if a == [] {
      assert [] + s == s && [] + chunks[0] == chunks[0];
    } else {
      SplitFront(a[1..], s, sep);
      SplitPlain(a[0], a[1..] + s, sep);
      assert a + s == [a[0]] + (a[1..] + s);
      assert [a[0]] + (a[1..] + chunks[0]) == a + chunks[0];
    }
  }

  /** The chunks with text added behind the last one. */
  function Extended(chunks: seq<string>, b: string): seq<string>
    requires chunks != []
  {
    chunks[..|chunks| - 1] + [chunks[|chunks| - 1] + b]
  }

  lemma ExtendedFront(head: string, chunks: seq<string>, b: string)
    requires chunks != []
    ensures Extended([head] + chunks, b) == [head] + Extended(chunks, b)
    ensures Extended([head + chunks[0]] + chunks[1..], b)
            == [head + Extended(chunks, b)[0]] + Extended(chunks, b)[1..]
  {
    if |chunks| == 1 {
      assert head + chunks[0] + b == head + (chunks[0] + b);
    }
  }

  lemma {:induction false} SplitBack(s: string, b: string, sep: string)
    requires sep != [] && sep[0] !in b && sep[|sep| - 1] !in b
    ensures Split(s + b, sep) == Extended(Split(s, sep), b)
    decreases |s|
  {
    if s == [] {
      SplitFront(b, [], sep);
      assert b + [] == b == s + b;
    } else if sep <= s {
      SplitBack(s[|sep|..], b, sep);
      assert sep <= s + b && (s + b)[|sep|..] == s[|sep|..] + b;
      ExtendedFront([], Split(s[|sep|..], sep), b);
    } else {
      SplitBack(s[1..], b, sep);
      assert (s + b)[1..] == s[1..] + b && (s + b)[0] == s[0];
      NoSplitBehind(s, b, sep);
      ExtendedFront([s[0]], Split(s[1..], sep), b);
    }
  }

  lemma NoSplitBehind(s: string, b: string, sep: string)
    requires sep != [] && sep[|sep| - 1] !in b && !(sep <= s)
    ensures !(sep <= s + b)
  {
  }

  lemma {:induction false} MapAt(f: string -> string, xs: seq<string>, i: nat)
    requires i < |xs|
    ensures Map(f, xs)[i] == f(xs[i])
  {
    if i > 0 {
      MapAt(f, xs[1..], i - 1);
    }
  }

  /** Chunks that strip to the same text stand for the same tokens. */
  lemma StripsAlike(xs: seq<string>, ys: seq<string>)
    requires |xs| == |ys| && forall i :: 0 <= i < |xs| ==> Strip(xs[i]) == Strip(ys[i])
    ensures Map(Strip, xs) == Map(Strip, ys)
  {
    forall i | 0 <= i < |xs|
      ensures Map(Strip, xs)[i] == Map(Strip, ys)[i]
    {
      MapAt(Strip, xs, i);
      MapAt(Strip, ys, i);
    }
  }

  lemma BlanksInFront(a: string, p0: string)
    requires AllSpace(a)
    ensures PatternTokens(a + p0) == PatternTokens(p0)
  {
    var sep := "/**/";
    var chunks := Split(p0, sep);
    SpaceFree(a, '/');
    SplitFront(a, p0, sep);
    StripFront(a, chunks[0]);
    StripsAlike(Split(a + p0, sep), chunks);
  }

  lemma BlanksBehind(p0: string, b: string)
    requires AllSpace(b)
    ensures PatternTokens(p0 + b) == PatternTokens(p0)
  {
    var sep := "/**/";
    var chunks := Split(p0, sep);
    SpaceFree(b, '/');
    SplitBack(p0, b, sep);
    StripBehind(chunks[|chunks| - 1], b);
    StripsAlike(Split(p0 + b, sep), chunks);
  }

  /** White space around a pattern of the list, as behind a comma, does not change what it compiles to. */
  lemma BlanksAroundPattern(a: string, p0: string, b: string)
    requires AllSpace(a) && AllSpace(b)
    ensures CompilePattern(a + p0 + b) == CompilePattern(p0)
  {
    BlanksInFront(a, p0);
    BlanksBehind(a + p0, b);
    CompilesToTokens(a + p0 + b);
    CompilesToTokens(p0);
  }
}
