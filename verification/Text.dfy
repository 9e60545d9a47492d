/** Results of operations that may raise, and the string operations that the codecs rely on. */
module Text {

  datatype Option<+T> = None | Some(value: T)

  /** `Raised` stands for any Python exception that leaves the operation. */
  datatype Result<+T> = Ok(value: T) | Raised

  /** `str.split(sep)`: pieces between the leftmost non-overlapping occurrences of `sep`. */
  function Split(s: string, sep: string): (pieces: seq<string>)
    requires sep != []
    ensures |pieces| > 0
    decreases |s|
  {
    if s == [] then [[]]
    else if sep <= s then [[]] + Split(s[|sep|..], sep)
    else
      var rest := Split(s[1..], sep);
      [[s[0]] + rest[0]] + rest[1..]
  }

  /** `sep.join(pieces)`. */
  function Join(pieces: seq<string>, sep: string): string {
    if pieces == [] then []
    else if |pieces| == 1 then pieces[0]
    else pieces[0] + sep + Join(pieces[1..], sep)
  }

  /** Text in front of the first piece stays in front of the joined text. */
  lemma JoinFront(front: string, pieces: seq<string>, sep: string)
    requires pieces != []
    ensures Join([front + pieces[0]] + pieces[1..], sep) == front + Join(pieces, sep)
  {
    var whole := [front + pieces[0]] + pieces[1..];
    assert whole[1..] == pieces[1..];
    if |pieces| > 1 {
      var rest := Join(pieces[1..], sep);
      assert front + pieces[0] + sep + rest == front + (pieces[0] + sep + rest);
    }
  }

  lemma JoinEmptyPiece(pieces: seq<string>, sep: string)
    requires pieces != []
    ensures Join([[]] + pieces, sep) == sep + Join(pieces, sep)
  {
    assert ([[]] + pieces)[1..] == pieces;
  }

  /** Joining the pieces with the separator that cut them gives the text back. */
  lemma {:induction false} JoinOfSplit(s: string, sep: string)
    requires sep != []
    ensures Join(Split(s, sep), sep) == s
    decreases |s|
  {
    if s == [] {
    } else if sep <= s {
      JoinOfSplit(s[|sep|..], sep);
      JoinEmptyPiece(Split(s[|sep|..], sep), sep);
      assert s == sep + s[|sep|..];
    } else {
      JoinOfSplit(s[1..], sep);
      JoinFront([s[0]], Split(s[1..], sep), sep);
      assert s == [s[0]] + s[1..];
    }
  }

  /** A piece free of the separator character is cut off whole. */
  lemma {:induction false} SplitPrefix(piece: string, c: char, rest: string)
    requires c !in piece
    ensures Split(piece, [c]) == [piece]
    ensures Split(piece + [c] + rest, [c]) == [piece] + Split(rest, [c])
  {
    if piece == [] {
      assert ([] + [c] + rest)[|[c]|..] == rest;
    } else {
      SplitPrefix(piece[1..], c, rest);
      assert piece[0] != c;
      assert !([c] <= piece) && !([c] <= piece + [c] + rest);
      assert (piece + [c] + rest)[1..] == piece[1..] + [c] + rest;
      assert [piece[0]] + piece[1..] == piece;
    }
  }

  /** Splitting what was joined gives the pieces back when none of them holds the separator. */
  lemma {:induction false} SplitOfJoin(pieces: seq<string>, c: char)
    requires pieces != []
    requires forall i :: 0 <= i < |pieces| ==> c !in pieces[i]
    ensures Split(Join(pieces, [c]), [c]) == pieces
  {
    if |pieces| == 1 {
      SplitPrefix(pieces[0], c, []);
    } else {
      var rest := pieces[1..];
      SplitOfJoin(rest, c);
      SplitPrefix(pieces[0], c, Join(rest, [c]));
      assert Join(pieces, [c]) == pieces[0] + [c] + Join(rest, [c]);
      assert [pieces[0]] + rest == pieces;
    }
  }

  /** Every occurrence of the separator adds one piece. */
  lemma {:induction false} SplitCount(s: string, c: char)
    ensures |Split(s, [c])| == 1 + multiset(s)[c]
  {
    if s != [] {
      SplitCount(s[1..], c);
      assert s == [s[0]] + s[1..];
    }
  }

  /** `str.isspace` for one character. */
  predicate IsSpace(c: char) {
    || '\U{9}' <= c <= '\U{d}' || '\U{1c}' <= c <= ' ' || c == '\U{85}' || c == '\U{a0}' || c == '\U{1680}'
    || '\U{2000}' <= c <= '\U{200a}' || c == '\U{2028}' || c == '\U{2029}' || c == '\U{202f}'
    || c == '\U{205f}' || c == '\U{3000}'
  }

  /** The text without the characters at its ends that are to be cut off. */
  function CutOff(s: string, cut: char -> bool): string
    decreases |s|
  {
    if s == [] then []
    else if cut(s[0]) then CutOff(s[1..], cut)
    else if cut(s[|s| - 1]) then CutOff(s[..|s| - 1], cut)
    else s
  }

  /** `str.strip`. */
  function Strip(s: string): (r: string)
    ensures (forall i :: 0 <= i < |s| ==> !IsSpace(s[i])) ==> r == s
  {
    CutOff(s, IsSpace)
  }

  predicate All(s: string, cut: char -> bool) {
    forall i :: 0 <= i < |s| ==> cut(s[i])
  }

  predicate Tight(s: string, cut: char -> bool) {
    s == [] || (!cut(s[0]) && !cut(s[|s| - 1]))
  }

  lemma {:induction false} CutFront(a: string, s: string, cut: char -> bool)
    requires All(a, cut)
    ensures CutOff(a + s, cut) == CutOff(s, cut)
  {
    if a == [] {
      assert [] + s == s;
    } else {
      CutFront(a[1..], s, cut);
      assert (a + s)[1..] == a[1..] + s;
    }
  }

  lemma {:induction false} CutLast(s: string, c: char, cut: char -> bool)
    requires cut(c)
    ensures CutOff(s + [c], cut) == CutOff(s, cut)
  {
    var t := s + [c];
    if s == [] {
      assert t[1..] == [];
    } else if cut(s[0]) {
      CutLast(s[1..], c, cut);
      assert t[0] == s[0] && t[1..] == s[1..] + [c];
    } else {
      assert t[0] == s[0] && t[|t| - 1] == c && t[..|t| - 1] == s;
    }
  }

  lemma {:induction false} CutBehind(s: string, b: string, cut: char -> bool)
    requires All(b, cut)
    ensures CutOff(s + b, cut) == CutOff(s, cut)
    decreases |b|
  {
    if b == [] {
      assert s + b == s;
    } else {
      CutLast(s, b[0], cut);
      CutBehind(s + [b[0]], b[1..], cut);
      assert s + b == s + [b[0]] + b[1..];
    }
  }

  lemma {:induction false} CutIsTight(s: string, cut: char -> bool)
    ensures Tight(CutOff(s, cut), cut)
    decreases |s|
  {
    if s == [] {
    } else if cut(s[0]) {
      CutIsTight(s[1..], cut);
    } else if cut(s[|s| - 1]) {
      CutIsTight(s[..|s| - 1], cut);
    }
  }

  /** What is cut off is all to be cut. */
  lemma {:induction false} CutPieces(s: string, cut: char -> bool) returns (a: string, b: string)
    ensures s == a + CutOff(s, cut) + b && All(a, cut) && All(b, cut)
    decreases |s|
  {
    var m := CutOff(s, cut);
    if s != [] && cut(s[0]) {
      var x, y := CutPieces(s[1..], cut);
      assert s == [s[0]] + s[1..];
      a, b := [s[0]] + x, y;
      assert a + m + b == [s[0]] + (x + m + y);
    } else if s != [] && cut(s[|s| - 1]) {
      var x, y := CutPieces(s[..|s| - 1], cut);
      assert s == s[..|s| - 1] + [s[|s| - 1]];
      a, b := x, y + [s[|s| - 1]];
      assert a + m + b == (x + m + y) + [s[|s| - 1]];
    } else {
      a, b := [], [];
      assert s == a + m + b;
    }
  }

  // ----- white space -----

  predicate AllSpace(s: string) {
    forall i :: 0 <= i < |s| ==> IsSpace(s[i])
  }

  /** The text neither begins nor ends with white space. */
  predicate Trimmed(s: string) {
    s == [] || (!IsSpace(s[0]) && !IsSpace(s[|s| - 1]))
  }

  lemma SpaceFree(s: string, c: char)
    requires AllSpace(s) && !IsSpace(c)
    ensures c !in s
  {
  }

  lemma StripFront(a: string, s: string)
    requires AllSpace(a)
    ensures Strip(a + s) == Strip(s)
  {
    CutFront(a, s, IsSpace);
  }

  lemma StripBehind(s: string, b: string)
    requires AllSpace(b)
    ensures Strip(s + b) == Strip(s)
  {
    CutBehind(s, b, IsSpace);
  }

  lemma StripKeeps(m: string)
    ensures Strip(m) == m <==> Trimmed(m)
  {
    CutIsTight(m, IsSpace);
  }

  lemma StripOf(a: string, m: string, b: string)
    requires AllSpace(a) && AllSpace(b) && Trimmed(m)
    ensures Strip(a + m + b) == m
  {
    StripBehind(a + m, b);
    StripFront(a, m);
    StripKeeps(m);
  }

  /** The text is `m` between white space. */
  ghost predicate Surrounds(s: string, a: string, m: string, b: string) {
    s == a + m + b && AllSpace(a) && AllSpace(b)
  }

  /** `m` is the stripped text exactly when the text is `m` between white space and `m` has none at
      either end. */
  lemma StripIs(s: string, m: string)
    ensures Strip(s) == m <==> Trimmed(m) && exists a, b :: Surrounds(s, a, m, b)
  {
    if Strip(s) == m {
      CutIsTight(s, IsSpace);
      var a, b := CutPieces(s, IsSpace);
      assert Surrounds(s, a, m, b);
    }
    if Trimmed(m) && exists a, b :: Surrounds(s, a, m, b) {
      var a, b :| Surrounds(s, a, m, b);
      StripOf(a, m, b);
    }
  }

  /** Decimal digits of a natural number: `str(n)`. */
  function Decimal(n: nat): (s: string)
    ensures s != []
    ensures forall i :: 0 <= i < |s| ==> '0' <= s[i] <= '9'
  {
    if n < 10 then [(n + 48) as char] else Decimal(n / 10) + [(n % 10 + 48) as char]
  }

  /** `str.isnumeric`, restricted to the ASCII digits. */
  predicate IsNumeric(s: string) {
    s != [] && forall i :: 0 <= i < |s| ==> '0' <= s[i] <= '9'
  }

  /** `int(s)` for a digit string. */
  function ParseDecimal(s: string): nat
    requires forall i :: 0 <= i < |s| ==> '0' <= s[i] <= '9'
  {
    if s == [] then 0 else 10 * ParseDecimal(s[..|s| - 1]) + (s[|s| - 1] as int - 48)
  }

  const DIGITS := "0123456789"

  /** The value of a digit string, each digit worth its place in the row of digits. */
  ghost predicate Denotes(s: string, n: nat)
    decreases |s|
  {
    if s == [] then n == 0 else s[|s| - 1] == DIGITS[n % 10] && Denotes(s[..|s| - 1], n / 10)
  }

  /** Decimal digits denote the number and start with zero only for zero itself. */
  lemma {:induction false} DecimalDenotes(n: nat)
    ensures Denotes(Decimal(n), n)
    ensures Decimal(n)[0] == '0' ==> n == 0
  {
    var s := Decimal(n);
    var front, d := s[..|s| - 1], n % 10;
    assert s[|s| - 1] == (d + 48) as char == DIGITS[d];
    if n < 10 {
      assert front == [];
    } else {
      DecimalDenotes(n / 10);
      assert front == Decimal(n / 10);
    }
  }

  /** A digit string is parsed as what it denotes. */
  lemma {:induction false} ParseDenotes(s: string, n: nat)
    requires IsNumeric(s) || s == []
    ensures Denotes(s, n) <==> ParseDecimal(s) == n
  {
    if s != [] {
      var front, d := s[..|s| - 1], s[|s| - 1] as int - 48;
      assert DIGITS[n % 10] as int == n % 10 + 48;
      ParseDenotes(front, n / 10);
    }
  }

  lemma {:induction false} ParseOfDecimal(n: nat)
    ensures ParseDecimal(Decimal(n)) == n
  {
    var s := Decimal(n);
    if n < 10 {
      assert s[..|s| - 1] == [];
    } else {
      ParseOfDecimal(n / 10);
      assert s[..|s| - 1] == Decimal(n / 10);
    }
  }
}
