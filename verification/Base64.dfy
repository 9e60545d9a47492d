/** Base64 (section 4 of RFC 4648), encoded as Python's `base64.b64encode` does and decoded as
    `base64.b64decode` does without `validate`: foreign characters are skipped. */
module Base64 {
  import opened Text

  type Byte = b: int | 0 <= b < 256
  type Bytes = seq<Byte>

  function Symbol(v: int): (c: char)
    requires 0 <= v < 64
  {
    if v < 26 then (v + 65) as char
    else if v < 52 then (v + 71) as char
    else if v < 62 then (v - 4) as char
    else if v == 62 then '+'
    else '/'
  }

  /** The value of a character of the alphabet, or -1 for any other character. */
  function Value(c: char): (v: int)
    ensures -1 <= v < 64
    ensures 0 <= v ==> Symbol(v) == c
  {
    if 'A' <= c <= 'Z' then c as int - 65
    else if 'a' <= c <= 'z' then c as int - 71
    else if '0' <= c <= '9' then c as int + 4
    else if c == '+' then 62
    else if c == '/' then 63
    else -1
  }

  lemma ValueOfSymbol(v: int)
    requires 0 <= v < 64
    ensures Value(Symbol(v)) == v
    ensures Symbol(v) != '='
  {
  }

  predicate IsCodeChar(c: char) {
    c == '=' || Value(c) >= 0
  }

  function Encode(b: Bytes): (s: string)
    ensures forall i :: 0 <= i < |s| ==> IsCodeChar(s[i])
    ensures s == [] <==> b == []
  {
    if |b| == 0 then []
    else if |b| == 1 then [Symbol(b[0] / 4), Symbol(b[0] % 4 * 16), '=', '=']
    else if |b| == 2 then [Symbol(b[0] / 4), Symbol(b[0] % 4 * 16 + b[1] / 16), Symbol(b[1] % 16 * 4), '=']
    else
      [Symbol(b[0] / 4), Symbol(b[0] % 4 * 16 + b[1] / 16), Symbol(b[1] % 16 * 4 + b[2] / 64), Symbol(b[2] % 64)]
      + Encode(b[3..])
  }

  function Prepend(b: Byte, r: Result<Bytes>): Result<Bytes> {
    match r
    case Ok(rest) => Ok([b] + rest)
    case Raised => Raised
  }

  /** The decoder's loop, entered with `quad` characters of the current group already read, the bits
      `left` of them not yet written, and `pads` padding characters seen. */
  function DecodeFrom(s: string, quad: int, left: int, pads: int): Result<Bytes>
    requires 0 <= quad < 4 && 0 <= left < 64
    requires quad == 2 ==> left < 16
    requires quad == 3 ==> left < 4
    decreases |s|
  {
    if s == [] then
      if quad == 0 then Ok([]) else Raised
    else if s[0] == '=' then
      if quad >= 2 && quad + pads + 1 >= 4 then Ok([])
      else DecodeFrom(s[1..], quad, left, if quad >= 2 then pads + 1 else pads)
    else
      var v := Value(s[0]);
      if v < 0 then DecodeFrom(s[1..], quad, left, pads)
      else if quad == 0 then DecodeFrom(s[1..], 1, v, 0)
      else if quad == 1 then Prepend(left * 4 + v / 16, DecodeFrom(s[1..], 2, v % 16, 0))
      else if quad == 2 then Prepend(left * 16 + v / 4, DecodeFrom(s[1..], 3, v % 4, 0))
      else Prepend(left * 64 + v, DecodeFrom(s[1..], 0, 0, 0))
  }

  function DecodeAscii(s: string): Result<Bytes> {
    DecodeFrom(s, 0, 0, 0)
  }

  predicate Ascii(s: string) {
    forall i :: 0 <= i < |s| ==> s[i] as int < 128
  }

  /** `base64.b64decode` of a string: text that is not ASCII raises. */
  function Decode(s: string): Result<Bytes> {
    if Ascii(s) then DecodeAscii(s) else Raised
  }

  /** One step of the decoder on the symbol of a value. */
  lemma DecodeSymbol(v: int, s: string, quad: int, left: int, pads: int)
    requires 0 <= v < 64 && 0 <= quad < 4 && 0 <= left < 64
    requires quad == 2 ==> left < 16
    requires quad == 3 ==> left < 4
    ensures quad == 0 ==> DecodeFrom([Symbol(v)] + s, quad, left, pads) == DecodeFrom(s, 1, v, 0)
    ensures quad == 1 ==> DecodeFrom([Symbol(v)] + s, quad, left, pads)
                          == Prepend(left * 4 + v / 16, DecodeFrom(s, 2, v % 16, 0))
    ensures quad == 2 ==> DecodeFrom([Symbol(v)] + s, quad, left, pads)
                          == Prepend(left * 16 + v / 4, DecodeFrom(s, 3, v % 4, 0))
    ensures quad == 3 ==> DecodeFrom([Symbol(v)] + s, quad, left, pads)
                          == Prepend(left * 64 + v, DecodeFrom(s, 0, 0, 0))
  {
    ValueOfSymbol(v);
    assert ([Symbol(v)] + s)[1..] == s;
  }

  lemma FirstBits(x: Byte, high: int)
    requires 0 <= high < 16
    ensures 0 <= x % 4 * 16 + high < 64
    ensures (x % 4 * 16 + high) / 16 == x % 4 && (x % 4 * 16 + high) % 16 == high
    ensures x / 4 * 4 + x % 4 == x
  {
  }

  /** The first two symbols of a group give its first byte. */
  lemma DecodeFirstByte(x: Byte, high: int, s: string)
    requires 0 <= high < 16
    ensures DecodeFrom([Symbol(x / 4), Symbol(x % 4 * 16 + high)] + s, 0, 0, 0)
            == Prepend(x, DecodeFrom(s, 2, high, 0))
  {
    var second := [Symbol(x % 4 * 16 + high)] + s;
    FirstBits(x, high);
    DecodeSymbol(x / 4, second, 0, 0, 0);
    DecodeSymbol(x % 4 * 16 + high, s, 1, x / 4, 0);
    assert [Symbol(x / 4), Symbol(x % 4 * 16 + high)] + s == [Symbol(x / 4)] + second;
  }

  lemma DecodeOneByte(x: Byte)
    ensures DecodeAscii(Encode([x])) == Ok([x])
  {
    DecodeFirstByte(x, 0, "==");
    assert x % 4 * 16 + 0 == x % 4 * 16;
    assert Encode([x]) == [Symbol(x / 4), Symbol(x % 4 * 16 + 0)] + "==";
    assert "=="[1..] == "=";
    assert DecodeFrom("==", 2, 0, 0) == Ok([]);
    assert [x] + [] == [x];
  }

  lemma DecodeTwoBytes(x: Byte, y: Byte)
    ensures DecodeAscii(Encode([x, y])) == Ok([x, y])
  {
    DecodeFirstByte(x, y / 16, [Symbol(y % 16 * 4), '=']);
    assert Encode([x, y]) == [Symbol(x / 4), Symbol(x % 4 * 16 + y / 16)] + [Symbol(y % 16 * 4), '='];
    DecodeSymbol(y % 16 * 4, "=", 2, y / 16, 0);
    assert [Symbol(y % 16 * 4), '='] == [Symbol(y % 16 * 4)] + "=";
    assert DecodeFrom("=", 3, 0, 0) == Ok([]);
    assert y / 16 * 16 + y % 16 * 4 / 4 == y && y % 16 * 4 % 4 == 0;
    assert [y] + [] == [y] && [x] + [y] == [x, y];
  }

  lemma SplitBits(y: Byte, z: Byte)
    ensures 0 <= y % 16 * 4 + z / 64 < 64
    ensures (y % 16 * 4 + z / 64) / 4 == y % 16
    ensures (y % 16 * 4 + z / 64) % 4 == z / 64
    ensures y / 16 * 16 + y % 16 == y
    ensures z / 64 * 64 + z % 64 == z
  {
  }

  /** The last two symbols of a group give its second and third byte. */
  lemma DecodeLastBytes(y: Byte, z: Byte, tail: string)
    ensures DecodeFrom([Symbol(y % 16 * 4 + z / 64)] + ([Symbol(z % 64)] + tail), 2, y / 16, 0)
            == Prepend(y, Prepend(z, DecodeAscii(tail)))
  {
    SplitBits(y, z);
    DecodeSymbol(y % 16 * 4 + z / 64, [Symbol(z % 64)] + tail, 2, y / 16, 0);
    DecodeSymbol(z % 64, tail, 3, z / 64, 0);
  }

  /** A whole group of four symbols gives three bytes and leaves the decoder where it started. */
  lemma DecodeGroup(x: Byte, y: Byte, z: Byte, tail: string)
    ensures DecodeAscii([Symbol(x / 4), Symbol(x % 4 * 16 + y / 16), Symbol(y % 16 * 4 + z / 64), Symbol(z % 64)] + tail)
            == Prepend(x, Prepend(y, Prepend(z, DecodeAscii(tail))))
  {
    var third := [Symbol(y % 16 * 4 + z / 64)] + ([Symbol(z % 64)] + tail);
    DecodeFirstByte(x, y / 16, third);
    DecodeLastBytes(y, z, tail);
    assert [Symbol(x / 4), Symbol(x % 4 * 16 + y / 16), Symbol(y % 16 * 4 + z / 64), Symbol(z % 64)] + tail
        == [Symbol(x / 4), Symbol(x % 4 * 16 + y / 16)] + third;
  }

  lemma {:induction false} GroupsDecode(b: Bytes)
    ensures DecodeAscii(Encode(b)) == Ok(b)
  {
    if |b| == 0 {
    } else if |b| == 1 {
      DecodeOneByte(b[0]);
      assert b == [b[0]];
    } else if |b| == 2 {
      DecodeTwoBytes(b[0], b[1]);
      assert b == [b[0], b[1]];
    } else {
      GroupsDecode(b[3..]);
      DecodeGroup(b[0], b[1], b[2], Encode(b[3..]));
      assert b == [b[0]] + ([b[1]] + ([b[2]] + b[3..]));
    }
  }

  lemma CodeIsAscii(s: string)
    requires forall i :: 0 <= i < |s| ==> IsCodeChar(s[i])
    ensures Ascii(s)
  {
  }

  /** Decoding restores every byte string that was encoded. */
  lemma DecodeOfEncode(b: Bytes)
    ensures Decode(Encode(b)) == Ok(b)
  {
    GroupsDecode(b);
    CodeIsAscii(Encode(b));
  }

  /** The text without the characters the decoder skips. */
  function CodeChars(s: string): string {
    if s == [] then [] else (if IsCodeChar(s[0]) then [s[0]] else []) + CodeChars(s[1..])
  }

  /** The decoder's loop passes over characters outside the alphabet. */
  lemma {:induction false} LoopSkipsForeign(s: string, quad: int, left: int, pads: int)
    requires 0 <= quad < 4 && 0 <= left < 64
    requires quad == 2 ==> left < 16
    requires quad == 3 ==> left < 4
    ensures DecodeFrom(s, quad, left, pads) == DecodeFrom(CodeChars(s), quad, left, pads)
    decreases |s|
  {
    if s != [] {
      var kept := CodeChars(s[1..]);
      if !IsCodeChar(s[0]) {
        LoopSkipsForeign(s[1..], quad, left, pads);
        assert [] + kept == kept;
      } else {
        assert ([s[0]] + kept)[1..] == kept;
        if s[0] == '=' {
          if !(quad >= 2 && quad + pads + 1 >= 4) {
            LoopSkipsForeign(s[1..], quad, left, if quad >= 2 then pads + 1 else pads);
          }
        } else {
          var v := Value(s[0]);
          match quad
          case 0 => LoopSkipsForeign(s[1..], 1, v, 0);
          case 1 => LoopSkipsForeign(s[1..], 2, v % 16, 0);
          case 2 => LoopSkipsForeign(s[1..], 3, v % 4, 0);
          case _ => LoopSkipsForeign(s[1..], 0, 0, 0);
        }
      }
    }
  }

  lemma {:induction false} CodeCharsAreCode(s: string)
    ensures forall i :: 0 <= i < |CodeChars(s)| ==> IsCodeChar(CodeChars(s)[i])
  {
    if s != [] {
      CodeCharsAreCode(s[1..]);
    }
  }

  /** In ASCII text, characters outside the alphabet never change what is decoded; any other
      character makes decoding raise. */
  lemma DecodeSkipsForeign(s: string)
    ensures Decode(s) == if Ascii(s) then Decode(CodeChars(s)) else Raised
  {
    LoopSkipsForeign(s, 0, 0, 0);
    CodeCharsAreCode(s);
    CodeIsAscii(CodeChars(s));
  }

  // ----- against the standard -----

  const UPPER := "ABCDEFGHIJKLMNOPQRSTUVWXYZ"
  const LOWER := "abcdefghijklmnopqrstuvwxyz"
  const OTHER := "0123456789+/"

  /** Table 1 of section 4 of RFC 4648. */
  const ALPHABET := UPPER + LOWER + OTHER

  lemma SymbolIs(v: int)
    requires 0 <= v < 64
    ensures |ALPHABET| == 64 && Symbol(v) == ALPHABET[v]
  {
    assert |UPPER| == 26 && |LOWER| == 26 && |OTHER| == 12;
    if v < 26 {
      assert ALPHABET[v] == UPPER[v];
    } else if v < 52 {
      assert ALPHABET[v] == LOWER[v - 26];
    } else {
      assert ALPHABET[v] == OTHER[v - 52];
    }
  }

  /** The characters that stand for a value are those of the table, each for its place in it. */
  lemma ValueIs(c: char, v: int)
    requires 0 <= v < 64
    ensures Value(c) == v <==> |ALPHABET| == 64 && ALPHABET[v] == c
  {
    SymbolIs(v);
    ValueOfSymbol(v);
  }

  lemma CodeCharIs(c: char)
    ensures IsCodeChar(c) <==> c == '=' || c in ALPHABET
  {
    if Value(c) >= 0 {
      SymbolIs(Value(c));
    }
    if c in ALPHABET {
      SymbolIs(0);
      var v :| 0 <= v < |ALPHABET| && ALPHABET[v] == c;
      ValueIs(c, v);
    }
  }

  /** The place of a character in the table, or -1. */
  ghost function Place(c: char): int {
    if c !in ALPHABET then -1 else
      var v :| 0 <= v < |ALPHABET| && ALPHABET[v] == c;
      v
  }

  lemma PlaceOfSymbol(v: int)
    requires 0 <= v < 64
    ensures Place(Symbol(v)) == v && Symbol(v) in ALPHABET
  {
    var c := Symbol(v);
    SymbolIs(v);
    assert c in ALPHABET;
    ValueIs(c, Place(c));
    ValueIs(c, v);
  }

  ghost predicate InTable(s: string) {
    forall i :: 0 <= i < |s| ==> s[i] in ALPHABET
  }

  /** The places of the characters, as digits to the base 64. */
  ghost function Number(s: string): int {
    if s == [] then 0 else Number(s[..|s| - 1]) * 64 + Place(s[|s| - 1])
  }

  /** The bytes and the text agree group by group: four characters make the same number as three bytes; a
      last byte makes two digits and two padding characters, two last bytes three digits and one. */
  ghost predicate Tabled(b: Bytes, s: string) {
    if |b| == 0 then s == []
    else if |b| == 1 then
      |s| == 4 && InTable(s[..2]) && Number(s[..2]) == b[0] as int * 16 && s[2..] == "=="
    else if |b| == 2 then
      |s| == 4 && InTable(s[..3]) && Number(s[..3]) == (b[0] as int * 256 + b[1]) * 4 && s[3..] == "="
    else
      && |s| >= 4 && InTable(s[..4]) && Number(s[..4]) == (b[0] as int * 256 + b[1]) * 256 + b[2]
      && Tabled(b[3..], s[4..])
  }

  lemma NextNumber(front: string, c: char, s: string, v: int)
    requires s == front + [c] && InTable(front) && 0 <= v < 64 && c == Symbol(v)
    ensures InTable(s) && Number(s) == Number(front) * 64 + v
  {
    PlaceOfSymbol(v);
    assert s[..|s| - 1] == front && s[|s| - 1] == c;
  }

  lemma TwoDigits(c: char, i: int, d: char, j: int)
    requires 0 <= i < 64 && 0 <= j < 64 && c == Symbol(i) && d == Symbol(j)
    ensures InTable([c, d]) && Number([c, d]) == i * 64 + j
  {
    NextNumber([], c, [c], i);
    NextNumber([c], d, [c, d], j);
  }

  lemma FirstNumber(x: Byte, high: int, s: string)
    requires 0 <= high < 16 && |s| >= 2 && s[0] == Symbol(x / 4) && s[1] == Symbol(x % 4 * 16 + high)
    ensures InTable(s[..2]) && Number(s[..2]) == x as int * 16 + high
  {
    FirstBits(x, high);
    TwoDigits(s[0], x / 4, s[1], x % 4 * 16 + high);
    assert s[..2] == [s[0], s[1]];
  }

  lemma OneByteTabled(x: Byte)
    ensures Tabled([x], Encode([x]))
  {
    assert x % 4 * 16 + 0 == x % 4 * 16;
    FirstNumber(x, 0, Encode([x]));
  }

  lemma TwoBytesTabled(x: Byte, y: Byte)
    ensures Tabled([x, y], Encode([x, y]))
  {
    var s := Encode([x, y]);
    FirstNumber(x, y / 16, s);
    NextNumber(s[..2], s[2], s[..3], y % 16 * 4);
  }

  lemma GroupTabled(b: Bytes)
    requires |b| > 2
    ensures var s := Encode(b);
            && |s| >= 4 && s[4..] == Encode(b[3..])
            && InTable(s[..4]) && Number(s[..4]) == (b[0] as int * 256 + b[1]) * 256 + b[2]
  {
    var s, y, z := Encode(b), b[1], b[2];
    FirstNumber(b[0], y / 16, s);
    SplitBits(y, z);
    NextNumber(s[..2], s[2], s[..3], y % 16 * 4 + z / 64);
    NextNumber(s[..3], s[3], s[..4], z % 64);
  }

  /** The encoded text is, group by group, what the standard's table gives. */
  lemma {:induction false} EncodesByTable(b: Bytes)
    ensures Tabled(b, Encode(b))
  {
    if |b| == 0 {
    } else if |b| == 1 {
      OneByteTabled(b[0]);
      assert b == [b[0]];
    } else if |b| == 2 {
      TwoBytesTabled(b[0], b[1]);
      assert b == [b[0], b[1]];
    } else {
      GroupTabled(b);
      EncodesByTable(b[3..]);
    }
  }

  lemma SymbolOfPlace(c: char)
    requires c in ALPHABET
    ensures 0 <= Place(c) < 64 && Symbol(Place(c)) == c
  {
    SymbolIs(0);
    SymbolIs(Place(c));
  }

  lemma SameDigit(n: int, c: char, m: int, d: char)
    requires c in ALPHABET && d in ALPHABET && n * 64 + Place(c) == m * 64 + Place(d)
    ensures n == m && c == d
  {
    SymbolOfPlace(c);
    SymbolOfPlace(d);
  }

  lemma {:induction false} SameNumber(s: string, t: string)
    requires |s| == |t| && InTable(s) && InTable(t) && Number(s) == Number(t)
    ensures s == t
  {
    if s != [] {
      var k := |s| - 1;
      SameDigit(Number(s[..k]), s[k], Number(t[..k]), t[k]);
      SameNumber(s[..k], t[..k]);
      assert s == s[..k] + [s[k]] && t == t[..k] + [t[k]];
    }
  }

  /** No other text agrees with the bytes. */
  lemma {:induction false} TabledOnce(b: Bytes, s: string, t: string)
    requires Tabled(b, s) && Tabled(b, t)
    ensures s == t
  {
    if |b| > 0 {
      var k := if |b| < 3 then |b| + 1 else 4;
      SameNumber(s[..k], t[..k]);
      if |b| > 2 {
        TabledOnce(b[3..], s[4..], t[4..]);
      }
      assert s == s[..k] + s[k..] && t == t[..k] + t[k..];
    }
  }

  /** The encoded text is the one text that the standard's table gives. */
  lemma EncodingIsTheTables(b: Bytes, s: string)
    ensures s == Encode(b) <==> Tabled(b, s)
  {
    EncodesByTable(b);
    if Tabled(b, s) {
      TabledOnce(b, s, Encode(b));
    }
  }
}
