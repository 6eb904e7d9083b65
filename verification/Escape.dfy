/** CSS escapes: `Sizzle.escape` writes any string as an identifier, and Sizzle's unescaping reads
    it back.  Strings are sequences of UTF-16 code units. */
module Escape {
  type Unit = c: nat | c <= 0xFFFF

  const NUL: Unit := 0
  const BACKSLASH: Unit := 0x5C
  const DASH: Unit := 0x2D
  const SPACE: Unit := 0x20
  const REPLACEMENT: Unit := 0xFFFD

  predicate Control(c: Unit) { c <= 0x1F || c == 0x7F }

  predicate Digit(c: Unit) { 0x30 <= c <= 0x39 }

  /** The class `\w`. */
  predicate Word(c: Unit) { Digit(c) || 0x41 <= c <= 0x5A || 0x61 <= c <= 0x7A || c == 0x5F }

  predicate Whitespace(c: Unit) { c == SPACE || c == 0x09 || c == 0x0D || c == 0x0A || c == 0x0C }

  /** The class `.`: everything but line terminators. */
  predicate Dot(c: Unit) { c != 0x0A && c != 0x0D && c != 0x2028 && c != 0x2029 }

  predicate HexDigit(c: Unit) { Digit(c) || 0x41 <= c <= 0x46 || 0x61 <= c <= 0x66 }

  // ----- Hexadecimal numbers

  function HexChar(d: nat): (c: Unit)
    requires d < 16
    ensures HexDigit(c) && HexValue(c) == d
  {
    if d < 10 then 0x30 + d else 0x61 + (d - 10)
  }

  function HexValue(c: Unit): (d: nat)
    requires HexDigit(c)
    ensures d < 16
  {
    if Digit(c) then c - 0x30 else if c <= 0x46 then c - 0x41 + 10 else c - 0x61 + 10
  }

  /** `toString(16)` */
  function ToHex(n: nat): seq<Unit> {
    if n < 16 then [HexChar(n)] else ToHex(n / 16) + [HexChar(n % 16)]
  }

  predicate AllHex(s: seq<Unit>) {
    forall c <- s :: HexDigit(c)
  }

  function Value(s: seq<Unit>): nat
    requires AllHex(s)
  {
    if s == [] then 0 else 16 * Value(s[..|s| - 1]) + HexValue(s[|s| - 1])
  }

  lemma {:induction false} HexRoundTrip(n: nat)
    ensures AllHex(ToHex(n)) && Value(ToHex(n)) == n
  {
    if n >= 16 {
      HexRoundTrip(n / 16);
      assert ToHex(n)[..|ToHex(n)| - 1] == ToHex(n / 16);
    }
  }

  // ----- Escaping

  /** An escape by code point; the blank ends the number. */
  function CodePoint(c: Unit): seq<Unit> {
    [BACKSLASH] + ToHex(c) + [SPACE]
  }

  /** What a character away from the start becomes. */
  function EscapeChar(c: Unit): seq<Unit> {
    if c == NUL then [REPLACEMENT]
    else if Control(c) then CodePoint(c)
    else if c < 0x7F && !Word(c) && c != DASH then [BACKSLASH, c]
    else [c]
  }

  function EscapeRest(s: seq<Unit>): seq<Unit> {
    if s == [] then [] else EscapeChar(s[0]) + EscapeRest(s[1..])
  }

  /** A digit at the start or after a dash at the start, where an identifier must not have one. */
  predicate StartsWithDigit(s: seq<Unit>) {
    (|s| >= 1 && Digit(s[0])) || (|s| >= 2 && s[0] == DASH && Digit(s[1]))
  }

  /** `Sizzle.escape` */
  function Escaped(s: seq<Unit>): seq<Unit> {
    if StartsWithDigit(s) then
      if Digit(s[0]) then CodePoint(s[0]) + EscapeRest(s[1..])
      else [DASH] + (CodePoint(s[1]) + EscapeRest(s[2..]))
    else if s == [DASH] then [BACKSLASH, DASH]
    else EscapeRest(s)
  }

  // ----- Unescaping

  /** How many hexadecimal digits the string starts with, but no more than asked for. */
  function HexRun(s: seq<Unit>, limit: nat): (n: nat)
    ensures n <= |s| && n <= limit && AllHex(s[..n])
    ensures n < |s| && n < limit ==> !HexDigit(s[n])
    decreases limit
  {
    if limit == 0 || s == [] || !HexDigit(s[0]) then 0
    else
      var n := HexRun(s[1..], limit - 1);
      assert s[..n + 1] == [s[0]] + s[1..][..n];
      n + 1
  }

  /** `x | 0xD800` for up to 14 bits. */
  function OrHighSurrogate(x: nat): (c: Unit)
    requires x < 0x4000
  {
    0xD800 + x % 0x800 + 0x2000 * (x / 0x2000)
  }

  /** A character for a code point, or two outside the basic plane. */
  function FromCodePoint(code: nat): seq<Unit>
    requires code <= 0xFFFFFF
  {
    if code < 0x10000 then [code]
    else
      var high := code - 0x10000;
      [OrHighSurrogate(high / 0x400), 0xDC00 + high % 0x400]
  }

  lemma {:induction false} ValueBound(s: seq<Unit>)
    requires AllHex(s) && |s| <= 6
    ensures Value(s) < Pow16(|s|) <= 0x1000000
  {
    if s != [] { ValueBound(s[..|s| - 1]); }
  }

  function Pow16(n: nat): nat
    requires n <= 6
  {
    [1, 0x10, 0x100, 0x1000, 0x1_0000, 0x10_0000, 0x100_0000][n]
  }

  /** `replace(runescape, funescape)` */
  function Unescaped(s: seq<Unit>): seq<Unit> {
    if s == [] then []
    else if s[0] != BACKSLASH || |s| == 1 then [s[0]] + Unescaped(s[1..])
    else
      var n := HexRun(s[1..], 6);
      if n > 0 then
        var blank := if n + 1 < |s| && Whitespace(s[n + 1]) then 1 else 0;
        ValueBound(s[1..][..n]);
        FromCodePoint(Value(s[1..][..n])) + Unescaped(s[n + 1 + blank..])
      else if Whitespace(s[1]) || Dot(s[1]) then [s[1]] + Unescaped(s[2..])
      else [s[0]] + Unescaped(s[1..])
  }

  // ----- The round trip

  /** What comes back: NUL is not representable. */
  function WithoutNul(s: seq<Unit>): (r: seq<Unit>)
    ensures |r| == |s|
  {
    seq(|s|, i requires 0 <= i < |s| => if s[i] == NUL then REPLACEMENT else s[i])
  }

  /** A number of up to six digits ends at the blank, whatever follows. */
  lemma HexRunEnds(h: seq<Unit>, t: seq<Unit>, limit: nat)
    requires AllHex(h) && |h| <= limit
    ensures HexRun(h + [SPACE] + t, limit) == |h|
    decreases |h|
  {
    var s := h + [SPACE] + t;
    if h == [] {
      assert s[0] == SPACE;
    } else {
      assert s[0] == h[0] && s[1..] == h[1..] + [SPACE] + t;
      HexRunEnds(h[1..], t, limit - 1);
    }
  }

  lemma UnescapedNumber(n: nat, h: seq<Unit>, t: seq<Unit>)
    requires AllHex(h) && 0 < |h| <= 6 && Value(h) == n <= 0xFFFF
    ensures Unescaped([BACKSLASH] + h + [SPACE] + t) == [n] + Unescaped(t)
  {
    var s := [BACKSLASH] + h + [SPACE] + t;
    assert s[1..] == h + [SPACE] + t;
    HexRunEnds(h, t, 6);
    assert s[1..][..|h|] == h;
    assert s[|h| + 1] == SPACE;
    assert s[|h| + 2..] == t;
  }

  lemma ToHexShort(n: nat)
    requires n < 0x100
    ensures 0 < |ToHex(n)| <= 2
  {
  }

  lemma UnescapedCodePoint(c: Unit, t: seq<Unit>)
    requires c < 0x100
    ensures Unescaped(CodePoint(c) + t) == [c] + Unescaped(t)
  {
    HexRoundTrip(c);
    ToHexShort(c);
    UnescapedNumber(c, ToHex(c), t);
  }

  lemma UnescapedChar(c: Unit, t: seq<Unit>)
    ensures Unescaped(EscapeChar(c) + t) == [if c == NUL then REPLACEMENT else c] + Unescaped(t)
  {
    if c == NUL {
      UnescapedPlain(REPLACEMENT, t);
    } else if Control(c) {
      UnescapedCodePoint(c, t);
    } else if c < 0x7F && !Word(c) && c != DASH {
      var s := [BACKSLASH, c] + t;
      assert s[1..][0] == c && s[2..] == t;
    } else {
      UnescapedPlain(c, t);
    }
  }

  lemma {:induction false} UnescapedRest(s: seq<Unit>)
    ensures Unescaped(EscapeRest(s)) == WithoutNul(s)
  {
    if s != [] {
      UnescapedChar(s[0], EscapeRest(s[1..]));
      UnescapedRest(s[1..]);
      WithoutNulFirst(s);
    }
  }

  lemma WithoutNulFirst(s: seq<Unit>)
    requires s != []
    ensures WithoutNul(s) == [if s[0] == NUL then REPLACEMENT else s[0]] + WithoutNul(s[1..])
  {
  }

  lemma UnescapedPlain(c: Unit, t: seq<Unit>)
    requires c != BACKSLASH
    ensures Unescaped([c] + t) == [c] + Unescaped(t)
  {
    assert ([c] + t)[1..] == t;
  }

  lemma LeadingDigitComesBack(s: seq<Unit>)
    requires |s| >= 1 && Digit(s[0])
    ensures Unescaped(CodePoint(s[0]) + EscapeRest(s[1..])) == WithoutNul(s)
  {
    UnescapedCodePoint(s[0], EscapeRest(s[1..]));
    UnescapedRest(s[1..]);
  }

  lemma DashDigitComesBack(s: seq<Unit>)
    requires |s| >= 2 && s[0] == DASH && Digit(s[1])
    ensures Unescaped([DASH] + (CodePoint(s[1]) + EscapeRest(s[2..]))) == WithoutNul(s)
  {
    UnescapedPlain(DASH, CodePoint(s[1]) + EscapeRest(s[2..]));
    LeadingDigitComesBack(s[1..]);
    assert s[1..][1..] == s[2..];
    assert WithoutNul(s) == [DASH] + WithoutNul(s[1..]);
  }

  lemma DashComesBack()
    ensures Unescaped([BACKSLASH, DASH]) == WithoutNul([DASH]) == [DASH]
  {
    var s := [BACKSLASH, DASH];
    assert s[1..][0] == DASH && s[2..] == [];
    assert Unescaped(s) == [DASH] + Unescaped([]);
  }

  /** Unescaping undoes escaping, except that NUL comes back as U+FFFD. */
  lemma EscapeComesBack(s: seq<Unit>)
    ensures Unescaped(Escaped(s)) == WithoutNul(s)
  {
    if |s| >= 1 && Digit(s[0]) {
      LeadingDigitComesBack(s);
    } else if StartsWithDigit(s) {
      DashDigitComesBack(s);
    } else if s == [DASH] {
      DashComesBack();
    } else {
      UnescapedRest(s);
    }
  }

  lemma EscapeRoundTrip(s: seq<Unit>)
    ensures Unescaped(Escaped(s)) == s <==> NUL !in s
  {
    EscapeComesBack(s);
    if NUL in s {
      var i :| 0 <= i < |s| && s[i] == NUL;
      assert WithoutNul(s)[i] == REPLACEMENT;
    }
  }

  /** Escaping loses nothing but NUL: two strings never share an escaped form. */
  lemma EscapeInjective(s: seq<Unit>, t: seq<Unit>)
    requires NUL !in s && NUL !in t && Escaped(s) == Escaped(t)
    ensures s == t
  {
    EscapeRoundTrip(s);
    EscapeRoundTrip(t);
  }

  /** A numeric escape beyond the basic plane reads as the surrogate pair of its code point. */
  lemma SurrogatePair(code: nat)
    requires 0x10000 <= code <= 0x10FFFF
    ensures |FromCodePoint(code)| == 2
    ensures var high: int, low: int := FromCodePoint(code)[0], FromCodePoint(code)[1];
      && 0xD800 <= high <= 0xDBFF && 0xDC00 <= low <= 0xDFFF
      && 0x10000 + (high - 0xD800) * 0x400 + (low - 0xDC00) == code
  {
  }

  // ----- Escaped strings as identifiers

  /** The tail of the regular expression `identifier`: escapes, word characters, dashes and
      everything beyond U+00A0. */
  predicate IdentifierTail(s: seq<Unit>) {
    s == []
    || (if s[0] == BACKSLASH then |s| > 1 && Dot(s[1]) && IdentifierTail(s[2..])
        else (Word(s[0]) || s[0] == DASH || s[0] > 0xA0) && IdentifierTail(s[1..]))
  }

  predicate Identifier(s: seq<Unit>) {
    s != [] && IdentifierTail(s)
  }

  /** Characters that the escaped form shows as themselves or behind a backslash, and that the
      tokenizer accepts there. */
  predicate Showable(s: seq<Unit>) {
    forall c <- s :: (c == NUL || !Control(c)) && !(0x80 <= c <= 0xA0)
  }

  lemma CodePointIsNoTail(c: Unit, t: seq<Unit>)
    requires c < 0x100
    ensures !IdentifierTail(CodePoint(c) + t)
  {
    HexRoundTrip(c);
    ToHexShort(c);
    var h, s := ToHex(c), CodePoint(c) + t;
    assert s[1] == h[0];
    if |h| == 2 {
      assert s[2..][0] == h[1] && s[2..][1..][0] == SPACE;
      assert !IdentifierTail(s[2..][1..]);
      assert !IdentifierTail(s[2..]);
    } else {
      assert s[2..][0] == SPACE;
      assert !IdentifierTail(s[2..]);
    }
  }

  lemma {:induction false} EscapeRestIdentifierIff(s: seq<Unit>)
    ensures IdentifierTail(EscapeRest(s)) <==> Showable(s)
  {
    if s != [] {
      var c, t := s[0], EscapeRest(s[1..]);
      EscapeRestIdentifierIff(s[1..]);
      if c != NUL && Control(c) {
        CodePointIsNoTail(c, t);
      } else if c != NUL && c < 0x7F && !Word(c) && c != DASH {
        assert ([BACKSLASH, c] + t)[2..] == t;
      } else {
        assert (EscapeChar(c) + t)[1..] == t;
      }
      assert s == [c] + s[1..];
    }
  }

  lemma DashInTail(t: seq<Unit>)
    ensures IdentifierTail([DASH] + t) <==> IdentifierTail(t)
  {
    assert ([DASH] + t)[1..] == t;
  }

  lemma LeadingDigitIsNoIdentifier(s: seq<Unit>)
    requires StartsWithDigit(s)
    ensures !IdentifierTail(Escaped(s))
  {
    if Digit(s[0]) {
      CodePointIsNoTail(s[0], EscapeRest(s[1..]));
    } else {
      CodePointIsNoTail(s[1], EscapeRest(s[2..]));
      DashInTail(CodePoint(s[1]) + EscapeRest(s[2..]));
    }
  }

  lemma DashIsIdentifier()
    ensures Identifier([BACKSLASH, DASH]) && Showable([DASH])
  {
    assert [BACKSLASH, DASH][2..] == [] && IdentifierTail([]);
  }

  lemma EscapeRestNonempty(s: seq<Unit>)
    ensures EscapeRest(s) == [] <==> s == []
  {
  }

  /** The tokenizer's own notion of an identifier has no blank after a numeric escape and leaves
      out U+0080 to U+00A0; so it takes the escaped form as one identifier exactly for strings
      that need neither. */
  lemma EscapedIsIdentifierIff(s: seq<Unit>)
    ensures Identifier(Escaped(s)) <==> s != [] && Showable(s) && !StartsWithDigit(s)
  {
    if StartsWithDigit(s) {
      LeadingDigitIsNoIdentifier(s);
    } else if s == [DASH] {
      DashIsIdentifier();
    } else {
      EscapeRestIdentifierIff(s);
      EscapeRestNonempty(s);
    }
  }
}
