/** Escaping against the serialization of identifiers in section 2.1 of CSSOM, and each single
    rule of unescaping. */
module EscapeLaws {
  import opened Escape

  // ----- Hexadecimal digits

  const LOWER: seq<Unit> :=
    [0x30, 0x31, 0x32, 0x33, 0x34, 0x35, 0x36, 0x37, 0x38, 0x39, 0x61, 0x62, 0x63, 0x64, 0x65, 0x66]
  const UPPER: seq<Unit> :=
    [0x30, 0x31, 0x32, 0x33, 0x34, 0x35, 0x36, 0x37, 0x38, 0x39, 0x41, 0x42, 0x43, 0x44, 0x45, 0x46]

  /** Digits of either case have their value, and nothing else is one. */
  lemma HexDigitIff(c: Unit)
    ensures HexDigit(c) <==> c in LOWER || c in UPPER
    ensures forall d: nat | d < 16 && (c == LOWER[d] || c == UPPER[d]) :: HexDigit(c) && HexValue(c) == d
  {
    if HexDigit(c) { assert c == LOWER[HexValue(c)] || c == UPPER[HexValue(c)]; }
  }

  function Power(n: nat): nat {
    if n == 0 then 1 else 16 * Power(n - 1)
  }

  /** The first digit counts most. */
  lemma {:induction false} FirstDigitCounts(c: Unit, t: seq<Unit>)
    requires HexDigit(c) && AllHex(t) && AllHex([c] + t)
    ensures Value([c] + t) == HexValue(c) * Power(|t|) + Value(t)
  {
    var all := [c] + t;
    if t == [] {
      assert all[..0] == [];
    } else {
      var rest := t[..|t| - 1];
      assert all[..|all| - 1] == [c] + rest;
      FirstDigitCounts(c, rest);
      TimesSixteen(HexValue(c), Power(|rest|), Value(rest));
    }
  }

  lemma TimesSixteen(d: nat, p: nat, v: nat)
    ensures 16 * (d * p + v) == d * (16 * p) + 16 * v
  {
  }

  /** Numbers are written with lower-case digits and no leading zero. */
  lemma {:induction false} HexIsShortest(n: nat)
    ensures ToHex(n) != [] && (forall c <- ToHex(n) :: c in LOWER) && (n > 0 ==> ToHex(n)[0] != 0x30)
  {
    HexDigitIff(HexChar(n % 16));
    assert HexChar(n % 16) == LOWER[n % 16];
    if n >= 16 { HexIsShortest(n / 16); }
  }

  // ----- Serializing an identifier

  /** What the character at `i` becomes (section 2.1 of CSSOM). */
  function Serialized(s: seq<Unit>, i: nat): seq<Unit>
    requires i < |s|
  {
    var c := s[i];
    if c == 0 then [0xFFFD]
    else if 0x01 <= c <= 0x1F || c == 0x7F then AsCodePoint(c)
    else if i == 0 && 0x30 <= c <= 0x39 then AsCodePoint(c)
    else if i == 1 && 0x30 <= c <= 0x39 && s[0] == 0x2D then AsCodePoint(c)
    else if i == 0 && |s| == 1 && c == 0x2D then [0x5C, c]
    else if c >= 0x80 || c == 0x2D || c == 0x5F
         || 0x30 <= c <= 0x39 || 0x41 <= c <= 0x5A || 0x61 <= c <= 0x7A then [c]
    else [0x5C, c]
  }

  function AsCodePoint(c: Unit): seq<Unit> {
    [0x5C] + ToHex(c) + [0x20]
  }

  function SerializedFrom(s: seq<Unit>, k: nat): seq<Unit>
    requires k <= |s|
    decreases |s| - k
  {
    if k == |s| then [] else Serialized(s, k) + SerializedFrom(s, k + 1)
  }

  /** From here on, no position is special. */
  ghost predicate Usual(s: seq<Unit>, k: nat) {
    (k == 0 ==> !StartsWithDigit(s) && s != [DASH]) && (k == 1 ==> s == [] || s[0] != DASH || !StartsWithDigit(s))
  }

  lemma {:induction false} RestSerialized(s: seq<Unit>, k: nat)
    requires k <= |s| && Usual(s, k) && (k < 2 ==> k == |s| || Usual(s, k + 1))
    ensures EscapeRest(s[k..]) == SerializedFrom(s, k)
    decreases |s| - k
  {
    if k < |s| {
      assert s[k..][0] == s[k] && s[k..][1..] == s[k + 1..];
      assert EscapeChar(s[k]) == Serialized(s, k);
      RestSerialized(s, k + 1);
    }
  }

  /** Escaping serializes an identifier. */
  lemma EscapedIsSerialized(s: seq<Unit>)
    ensures Escaped(s) == SerializedFrom(s, 0)
  {
    if |s| >= 1 && Digit(s[0]) {
      RestSerialized(s, 1);
    } else if StartsWithDigit(s) {
      RestSerialized(s, 2);
      assert SerializedFrom(s, 1) == CodePoint(s[1]) + EscapeRest(s[2..]);
    } else if s == [DASH] {
      assert SerializedFrom(s, 0) == Serialized(s, 0) + SerializedFrom(s, 1);
    } else {
      RestSerialized(s, 0);
      assert s[0..] == s;
    }
  }

  // ----- The rules of unescaping

  lemma {:induction false} HexRunStops(h: seq<Unit>, t: seq<Unit>, limit: nat)
    requires AllHex(h) && |h| <= limit && (|h| == limit || t == [] || !HexDigit(t[0]))
    ensures HexRun(h + t, limit) == |h|
    decreases |h|
  {
    var s := h + t;
    if h == [] {
      assert s == t;
    } else {
      assert s[0] == h[0] && s[1..] == h[1..] + t;
      HexRunStops(h[1..], t, limit - 1);
    }
  }

  lemma ShortValue(h: seq<Unit>)
    requires AllHex(h) && |h| <= 6
    ensures Value(h) <= 0xFFFFFF
  {
    ValueBound(h);
  }

  /** A number of one to six digits, as many as there are, takes one blank after it. */
  lemma NumberUnescaped(h: seq<Unit>, t: seq<Unit>)
    requires AllHex(h) && 0 < |h| <= 6 && (|h| == 6 || t == [] || !HexDigit(t[0]))
    ensures Value(h) <= 0xFFFFFF
    ensures Unescaped([BACKSLASH] + h + t) ==
      FromCodePoint(Value(h)) + Unescaped(if t != [] && Whitespace(t[0]) then t[1..] else t)
  {
    ShortValue(h);
    HexRunStops(h, t, 6);
    NumberParts(h, t);
    UnfoldNumber([BACKSLASH] + h + t, h);
  }

  lemma NumberParts(h: seq<Unit>, t: seq<Unit>)
    ensures var s := [BACKSLASH] + h + t;
      && s[1..] == h + t && (h + t)[..|h|] == h && s[|h| + 1..] == t
      && (t != [] ==> s[|h| + 1] == t[0] && s[|h| + 2..] == t[1..])
  {
  }

  lemma UnfoldNumber(s: seq<Unit>, h: seq<Unit>)
    requires |s| > 1 && s[0] == BACKSLASH && AllHex(h) && 0 < |h| <= 6 && Value(h) <= 0xFFFFFF
    requires HexRun(s[1..], 6) == |h| && s[1..][..|h|] == h
    ensures var n := |h|;
      Unescaped(s) == FromCodePoint(Value(h)) +
        Unescaped(if n + 1 < |s| && Whitespace(s[n + 1]) then s[n + 2..] else s[n + 1..])
  {
  }

  /** Behind a backslash, a character that is no digit stands for itself; line separators keep the
      backslash, and blanks, line ends among them, do not. */
  lemma CharacterUnescaped(c: Unit, t: seq<Unit>)
    requires !HexDigit(c)
    ensures Unescaped([BACKSLASH, c] + t) ==
      if c == 0x2028 || c == 0x2029 then [BACKSLASH] + Unescaped([c] + t) else [c] + Unescaped(t)
  {
    var s := [BACKSLASH, c] + t;
    assert s[1..] == [c] + t && s[1..][0] == c && s[2..] == t;
    assert HexRun(s[1..], 6) == 0;
  }

  /** A backslash at the end, and every character without one, stay. */
  lemma OthersUnescaped(c: Unit, t: seq<Unit>)
    requires c != BACKSLASH || t == []
    ensures Unescaped([c] + t) == [c] + Unescaped(t)
  {
    assert ([c] + t)[1..] == t;
  }
}
