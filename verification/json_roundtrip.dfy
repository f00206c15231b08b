/**
 * Reading back what the writer produced gives the value that was written:
 * `json.loads(json.dumps(v, separators=(",", ":"), sort_keys=True)) == v`
 * for every value whose floats are canonical.
 */
module JsonRoundTrip {
  import opened Wrappers
  import opened PyText
  import opened JsonValue
  import opened JsonReader

  predicate AllDigits(s: string) {
    forall k :: 0 <= k < |s| ==> IsDigit(s[k])
  }

  /** What may follow a value inside the writer's output. */
  predicate Delim(rest: string) {
    rest == [] || rest[0] == ',' || rest[0] == ']' || rest[0] == '}'
  }

  // ---------------------------------------------------------------------
  // Digits.
  // ---------------------------------------------------------------------

  lemma {:induction false} DigitsValueConcat(a: string, b: string)
    requires AllDigits(a) && AllDigits(b)
    ensures AllDigits(a + b)
    ensures DigitsValue(a + b) == DigitsValue(a) * Pow10(|b|) + DigitsValue(b)
    decreases |b|
  {
    if b == [] {
      assert a + b == a;
    } else {
      var b' := b[..|b| - 1];
      var d := DigitValue(b[|b| - 1]);
      DigitsValueConcat(a, b');
      assert (a + b)[..|a + b| - 1] == a + b';
      assert (a + b)[|a + b| - 1] == b[|b| - 1];
      ConcatShift(DigitsValue(a), Pow10(|b'|), DigitsValue(b'), d,
                  DigitsValue(a + b'), DigitsValue(a + b), DigitsValue(b), Pow10(|b|));
    }
  }

  /** One more digit on `b` shifts the value of `a` one more place. */
  lemma ConcatShift(x: int, p: int, y: int, d: int, front: int, whole: int, bv: int, q: int)
    requires front == x * p + y && whole == front * 10 + d && bv == y * 10 + d && q == p * 10
    ensures whole == x * q + bv
  {
    assert (x * p + y) * 10 == x * (p * 10) + y * 10;
  }

  lemma {:induction false} DigitsValueZeros(k: nat)
    ensures AllDigits(Zeros(k)) && DigitsValue(Zeros(k)) == 0
  {
    if k > 0 {
      DigitsValueZeros(k - 1);
      assert Zeros(k)[..k - 1] == Zeros(k - 1);
    }
  }

  lemma {:induction false} DigitRunConcat(d: string, t: string)
    requires AllDigits(d)
    ensures DigitRun(d + t) == |d| + DigitRun(t)
    decreases |d|
  {
    if d != [] {
      DigitRunConcat(d[1..], t);
      assert (d + t)[1..] == d[1..] + t;
    } else {
      assert d + t == t;
    }
  }

  lemma NatDigitsShape(n: nat)
    ensures AllDigits(NatDigits(n))
    ensures n > 0 ==> NatDigits(n)[0] != '0'
  {
  }

  lemma MulPow10Step(m: nat, k: nat)
    requires k > 0
    ensures m * Pow10(k) == (m * Pow10(k - 1)) * 10
    ensures m * Pow10(k - 1) >= m
  {
  }

  lemma TimesTen(q: nat)
    ensures (q * 10) % 10 == 0 && (q * 10) / 10 == q
  {
  }

  /** Trailing zeros of the digits move into the exponent. */
  lemma {:induction false} NormalizeScale(neg: bool, m: nat, k: nat, e: int)
    requires m > 0 && m % 10 != 0
    ensures Normalize(neg, m * Pow10(k), e) == Decimal(Signed(neg, m), e + k)
    decreases k
  {
    if k == 0 {
      assert m * Pow10(k) == m;
    } else {
      MulPow10Step(m, k);
      TimesTen(m * Pow10(k - 1));
      NormalizeScale(neg, m, k - 1, e + 1);
    }
  }

  // ---------------------------------------------------------------------
  // Strings.
  // ---------------------------------------------------------------------

  lemma HexDigitRead(d: nat)
    requires d < 16
    ensures HexValue(HexDigit(d)) == Some(d)
  {
  }

  lemma Hex4Read(n: nat, w: string)
    requires n < 0x10000
    ensures Hex4Value(Hex4(n) + w) == Some(n)
  {
    var h := Hex4(n) + w;
    assert h[0] == HexDigit(n / 0x1000) && h[1] == HexDigit(n / 0x100 % 16);
    assert h[2] == HexDigit(n / 0x10 % 16) && h[3] == HexDigit(n % 16);
    HexDigitsRead(n / 0x1000, n / 0x100 % 16, n / 0x10 % 16, n % 16, h);
    Hex4Digits(n);
  }

  /** Four hexadecimal digits at the front of `h` read as their base-16 value. */
  lemma HexDigitsRead(a: nat, b: nat, c: nat, d: nat, h: string)
    requires a < 16 && b < 16 && c < 16 && d < 16 && |h| >= 4
    requires h[0] == HexDigit(a) && h[1] == HexDigit(b) && h[2] == HexDigit(c) && h[3] == HexDigit(d)
    ensures Hex4Value(h) == Some(((a * 16 + b) * 16 + c) * 16 + d)
  {
    HexDigitRead(a);
    HexDigitRead(b);
    HexDigitRead(c);
    HexDigitRead(d);
  }

  /** The four digits `Hex4` writes recombine to the number. */
  lemma Hex4Digits(n: nat)
    requires n < 0x10000
    ensures ((n / 0x1000 * 16 + n / 0x100 % 16) * 16 + n / 0x10 % 16) * 16 + n % 16 == n
  {
    assert n / 0x100 == (n / 0x1000) * 16 + n / 0x100 % 16;
    assert n / 0x10 == (n / 0x100) * 16 + n / 0x10 % 16;
    assert n == (n / 0x10) * 16 + n % 16;
  }

  /** A character escaped with a backslash and one letter reads back as itself. */
  lemma ShortEscapeRead(c: char, u: string)
    requires c == '"' || c == '\\' || c == '\n' || c == '\r' || c == '\t' || c == '\U{8}' || c == '\U{C}'
    ensures ParseStringBody(EscapeChar(c) + u) == Prepend(c, ParseStringBody(u))
  {
    var s := EscapeChar(c) + u;
    assert s[0] == '\\' && s[1..][1..] == u;
  }

  /** A printable ASCII character is written as itself. */
  lemma PlainCharRead(c: char, u: string)
    requires ' ' <= c <= '~' && c != '"' && c != '\\'
    ensures ParseStringBody(EscapeChar(c) + u) == Prepend(c, ParseStringBody(u))
  {
    var s := EscapeChar(c) + u;
    assert s[1..] == u;
  }

  /** A backslash followed by an escape that stands for `c`. */
  lemma BackslashRead(t: string, c: char, u: string)
    requires Unescape(t) == Some(Parsed(c, u))
    ensures ParseStringBody("\\" + t) == Prepend(c, ParseStringBody(u))
  {
    assert ("\\" + t)[1..] == t;
  }

  /** A `\uXXXX` escape of a character below U+10000 reads back as that character. */
  lemma BmpEscapeRead(c: char, u: string)
    requires !(' ' <= c <= '~') && (c as int) < 0x10000
    requires c != '\n' && c != '\r' && c != '\t' && c != '\U{8}' && c != '\U{C}'
    ensures ParseStringBody(EscapeChar(c) + u) == Prepend(c, ParseStringBody(u))
  {
    var t := "u" + Hex4(c as int) + u;
    BmpEscape(c, u);
    Hex4Read(c as int, u);
    Hex4Slices(c as int, u);
    UnicodeEscapeRead(t, c, u);
    BackslashRead(t, c, u);
  }

  /** How a character below U+10000 that has no short escape is escaped, seen from its backslash. */
  lemma BmpEscape(c: char, u: string)
    requires !(' ' <= c <= '~') && (c as int) < 0x10000
    requires c != '\n' && c != '\r' && c != '\t' && c != '\U{8}' && c != '\U{C}'
    ensures EscapeChar(c) + u == "\\" + ("u" + Hex4(c as int) + u)
  {
  }

  /** Where the hexadecimal group of a `u` escape sits. */
  lemma Hex4Slices(n: nat, u: string)
    requires n < 0x10000
    ensures var t := "u" + Hex4(n) + u;
      |t| >= 5 && t[0] == 'u' && t[1..] == Hex4(n) + u && t[5..] == u
  {
    var t := "u" + Hex4(n) + u;
    assert t[1..] == Hex4(n) + u;
  }

  /** A `u` escape holding a character's code below U+10000 reads as that character. */
  lemma UnicodeEscapeRead(t: string, c: char, u: string)
    requires (c as int) < 0x10000 && |t| >= 5 && t[0] == 'u'
    requires Hex4Value(t[1..]) == Some(c as int) && t[5..] == u
    ensures Unescape(t) == Some(Parsed(c, u))
  {
  }

  lemma UnescapePair(hi: nat, lo: nat, u: string)
    requires 0xD800 <= hi <= 0xDBFF && 0xDC00 <= lo <= 0xDFFF
    ensures Unescape("u" + Hex4(hi) + "\\u" + Hex4(lo) + u)
         == Some(Parsed((0x10000 + (hi - 0xD800) * 0x400 + (lo - 0xDC00)) as char, u))
  {
    var t := "u" + Hex4(hi) + "\\u" + Hex4(lo) + u;
    PairSlices(hi, lo, u);
    Hex4Read(hi, "\\u" + Hex4(lo) + u);
    Hex4Read(lo, u);
    SurrogateEscapeRead(t, hi, lo, u);
  }

  /** Where the two hexadecimal groups of a surrogate-pair escape sit. */
  lemma PairSlices(hi: nat, lo: nat, u: string)
    requires hi < 0x10000 && lo < 0x10000
    ensures var t := "u" + Hex4(hi) + "\\u" + Hex4(lo) + u;
      && |t| >= 11 && t[0] == 'u' && t[5] == '\\' && t[6] == 'u'
      && t[1..] == Hex4(hi) + ("\\u" + Hex4(lo) + u) && t[7..] == Hex4(lo) + u && t[11..] == u
  {
    var t := "u" + Hex4(hi) + "\\u" + Hex4(lo) + u;
    assert t[1..] == Hex4(hi) + ("\\u" + Hex4(lo) + u);
    assert t[7..] == Hex4(lo) + u;
  }

  /** A `u` escape holding a high surrogate, then `\u` and a low surrogate, reads as one character. */
  lemma SurrogateEscapeRead(t: string, hi: nat, lo: nat, u: string)
    requires 0xD800 <= hi <= 0xDBFF && 0xDC00 <= lo <= 0xDFFF
    requires |t| >= 11 && t[0] == 'u' && t[5] == '\\' && t[6] == 'u'
    requires Hex4Value(t[1..]) == Some(hi) && Hex4Value(t[7..]) == Some(lo) && t[11..] == u
    ensures Unescape(t) == Some(Parsed((0x10000 + (hi - 0xD800) * 0x400 + (lo - 0xDC00)) as char, u))
  {
  }

  /** A surrogate pair of `\uXXXX` escapes reads back as the character above U+FFFF. */
  lemma SurrogatePairRead(c: char, u: string)
    requires (c as int) >= 0x10000
    ensures ParseStringBody(EscapeChar(c) + u) == Prepend(c, ParseStringBody(u))
  {
    var v := c as int - 0x10000;
    var hi := 0xD800 + v / 0x400;
    var lo := 0xDC00 + v % 0x400;
    var t := "u" + Hex4(hi) + "\\u" + Hex4(lo) + u;
    AstralEscape(c, u);
    UnescapePair(hi, lo, u);
    SurrogateSplit(c as int - 0x10000);
    BackslashRead(t, c, u);
  }

  /** How a character above U+FFFF is escaped, seen from its backslash. */
  lemma AstralEscape(c: char, u: string)
    requires (c as int) >= 0x10000
    ensures var v := c as int - 0x10000;
      EscapeChar(c) + u == "\\" + ("u" + Hex4(0xD800 + v / 0x400) + "\\u" + Hex4(0xDC00 + v % 0x400) + u)
  {
  }

  /** The surrogates of a code point's offset recombine to the offset. */
  lemma SurrogateSplit(v: nat)
    requires v < 0x100000
    ensures var hi := 0xD800 + v / 0x400; var lo := 0xDC00 + v % 0x400;
      0xD800 <= hi <= 0xDBFF && 0xDC00 <= lo <= 0xDFFF && (hi - 0xD800) * 0x400 + (lo - 0xDC00) == v
  {
  }

  /** Reading the escape sequence of one character yields that character. */
  lemma EscapeCharRead(c: char, u: string)
    ensures ParseStringBody(EscapeChar(c) + u) == Prepend(c, ParseStringBody(u))
  {
    if c == '"' || c == '\\' || c == '\n' || c == '\r' || c == '\t' || c == '\U{8}' || c == '\U{C}' {
      ShortEscapeRead(c, u);
    } else if ' ' <= c <= '~' {
      PlainCharRead(c, u);
    } else if (c as int) < 0x10000 {
      BmpEscapeRead(c, u);
    } else {
      SurrogatePairRead(c, u);
    }
  }

  /** Reading a quoted string's body yields the string and the text after its quote. */
  lemma {:induction false} EscapeStringRead(s: string, rest: string)
    ensures ParseStringBody(EscapeString(s) + "\"" + rest) == Some(Parsed(s, rest))
    decreases |s|
  {
    if s == [] {
      assert EscapeString(s) + "\"" + rest == "\"" + rest;
    } else {
      var u := EscapeString(s[1..]) + "\"" + rest;
      assert EscapeString(s) + "\"" + rest == EscapeChar(s[0]) + u;
      EscapeCharRead(s[0], u);
      EscapeStringRead(s[1..], rest);
      assert [s[0]] + s[1..] == s;
    }
  }

  // ---------------------------------------------------------------------
  // Numbers.
  // ---------------------------------------------------------------------

  lemma NoExponent(rest: string)
    requires Delim(rest)
    ensures ParseExponent(rest) == None
    ensures DigitRun(rest) == 0
  {
  }

  /** The integer digits end where the digit run ends (or after a lone `0`). */
  lemma IntPartSplit(neg: bool, d: string, b: string)
    requires |d| > 0 && AllDigits(d) && (d[0] == '0' ==> |d| == 1)
    requires b == [] || !IsDigit(b[0])
    ensures UnsignedNumber(neg, d + b) == NumberTail(neg, d, b)
  {
    DigitRunConcat(d, b);
    assert (d + b)[..|d|] == d && (d + b)[|d|..] == b;
  }

  lemma FractionSplit(neg: bool, d: string, f: string, c: string)
    requires AllDigits(d) && |f| > 0 && AllDigits(f) && (c == [] || !IsDigit(c[0]))
    ensures AllDigits(d + f)
    ensures NumberTail(neg, d, "." + f + c) == NumberEnd(neg, d + f, |f|, c)
  {
    var b := "." + f + c;
    var n := |f|;
    assert b[1..] == f + c;
    assert DigitRun(b[1..]) == n by { DigitRunConcat(f, c); }
    assert b[1..1 + n] == f && b[1 + n..] == c;
    assert AllDigits(d + f) by { DigitsValueConcat(d, f); }
  }

  lemma NoFraction(neg: bool, d: string, c: string)
    requires AllDigits(d) && (c == [] || c[0] != '.')
    ensures NumberTail(neg, d, c) == NumberEnd(neg, d, 0, c)
  {
    assert d + [] == d;
  }

  lemma EndPlain(neg: bool, ds: string, f: nat, rest: string)
    requires AllDigits(ds) && Delim(rest)
    ensures NumberEnd(neg, ds, f, rest) == Some(Parsed(
      if f == 0 then JInt(Signed(neg, DigitsValue(ds)))
      else JFloat(Normalize(neg, DigitsValue(ds), -(f as int))), rest))
  {
    NoExponent(rest);
  }

  lemma ExponentDigitsRead(n: nat)
    ensures |ExponentDigits(n)| > 0 && AllDigits(ExponentDigits(n))
    ensures DigitsValue(ExponentDigits(n)) == n
  {
    var ds := NatDigits(n);
    NatDigitsShape(n);
    DigitsRoundTrip(n);
    if |ds| < 2 {
      DigitsValueConcat("0", ds);
    }
  }

  lemma ExponentRead(x: int, rest: string)
    requires Delim(rest)
    ensures ParseExponent("e" + ExponentText(x) + rest) == Some(Parsed(x, rest))
  {
    var mag: nat := if x < 0 then -x else x;
    var pad := ExponentDigits(mag);
    ExponentDigitsRead(mag);
    var c := "e" + ExponentText(x) + rest;
    assert c[0] == 'e' && (c[1] == '-' <==> x < 0) && (c[1] == '-' || c[1] == '+');
    assert c[2..] == pad + rest;
    DigitRunConcat(pad, rest);
    NoExponent(rest);
    assert DigitRun(pad + rest) == |pad|;
    assert (pad + rest)[..|pad|] == pad && (pad + rest)[|pad|..] == rest;
    assert Signed(x < 0, DigitsValue(pad)) == x;
  }

  lemma EndExponent(neg: bool, ds: string, f: nat, x: int, rest: string)
    requires AllDigits(ds) && Delim(rest)
    ensures NumberEnd(neg, ds, f, "e" + ExponentText(x) + rest)
         == Some(Parsed(JFloat(Normalize(neg, DigitsValue(ds), x - f)), rest))
  {
    ExponentRead(x, rest);
  }

  /** Digits with neither fraction nor exponent read as an int. */
  lemma IntegerRead(neg: bool, d: string, rest: string)
    requires |d| > 0 && AllDigits(d) && (d[0] == '0' ==> |d| == 1) && Delim(rest)
    ensures UnsignedNumber(neg, d + rest) == Some(Parsed(JInt(Signed(neg, DigitsValue(d))), rest))
  {
    IntPartSplit(neg, d, rest);
    NoFraction(neg, d, rest);
    EndPlain(neg, d, 0, rest);
  }

  /** Digits, a point and more digits read as the float they denote. */
  lemma FractionRead(neg: bool, d: string, f: string, ds: string, n: nat, rest: string)
    requires |d| > 0 && AllDigits(d) && (d[0] == '0' ==> |d| == 1)
    requires |f| > 0 && AllDigits(f) && Delim(rest)
    requires ds == d + f && n == |f|
    ensures AllDigits(ds)
    ensures UnsignedNumber(neg, d + ("." + f + rest))
         == Some(Parsed(JFloat(Normalize(neg, DigitsValue(ds), -(n as int))), rest))
  {
    var b := "." + f + rest;
    assert UnsignedNumber(neg, d + b) == NumberTail(neg, d, b) by { IntPartSplit(neg, d, b); }
    assert NumberTail(neg, d, b) == NumberEnd(neg, ds, n, rest) by { FractionSplit(neg, d, f, rest); }
    EndPlain(neg, ds, n, rest);
  }

  /** Digits, a point, more digits and an exponent. */
  lemma FractionExponentRead(neg: bool, d: string, f: string, ds: string, n: nat, x: int, rest: string)
    requires |d| > 0 && AllDigits(d) && (d[0] == '0' ==> |d| == 1)
    requires |f| > 0 && AllDigits(f) && Delim(rest)
    requires ds == d + f && n == |f|
    ensures AllDigits(ds)
    ensures UnsignedNumber(neg, d + ("." + f + ("e" + ExponentText(x) + rest)))
         == Some(Parsed(JFloat(Normalize(neg, DigitsValue(ds), x - n)), rest))
  {
    var c := "e" + ExponentText(x) + rest;
    var b := "." + f + c;
    assert UnsignedNumber(neg, d + b) == NumberTail(neg, d, b) by { IntPartSplit(neg, d, b); }
    assert NumberTail(neg, d, b) == NumberEnd(neg, ds, n, c) by { FractionSplit(neg, d, f, c); }
    EndExponent(neg, ds, n, x, rest);
  }

  /** Digits and an exponent. */
  lemma IntegerExponentRead(neg: bool, d: string, x: int, rest: string)
    requires |d| > 0 && AllDigits(d) && (d[0] == '0' ==> |d| == 1) && Delim(rest)
    ensures UnsignedNumber(neg, d + ("e" + ExponentText(x) + rest))
         == Some(Parsed(JFloat(Normalize(neg, DigitsValue(d), x)), rest))
  {
    var c := "e" + ExponentText(x) + rest;
    ExponentRead(x, rest);
    assert c[0] == 'e';
    IntegerEndRead(neg, d, c);
  }

  /** Integer digits followed by neither a digit nor a point: the number ends as `NumberEnd` says. */
  lemma IntegerEndRead(neg: bool, d: string, c: string)
    requires |d| > 0 && AllDigits(d) && (d[0] == '0' ==> |d| == 1)
    requires c == [] || (!IsDigit(c[0]) && c[0] != '.')
    ensures UnsignedNumber(neg, d + c) == NumberEnd(neg, d, 0, c)
  {
    IntPartSplit(neg, d, c);
    NoFraction(neg, d, c);
  }

  lemma IntRead(i: int, rest: string)
    requires Delim(rest)
    ensures ParseNumber(IntToString(i) + rest) == Some(Parsed(JInt(i), rest))
  {
    var m: nat := if i < 0 then -i else i;
    var ds := NatDigits(m);
    NatDigitsShape(m);
    DigitsRoundTrip(m);
    IntegerRead(i < 0, ds, rest);
    var s := IntToString(i) + rest;
    var a := ds + rest;
    if i < 0 {
      MinusText(s, ds, rest);
      MinusRead(s, a, rest, JInt(i));
    } else {
      PlainRead(s, rest, JInt(i));
    }
  }

  lemma NormalizeCanonical(neg: bool, m: nat, e: int)
    requires m > 0 && m % 10 != 0
    ensures Normalize(neg, m, e) == Decimal(Signed(neg, m), e)
  {
  }

  /** The digits of `m`, then `e + 1` zeros, read with one of them after the point. */
  lemma WholeValue(neg: bool, m: nat, e: nat)
    requires m > 0 && m % 10 != 0
    ensures AllDigits(NatDigits(m) + Zeros(e))
    ensures AllDigits(NatDigits(m) + Zeros(e) + "0")
    ensures Normalize(neg, DigitsValue(NatDigits(m) + Zeros(e) + "0"), -1) == Decimal(Signed(neg, m), e)
  {
    var ds := NatDigits(m);
    NatDigitsShape(m);
    DigitsValueZeros(e);
    DigitsValueConcat(ds, Zeros(e));
    assert ds + Zeros(e) + "0" == ds + Zeros(e + 1);
    DigitsValueZeros(e + 1);
    DigitsValueConcat(ds, Zeros(e + 1));
    DigitsRoundTrip(m);
    NormalizeScale(neg, m, e + 1, -1);
  }

  /** Leading zeros do not change the value of a digit string. */
  lemma SmallValue(m: nat, z: nat)
    ensures AllDigits(Zeros(z) + NatDigits(m))
    ensures AllDigits("0" + (Zeros(z) + NatDigits(m)))
    ensures DigitsValue("0" + (Zeros(z) + NatDigits(m))) == m
  {
    var ds := NatDigits(m);
    NatDigitsShape(m);
    DigitsValueZeros(z);
    DigitsValueConcat(Zeros(z), ds);
    assert "0" + (Zeros(z) + ds) == Zeros(z + 1) + ds;
    DigitsValueZeros(z + 1);
    DigitsValueConcat(Zeros(z + 1), ds);
    DigitsRoundTrip(m);
  }

  /** `whole.0`, the shape of a float without a fractional part. */
  lemma PointZeroRead(neg: bool, whole: string, f: string, all: string, n: nat, v: Decimal, rest: string)
    requires |whole| > 0 && AllDigits(whole) && whole[0] != '0' && Delim(rest)
    requires f == "0" && n == 1 && all == whole + f && AllDigits(all)
    requires Normalize(neg, DigitsValue(all), -1) == v
    ensures UnsignedNumber(neg, whole + ".0" + rest) == Some(Parsed(JFloat(v), rest))
  {
    var b := "." + f + rest;
    assert whole + ".0" + rest == whole + b;
    FractionRead(neg, whole, f, all, n, rest);
  }

  /** `0.` followed by zeros and digits, the shape of a float below one. */
  lemma LeadingZeroRead(neg: bool, zs: string, ds: string, all: string, n: nat, v: Decimal, rest: string)
    requires |zs + ds| > 0 && AllDigits(zs + ds) && Delim(rest)
    requires all == "0" + (zs + ds) && n == |zs + ds| && AllDigits(all)
    requires Normalize(neg, DigitsValue(all), -(n as int)) == v
    ensures UnsignedNumber(neg, "0." + zs + ds + rest) == Some(Parsed(JFloat(v), rest))
  {
    var d := "0";
    var f := zs + ds;
    assert "0." + zs + ds + rest == d + ("." + f + rest);
    FractionRead(neg, d, f, all, n, rest);
  }

  /** One digit, a point, more digits and an exponent: scientific notation. */
  lemma ScientificFractionRead(neg: bool, h: string, t: string, ds: string, n: nat, x: int, v: Decimal, rest: string)
    requires |h| == 1 && AllDigits(h) && |t| > 0 && AllDigits(t) && Delim(rest)
    requires ds == h + t && n == |t| && AllDigits(ds)
    requires Normalize(neg, DigitsValue(ds), x - n) == v
    ensures UnsignedNumber(neg, h + ("." + t) + "e" + ExponentText(x) + rest) == Some(Parsed(JFloat(v), rest))
  {
    var c := "e" + ExponentText(x) + rest;
    assert h + ("." + t) + "e" + ExponentText(x) + rest == h + ("." + t + c);
    FractionExponentRead(neg, h, t, ds, n, x, rest);
  }

  /** One digit and an exponent: scientific notation without a point. */
  lemma ScientificIntegerRead(neg: bool, h: string, x: int, v: Decimal, rest: string)
    requires |h| == 1 && AllDigits(h) && Delim(rest)
    requires Normalize(neg, DigitsValue(h), x) == v
    ensures UnsignedNumber(neg, h + "" + "e" + ExponentText(x) + rest) == Some(Parsed(JFloat(v), rest))
  {
    var c := "e" + ExponentText(x) + rest;
    assert h + "" + "e" + ExponentText(x) + rest == h + c;
    IntegerExponentRead(neg, h, x, rest);
  }

  // Each shape of `repr` below takes the digits `ds` of the mantissa and the
  // decimal exponent `x` of its leading digit as parameters.

  lemma ReprPositionalWhole(neg: bool, m: nat, e: nat, ds: string, rest: string)
    requires m > 0 && m % 10 != 0 && Delim(rest) && ds == NatDigits(m)
    ensures UnsignedNumber(neg, ds + Zeros(e) + ".0" + rest)
         == Some(Parsed(JFloat(Decimal(Signed(neg, m), e)), rest))
  {
    var whole := ds + Zeros(e);
    NatDigitsShape(m);
    WholeValue(neg, m, e);
    PointZeroRead(neg, whole, "0", whole + "0", 1, Decimal(Signed(neg, m), e), rest);
  }

  lemma ReprPositionalFraction(neg: bool, m: nat, e: int, ds: string, x: int, rest: string)
    requires m > 0 && m % 10 != 0 && e < 0 && Delim(rest)
    requires ds == NatDigits(m) && x == |ds| - 1 + e && x >= 0
    ensures UnsignedNumber(neg, ds[..x + 1] + "." + ds[x + 1..] + rest)
         == Some(Parsed(JFloat(Decimal(Signed(neg, m), e)), rest))
  {
    var i, f := ds[..x + 1], ds[x + 1..];
    FractionParts(m, e, ds, x, i, f);
    FractionValue(neg, m, e, i, f, ds, rest);
  }

  /** A well-formed integer part, a point and `-e` fraction digits read as `m` times ten to the `e`. */
  lemma FractionValue(neg: bool, m: nat, e: int, i: string, f: string, ds: string, rest: string)
    requires m > 0 && m % 10 != 0 && Delim(rest)
    requires |i| > 0 && AllDigits(i) && (i[0] == '0' ==> |i| == 1)
    requires |f| > 0 && AllDigits(f) && |f| == -e
    requires ds == i + f && DigitsValue(ds) == m
    ensures UnsignedNumber(neg, i + "." + f + rest) == Some(Parsed(JFloat(Decimal(Signed(neg, m), e)), rest))
  {
    FractionRead(neg, i, f, ds, |f|, rest);
    NormalizeCanonical(neg, m, e);
    PointText(i, f, rest);
  }

  /** Split after digit `x`, the digits of `m` give a well-formed integer part and `-e` fraction digits. */
  lemma FractionParts(m: nat, e: int, ds: string, x: int, i: string, f: string)
    requires m > 0 && ds == NatDigits(m) && x == |ds| - 1 + e && 0 <= x && e < 0
    requires i == ds[..x + 1] && f == ds[x + 1..]
    ensures |i| > 0 && AllDigits(i) && (i[0] == '0' ==> |i| == 1)
    ensures |f| > 0 && AllDigits(f) && |f| == -e
    ensures ds == i + f && DigitsValue(ds) == m
  {
    NatDigitsShape(m);
    DigitsRoundTrip(m);
    assert i + f == ds;
  }

  /** Integer part, point, fraction and the rest, grouped as the reader splits them. */
  lemma PointText(i: string, f: string, rest: string)
    ensures i + "." + f + rest == i + ("." + f + rest)
  {
  }

  lemma ReprPositionalSmall(neg: bool, m: nat, e: int, ds: string, x: int, rest: string)
    requires m > 0 && m % 10 != 0 && Delim(rest)
    requires ds == NatDigits(m) && x == |ds| - 1 + e && x < 0
    ensures UnsignedNumber(neg, "0." + Zeros(-x - 1) + ds + rest)
         == Some(Parsed(JFloat(Decimal(Signed(neg, m), e)), rest))
  {
    var z := -x - 1;
    var zs := Zeros(z);
    var n := |zs + ds|;
    SmallValue(m, z);
    NormalizeCanonical(neg, m, e);
    LeadingZeroRead(neg, zs, ds, "0" + (zs + ds), n, Decimal(Signed(neg, m), e), rest);
  }

  lemma ReprScientificFraction(neg: bool, m: nat, e: int, ds: string, x: int, rest: string)
    requires m > 0 && m % 10 != 0 && Delim(rest)
    requires ds == NatDigits(m) && x == |ds| - 1 + e && |ds| > 1
    ensures UnsignedNumber(neg, ds[..1] + ("." + ds[1..]) + "e" + ExponentText(x) + rest)
         == Some(Parsed(JFloat(Decimal(Signed(neg, m), e)), rest))
  {
    var h, t := ds[..1], ds[1..];
    var n := |t|;
    NatDigitsShape(m);
    DigitsRoundTrip(m);
    NormalizeCanonical(neg, m, e);
    assert h + t == ds;
    ScientificFractionRead(neg, h, t, ds, n, x, Decimal(Signed(neg, m), e), rest);
  }

  lemma ReprScientificDigit(neg: bool, m: nat, e: int, ds: string, x: int, rest: string)
    requires m > 0 && m % 10 != 0 && Delim(rest)
    requires ds == NatDigits(m) && x == |ds| - 1 + e && |ds| == 1
    ensures UnsignedNumber(neg, ds[..1] + "" + "e" + ExponentText(x) + rest)
         == Some(Parsed(JFloat(Decimal(Signed(neg, m), e)), rest))
  {
    NatDigitsShape(m);
    DigitsRoundTrip(m);
    NormalizeCanonical(neg, m, e);
    assert ds[..1] == ds;
    ScientificIntegerRead(neg, ds, x, Decimal(Signed(neg, m), e), rest);
  }

  lemma PositiveReprRead(neg: bool, m: nat, e: int, rest: string)
    requires m > 0 && m % 10 != 0 && Delim(rest)
    ensures UnsignedNumber(neg, PositiveRepr(m, e) + rest) == Some(Parsed(JFloat(Decimal(Signed(neg, m), e)), rest))
  {
    var ds := NatDigits(m);
    var x := |ds| - 1 + e;
    if -4 <= x < 16 {
      if e >= 0 {
        PositionalWholeText(m, e, ds, x);
        ReprPositionalWhole(neg, m, e, ds, rest);
      } else if x >= 0 {
        PositionalFractionText(m, e, ds, x);
        ReprPositionalFraction(neg, m, e, ds, x, rest);
      } else {
        PositionalSmallText(m, e, ds, x);
        ReprPositionalSmall(neg, m, e, ds, x, rest);
      }
    } else {
      ScientificText(m, e, ds, x);
      if |ds| > 1 {
        ReprScientificFraction(neg, m, e, ds, x, rest);
      } else {
        ReprScientificDigit(neg, m, e, ds, x, rest);
      }
    }
  }

  lemma PositionalWholeText(m: nat, e: int, ds: string, x: int)
    requires m > 0 && ds == NatDigits(m) && x == |ds| - 1 + e && -4 <= x < 16 && e >= 0
    ensures PositiveRepr(m, e) == ds + Zeros(e) + ".0"
  {
  }

  lemma PositionalFractionText(m: nat, e: int, ds: string, x: int)
    requires m > 0 && ds == NatDigits(m) && x == |ds| - 1 + e && 0 <= x < 16 && e < 0
    ensures PositiveRepr(m, e) == ds[..x + 1] + "." + ds[x + 1..]
  {
  }

  lemma PositionalSmallText(m: nat, e: int, ds: string, x: int)
    requires m > 0 && ds == NatDigits(m) && x == |ds| - 1 + e && -4 <= x < 0
    ensures PositiveRepr(m, e) == "0." + Zeros(-x - 1) + ds
  {
  }

  lemma ScientificText(m: nat, e: int, ds: string, x: int)
    requires m > 0 && ds == NatDigits(m) && x == |ds| - 1 + e && !(-4 <= x < 16)
    ensures PositiveRepr(m, e) == ds[..1] + (if |ds| > 1 then "." + ds[1..] else "") + "e" + ExponentText(x)
  {
  }

  lemma PositiveReprStart(m: nat, e: int)
    requires m > 0
    ensures |PositiveRepr(m, e)| > 0 && IsDigit(PositiveRepr(m, e)[0])
  {
    NatDigitsShape(m);
  }

  /** `repr(0.0)` reads back as zero. */
  lemma ZeroRead(rest: string)
    requires Delim(rest)
    ensures ParseNumber("0.0" + rest) == Some(Parsed(JFloat(Decimal(0, 0)), rest))
  {
    var b := "." + "0" + rest;
    assert "0.0" + rest == "0" + b;
    assert ParseNumber("0" + b) == UnsignedNumber(false, "0" + b);
    assert DigitsValue("00") == 0 by {
      assert "00" == Zeros(2);
      DigitsValueZeros(2);
    }
    FractionRead(false, "0", "0", "00", 1, rest);
  }

  lemma FloatRead(f: Decimal, rest: string)
    requires f.Canonical() && Delim(rest)
    ensures ParseNumber(FloatRepr(f) + rest) == Some(Parsed(JFloat(f), rest))
  {
    if f.mantissa == 0 {
      ZeroRead(rest);
    } else if f.mantissa < 0 {
      NegativeFloatRead(f, rest);
    } else {
      PositiveFloatRead(f, rest);
    }
  }

  lemma NegativeFloatRead(f: Decimal, rest: string)
    requires f.Canonical() && f.mantissa < 0 && Delim(rest)
    ensures ParseNumber(FloatRepr(f) + rest) == Some(Parsed(JFloat(f), rest))
  {
    var m: nat := -f.mantissa;
    var e := f.exponent;
    var p := PositiveRepr(m, e);
    var s := FloatRepr(f) + rest;
    var a := p + rest;
    assert UnsignedNumber(true, a) == Some(Parsed(JFloat(f), rest)) by {
      assert m % 10 != 0 by { NegMod10(f.mantissa); }
      assert Decimal(Signed(true, m), e) == f;
      PositiveReprRead(true, m, e, rest);
    }
    assert s != [] && s[0] == '-' && s[1..] == a by {
      assert FloatRepr(f) == "-" + p;
      MinusText(s, p, rest);
    }
    MinusRead(s, a, rest, JFloat(f));
  }

  lemma MinusText(s: string, p: string, rest: string)
    requires s == "-" + p + rest
    ensures s != [] && s[0] == '-' && s[1..] == p + rest
  {
  }

  /** Text without a minus sign is read as an unsigned number. */
  lemma PlainRead(s: string, rest: string, v: Json)
    requires s != [] && s[0] != '-'
    requires UnsignedNumber(false, s) == Some(Parsed(v, rest))
    ensures ParseNumber(s) == Some(Parsed(v, rest))
  {
  }

  /** A minus sign in front of digits that read as `v` (already negated). */
  lemma MinusRead(s: string, a: string, rest: string, v: Json)
    requires s != [] && s[0] == '-' && s[1..] == a
    requires UnsignedNumber(true, a) == Some(Parsed(v, rest))
    ensures ParseNumber(s) == Some(Parsed(v, rest))
  {
  }

  lemma PositiveFloatRead(f: Decimal, rest: string)
    requires f.Canonical() && f.mantissa > 0 && Delim(rest)
    ensures ParseNumber(FloatRepr(f) + rest) == Some(Parsed(JFloat(f), rest))
  {
    var m: nat := f.mantissa;
    var e := f.exponent;
    var s := FloatRepr(f) + rest;
    assert UnsignedNumber(false, s) == Some(Parsed(JFloat(f), rest)) by {
      assert FloatRepr(f) == PositiveRepr(m, e);
      assert Decimal(Signed(false, m), e) == f;
      PositiveReprRead(false, m, e, rest);
    }
    assert s != [] && s[0] != '-' by {
      assert FloatRepr(f) == PositiveRepr(m, e);
      PositiveReprStart(m, e);
    }
    PlainRead(s, rest, JFloat(f));
  }

  // ---------------------------------------------------------------------
  // Values.
  // ---------------------------------------------------------------------

  /** The first character of a written value says which kind of value follows. */
  lemma SerializeStart(j: Json)
    ensures var c := Serialize(j)[0];
      !IsWs(c) && c != ']' && c != '}' && c != ','
      && (j.JInt? || j.JFloat? <==> c == '-' || IsDigit(c))
      && (j.JStr? <==> c == '"')
      && (j.JArr? <==> c == '[')
      && (j.JObj? <==> c == '{')
  {
    match j
    case JInt(i) => NatDigitsShape(if i < 0 then -i else i);
    case JFloat(f) =>
      if f.mantissa > 0 { PositiveReprStart(f.mantissa, f.exponent); }
    case _ =>
  }

  lemma NotLiteral(s: string)
    requires s != [] && (s[0] == '-' || IsDigit(s[0]))
    ensures !StartsWith(s, "null") && !StartsWith(s, "true") && !StartsWith(s, "false")
  {
  }

  /** Text that starts like a number is read as one. */
  lemma NumberDispatch(s: string)
    requires s != [] && (s[0] == '-' || IsDigit(s[0]))
    ensures ParseValue(s) == ParseNumber(s)
  {
    NotLiteral(s);
    assert s[0] != '"' && s[0] != '{' && s[0] != '[';
  }

  lemma LiteralRead(w: string, v: Json, rest: string)
    requires (w == "null" && v == JNull) || (w == "true" && v == JBool(true))
          || (w == "false" && v == JBool(false))
    ensures ParseValue(w + rest) == Some(Parsed(v, rest))
  {
    var s := w + rest;
    assert s[..|w|] == w && s[|w|..] == rest;
  }

  /** A quoted string reads back as the string. */
  lemma StrRead(x: string, rest: string)
    ensures ParseValue(Quote(x) + rest) == Some(Parsed(JStr(x), rest))
  {
    var s := Quote(x) + rest;
    var b := EscapeString(x) + "\"" + rest;
    assert s == "\"" + b;
    assert s[1..] == b;
    EscapeStringRead(x, rest);
  }

  /** The last element of an array, then its closing bracket. */
  lemma ElementsLast(s: string, v: Json, t: string)
    requires ParseValue(s) == Some(Parsed(v, t)) && t != [] && t[0] == ']'
    ensures ParseElements(s) == Some(Parsed([v], t[1..]))
  {
    assert SkipWs(t) == t;
  }

  /** An element, a comma and the elements after it. */
  lemma ElementsMore(s: string, v: Json, t: string, vs: seq<Json>, rest: string)
    requires ParseValue(s) == Some(Parsed(v, t)) && t != [] && t[0] == ','
    requires SkipWs(t[1..]) == t[1..] && ParseElements(t[1..]) == Some(Parsed(vs, rest))
    ensures ParseElements(s) == Some(Parsed([v] + vs, rest))
  {
    assert SkipWs(t) == t;
  }

  /** The last member of an object, then its closing brace. */
  lemma MembersLast(s: string, k: string, t: string, v: Json, w: string)
    requires s != [] && s[0] == '"' && ParseStringBody(s[1..]) == Some(Parsed(k, t))
    requires t != [] && t[0] == ':' && SkipWs(t[1..]) == t[1..]
    requires ParseValue(t[1..]) == Some(Parsed(v, w)) && w != [] && w[0] == '}'
    ensures ParseMembers(s) == Some(Parsed(map[k := v], w[1..]))
  {
    assert SkipWs(t) == t && SkipWs(w) == w;
  }

  /** A member, a comma and the members after it. */
  lemma MembersMore(s: string, k: string, t: string, v: Json, w: string, m: map<string, Json>, rest: string)
    requires s != [] && s[0] == '"' && ParseStringBody(s[1..]) == Some(Parsed(k, t))
    requires t != [] && t[0] == ':' && SkipWs(t[1..]) == t[1..]
    requires ParseValue(t[1..]) == Some(Parsed(v, w)) && w != [] && w[0] == ','
    requires SkipWs(w[1..]) == w[1..] && ParseMembers(w[1..]) == Some(Parsed(m, rest))
    ensures ParseMembers(s) == Some(Parsed(map[k := v] + m, rest))
  {
    assert SkipWs(t) == t && SkipWs(w) == w;
  }

  /** The fields named by `keys`, split into the first key and the others. */
  lemma FieldsSplit(fields: map<string, Json>, keys: seq<string>)
    requires |keys| > 0 && forall i :: 0 <= i < |keys| ==> keys[i] in fields
    ensures (map k | k in keys :: fields[k])
         == map[keys[0] := fields[keys[0]]] + (map k | k in keys[1..] :: fields[k])
    ensures |keys| == 1 ==> (map k | k in keys :: fields[k]) == map[keys[0] := fields[keys[0]]]
  {
  }

  /** Selecting every key of a map gives back the map. */
  lemma FieldsAll(fields: map<string, Json>, keys: seq<string>)
    requires forall i :: 0 <= i < |keys| ==> keys[i] in fields
    requires forall k :: k in fields ==> k in keys
    ensures (map k | k in keys :: fields[k]) == fields
  {
  }

  lemma {:induction false} ValueRead(j: Json, rest: string)
    requires Valid(j) && Delim(rest)
    ensures ParseValue(Serialize(j) + rest) == Some(Parsed(j, rest))
    decreases j, 2
  {
    match j
    case JNull =>
      LiteralRead("null", j, rest);
    case JBool(b) =>
      LiteralRead(if b then "true" else "false", j, rest);
    case JInt(i) =>
      SerializeStart(j);
      IntRead(i, rest);
      NumberDispatch(Serialize(j) + rest);
    case JFloat(f) =>
      SerializeStart(j);
      FloatRead(f, rest);
      NumberDispatch(Serialize(j) + rest);
    case JStr(x) =>
      StrRead(x, rest);
    case JArr(items) =>
      ArrRead(j, rest);
    case JObj(m) =>
      ObjRead(j, rest);
  }

  lemma {:induction false} ArrRead(j: Json, rest: string)
    requires j.JArr? && Valid(j) && Delim(rest)
    ensures ParseValue(Serialize(j) + rest) == Some(Parsed(j, rest))
    decreases j, 1
  {
    var s := Serialize(j) + rest;
    if j.items == [] {
      assert s == "[]" + rest;
      assert s[1..] == "]" + rest;
    } else {
      var b := SerializeItems(j, 0) + "]" + rest;
      assert s == "[" + b;
      assert s[1..] == b;
      ItemsStart(j, 0);
      ItemsRead(j, 0, rest);
      assert j.items[0..] == j.items;
    }
  }

  lemma {:induction false} ObjRead(j: Json, rest: string)
    requires j.JObj? && Valid(j) && Delim(rest)
    ensures ParseValue(Serialize(j) + rest) == Some(Parsed(j, rest))
    decreases j, 1
  {
    if j.fields == map[] {
      assert SortedKeys(j.fields.Keys) == [];
      assert Serialize(j) + rest == "{}" + rest;
      EmptyObjectRead(rest);
    } else {
      MembersObjRead(j, rest);
    }
  }

  lemma {:induction false} MembersObjRead(j: Json, rest: string)
    requires j.JObj? && Valid(j) && Delim(rest) && j.fields != map[]
    ensures ParseValue(Serialize(j) + rest) == Some(Parsed(j, rest))
    decreases j, 0
  {
    var keys := SortedKeys(j.fields.Keys);
    var b := ObjectText(j, keys, rest);
    MembersStart(j, keys, "}" + rest);
    MembersRead(j, keys, rest);
    FieldsAll(j.fields, keys);
    ObjectOpen(Serialize(j) + rest, b, j.fields, rest);
  }

  /** A non-empty object is written as a brace, its members and a brace. */
  lemma ObjectText(j: Json, keys: seq<string>, rest: string) returns (b: string)
    requires j.JObj? && j.fields != map[] && keys == SortedKeys(j.fields.Keys)
    ensures |keys| > 0 && forall i :: 0 <= i < |keys| ==> keys[i] in j.fields
    ensures forall k :: k in j.fields ==> k in keys
    ensures b == SerializeMembers(j, keys) + "}" + rest
    ensures var s := Serialize(j) + rest; s != [] && s[0] == '{' && s[1..] == b
  {
    assert keys != [] by {
      var k :| k in j.fields;
    }
    b := SerializeMembers(j, keys) + "}" + rest;
    var s := Serialize(j) + rest;
    assert s == "{" + b;
  }

  lemma EmptyObjectRead(rest: string)
    ensures ParseValue("{}" + rest) == Some(Parsed(JObj(map[]), rest))
  {
    var s := "{}" + rest;
    assert s[0] == '{' && s[1..] == "}" + rest;
    assert SkipWs(s[1..]) == s[1..];
  }

  /** A brace, then members that read as `m`. */
  lemma ObjectOpen(s: string, b: string, m: map<string, Json>, rest: string)
    requires s != [] && s[0] == '{' && s[1..] == b && b != [] && b[0] == '"'
    requires ParseMembers(b) == Some(Parsed(m, rest))
    ensures ParseValue(s) == Some(Parsed(JObj(m), rest))
  {
    assert SkipWs(b) == b;
  }

  lemma ItemsStart(j: Json, i: nat)
    requires j.JArr? && i < |j.items|
    ensures var c := SerializeItems(j, i)[0]; !IsWs(c) && c != ']'
  {
    SerializeStart(j.items[i]);
  }

  /** The text of the elements from `i` on is the element's text, then a comma or the bracket. */
  lemma ItemsSplit(j: Json, i: nat, rest: string, tail: string)
    requires j.JArr? && i < |j.items| && Delim(rest)
    requires tail == (if i + 1 == |j.items| then "" else "," + SerializeItems(j, i + 1)) + "]" + rest
    ensures SerializeItems(j, i) + "]" + rest == Serialize(j.items[i]) + tail
    ensures Delim(tail) && tail != []
    ensures i + 1 == |j.items| ==> tail[0] == ']' && tail[1..] == rest
    ensures i + 1 < |j.items| ==> tail[0] == ',' && tail[1..] == SerializeItems(j, i + 1) + "]" + rest
  {
  }

  lemma SliceCons<T>(a: seq<T>, i: nat)
    requires i < |a|
    ensures a[i..] == [a[i]] + a[i + 1..]
    ensures i + 1 == |a| ==> a[i..] == [a[i]]
  {
  }

  lemma {:induction false} ItemsRead(j: Json, i: nat, rest: string)
    requires j.JArr? && Valid(j) && i < |j.items| && Delim(rest)
    ensures ParseElements(SerializeItems(j, i) + "]" + rest) == Some(Parsed(j.items[i..], rest))
    decreases j, 0, |j.items| - i, 1
  {
    if i + 1 == |j.items| {
      LastItemRead(j, i, rest);
    } else {
      MoreItemsRead(j, i, rest);
    }
  }

  lemma {:induction false} LastItemRead(j: Json, i: nat, rest: string)
    requires j.JArr? && Valid(j) && i + 1 == |j.items| && Delim(rest)
    ensures ParseElements(SerializeItems(j, i) + "]" + rest) == Some(Parsed(j.items[i..], rest))
    decreases j, 0, |j.items| - i, 0
  {
    var x := j.items[i];
    var tail := "" + "]" + rest;
    var s := SerializeItems(j, i) + "]" + rest;
    ItemsSplit(j, i, rest, tail);
    ValueRead(x, tail);
    SliceCons(j.items, i);
    ElementsLast(s, x, tail);
  }

  lemma {:induction false} MoreItemsRead(j: Json, i: nat, rest: string)
    requires j.JArr? && Valid(j) && i + 1 < |j.items| && Delim(rest)
    ensures ParseElements(SerializeItems(j, i) + "]" + rest) == Some(Parsed(j.items[i..], rest))
    decreases j, 0, |j.items| - i, 0
  {
    var x := j.items[i];
    var tail := "," + SerializeItems(j, i + 1) + "]" + rest;
    var s := SerializeItems(j, i) + "]" + rest;
    ItemsSplit(j, i, rest, tail);
    ValueRead(x, tail);
    ItemsStart(j, i + 1);
    ItemsRead(j, i + 1, rest);
    SliceCons(j.items, i);
    ElementsMore(s, x, tail, j.items[i + 1..], rest);
  }

  /** Regrouping the text of one member. */
  lemma MemberText(k: string, v: string, more: string, rest: string, t: string, w: string)
    requires w == more + "}" + rest && t == ":" + v + w
    ensures Quote(k) + ":" + v + more + "}" + rest == "\"" + (EscapeString(k) + "\"" + t)
  {
  }

  /** The text of the members: the first quoted key, a colon and the text after it. */
  lemma MembersSplit(j: Json, keys: seq<string>, rest: string, t: string, w: string)
    requires j.JObj? && |keys| > 0
    requires forall i :: 0 <= i < |keys| ==> keys[i] in j.fields
    requires w == (if |keys| == 1 then "" else "," + SerializeMembers(j, keys[1..])) + "}" + rest
    requires t == ":" + Serialize(j.fields[keys[0]]) + w
    ensures var s := SerializeMembers(j, keys) + "}" + rest;
      s != [] && s[0] == '"' && s[1..] == EscapeString(keys[0]) + "\"" + t
  {
    var more := if |keys| == 1 then "" else "," + SerializeMembers(j, keys[1..]);
    var v := Serialize(j.fields[keys[0]]);
    MemberText(keys[0], v, more, rest, t, w);
  }

  /** After the colon: the member's value, then a comma or the brace. */
  lemma MemberValueSplit(j: Json, keys: seq<string>, rest: string, t: string, w: string)
    requires j.JObj? && |keys| > 0 && Delim(rest)
    requires forall i :: 0 <= i < |keys| ==> keys[i] in j.fields
    requires w == (if |keys| == 1 then "" else "," + SerializeMembers(j, keys[1..])) + "}" + rest
    requires t == ":" + Serialize(j.fields[keys[0]]) + w
    ensures t != [] && t[0] == ':' && t[1..] == Serialize(j.fields[keys[0]]) + w
    ensures Delim(w) && w != []
    ensures |keys| == 1 ==> w[0] == '}' && w[1..] == rest
    ensures |keys| > 1 ==> w[0] == ',' && w[1..] == SerializeMembers(j, keys[1..]) + "}" + rest
  {
  }

  lemma {:induction false} MembersRead(j: Json, keys: seq<string>, rest: string)
    requires j.JObj? && Valid(j) && |keys| > 0 && Delim(rest)
    requires forall i :: 0 <= i < |keys| ==> keys[i] in j.fields
    ensures ParseMembers(SerializeMembers(j, keys) + "}" + rest)
         == Some(Parsed(map k | k in keys :: j.fields[k], rest))
    decreases j, 0, |keys|, 2
  {
    if |keys| == 1 {
      LastMemberRead(j, keys, rest);
    } else {
      MoreMembersRead(j, keys, rest);
    }
  }

  /** The first member's key and value read back, up to the comma or brace after it. */
  lemma {:induction false} MemberHead(j: Json, keys: seq<string>, rest: string, s: string, t: string, w: string)
    requires j.JObj? && Valid(j) && |keys| > 0 && Delim(rest)
    requires forall i :: 0 <= i < |keys| ==> keys[i] in j.fields
    requires w == (if |keys| == 1 then "" else "," + SerializeMembers(j, keys[1..])) + "}" + rest
    requires t == ":" + Serialize(j.fields[keys[0]]) + w
    requires s == SerializeMembers(j, keys) + "}" + rest
    ensures s != [] && s[0] == '"' && ParseStringBody(s[1..]) == Some(Parsed(keys[0], t))
    ensures t != [] && t[0] == ':' && SkipWs(t[1..]) == t[1..]
    ensures ParseValue(t[1..]) == Some(Parsed(j.fields[keys[0]], w))
    ensures w != []
    ensures |keys| == 1 ==> w[0] == '}' && w[1..] == rest
    ensures |keys| > 1 ==> w[0] == ',' && w[1..] == SerializeMembers(j, keys[1..]) + "}" + rest
    decreases j, 0, |keys|, 0
  {
    var v0 := j.fields[keys[0]];
    MembersSplit(j, keys, rest, t, w);
    MemberValueSplit(j, keys, rest, t, w);
    EscapeStringRead(keys[0], t);
    SerializeStart(v0);
    ValueRead(v0, w);
  }

  lemma {:induction false} LastMemberRead(j: Json, keys: seq<string>, rest: string)
    requires j.JObj? && Valid(j) && |keys| == 1 && Delim(rest)
    requires forall i :: 0 <= i < |keys| ==> keys[i] in j.fields
    ensures ParseMembers(SerializeMembers(j, keys) + "}" + rest)
         == Some(Parsed(map k | k in keys :: j.fields[k], rest))
    decreases j, 0, |keys|, 1
  {
    var k0 := keys[0];
    var v0 := j.fields[k0];
    var w := "" + "}" + rest;
    var t := ":" + Serialize(v0) + w;
    var s := SerializeMembers(j, keys) + "}" + rest;
    MemberHead(j, keys, rest, s, t, w);
    FieldsSplit(j.fields, keys);
    MembersLast(s, k0, t, v0, w);
  }

  lemma {:induction false} MoreMembersRead(j: Json, keys: seq<string>, rest: string)
    requires j.JObj? && Valid(j) && |keys| > 1 && Delim(rest)
    requires forall i :: 0 <= i < |keys| ==> keys[i] in j.fields
    ensures ParseMembers(SerializeMembers(j, keys) + "}" + rest)
         == Some(Parsed(map k | k in keys :: j.fields[k], rest))
    decreases j, 0, |keys|, 1
  {
    var k0 := keys[0];
    var v0 := j.fields[k0];
    var more := keys[1..];
    var w := "," + SerializeMembers(j, more) + "}" + rest;
    var t := ":" + Serialize(v0) + w;
    var s := SerializeMembers(j, keys) + "}" + rest;
    var after := SerializeMembers(j, more) + "}" + rest;
    MemberHead(j, keys, rest, s, t, w);
    assert w[1..] == after;
    MembersStart(j, more, "}" + rest);
    MembersRead(j, more, rest);
    FieldsSplit(j.fields, keys);
    MembersMore(s, k0, t, v0, w, map k | k in more :: j.fields[k], rest);
  }

  /** Serialized members start with a key's quote, so no whitespace is skipped before them. */
  lemma MembersStart(j: Json, keys: seq<string>, tail: string)
    requires j.JObj? && |keys| > 0
    requires forall i :: 0 <= i < |keys| ==> keys[i] in j.fields
    ensures SerializeMembers(j, keys)[0] == '"'
    ensures SkipWs(SerializeMembers(j, keys) + tail) == SerializeMembers(j, keys) + tail
  {
    assert (SerializeMembers(j, keys) + tail)[0] == '"';
  }

  /** `json.loads(dumps(v)) == v`: the writer's output reads back as the value written. */
  lemma LoadsSerialize(j: Json)
    requires Valid(j)
    ensures Loads(Serialize(j)) == Some(j)
  {
    SerializeStart(j);
    assert SkipWs(Serialize(j)) == Serialize(j);
    ValueRead(j, "");
    assert Serialize(j) + "" == Serialize(j);
  }
}
