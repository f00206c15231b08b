/**
 * The JSON reader behind Python's `json.loads`: insignificant whitespace is
 * space, tab, line feed and carriage return; numbers follow
 * `-?(0|[1-9][0-9]*)(\.[0-9]+)?([eE][-+]?[0-9]+)?` and are ints unless they
 * have a fraction or an exponent; `\uXXXX` escapes may form surrogate pairs;
 * a repeated object key keeps its last value; text after the value other
 * than whitespace is an error (RFC 8259).
 */
module JsonReader {
  import opened Wrappers
  import opened PyText
  import opened JsonValue

  /** A value read from the front of a text, and the text after it. */
  datatype Parsed<T> = Parsed(value: T, rest: string)

  predicate IsWs(c: char) { c == ' ' || c == '\t' || c == '\n' || c == '\r' }

  function SkipWs(s: string): (r: string)
    ensures |r| <= |s|
    ensures r == [] || !IsWs(r[0])
  {
    if s != [] && IsWs(s[0]) then SkipWs(s[1..]) else s
  }

  /** Length of the run of decimal digits at the front of `s`. */
  function DigitRun(s: string): (n: nat)
    ensures n <= |s| && (forall k :: 0 <= k < n ==> IsDigit(s[k]))
    ensures n == |s| || !IsDigit(s[n])
  {
    if s != [] && IsDigit(s[0]) then 1 + DigitRun(s[1..]) else 0
  }

  function HexValue(c: char): Option<nat> {
    if '0' <= c <= '9' then Some(c as int - '0' as int)
    else if 'a' <= c <= 'f' then Some(c as int - 'a' as int + 10)
    else if 'A' <= c <= 'F' then Some(c as int - 'A' as int + 10)
    else None
  }

  /** The four hex digits at the front of `s`, if there are four. */
  function Hex4Value(s: string): (r: Option<nat>)
    ensures r.Some? ==> |s| >= 4 && r.value < 0x10000
  {
    if |s| < 4 then None
    else match (HexValue(s[0]), HexValue(s[1]), HexValue(s[2]), HexValue(s[3]))
      case (Some(a), Some(b), Some(c), Some(d)) =>
        if a < 16 && b < 16 && c < 16 && d < 16 then Some(((a * 16 + b) * 16 + c) * 16 + d) else None
      case _ => None
  }

  /**
   * The character an escape sequence (after its backslash) stands for. A
   * surrogate pair of `\u` escapes gives one astral character; an unpaired
   * surrogate escape is rejected, since a `char` holds only scalar values.
   */
  function Unescape(s: string): (r: Option<Parsed<char>>)
    ensures r.Some? ==> |r.value.rest| < |s|
  {
    if s == [] then None
    else if s[0] == '"' then Some(Parsed('"', s[1..]))
    else if s[0] == '\\' then Some(Parsed('\\', s[1..]))
    else if s[0] == '/' then Some(Parsed('/', s[1..]))
    else if s[0] == 'b' then Some(Parsed('\U{8}', s[1..]))
    else if s[0] == 'f' then Some(Parsed('\U{C}', s[1..]))
    else if s[0] == 'n' then Some(Parsed('\n', s[1..]))
    else if s[0] == 'r' then Some(Parsed('\r', s[1..]))
    else if s[0] == 't' then Some(Parsed('\t', s[1..]))
    else if s[0] == 'u' then
      match Hex4Value(s[1..])
      case None => None
      case Some(u) =>
        if 0xD800 <= u <= 0xDBFF then
          if |s| >= 11 && s[5] == '\\' && s[6] == 'u' then
            match Hex4Value(s[7..])
            case Some(l) =>
              if 0xDC00 <= l <= 0xDFFF then
                Some(Parsed((0x10000 + (u - 0xD800) * 0x400 + (l - 0xDC00)) as char, s[11..]))
              else None
            case None => None
          else None
        else if 0xDC00 <= u <= 0xDFFF then None
        else Some(Parsed(u as char, s[5..]))
    else None
  }

  function Prepend(c: char, r: Option<Parsed<string>>): Option<Parsed<string>> {
    match r
    case None => None
    case Some(p) => Some(Parsed([c] + p.value, p.rest))
  }

  /** The body of a string literal up to and including its closing quote. */
  function ParseStringBody(s: string): (r: Option<Parsed<string>>)
    ensures r.Some? ==> |r.value.rest| < |s|
    decreases |s|
  {
    if s == [] then None
    else if s[0] == '"' then Some(Parsed("", s[1..]))
    else if s[0] == '\\' then
      match Unescape(s[1..])
      case None => None
      case Some(e) => Prepend(e.value, ParseStringBody(e.rest))
    else if s[0] < ' ' then None
    else Prepend(s[0], ParseStringBody(s[1..]))
  }

  /** `10^k`. */
  function Pow10(k: nat): (r: nat)
    ensures r >= 1
  {
    if k == 0 then 1 else 10 * Pow10(k - 1)
  }

  /** The canonical decimal for `(-1 if neg else 1) * m * 10^e`. */
  function Normalize(neg: bool, m: nat, e: int): (d: Decimal)
    ensures d.Canonical()
    decreases m
  {
    if m == 0 then Decimal(0, 0)
    else if m % 10 == 0 then Normalize(neg, m / 10, e + 1)
    else
      assert (-(m as int)) % 10 != 0 by { NegMod10(-(m as int)); }
      Decimal(Signed(neg, m), e)
  }

  lemma NegMod10(x: int)
    ensures x % 10 == 0 <==> (-x) % 10 == 0
  {
    if x % 10 == 0 {
      assert -x == 10 * -(x / 10);
    }
    if (-x) % 10 == 0 {
      assert x == 10 * -((-x) / 10);
    }
  }

  function Signed(neg: bool, m: nat): int {
    if neg then -(m as int) else m
  }

  /** An exponent `[eE][-+]?[0-9]+` at the front of `s`. */
  function ParseExponent(s: string): (r: Option<Parsed<int>>)
    ensures r.Some? ==> |r.value.rest| < |s|
  {
    if |s| < 2 || (s[0] != 'e' && s[0] != 'E') then None
    else
      var signed := s[1] == '-' || s[1] == '+';
      var d := if signed then s[2..] else s[1..];
      var k := DigitRun(d);
      if k == 0 then None
      else Some(Parsed(Signed(s[1] == '-', DigitsValue(d[..k])), d[k..]))
  }

  /** A number at the front of `s`. */
  function ParseNumber(s: string): (r: Option<Parsed<Json>>)
    ensures r.Some? ==> |r.value.rest| < |s|
  {
    if s != [] && s[0] == '-' then UnsignedNumber(true, s[1..]) else UnsignedNumber(false, s)
  }

  /** A number after its optional minus sign. */
  function UnsignedNumber(neg: bool, a: string): (r: Option<Parsed<Json>>)
    ensures r.Some? ==> |r.value.rest| < |a|
  {
    if a == [] || !IsDigit(a[0]) then None
    else
      var n := if a[0] == '0' then 1 else DigitRun(a);
      NumberTail(neg, a[..n], a[n..])
  }

  /** The optional fraction after the integer digits of a number. */
  function NumberTail(neg: bool, intDigits: string, b: string): (r: Option<Parsed<Json>>)
    requires forall k :: 0 <= k < |intDigits| ==> IsDigit(intDigits[k])
    ensures r.Some? ==> |r.value.rest| <= |b|
  {
    if |b| >= 2 && b[0] == '.' && IsDigit(b[1]) then
      var f := DigitRun(b[1..]);
      var ds := intDigits + b[1..1 + f];
      assert forall k :: 0 <= k < |ds| ==> IsDigit(ds[k]);
      NumberEnd(neg, ds, f, b[1 + f..])
    else NumberEnd(neg, intDigits, 0, b)
  }

  /**
   * The optional exponent of a number whose digits are `ds`, the last `f` of
   * them after the decimal point; an int when there is neither.
   */
  function NumberEnd(neg: bool, ds: string, f: nat, c: string): (r: Option<Parsed<Json>>)
    requires forall k :: 0 <= k < |ds| ==> IsDigit(ds[k])
    ensures r.Some? ==> |r.value.rest| <= |c|
  {
    match ParseExponent(c)
    case None =>
      if f == 0 then Some(Parsed(JInt(Signed(neg, DigitsValue(ds))), c))
      else Some(Parsed(JFloat(Normalize(neg, DigitsValue(ds), -(f as int))), c))
    case Some(x) => Some(Parsed(JFloat(Normalize(neg, DigitsValue(ds), x.value - f)), x.rest))
  }

  /** A value at the front of `s` (no leading whitespace). */
  function ParseValue(s: string): (r: Option<Parsed<Json>>)
    ensures r.Some? ==> |r.value.rest| < |s|
    decreases |s|, 0
  {
    if s == [] then None
    else if s[0] == '"' then
      match ParseStringBody(s[1..])
      case None => None
      case Some(p) => Some(Parsed(JStr(p.value), p.rest))
    else if s[0] == '{' then ParseObject(s[1..])
    else if s[0] == '[' then ParseArray(s[1..])
    else if StartsWith(s, "null") then Some(Parsed(JNull, s[4..]))
    else if StartsWith(s, "true") then Some(Parsed(JBool(true), s[4..]))
    else if StartsWith(s, "false") then Some(Parsed(JBool(false), s[5..]))
    else ParseNumber(s)
  }

  /** An array after its opening bracket. */
  function ParseArray(s: string): (r: Option<Parsed<Json>>)
    ensures r.Some? ==> |r.value.rest| < |s|
    decreases |s|, 2
  {
    var t := SkipWs(s);
    if t != [] && t[0] == ']' then Some(Parsed(JArr([]), t[1..]))
    else
      match ParseElements(t)
      case None => None
      case Some(p) => Some(Parsed(JArr(p.value), p.rest))
  }

  /** One or more elements and the closing bracket. */
  function ParseElements(s: string): (r: Option<Parsed<seq<Json>>>)
    ensures r.Some? ==> |r.value.rest| < |s|
    decreases |s|, 1
  {
    match ParseValue(s)
    case None => None
    case Some(v) =>
      var t := SkipWs(v.rest);
      if t == [] then None
      else if t[0] == ']' then Some(Parsed([v.value], t[1..]))
      else if t[0] == ',' then
        match ParseElements(SkipWs(t[1..]))
        case None => None
        case Some(p) => Some(Parsed([v.value] + p.value, p.rest))
      else None
  }

  /** An object after its opening brace. */
  function ParseObject(s: string): (r: Option<Parsed<Json>>)
    ensures r.Some? ==> |r.value.rest| < |s|
    decreases |s|, 2
  {
    var t := SkipWs(s);
    if t != [] && t[0] == '}' then Some(Parsed(JObj(map[]), t[1..]))
    else
      match ParseMembers(t)
      case None => None
      case Some(p) => Some(Parsed(JObj(p.value), p.rest))
  }

  /** One or more `"key":value` members and the closing brace; a later key wins. */
  function ParseMembers(s: string): (r: Option<Parsed<map<string, Json>>>)
    ensures r.Some? ==> |r.value.rest| < |s|
    decreases |s|, 1
  {
    if s == [] || s[0] != '"' then None
    else
      match ParseStringBody(s[1..])
      case None => None
      case Some(k) =>
        var t := SkipWs(k.rest);
        if t == [] || t[0] != ':' then None
        else
          match ParseValue(SkipWs(t[1..]))
          case None => None
          case Some(v) =>
            var w := SkipWs(v.rest);
            if w == [] then None
            else if w[0] == '}' then Some(Parsed(map[k.value := v.value], w[1..]))
            else if w[0] == ',' then
              match ParseMembers(SkipWs(w[1..]))
              case None => None
              case Some(p) => Some(Parsed(map[k.value := v.value] + p.value, p.rest))
            else None
  }

  /** `json.loads(text)`; `None` where Python raises a decode error. */
  function Loads(text: string): Option<Json> {
    match ParseValue(SkipWs(text))
    case None => None
    case Some(p) => if SkipWs(p.rest) == [] then Some(p.value) else None
  }
}
