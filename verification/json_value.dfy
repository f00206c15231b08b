/**
 * JSON values as Python's `json` module sees them, with Python truthiness,
 * `dict.get`, and the writer behind
 * `json.dumps(obj, separators=(",", ":"), sort_keys=True)` (ASCII-escaped
 * strings, keys in code-point order, floats in `repr` form), the JSON text
 * format of RFC 8259.
 */
module JsonValue {
  import opened Wrappers
  import opened PyText

  /**
   * A Python float, modelled as the finite decimal `mantissa * 10^exponent`.
   * The canonical form has no trailing zero in the mantissa, so equal numbers
   * have equal representations.
   */
  datatype Decimal = Decimal(mantissa: int, exponent: int) {
    predicate Canonical() {
      if mantissa == 0 then exponent == 0 else mantissa % 10 != 0
    }
  }

  /** A JSON value; objects are dictionaries keyed by string. */
  datatype Json =
    | JNull
    | JBool(b: bool)
    | JInt(i: int)
    | JFloat(f: Decimal)
    | JStr(s: string)
    | JArr(items: seq<Json>)
    | JObj(fields: map<string, Json>)

  /** Every float inside `j` is canonical. */
  predicate Valid(j: Json) {
    match j
    case JFloat(f) => f.Canonical()
    case JArr(a) => forall i :: 0 <= i < |a| ==> Valid(a[i])
    case JObj(m) => forall k :: k in m ==> Valid(m[k])
    case _ => true
  }

  /** Python's `bool(value)` for a decoded JSON value. */
  predicate Truthy(j: Json) {
    match j
    case JNull => false
    case JBool(b) => b
    case JInt(i) => i != 0
    case JFloat(f) => f.mantissa != 0
    case JStr(s) => s != ""
    case JArr(a) => a != []
    case JObj(m) => m != map[]
  }

  /** Python's `d.get(k)`: a missing key reads as `None`. */
  function PyGet(m: map<string, Json>, k: string): (r: Json)
    ensures k !in m ==> r == JNull
  {
    if k in m then m[k] else JNull
  }

  // ---------------------------------------------------------------------
  // Key order: Python compares strings by code point, lexicographically.
  // ---------------------------------------------------------------------

  /** `a <= b` for Python strings. */
  predicate StrLe(a: string, b: string) {
    a == [] || (b != [] && (a[0] < b[0] || (a[0] == b[0] && StrLe(a[1..], b[1..]))))
  }

  lemma {:induction false} StrLeReflexive(a: string)
    ensures StrLe(a, a)
  {
    if a != [] { StrLeReflexive(a[1..]); }
  }

  lemma {:induction false} StrLeTotal(a: string, b: string)
    ensures StrLe(a, b) || StrLe(b, a)
  {
    if a != [] && b != [] && a[0] == b[0] {
      StrLeTotal(a[1..], b[1..]);
    }
  }

  lemma {:induction false} StrLeAntisymmetric(a: string, b: string)
    requires StrLe(a, b) && StrLe(b, a)
    ensures a == b
  {
    if a != [] && b != [] {
      StrLeAntisymmetric(a[1..], b[1..]);
      assert a == [a[0]] + a[1..] && b == [b[0]] + b[1..];
    }
  }

  lemma {:induction false} StrLeTransitive(a: string, b: string, c: string)
    requires StrLe(a, b) && StrLe(b, c)
    ensures StrLe(a, c)
  {
    if a != [] && b != [] && c != [] && a[0] == b[0] && b[0] == c[0] {
      StrLeTransitive(a[1..], b[1..], c[1..]);
    }
  }

  predicate IsLeast(k: string, ks: set<string>) {
    k in ks && forall k' :: k' in ks ==> StrLe(k, k')
  }

  lemma {:induction false} LeastExists(ks: set<string>)
    requires ks != {}
    ensures exists k :: IsLeast(k, ks)
    decreases |ks|
  {
    var x :| x in ks;
    StrLeReflexive(x);
    if ks == {x} {
      assert IsLeast(x, ks);
    } else {
      LeastExists(ks - {x});
      var m :| IsLeast(m, ks - {x});
      StrLeTotal(x, m);
      if StrLe(x, m) {
        forall k' | k' in ks ensures StrLe(x, k') {
          if k' != x { StrLeTransitive(x, m, k'); }
        }
        assert IsLeast(x, ks);
      } else {
        assert IsLeast(m, ks);
      }
    }
  }

  /** The smallest key of a non-empty key set. */
  function LeastKey(ks: set<string>): (k: string)
    requires ks != {}
    ensures IsLeast(k, ks)
  {
    LeastExists(ks);
    assert forall a, b :: IsLeast(a, ks) && IsLeast(b, ks) ==> a == b by {
      forall a, b | IsLeast(a, ks) && IsLeast(b, ks) ensures a == b {
        StrLeAntisymmetric(a, b);
      }
    }
    var k :| IsLeast(k, ks);
    k
  }

  /** Strictly increasing in code-point order, so every element once. */
  predicate StrictlyIncreasing(r: seq<string>) {
    forall i, j :: 0 <= i < j < |r| ==> StrLe(r[i], r[j]) && r[i] != r[j]
  }

  /** `r` lists exactly the keys `ks`. */
  predicate Lists(r: seq<string>, ks: set<string>) {
    (forall i :: 0 <= i < |r| ==> r[i] in ks) && (forall k :: k in ks ==> k in r)
  }

  /** `sorted(keys)`: every key once, in strictly increasing order. */
  function SortedKeys(ks: set<string>): (r: seq<string>)
    ensures |r| == |ks| && Lists(r, ks) && StrictlyIncreasing(r)
    decreases |ks|
  {
    if ks == {} then []
    else
      var k := LeastKey(ks);
      var rest := SortedKeys(ks - {k});
      SortedCons(k, ks, rest);
      [k] + rest
  }

  /** The least key in front of the sorted others gives the sorted keys. */
  lemma SortedCons(k: string, ks: set<string>, rest: seq<string>)
    requires IsLeast(k, ks)
    requires |rest| == |ks - {k}| && Lists(rest, ks - {k}) && StrictlyIncreasing(rest)
    ensures |[k] + rest| == |ks| && Lists([k] + rest, ks) && StrictlyIncreasing([k] + rest)
  {
    var r := [k] + rest;
    forall i, j | 0 <= i < j < |r| ensures StrLe(r[i], r[j]) && r[i] != r[j] {
      if i == 0 {
        assert r[j] == rest[j - 1] && r[j] in ks - {k};
      } else {
        assert r[i] == rest[i - 1] && r[j] == rest[j - 1];
      }
    }
    forall x | x in ks ensures x in r {
      if x != k {
        assert x in ks - {k};
        var i :| 0 <= i < |rest| && rest[i] == x;
        assert r[i + 1] == x;
      }
    }
  }

  // ---------------------------------------------------------------------
  // Writer.
  // ---------------------------------------------------------------------

  function HexDigit(d: nat): (c: char)
    requires d < 16
  {
    if d < 10 then ('0' as int + d) as char else ('a' as int + d - 10) as char
  }

  /** `'{0:04x}'.format(n)`. */
  function Hex4(n: nat): (r: string)
    requires n < 0x10000
    ensures |r| == 4
  {
    [HexDigit(n / 0x1000), HexDigit(n / 0x100 % 16), HexDigit(n / 0x10 % 16), HexDigit(n % 16)]
  }

  /** How `json.dumps` (with `ensure_ascii`) writes one character of a string. */
  function EscapeChar(c: char): (r: string)
    ensures |r| > 0
  {
    if c == '"' then "\\\""
    else if c == '\\' then "\\\\"
    else if c == '\n' then "\\n"
    else if c == '\r' then "\\r"
    else if c == '\t' then "\\t"
    else if c == '\U{8}' then "\\b"
    else if c == '\U{C}' then "\\f"
    else if ' ' <= c <= '~' then [c]
    else if (c as int) < 0x10000 then "\\u" + Hex4(c as int)
    else
      var v := c as int - 0x10000;
      "\\u" + Hex4(0xD800 + v / 0x400) + "\\u" + Hex4(0xDC00 + v % 0x400)
  }

  function EscapeString(s: string): string {
    if s == [] then "" else EscapeChar(s[0]) + EscapeString(s[1..])
  }

  /** A JSON string literal. */
  function Quote(s: string): string {
    "\"" + EscapeString(s) + "\""
  }

  function Zeros(k: nat): (r: string)
    ensures |r| == k && forall i :: 0 <= i < k ==> r[i] == '0'
  {
    if k == 0 then "" else "0" + Zeros(k - 1)
  }

  /** The digits of a float's exponent in `repr`: at least two. */
  function ExponentDigits(n: nat): string {
    var ds := NatDigits(n);
    if |ds| < 2 then "0" + ds else ds
  }

  /** The exponent of a float in `repr`: a sign and at least two digits. */
  function ExponentText(x: int): string {
    (if x < 0 then "-" else "+") + ExponentDigits(if x < 0 then -x else x)
  }

  /** `repr` of a positive float whose digits are those of `m`. */
  function PositiveRepr(m: nat, e: int): string
    requires m > 0
  {
    var ds := NatDigits(m);
    var x := |ds| - 1 + e;
    if -4 <= x < 16 then
      if e >= 0 then ds + Zeros(e) + ".0"
      else if x >= 0 then ds[..x + 1] + "." + ds[x + 1..]
      else "0." + Zeros(-x - 1) + ds
    else
      ds[..1] + (if |ds| > 1 then "." + ds[1..] else "") + "e" + ExponentText(x)
  }

  /** Python's `repr(f)`: positional between 1e-4 and 1e16, scientific outside. */
  function FloatRepr(f: Decimal): string {
    if f.mantissa == 0 then "0.0"
    else if f.mantissa < 0 then "-" + PositiveRepr(-f.mantissa, f.exponent)
    else PositiveRepr(f.mantissa, f.exponent)
  }

  /** The compact, key-sorted JSON text of `j`. */
  function Serialize(j: Json): (r: string)
    ensures |r| > 0
    decreases j, 1
  {
    match j
    case JNull => "null"
    case JBool(b) => if b then "true" else "false"
    case JInt(i) => IntToString(i)
    case JFloat(f) => FloatRepr(f)
    case JStr(s) => Quote(s)
    case JArr(a) => "[" + (if a == [] then "" else SerializeItems(j, 0)) + "]"
    case JObj(m) =>
      var keys := SortedKeys(m.Keys);
      "{" + (if keys == [] then "" else SerializeMembers(j, keys)) + "}"
  }

  /** The elements `items[i..]` of an array, separated by commas. */
  function SerializeItems(j: Json, i: nat): string
    requires j.JArr? && i < |j.items|
    decreases j, 0, |j.items| - i
  {
    Serialize(j.items[i]) + (if i + 1 == |j.items| then "" else "," + SerializeItems(j, i + 1))
  }

  /** The members of an object for the given keys, in that order. */
  function SerializeMembers(j: Json, keys: seq<string>): string
    requires j.JObj? && |keys| > 0
    requires forall i :: 0 <= i < |keys| ==> keys[i] in j.fields
    decreases j, 0, |keys|
  {
    Quote(keys[0]) + ":" + Serialize(j.fields[keys[0]])
    + (if |keys| == 1 then "" else "," + SerializeMembers(j, keys[1..]))
  }
}
