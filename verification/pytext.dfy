/**
 * The handful of Python `str` operations the deploy scripts and the LiveKit
 * services rely on, written out over `seq<char>`: `strip`, `rstrip`,
 * `lower`, `startswith`, `in`, `split`, `replace`, `count` and the decimal
 * form of an integer.
 */
module PyText {
  import opened Wrappers

  /** Python's `str.isspace()` for one character (the Unicode whitespace table). */
  predicate IsSpace(c: char) {
    c == ' ' || ('\t' <= c <= '\r') || ('\U{1C}' <= c <= '\U{1F}')
    || c == '\U{85}' || c == '\U{A0}' || c == '\U{1680}'
    || ('\U{2000}' <= c <= '\U{200A}') || c == '\U{2028}' || c == '\U{2029}'
    || c == '\U{202F}' || c == '\U{205F}' || c == '\U{3000}'
  }

  /** `s.lstrip()`: drops leading whitespace. */
  function TrimStart(s: string): (r: string)
    ensures |r| <= |s|
    ensures r == [] || !IsSpace(r[0])
  {
    if s != [] && IsSpace(s[0]) then TrimStart(s[1..]) else s
  }

  /** `s.rstrip()`: drops trailing whitespace. */
  function TrimEnd(s: string): (r: string)
    ensures |r| <= |s|
    ensures r == [] || !IsSpace(r[|r| - 1])
    ensures r != [] ==> r[0] == s[0]
  {
    if s != [] && IsSpace(s[|s| - 1]) then TrimEnd(s[..|s| - 1]) else s
  }

  /** `s.strip()`. */
  function Strip(s: string): (r: string)
    ensures r == [] || (!IsSpace(r[0]) && !IsSpace(r[|r| - 1]))
  {
    TrimEnd(TrimStart(s))
  }

  /** `lstrip` leaves nothing exactly when the text is all whitespace. */
  lemma {:induction false} TrimStartEmptyIff(s: string)
    ensures TrimStart(s) == [] <==> forall k :: 0 <= k < |s| ==> IsSpace(s[k])
    decreases |s|
  {
    if s != [] && IsSpace(s[0]) {
      TrimStartEmptyIff(s[1..]);
      assert forall k :: 1 <= k < |s| ==> s[1..][k - 1] == s[k];
    }
  }

  /** `rstrip` never empties a text that starts with a non-space character. */
  lemma {:induction false} TrimEndKeepsFirst(s: string)
    requires s != [] && !IsSpace(s[0])
    ensures TrimEnd(s) != []
    decreases |s|
  {
    if IsSpace(s[|s| - 1]) {
      TrimEndKeepsFirst(s[..|s| - 1]);
    }
  }

  /** A stripped string is empty exactly when the input was all whitespace. */
  lemma StripEmptyIff(s: string)
    ensures Strip(s) == [] <==> forall k :: 0 <= k < |s| ==> IsSpace(s[k])
  {
    TrimStartEmptyIff(s);
    var t := TrimStart(s);
    if t != [] {
      TrimEndKeepsFirst(t);
    }
  }

  /** Stripping twice is stripping once. */
  lemma StripIdempotent(s: string)
    ensures Strip(Strip(s)) == Strip(s)
  {
    StripNoEdgeSpace(Strip(s));
  }

  /** A string with no whitespace at either end is its own `strip()`. */
  lemma StripNoEdgeSpace(s: string)
    requires s == [] || (!IsSpace(s[0]) && !IsSpace(s[|s| - 1]))
    ensures Strip(s) == s
  {
  }

  /** `lstrip` keeps a suffix, so it adds no character. */
  lemma {:induction false} TrimStartAvoids(s: string, c: char)
    requires c !in s
    ensures c !in TrimStart(s)
    decreases |s|
  {
    if s != [] && IsSpace(s[0]) {
      assert s == [s[0]] + s[1..];
      TrimStartAvoids(s[1..], c);
    }
  }

  /** `rstrip` keeps a prefix, so it adds no character. */
  lemma {:induction false} TrimEndAvoids(s: string, c: char)
    requires c !in s
    ensures c !in TrimEnd(s)
    decreases |s|
  {
    if s != [] && IsSpace(s[|s| - 1]) {
      assert s == s[..|s| - 1] + [s[|s| - 1]];
      TrimEndAvoids(s[..|s| - 1], c);
    }
  }

  /** A character absent from `s` is absent from `s.strip()`. */
  lemma StripAvoids(s: string, c: char)
    requires c !in s
    ensures c !in Strip(s)
  {
    TrimStartAvoids(s, c);
    TrimEndAvoids(TrimStart(s), c);
  }

  /** `s.rstrip(c)` for a single character `c`. */
  function RStripChar(s: string, c: char): (r: string)
    ensures |r| <= |s| && r == s[..|r|]
    ensures forall k :: |r| <= k < |s| ==> s[k] == c
    ensures r == [] || r[|r| - 1] != c
  {
    if s != [] && s[|s| - 1] == c then RStripChar(s[..|s| - 1], c) else s
  }

  /** `c.lower()` for ASCII letters; every other character is kept. */
  function LowerChar(c: char): char {
    if 'A' <= c <= 'Z' then (c as int + 32) as char else c
  }

  /** `s.lower()` restricted to ASCII case folding. */
  function Lower(s: string): (r: string)
    ensures |r| == |s|
  {
    seq(|s|, i requires 0 <= i < |s| => LowerChar(s[i]))
  }

  /** A string whose every character is its own lower case is its own `lower()`. */
  lemma LowerFixed(s: string)
    requires forall i :: 0 <= i < |s| ==> LowerChar(s[i]) == s[i]
    ensures Lower(s) == s
  {
  }

  /** A non-blank string already trimmed and in lower case is unchanged by `s.strip().lower()`. */
  lemma StripLowerFixed(s: string)
    requires s != [] && !IsSpace(s[0]) && !IsSpace(s[|s| - 1])
    requires forall i :: 0 <= i < |s| ==> LowerChar(s[i]) == s[i]
    ensures Strip(s) == s && Lower(Strip(s)) == s
  {
    StripNoEdgeSpace(s);
    LowerFixed(s);
  }

  /** `s.startswith(p)`. */
  predicate StartsWith<T(==)>(s: seq<T>, p: seq<T>) {
    |p| <= |s| && s[..|p|] == p
  }

  /** `n` occurs in `s` starting at index `i`. */
  predicate OccursAt<T(==)>(s: seq<T>, n: seq<T>, i: int) {
    0 <= i && i + |n| <= |s| && s[i..i + |n|] == n
  }

  /** Python's `n in s` for strings and byte strings. */
  function Contains<T(==)>(s: seq<T>, n: seq<T>): (b: bool)
    ensures b <==> exists i :: OccursAt(s, n, i)
    decreases |s|
  {
    if |n| > |s| then false
    else if s[..|n|] == n then assert OccursAt(s, n, 0); true
    else
      OccursShift(s, n);
      Contains(s[1..], n)
  }

  /** An occurrence not at the front of `s` is an occurrence in `s[1..]`, one to the left. */
  lemma OccursShift<T>(s: seq<T>, n: seq<T>)
    requires |n| <= |s| && s[..|n|] != n
    ensures |s| > 0
    ensures (exists i :: OccursAt(s, n, i)) <==> (exists i :: OccursAt(s[1..], n, i))
  {
    if exists i :: OccursAt(s, n, i) {
      var i :| OccursAt(s, n, i);
      assert i > 0;
      assert s[1..][i - 1..i - 1 + |n|] == s[i..i + |n|];
      assert OccursAt(s[1..], n, i - 1);
    }
    if exists i :: OccursAt(s[1..], n, i) {
      var i :| OccursAt(s[1..], n, i);
      assert s[i + 1..i + 1 + |n|] == s[1..][i..i + |n|];
      assert OccursAt(s, n, i + 1);
    }
  }

  /** Index of the first `c` in `s`. */
  function IndexOf(s: string, c: char): (i: nat)
    requires c in s
    ensures i < |s| && s[i] == c && c !in s[..i]
  {
    if s[0] == c then 0 else 1 + IndexOf(s[1..], c)
  }

  /** `sep.join(parts)` for a one-character separator. */
  function Join(parts: seq<string>, sep: char): string {
    if |parts| == 0 then ""
    else if |parts| == 1 then parts[0]
    else parts[0] + [sep] + Join(parts[1..], sep)
  }

  /** `s.split(sep)` for a one-character separator: never empty, no piece holds `sep`. */
  function Split(s: string, sep: char): (r: seq<string>)
    ensures |r| >= 1
    ensures forall k :: 0 <= k < |r| ==> sep !in r[k]
    ensures Join(r, sep) == s
    decreases |s|
  {
    if sep !in s then [s]
    else
      var i := IndexOf(s, sep);
      var rest := Split(s[i + 1..], sep);
      assert s == s[..i] + [sep] + s[i + 1..];
      [s[..i]] + rest
  }

  /** In joined pieces, the first separator ends the first piece. */
  lemma JoinFirstSep(xs: seq<string>, sep: char)
    requires |xs| > 1 && sep !in xs[0]
    ensures sep in Join(xs, sep)
    ensures IndexOf(Join(xs, sep), sep) == |xs[0]|
    ensures Join(xs, sep)[|xs[0]| + 1..] == Join(xs[1..], sep)
  {
    var s := Join(xs, sep);
    var n := |xs[0]|;
    assert s == xs[0] + [sep] + Join(xs[1..], sep);
    assert s[n] == sep;
    assert s[..n] == xs[0];
    var i := IndexOf(s, sep);
    assert forall j :: 0 <= j < i ==> s[..i][j] == s[j];
    assert forall j :: 0 <= j < n ==> xs[0][j] == s[j];
  }

  /** Splitting the joined pieces gives them back, when no piece holds the separator. */
  lemma {:induction false} SplitJoin(xs: seq<string>, sep: char)
    requires xs != [] && forall k :: 0 <= k < |xs| ==> sep !in xs[k]
    ensures Split(Join(xs, sep), sep) == xs
    decreases |xs|
  {
    if |xs| > 1 {
      JoinFirstSep(xs, sep);
      SplitJoin(xs[1..], sep);
      assert xs == [xs[0]] + xs[1..];
      var s := Join(xs, sep);
      assert s[..|xs[0]|] == xs[0];
    }
  }

  /** `[p.strip() for p in parts]` without the blank ones. */
  function NonBlank(parts: seq<string>): (r: seq<string>)
    ensures forall k :: 0 <= k < |r| ==> r[k] != "" && Strip(r[k]) == r[k]
  {
    if parts == [] then []
    else
      var p := Strip(parts[0]);
      StripIdempotent(parts[0]);
      (if p == "" then [] else [p]) + NonBlank(parts[1..])
  }

  lemma {:induction false} NonBlankAvoids(parts: seq<string>, c: char)
    requires forall k :: 0 <= k < |parts| ==> c !in parts[k]
    ensures forall k :: 0 <= k < |NonBlank(parts)| ==> c !in NonBlank(parts)[k]
  {
    if parts != [] {
      StripAvoids(parts[0], c);
      NonBlankAvoids(parts[1..], c);
    }
  }

  lemma {:induction false} NonBlankKeeps(parts: seq<string>)
    requires forall k :: 0 <= k < |parts| ==> parts[k] != "" && Strip(parts[k]) == parts[k]
    ensures NonBlank(parts) == parts
  {
    if parts != [] {
      NonBlankKeeps(parts[1..]);
      assert parts == [parts[0]] + parts[1..];
    }
  }

  /** The trimmed, non-blank pieces of `raw` split at `sep`, in order. */
  function Pieces(raw: string, sep: char): seq<string> {
    NonBlank(Split(raw, sep))
  }

  /** Every piece is non-empty, trimmed, and free of the separator. */
  lemma PiecesShape(raw: string, sep: char)
    ensures forall k :: 0 <= k < |Pieces(raw, sep)| ==>
      var p := Pieces(raw, sep)[k];
      p != "" && Strip(p) == p && sep !in p
  {
    NonBlankAvoids(Split(raw, sep), sep);
  }

  /** Pieces joined with the separator read back as themselves. */
  lemma PiecesJoin(xs: seq<string>, sep: char)
    requires forall k :: 0 <= k < |xs| ==> xs[k] != "" && Strip(xs[k]) == xs[k] && sep !in xs[k]
    ensures Pieces(Join(xs, sep), sep) == xs
  {
    if xs == [] {
      assert Split("", sep) == [""];
      assert NonBlank([""]) == [] + NonBlank([]);
    } else {
      SplitJoin(xs, sep);
      NonBlankKeeps(xs);
    }
  }

  /** `s.split(sep, 1)` when `sep in s`: the text before and after the first `sep`. */
  function SplitOnce(s: string, sep: char): (r: Option<(string, string)>)
    ensures r.None? <==> sep !in s
    ensures r.Some? ==> s == r.value.0 + [sep] + r.value.1 && sep !in r.value.0
  {
    if sep !in s then None
    else
      var i := IndexOf(s, sep);
      assert s == s[..i] + [sep] + s[i + 1..];
      Some((s[..i], s[i + 1..]))
  }

  /** `s.count(a)`: leftmost non-overlapping occurrences of a non-empty `a`. */
  function Count(s: string, a: string): nat
    requires |a| > 0
    decreases |s|
  {
    if |s| < |a| then 0
    else if s[..|a|] == a then 1 + Count(s[|a|..], a)
    else Count(s[1..], a)
  }

  /** `s.replace(a, b)`: every leftmost non-overlapping occurrence of `a` becomes `b`. */
  function Replace(s: string, a: string, b: string): string
    requires |a| > 0
    decreases |s|
  {
    if |s| < |a| then s
    else if s[..|a|] == a then b + Replace(s[|a|..], a, b)
    else [s[0]] + Replace(s[1..], a, b)
  }

  /**
   * `s.replace(a, b, 1)`: the first occurrence of `a` becomes `b`; an empty
   * `a` matches at the front.
   */
  function ReplaceFirst(s: string, a: string, b: string): (r: string)
    ensures !Contains(s, a) ==> r == s
    ensures Contains(s, a) ==> |r| == |s| + |b| - |a| && Contains(r, b)
    decreases |s|
  {
    if |a| > |s| then s
    else if s[..|a|] == a then
      assert OccursAt(s, a, 0);
      assert OccursAt(b + s[|a|..], b, 0);
      b + s[|a|..]
    else
      OccursShift(s, a);
      var rest := ReplaceFirst(s[1..], a, b);
      ContainsCons(s[0], rest, b);
      [s[0]] + rest
  }

  /** An occurrence in `t` is one in `[c] + t`, one to the right. */
  lemma ContainsCons(c: char, t: string, n: string)
    ensures Contains(t, n) ==> Contains([c] + t, n)
  {
    if Contains(t, n) {
      var i :| OccursAt(t, n, i);
      assert ([c] + t)[i + 1..i + 1 + |n|] == t[i..i + |n|];
      assert OccursAt([c] + t, n, i + 1);
    }
  }

  /** Each replacement changes the length by `|b| - |a|`. */
  lemma {:induction false} ReplaceLength(s: string, a: string, b: string)
    requires |a| > 0
    ensures |Replace(s, a, b)| == |s| + Count(s, a) * (|b| - |a|)
    decreases |s|
  {
    var d := |b| - |a|;
    if |s| < |a| {
    } else if s[..|a|] == a {
      var t := s[|a|..];
      var c := Count(t, a);
      ReplaceLength(t, a, b);
      assert |Replace(t, a, b)| == |t| + c * d;
      assert Replace(s, a, b) == b + Replace(t, a, b);
      assert Count(s, a) == 1 + c;
      assert (1 + c) * d == d + c * d;
    } else {
      ReplaceLength(s[1..], a, b);
    }
  }

  /** With no occurrence, replacing leaves the text as it was. */
  lemma {:induction false} ReplaceNoOccurrence(s: string, a: string, b: string)
    requires |a| > 0 && Count(s, a) == 0
    ensures Replace(s, a, b) == s
    decreases |s|
  {
    if |s| < |a| {
    } else {
      ReplaceNoOccurrence(s[1..], a, b);
      assert s == [s[0]] + s[1..];
    }
  }

  /** Where `a` occurs, replacing it leaves an occurrence of `b`. */
  lemma {:induction false} ReplaceIntroduces(s: string, a: string, b: string)
    requires |a| > 0 && Count(s, a) > 0
    ensures Contains(Replace(s, a, b), b)
    decreases |s|
  {
    if s[..|a|] == a {
      assert OccursAt(Replace(s, a, b), b, 0);
    } else {
      ReplaceIntroduces(s[1..], a, b);
      ContainsCons(s[0], Replace(s[1..], a, b), b);
    }
  }

  /** Containment is transitive. */
  lemma ContainsTrans<T>(r: seq<T>, b: seq<T>, g: seq<T>)
    requires Contains(r, b) && Contains(b, g)
    ensures Contains(r, g)
  {
    var i :| OccursAt(r, b, i);
    var j :| OccursAt(b, g, j);
    forall m | 0 <= m < |g|
      ensures r[i + j..i + j + |g|][m] == g[m]
    {
      assert r[i + j + m] == r[i..i + |b|][j + m] == b[j..j + |g|][m];
    }
    assert OccursAt(r, g, i + j);
  }

  /** An occurrence in `b` is one in `a + b`. */
  lemma ContainsAppend<T>(a: seq<T>, b: seq<T>, g: seq<T>)
    requires Contains(b, g)
    ensures Contains(a + b, g)
  {
    var j :| OccursAt(b, g, j);
    assert (a + b)[|a| + j..|a| + j + |g|] == b[j..j + |g|];
    assert OccursAt(a + b, g, |a| + j);
  }

  /** `s.count(a) == 0` exactly when `a not in s`. */
  lemma {:induction false} CountZeroIff(s: string, a: string)
    requires |a| > 0
    ensures Count(s, a) == 0 <==> !Contains(s, a)
    decreases |s|
  {
    if |s| < |a| {
    } else if s[..|a|] == a {
      assert OccursAt(s, a, 0);
    } else {
      CountZeroIff(s[1..], a);
      OccursShift(s, a);
    }
  }

  predicate IsDigit(c: char) { '0' <= c <= '9' }

  function DigitValue(c: char): nat requires IsDigit(c) { c as int - '0' as int }

  function DigitChar(d: nat): (c: char)
    requires d < 10
    ensures IsDigit(c) && DigitValue(c) == d
  {
    ('0' as int + d) as char
  }

  /** The decimal digits of `n`, without leading zeros. */
  function NatDigits(n: nat): (r: string)
    ensures |r| >= 1 && (forall k :: 0 <= k < |r| ==> IsDigit(r[k]))
    ensures r[0] == '0' ==> n == 0
    decreases n
  {
    if n < 10 then [DigitChar(n)] else NatDigits(n / 10) + [DigitChar(n % 10)]
  }

  /** The number a string of decimal digits denotes. */
  function DigitsValue(ds: string): nat
    requires forall k :: 0 <= k < |ds| ==> IsDigit(ds[k])
  {
    if ds == [] then 0 else DigitsValue(ds[..|ds| - 1]) * 10 + DigitValue(ds[|ds| - 1])
  }

  /** Reading back the digits of `n` gives `n`. */
  lemma {:induction false} DigitsRoundTrip(n: nat)
    ensures DigitsValue(NatDigits(n)) == n
    decreases n
  {
    if n >= 10 {
      DigitsRoundTrip(n / 10);
      var ds := NatDigits(n);
      assert ds[..|ds| - 1] == NatDigits(n / 10);
    }
  }

  /** `str(i)` for a Python int. */
  function IntToString(i: int): (r: string)
    ensures |r| >= 1
  {
    if i < 0 then "-" + NatDigits(-i) else NatDigits(i)
  }
}
