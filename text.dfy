/**
 * The Python `str` operations the evaluator relies on, over `seq<char>`:
 * `strip()`, `startswith`, `split` on one character, `join`, the `in`
 * operator, `str(n)` for a non-negative `int`, and `float(s)` of a numeric
 * string.
 */
module Text {
  import opened Wrappers

  /** The characters for which Python's `str.isspace()` holds. */
  predicate IsSpace(c: char) {
    || ('\t' <= c <= '\r')
    || ('\U{1C}' <= c <= ' ')
    || c == '\U{85}' || c == '\U{A0}' || c == '\U{1680}'
    || ('\U{2000}' <= c <= '\U{200A}')
    || c == '\U{2028}' || c == '\U{2029}' || c == '\U{202F}' || c == '\U{205F}' || c == '\U{3000}'
  }

  function TrimStart(s: string): string {
    if |s| > 0 && IsSpace(s[0]) then TrimStart(s[1..]) else s
  }

  function TrimEnd(s: string): string {
    if |s| > 0 && IsSpace(s[|s| - 1]) then TrimEnd(s[..|s| - 1]) else s
  }

  /** `s.strip()` */
  function Strip(s: string): string {
    TrimEnd(TrimStart(s))
  }

  /** A string that neither starts nor ends with white space is its own `strip()`. */
  lemma StripUnspaced(s: string)
    requires |s| > 0 && !IsSpace(s[0]) && !IsSpace(s[|s| - 1])
    ensures Strip(s) == s
  {
  }

  /** `s.startswith(p)` */
  predicate StartsWith(s: string, p: string) {
    |p| <= |s| && s[..|p|] == p
  }

  /** `s.endswith(p)` */
  predicate EndsWith(s: string, p: string) {
    |p| <= |s| && s[|s| - |p|..] == p
  }

  /** `k` occurs in `s` at position `i`. */
  predicate OccursAt(s: string, k: string, i: int) {
    0 <= i <= |s| - |k| && s[i..i + |k|] == k
  }

  /** Python's `k in s` on strings: `k` is a prefix of some suffix of `s`. */
  predicate Contains(s: string, k: string)
    decreases |s|
  {
    StartsWith(s, k) || (|s| > 0 && Contains(s[1..], k))
  }

  /** `Contains` is the substring relation: `k` occurs in `s` at some position. */
  lemma {:induction false} ContainsOccurs(s: string, k: string)
    ensures Contains(s, k) <==> exists i :: 0 <= i <= |s| - |k| && OccursAt(s, k, i)
    decreases |s|
  {
    if StartsWith(s, k) {
      assert OccursAt(s, k, 0);
    } else if |s| > 0 {
      ContainsOccurs(s[1..], k);
      if Contains(s[1..], k) {
        var i :| 0 <= i <= |s[1..]| - |k| && OccursAt(s[1..], k, i);
        OccursShift(s, k, i + 1);
      } else {
        forall i | 0 <= i <= |s| - |k|
          ensures !OccursAt(s, k, i)
        {
          if i > 0 {
            OccursShift(s, k, i);
          } else {
            assert s[..|k|] == s[0..0 + |k|];
          }
        }
      }
    }
  }

  /** An occurrence past the first character is an occurrence in the rest of the string. */
  lemma OccursShift(s: string, k: string, i: int)
    requires |s| > 0 && i >= 1
    ensures OccursAt(s, k, i) <==> OccursAt(s[1..], k, i - 1)
  {
    if i <= |s| - |k| {
      var here, there := s[i..i + |k|], s[1..][i - 1..i - 1 + |k|];
      forall j | 0 <= j < |k|
        ensures here[j] == there[j]
      {
        assert there[j] == s[1..][i - 1 + j];
      }
      assert here == there;
    }
  }

  lemma {:induction false} ContainsInfix(a: string, k: string, b: string)
    ensures Contains(a + k + b, k)
    decreases |a|
  {
    if a == [] {
      assert (a + k + b)[..|k|] == k;
    } else {
      ContainsInfix(a[1..], k, b);
      assert (a + k + b)[1..] == a[1..] + k + b;
    }
  }

  /** Text that contains `c` still does after more text is appended. */
  lemma {:induction false} ContainsExtend(b: string, rest: string, c: string)
    requires Contains(b, c)
    ensures Contains(b + rest, c)
    decreases |b|
  {
    if StartsWith(b, c) {
      assert (b + rest)[..|c|] == b[..|c|];
    } else {
      ContainsExtend(b[1..], rest, c);
      assert (b + rest)[1..] == b[1..] + rest;
    }
  }

  lemma {:induction false} ContainsTransitive(a: string, b: string, c: string)
    requires Contains(a, b) && Contains(b, c)
    ensures Contains(a, c)
    decreases |a|
  {
    if StartsWith(a, b) {
      ContainsExtend(b, a[|b|..], c);
      assert b + a[|b|..] == a;
    } else {
      ContainsTransitive(a[1..], b, c);
    }
  }

  /** The position of the first `c` in `s`. */
  function IndexOf(s: string, c: char): (i: nat)
    requires c in s
    ensures i < |s| && s[i] == c && c !in s[..i]
  {
    if s[0] == c then 0 else 1 + IndexOf(s[1..], c)
  }

  lemma IndexOfAt(s: string, c: char, i: nat)
    requires i < |s| && s[i] == c && c !in s[..i]
    ensures IndexOf(s, c) == i
  {
  }

  /** `s.split(sep)` for a one-character separator: never an empty list. */
  function Split(s: string, sep: char): (parts: seq<string>)
    ensures |parts| >= 1
    decreases |s|
  {
    if sep in s then
      var i := IndexOf(s, sep);
      [s[..i]] + Split(s[i + 1..], sep)
    else
      [s]
  }

  /** `sep.join(parts)` */
  function Join(sep: string, parts: seq<string>): string {
    if |parts| == 0 then ""
    else if |parts| == 1 then parts[0]
    else parts[0] + sep + Join(sep, parts[1..])
  }

  /** Every part of a join occurs in the joined string. */
  lemma {:induction false} JoinContainsPart(sep: string, parts: seq<string>, i: nat)
    requires i < |parts|
    ensures Contains(Join(sep, parts), parts[i])
    decreases |parts|
  {
    if |parts| == 1 {
      ContainsInfix("", parts[0], "");
      assert "" + parts[0] + "" == parts[0];
    } else if i == 0 {
      ContainsInfix("", parts[0], sep + Join(sep, parts[1..]));
      assert "" + parts[0] + (sep + Join(sep, parts[1..])) == Join(sep, parts);
    } else {
      JoinContainsPart(sep, parts[1..], i - 1);
      ContainsInfix(parts[0] + sep, Join(sep, parts[1..]), "");
      assert (parts[0] + sep) + Join(sep, parts[1..]) + "" == Join(sep, parts);
      ContainsTransitive(Join(sep, parts), Join(sep, parts[1..]), parts[i]);
    }
  }

  /** A joined string ends with the last part. */
  lemma {:induction false} JoinEndsWithLast(sep: string, parts: seq<string>)
    requires |parts| > 0
    ensures EndsWith(Join(sep, parts), parts[|parts| - 1])
    decreases |parts|
  {
    if |parts| > 1 {
      JoinEndsWithLast(sep, parts[1..]);
      var rest := Join(sep, parts[1..]);
      var last := parts[|parts| - 1];
      assert Join(sep, parts) == (parts[0] + sep) + rest;
      assert Join(sep, parts)[|Join(sep, parts)| - |last|..] == rest[|rest| - |last|..];
    }
  }

  /** Joining the pieces of a split with its separator gives the string back. */
  lemma {:induction false} JoinSplit(s: string, sep: char)
    ensures Join([sep], Split(s, sep)) == s
    decreases |s|
  {
    if sep in s {
      var i := IndexOf(s, sep);
      var rest := s[i + 1..];
      JoinSplit(rest, sep);
      assert s == s[..i] + [sep] + rest;
    }
  }

  lemma SplitAfterFirst(a: string, sep: char, b: string)
    requires sep !in a
    ensures Split(a + [sep] + b, sep) == [a] + Split(b, sep)
  {
    var s := a + [sep] + b;
    assert s[|a|] == sep;
    assert s[..|a|] == a;
    assert IndexOf(s, sep) == |a|;
    assert s[..|a|] == a;
    assert s[|a| + 1..] == b;
  }

  /** Splitting before a last piece that holds no separator. */
  lemma {:induction false} SplitBeforeLast(a: string, sep: char, b: string)
    requires sep !in b
    ensures Split(a + [sep] + b, sep) == Split(a, sep) + [b]
    decreases |a|
  {
    var s := a + [sep] + b;
    if sep in a {
      var i := IndexOf(a, sep);
      var rest := a[i + 1..];
      assert s[..i] == a[..i];
      IndexOfAt(s, sep, i);
      assert s[i + 1..] == rest + [sep] + b;
      assert Split(s, sep) == [a[..i]] + Split(rest + [sep] + b, sep);
      SplitBeforeLast(rest, sep, b);
      assert Split(a, sep) == [a[..i]] + Split(rest, sep);
    } else {
      SplitAfterFirst(a, sep, b);
      assert Split(b, sep) == [b];
    }
  }

  predicate IsDigit(c: char) {
    '0' <= c <= '9'
  }

  predicate AllDigits(s: string) {
    forall i :: 0 <= i < |s| ==> IsDigit(s[i])
  }

  function DigitChar(d: nat): char
    requires d < 10
  {
    (48 + d) as char
  }

  /** `str(n)` for a non-negative integer: its decimal digits. */
  function NatStr(n: nat): string {
    if n < 10 then [DigitChar(n)] else NatStr(n / 10) + [DigitChar(n % 10)]
  }

  /** The number a string of decimal digits denotes ("" denotes 0). */
  function DigitsValue(s: string): nat
    requires AllDigits(s)
  {
    if |s| == 0 then 0 else DigitsValue(s[..|s| - 1]) * 10 + ((s[|s| - 1] as int) - 48)
  }

  function Pow10(n: nat): (p: nat)
    ensures p > 0
  {
    if n == 0 then 1 else 10 * Pow10(n - 1)
  }

  /** The digits of an unsigned decimal numeral with an optional fractional part. */
  function UnsignedDecimal(body: string): Option<real> {
    if '.' in body then
      var i := IndexOf(body, '.');
      var whole, frac := body[..i], body[i + 1..];
      if AllDigits(whole) && AllDigits(frac) && |whole| + |frac| > 0 then
        Some(DigitsValue(whole) as real + DigitsValue(frac) as real / Pow10(|frac|) as real)
      else None
    else if AllDigits(body) && |body| > 0 then Some(DigitsValue(body) as real)
    else None
  }

  /**
   * `float(s)` for a string: surrounding white space, an optional sign, digits
   * with an optional fractional part. `None` stands for the `ValueError`.
   */
  function ParseFloat(s: string): Option<real> {
    var t := Strip(s);
    if |t| > 0 && (t[0] == '-' || t[0] == '+') then
      match UnsignedDecimal(t[1..])
      case Some(v) => Some(if t[0] == '-' then -v else v)
      case None => None
    else UnsignedDecimal(t)
  }

  /** `str(n)` prints the decimal digits of `n`. */
  lemma {:induction false} NatStrDigits(n: nat)
    ensures |NatStr(n)| > 0 && AllDigits(NatStr(n)) && DigitsValue(NatStr(n)) == n
  {
    if n >= 10 {
      NatStrDigits(n / 10);
      var s := NatStr(n);
      assert s[..|s| - 1] == NatStr(n / 10);
    }
  }
}
