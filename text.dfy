/**
 * The handful of Python string operations the extractor relies on:
 * `str.isspace()` / regex `\s`, `\d`, `\w`, `str.strip()`, `str.startswith()`,
 * the last token of `str.split()`, `int()` on that token, `str()` of a counter
 * and `'.'.join(...)`.
 *
 * Approximations of Python's Unicode semantics, chosen on purpose:
 *  - whitespace is exactly the set of characters for which `str.isspace()`
 *    holds (a fixed, finite list), so `strip()`, `split()` and `\s` agree with
 *    Python;
 *  - `\d` is the ASCII digits only (Python also accepts other decimal digits,
 *    e.g. full-width ones);
 *  - `\w` is ASCII letters, ASCII digits and `_` (Python also accepts every
 *    Unicode letter and digit);
 *  - `int()` accepts an optional sign followed by ASCII digits (Python also
 *    accepts `_` between digits and non-ASCII decimal digits).
 */
module Text {

  datatype Option<T> = None | Some(value: T)

  /** The characters for which Python's `str.isspace()` is true. */
  predicate IsSpace(c: char) {
    || ('\t' <= c <= '\r')
    || ('\U{1C}' <= c <= ' ')
    || c == '\U{85}' || c == '\U{A0}' || c == '\U{1680}'
    || ('\U{2000}' <= c <= '\U{200A}')
    || c == '\U{2028}' || c == '\U{2029}' || c == '\U{202F}' || c == '\U{205F}'
    || c == '\U{3000}'
  }

  predicate IsNonSpace(c: char) {
    !IsSpace(c)
  }

  /** `\d`, restricted to ASCII. */
  predicate IsDigit(c: char) {
    '0' <= c <= '9'
  }

  /** `\w`, restricted to ASCII. */
  predicate IsWordChar(c: char) {
    ('a' <= c <= 'z') || ('A' <= c <= 'Z') || IsDigit(c) || c == '_'
  }

  predicate IsDot(c: char) {
    c == '.'
  }

  ghost predicate All(s: string, lo: int, hi: int, P: char -> bool) {
    0 <= lo <= hi <= |s| && forall m :: lo <= m < hi ==> P(s[m])
  }

  predicate StartsWith(s: string, prefix: string) {
    |prefix| <= |s| && s[..|prefix|] == prefix
  }

  /** The end of the longest run of characters satisfying `P` that starts at `i`. */
  function SkipWhile(s: string, i: nat, P: char -> bool): (j: nat)
    requires i <= |s|
    ensures i <= j <= |s|
    ensures All(s, i, j, P)
    ensures j == |s| || !P(s[j])
    decreases |s| - i
  {
    if i < |s| && P(s[i]) then SkipWhile(s, i + 1, P) else i
  }

  /** The start of the longest run of characters satisfying `P` that ends at `hi`, not going below `lo`. */
  function SkipBackWhile(s: string, lo: nat, hi: nat, P: char -> bool): (k: nat)
    requires lo <= hi <= |s|
    ensures lo <= k <= hi
    ensures All(s, k, hi, P)
    ensures k == lo || !P(s[k - 1])
    decreases hi
  {
    if lo < hi && P(s[hi - 1]) then SkipBackWhile(s, lo, hi - 1, P) else hi
  }

  /** A run that is all `P` and stops at the first character that is not `P` ends where `SkipWhile` does. */
  lemma SkipWhileStopsAt(s: string, i: nat, x: nat, P: char -> bool)
    requires i <= x <= |s|
    requires All(s, i, x, P)
    requires x == |s| || !P(s[x])
    ensures SkipWhile(s, i, P) == x
  {
  }

  /** Python's `str.strip()`. */
  function Strip(s: string): (r: string)
    ensures |r| <= |s|
    ensures r == "" <==> forall m :: 0 <= m < |s| ==> IsSpace(s[m])
    ensures r != "" ==> IsNonSpace(r[0]) && IsNonSpace(r[|r| - 1])
  {
    var lo := SkipWhile(s, 0, IsSpace);
    var hi := SkipBackWhile(s, lo, |s|, IsSpace);
    assert lo < |s| ==> hi > lo;
    s[lo..hi]
  }

  /** `strip()` removes only whitespace, and only at the two ends. */
  lemma StripRemovesEnds(s: string)
    ensures var r := Strip(s);
      exists lo :: 0 <= lo <= |s| - |r| && s[lo..lo + |r|] == r
                   && All(s, 0, lo, IsSpace) && All(s, lo + |r|, |s|, IsSpace)
  {
    var lo := SkipWhile(s, 0, IsSpace);
    var hi := SkipBackWhile(s, lo, |s|, IsSpace);
    assert lo < |s| ==> hi > lo;
  }

  /** Text with no whitespace at either end is left as it is by `strip()`. */
  lemma StripUnpadded(t: string)
    requires t != "" ==> IsNonSpace(t[0]) && IsNonSpace(t[|t| - 1])
    ensures Strip(t) == t
  {
    if t != "" {
      SkipWhileStopsAt(t, 0, 0, IsSpace);
      var hi := SkipBackWhile(t, 0, |t|, IsSpace);
      assert hi == |t|;
    }
  }

  /** Stripping twice is stripping once (the caption test strips text that is already stripped). */
  lemma StripIdempotent(s: string)
    ensures Strip(Strip(s)) == Strip(s)
  {
    StripUnpadded(Strip(s));
  }

  /**
   * The last element of Python's `s.split()`: the last maximal run of
   * non-whitespace characters. Python raises an IndexError when `s` is
   * blank; here the result is then empty.
   */
  function LastToken(s: string): (r: string)
    ensures r == "" <==> forall m :: 0 <= m < |s| ==> IsSpace(s[m])
    ensures forall m :: 0 <= m < |r| ==> IsNonSpace(r[m])
  {
    var hi := SkipBackWhile(s, 0, |s|, IsSpace);
    var lo := SkipBackWhile(s, 0, hi, IsNonSpace);
    assert hi > 0 ==> lo < hi;
    s[lo..hi]
  }

  /** The last token is a whole run of non-whitespace, followed only by whitespace. */
  lemma LastTokenIsLastRun(s: string)
    ensures var r := LastToken(s);
      exists lo :: 0 <= lo <= |s| - |r| && r <= s[lo..]
                   && (lo == 0 || IsSpace(s[lo - 1])) && All(s, lo + |r|, |s|, IsSpace)
  {
    var hi := SkipBackWhile(s, 0, |s|, IsSpace);
    var lo := SkipBackWhile(s, 0, hi, IsNonSpace);
    assert hi > 0 ==> lo < hi;
    assert s[lo..hi] <= s[lo..];
  }

  function DigitValue(c: char): nat
    requires IsDigit(c)
  {
    (c as int) - ('0' as int)
  }

  function DigitChar(d: nat): (c: char)
    requires d < 10
    ensures IsDigit(c) && DigitValue(c) == d
  {
    (('0' as int) + d) as char
  }

  /** The value of a string of decimal digits, most significant first. */
  function DecimalValue(ds: string): nat
    requires forall m :: 0 <= m < |ds| ==> IsDigit(ds[m])
  {
    if ds == [] then 0 else DecimalValue(ds[..|ds| - 1]) * 10 + DigitValue(ds[|ds| - 1])
  }

  predicate IsNumeral(ds: string) {
    |ds| > 0 && forall m :: 0 <= m < |ds| ==> IsDigit(ds[m])
  }

  /** Python's `int()` on a token with no whitespace: an optional sign, then ASCII digits. */
  function ParseInt(t: string): (r: Option<int>)
    ensures r.Some? <==> IsNumeral(t) || (|t| > 0 && (t[0] == '+' || t[0] == '-') && IsNumeral(t[1..]))
    ensures IsNumeral(t) ==> r == Some(DecimalValue(t))
    ensures |t| > 0 && t[0] == '+' && IsNumeral(t[1..]) ==> r == Some(DecimalValue(t[1..]))
    ensures |t| > 0 && t[0] == '-' && IsNumeral(t[1..]) ==> r == Some(-(DecimalValue(t[1..]) as int))
  {
    if IsNumeral(t) then Some(DecimalValue(t))
    else if |t| > 0 && t[0] == '+' && IsNumeral(t[1..]) then Some(DecimalValue(t[1..]))
    else if |t| > 0 && t[0] == '-' && IsNumeral(t[1..]) then Some(0 - DecimalValue(t[1..]) as int)
    else None
  }

  /** Python's `str()` on a non-negative integer. */
  function NatToString(n: nat): (r: string)
    ensures IsNumeral(r)
    ensures r[0] != '0' || n == 0
  {
    if n < 10 then [DigitChar(n)] else NatToString(n / 10) + [DigitChar(n % 10)]
  }

  /** `int(str(n)) == n`: the decimal numeral of a counter reads back as that counter. */
  lemma {:induction false} NatToStringRoundTrip(n: nat)
    ensures DecimalValue(NatToString(n)) == n
    ensures ParseInt(NatToString(n)) == Some(n)
  {
    var r := NatToString(n);
    if n >= 10 {
      NatToStringRoundTrip(n / 10);
      assert r[..|r| - 1] == NatToString(n / 10);
    }
  }

  /** `sep.join(parts)` for a one-character separator. */
  function Join(parts: seq<string>, sep: char): (r: string)
    ensures |parts| == 1 ==> r == parts[0]
    decreases |parts|
  {
    if parts == [] then "" else if |parts| == 1 then parts[0]
    else parts[0] + [sep] + Join(parts[1..], sep)
  }

  /** The index of the first `c` in `s`, or `|s|` when there is none. */
  function IndexOf(s: string, c: char): (i: nat)
    ensures i <= |s|
    ensures forall m :: 0 <= m < i ==> s[m] != c
    ensures i < |s| ==> s[i] == c
  {
    if s == [] then 0 else if s[0] == c then 0 else 1 + IndexOf(s[1..], c)
  }

  /** `s.split(sep)` for a one-character separator. */
  function Split(s: string, sep: char): (parts: seq<string>)
    ensures |parts| > 0
    decreases |s|
  {
    var i := IndexOf(s, sep);
    if i == |s| then [s] else [s[..i]] + Split(s[i + 1..], sep)
  }

  /** Splitting a join on a separator that no part contains gives the parts back. */
  lemma {:induction false} SplitJoin(parts: seq<string>, sep: char)
    requires |parts| > 0
    requires forall k, m :: 0 <= k < |parts| && 0 <= m < |parts[k]| ==> parts[k][m] != sep
    ensures Split(Join(parts, sep), sep) == parts
    decreases |parts|
  {
    var s := Join(parts, sep);
    if |parts| == 1 {
      assert forall m :: 0 <= m < |s| ==> s[m] != sep;
    } else {
      var p := parts[0];
      assert s == p + [sep] + Join(parts[1..], sep);
      var i := IndexOf(s, sep);
      assert forall m :: 0 <= m < |p| ==> s[m] == p[m] && p[m] != sep;
      assert s[|p|] == sep;
      assert i == |p|;
      assert s[..i] == p;
      assert s[i + 1..] == Join(parts[1..], sep);
      SplitJoin(parts[1..], sep);
      assert parts == [p] + parts[1..];
    }
  }
}
