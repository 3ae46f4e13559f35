/**
 * The parts of JavaScript's string and number semantics that the modelled
 * front-end code relies on: white space as `\s`, `trim` and `parseInt` see it,
 * `charAt` and `substring` with their clamping, UTF-16 lengths, and the decimal
 * rendering and parsing of integers.
 *
 * JavaScript numbers are modelled as mathematical integers: the model does not
 * capture floating-point rounding beyond 2^53 or exponent notation.
 */
module JsString {
  import opened Wrappers

  /** The white-space and line-terminator characters of ECMAScript (the class `\s`, `trim`, `parseInt`). */
  predicate IsWhiteSpace(c: char) {
    var n := c as int;
    n == 0x09 || n == 0x0A || n == 0x0B || n == 0x0C || n == 0x0D || n == 0x20 ||
    n == 0xA0 || n == 0x1680 || (0x2000 <= n <= 0x200A) || n == 0x2028 || n == 0x2029 ||
    n == 0x202F || n == 0x205F || n == 0x3000 || n == 0xFEFF
  }

  predicate IsDigit(c: char) {
    '0' <= c <= '9'
  }

  /** The class `[a-zA-Z]`. */
  predicate IsAsciiLetter(c: char) {
    ('a' <= c <= 'z') || ('A' <= c <= 'Z')
  }

  /** `s.trimStart()`: drops the leading white space. */
  function TrimStart(s: string): (r: string)
    ensures |r| <= |s|
  {
    if s != [] && IsWhiteSpace(s[0]) then TrimStart(s[1..]) else s
  }

  /** `s.trimEnd()`: drops the trailing white space. */
  function TrimEnd(s: string): (r: string)
    ensures |r| <= |s|
  {
    if s != [] && IsWhiteSpace(s[|s| - 1]) then TrimEnd(s[..|s| - 1]) else s
  }

  /** `s.trim()`. */
  function Trim(s: string): string {
    TrimEnd(TrimStart(s))
  }

  /** `trimStart` keeps a suffix, drops only white space, and stops at a character that is not white space. */
  lemma {:induction false} TrimStartSuffix(s: string)
    ensures var r := TrimStart(s);
      r == s[|s| - |r|..] &&
      (forall k :: 0 <= k < |s| - |r| ==> IsWhiteSpace(s[k])) &&
      (r != [] ==> !IsWhiteSpace(r[0]))
  {
    if s != [] && IsWhiteSpace(s[0]) {
      TrimStartSuffix(s[1..]);
      var r := TrimStart(s[1..]);
      assert s[1..][|s| - 1 - |r|..] == s[|s| - |r|..];
      forall k | 0 <= k < |s| - |r| ensures IsWhiteSpace(s[k]) {
        if k > 0 {
          assert s[k] == s[1..][k - 1];
        }
      }
    }
  }

  /** `trimEnd` keeps a prefix, drops only white space, and stops at a character that is not white space. */
  lemma {:induction false} TrimEndPrefix(s: string)
    ensures var r := TrimEnd(s);
      r == s[..|r|] &&
      (forall k :: |r| <= k < |s| ==> IsWhiteSpace(s[k])) &&
      (r != [] ==> !IsWhiteSpace(r[|r| - 1]))
  {
    if s != [] && IsWhiteSpace(s[|s| - 1]) {
      TrimEndPrefix(s[..|s| - 1]);
      var r := TrimEnd(s[..|s| - 1]);
      assert s[..|s| - 1][..|r|] == s[..|r|];
      forall k | |r| <= k < |s| ensures IsWhiteSpace(s[k]) {
        if k < |s| - 1 {
          assert s[k] == s[..|s| - 1][k];
        }
      }
    }
  }

  /**
   * What `trim` removes is white space: the result is the slice of `s` that
   * starts after the leading white space, and everything after it is white space.
   */
  lemma TrimIsSlice(s: string)
    ensures var a := |s| - |TrimStart(s)|; var r := Trim(s);
      a + |r| <= |s| && r == s[a..a + |r|] &&
      (forall k :: 0 <= k < a ==> IsWhiteSpace(s[k])) &&
      (forall k :: a + |r| <= k < |s| ==> IsWhiteSpace(s[k]))
  {
    var t := TrimStart(s);
    var r := TrimEnd(t);
    var a := |s| - |t|;
    TrimStartSuffix(s);
    TrimEndPrefix(t);
    assert r == s[a..a + |r|];
    forall k | a + |r| <= k < |s| ensures IsWhiteSpace(s[k]) {
      assert s[k] == t[k - a];
    }
  }

  /** Trimming twice is trimming once. */
  lemma TrimIdempotent(s: string)
    ensures Trim(Trim(s)) == Trim(s)
  {
    var t := TrimStart(s);
    var r := Trim(s);
    TrimStartSuffix(s);
    TrimEndPrefix(t);
    if r != [] {
      assert r[0] == t[0];
      assert !IsWhiteSpace(r[0]);
      assert TrimStart(r) == r;
      assert !IsWhiteSpace(r[|r| - 1]);
      assert TrimEnd(r) == r;
    }
  }

  /** `s.length`: the number of UTF-16 code units, two for a character outside the Basic Multilingual Plane. */
  function Utf16Length(s: string): (r: nat)
    ensures |s| <= r <= 2 * |s|
    ensures (forall k :: 0 <= k < |s| ==> s[k] as int <= 0xFFFF) ==> r == |s|
  {
    if s == [] then 0 else (if s[0] as int > 0xFFFF then 2 else 1) + Utf16Length(s[1..])
  }

  /** `s.charAt(i)`: the character at `i`, or the empty string (here `None`) out of range. */
  function CharAt(s: string, i: int): (r: Option<char>)
    ensures r.Some? <==> 0 <= i < |s|
    ensures r.Some? ==> r.value == s[i]
  {
    if 0 <= i < |s| then Some(s[i]) else None
  }

  function Clamp(i: int, n: nat): (r: nat)
    ensures r <= n
    ensures 0 <= i <= n ==> r == i
  {
    if i < 0 then 0 else if i > n then n else i
  }

  /** `s.substring(a, b)`: both ends clamped to the string, and swapped when `a > b`. */
  function Substring(s: string, a: int, b: int): (r: string)
    ensures |r| <= |s|
  {
    var lo := Clamp(a, |s|);
    var hi := Clamp(b, |s|);
    if lo <= hi then s[lo..hi] else s[hi..lo]
  }

  /** Within the string, `substring` is the slice between the two ends, in either order. */
  lemma SubstringSlice(s: string, a: int, b: int)
    ensures 0 <= a <= b <= |s| ==> Substring(s, a, b) == s[a..b]
    ensures 0 <= b <= a <= |s| ==> Substring(s, a, b) == s[b..a]
    ensures a <= 0 && |s| <= b ==> Substring(s, a, b) == s
  {
  }

  /** `s.substring(a)`. */
  function SubstringFrom(s: string, a: int): (r: string)
    ensures 0 <= a <= |s| ==> r == s[a..]
    ensures a > |s| ==> r == []
  {
    s[Clamp(a, |s|)..]
  }

  /** `s.startsWith(p)`. */
  predicate StartsWith(s: string, p: string) {
    |p| <= |s| && s[..|p|] == p
  }

  /** `s.indexOf(p) !== -1`. */
  predicate Contains(s: string, p: string) {
    exists i | 0 <= i <= |s| - |p| :: OccursAt(s, p, i)
  }

  predicate OccursAt(s: string, p: string, i: nat)
    requires i + |p| <= |s|
  {
    s[i..i + |p|] == p
  }

  function DigitChar(d: nat): (c: char)
    requires d < 10
    ensures IsDigit(c) && DigitValue(c) == d
  {
    ['0', '1', '2', '3', '4', '5', '6', '7', '8', '9'][d]
  }

  /** The value of a digit character (meaningful for `0`-`9` only). */
  function DigitValue(c: char): int {
    c as int - '0' as int
  }

  /** The value of a run of decimal digits, most significant first. */
  function DigitsValue(d: string): int {
    if d == [] then 0 else DigitsValue(d[..|d| - 1]) * 10 + DigitValue(d[|d| - 1])
  }

  /** `String(n)` for a non-negative integer: the canonical decimal numeral, without leading zeros. */
  function NatToDecimal(n: nat): (r: string)
    ensures r != []
    ensures forall k :: 0 <= k < |r| ==> IsDigit(r[k])
    ensures |r| > 1 ==> r[0] != '0'
  {
    if n < 10 then [DigitChar(n)] else NatToDecimal(n / 10) + [DigitChar(n % 10)]
  }

  /** `String(i)` for an integer. */
  function IntToDecimal(i: int): (r: string)
    ensures r != []
    ensures forall k :: 0 <= k < |r| ==> IsDigit(r[k]) || (k == 0 && r[k] == '-')
  {
    if i < 0 then "-" + NatToDecimal(-i) else NatToDecimal(i)
  }

  /** Reading back a rendered numeral gives the number. */
  lemma {:induction false} NatToDecimalValue(n: nat)
    ensures DigitsValue(NatToDecimal(n)) == n
  {
    var r := NatToDecimal(n);
    if n >= 10 {
      var a := NatToDecimal(n / 10);
      assert r[..|r| - 1] == a;
      NatToDecimalValue(n / 10);
    }
  }

  /** The run of decimal digits at the start of `s`. */
  function LeadingDigits(s: string): (r: string)
    ensures |r| <= |s|
  {
    if s != [] && IsDigit(s[0]) then [s[0]] + LeadingDigits(s[1..]) else []
  }

  /** The leading run is a prefix made of digits, and the character after it is not a digit. */
  lemma {:induction false} LeadingDigitsPrefix(s: string)
    ensures var r := LeadingDigits(s);
      r == s[..|r|] && (forall k :: 0 <= k < |r| ==> IsDigit(r[k])) && (|r| < |s| ==> !IsDigit(s[|r|]))
  {
    if s != [] && IsDigit(s[0]) {
      LeadingDigitsPrefix(s[1..]);
      var r := LeadingDigits(s[1..]);
      assert s[1..][..|r|] == s[1..|r| + 1];
      assert [s[0]] + s[1..|r| + 1] == s[..|r| + 1];
      if |r| + 1 < |s| {
        assert s[|r| + 1] == s[1..][|r|];
      }
    }
  }

  lemma {:induction false} LeadingDigitsOf(d: string, t: string)
    requires forall k :: 0 <= k < |d| ==> IsDigit(d[k])
    requires t != [] ==> !IsDigit(t[0])
    ensures LeadingDigits(d + t) == d
  {
    if d != [] {
      assert (d + t)[1..] == d[1..] + t;
      LeadingDigitsOf(d[1..], t);
      assert [d[0]] + d[1..] == d;
    } else {
      assert d + t == t;
    }
  }

  /** The number of leading white-space characters of `s`. */
  function WhiteSpaceRun(s: string): (r: nat)
    ensures r <= |s|
  {
    if s != [] && IsWhiteSpace(s[0]) then 1 + WhiteSpaceRun(s[1..]) else 0
  }

  /** An integer read by `parseInt`, and the index just after the characters it consumed. */
  datatype ParsedInt = ParsedInt(value: int, end: nat)

  /** Where the digits start after `w` characters of white space: past a `-` or `+` sign, if there is one. */
  function DigitsStart(s: string, w: nat): (start: nat)
    requires w <= |s|
    ensures start <= |s|
  {
    if w < |s| && (s[w] == '-' || s[w] == '+') then w + 1 else w
  }

  /**
   * `parseInt(s, 10)`: skips leading white space, takes an optional sign and the
   * longest run of decimal digits; `NaN` (here `None`) when there is no digit.
   */
  function ParseInt(s: string): (r: Option<ParsedInt>)
    ensures r.Some? ==> 0 < r.value.end <= |s|
    ensures r.None? <==> var start := DigitsStart(s, WhiteSpaceRun(s));
      start == |s| || !IsDigit(s[start])
  {
    var w := WhiteSpaceRun(s);
    var negative := w < |s| && s[w] == '-';
    var start := DigitsStart(s, w);
    var digits := LeadingDigits(s[start..]);
    if digits == [] then None
    else
      var magnitude := DigitsValue(digits);
      Some(ParsedInt(if negative then -magnitude else magnitude, start + |digits|))
  }

  /** What `parseInt` consumes ends with a digit, and the character after it, if any, is not a digit. */
  lemma ParseIntEnd(s: string)
    requires ParseInt(s).Some?
    ensures var e := ParseInt(s).value.end;
      IsDigit(s[e - 1]) && (e == |s| || !IsDigit(s[e]))
  {
    var start := DigitsStart(s, WhiteSpaceRun(s));
    var digits := LeadingDigits(s[start..]);
    LeadingDigitsPrefix(s[start..]);
    assert s[start + |digits| - 1] == digits[|digits| - 1];
    if start + |digits| < |s| {
      assert s[start + |digits|] == s[start..][|digits|];
    }
  }

  /** `parseInt` of a string whose digits start at `start`, read through its definition. */
  lemma ParseIntFrom(s: string, start: nat, negative: bool, d: string)
    requires DigitsStart(s, WhiteSpaceRun(s)) == start && LeadingDigits(s[start..]) == d && d != []
    requires negative <==> WhiteSpaceRun(s) < |s| && s[WhiteSpaceRun(s)] == '-'
    ensures ParseInt(s) == Some(ParsedInt(if negative then -DigitsValue(d) else DigitsValue(d), start + |d|))
  {
  }

  /**
   * The shape `parseInt` sees in a canonical numeral followed by a tail that
   * does not start with a digit: no white space, a sign exactly when the number
   * is negative, and the digits of its magnitude.
   */
  lemma CanonicalNumeralShape(n: int, t: string)
    requires t != [] ==> !IsDigit(t[0])
    ensures var s := IntToDecimal(n) + t; var start := if n < 0 then 1 else 0;
      WhiteSpaceRun(s) == 0 && DigitsStart(s, 0) == start &&
      (s[0] == '-' <==> n < 0) &&
      LeadingDigits(s[start..]) == NatToDecimal(if n < 0 then -n else n)
  {
    var d := NatToDecimal(if n < 0 then -n else n);
    var s := IntToDecimal(n) + t;
    var start := if n < 0 then 1 else 0;
    assert s[0] == (if n < 0 then '-' else d[0]);
    assert s[start..] == d + t;
    LeadingDigitsOf(d, t);
  }

  /**
   * A canonical numeral followed by a tail that does not start with a digit
   * parses back to its number and consumes exactly the numeral.
   */
  lemma ParseIntCanonical(n: int, t: string)
    requires t != [] ==> !IsDigit(t[0])
    ensures ParseInt(IntToDecimal(n) + t) == Some(ParsedInt(n, |IntToDecimal(n)|))
  {
    var m: nat := if n < 0 then -n else n;
    CanonicalNumeralShape(n, t);
    NatToDecimalValue(m);
    ParseIntFrom(IntToDecimal(n) + t, if n < 0 then 1 else 0, n < 0, NatToDecimal(m));
  }

  /** Distinct integers render as distinct numerals. */
  lemma IntToDecimalInjective(a: int, b: int)
    requires IntToDecimal(a) == IntToDecimal(b)
    ensures a == b
  {
    ParseIntCanonical(a, []);
    ParseIntCanonical(b, []);
    assert IntToDecimal(a) + [] == IntToDecimal(a);
    assert IntToDecimal(b) + [] == IntToDecimal(b);
  }
}
