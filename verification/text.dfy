/**
 * The few Kotlin standard-library string operations the app relies on:
 * `Char.isDigit`, `String.filter`, `String.isBlank`, `String.toIntOrNull`,
 * `String.toLongOrNull`, `String.toLong`, `Int.toString`, `String.contains`
 * and the binary collation SQLite uses for `ORDER BY name`.
 */
module Text {
  import opened Wrappers

  const IntMin: int := -0x8000_0000
  const IntMax: int := 0x7FFF_FFFF
  const LongMin: int := -0x8000_0000_0000_0000
  const LongMax: int := 0x7FFF_FFFF_FFFF_FFFF

  predicate IsDigit(c: char) {
    '0' <= c <= '9'
  }

  function DigitValue(c: char): (d: nat)
    requires IsDigit(c)
    ensures d < 10
  {
    c as int - '0' as int
  }

  function DigitChar(d: nat): (c: char)
    requires d < 10
    ensures IsDigit(c) && DigitValue(c) == d
  {
    ('0' as int + d) as char
  }

  /** `s.filter { it.isDigit() }` */
  function DigitsOnly(s: string): (r: string)
    ensures |r| <= |s|
    ensures forall i :: 0 <= i < |r| ==> IsDigit(r[i])
    ensures (forall i :: 0 <= i < |s| ==> IsDigit(s[i])) ==> r == s
  {
    if s == [] then []
    else (if IsDigit(s[0]) then [s[0]] else []) + DigitsOnly(s[1..])
  }

  /** `Char.isWhitespace` on the JVM: `Character.isWhitespace || Character.isSpaceChar`. */
  predicate IsWhitespace(c: char) {
    || '\U{0009}' <= c <= '\U{000D}'
    || '\U{001C}' <= c <= '\U{0020}'
    || c == '\U{00A0}' || c == '\U{1680}'
    || '\U{2000}' <= c <= '\U{200A}'
    || c == '\U{2028}' || c == '\U{2029}' || c == '\U{202F}' || c == '\U{205F}' || c == '\U{3000}'
  }

  /** `String.isBlank`: empty or made of whitespace only. */
  predicate IsBlank(s: string) {
    forall i :: 0 <= i < |s| ==> IsWhitespace(s[i])
  }

  /** A non-empty run of decimal digits. */
  predicate IsNumeral(s: string) {
    |s| > 0 && forall i :: 0 <= i < |s| ==> IsDigit(s[i])
  }

  /** The value of a run of decimal digits, most significant first. */
  function NumeralValue(s: string): nat
    requires forall i :: 0 <= i < |s| ==> IsDigit(s[i])
  {
    if s == [] then 0 else NumeralValue(s[..|s| - 1]) * 10 + DigitValue(s[|s| - 1])
  }

  /** The decimal digits of `n` without leading zeros. */
  function NatDigits(n: nat): (r: string)
    ensures IsNumeral(r)
  {
    if n < 10 then [DigitChar(n)] else NatDigits(n / 10) + [DigitChar(n % 10)]
  }

  /** `Int.toString()` / `Long.toString()` */
  function DecimalString(n: int): (r: string)
    ensures |r| > 0
  {
    if n < 0 then "-" + NatDigits(0 - n) else NatDigits(n)
  }

  /**
   * Kotlin's `toIntOrNull` / `toLongOrNull` with the type's range [lo, hi]:
   * an optional leading '-' or '+', then at least one digit, and a value
   * that fits the type; anything else is null.
   */
  function ParseInteger(s: string, lo: int, hi: int): (r: Option<int>)
    ensures r.Some? ==> lo <= r.value <= hi
    ensures r.Some? ==> |s| > 0 && (IsDigit(s[0]) || s[0] == '-' || s[0] == '+')
  {
    if |s| == 0 then None
    else
      var signed := s[0] == '-' || s[0] == '+';
      var digits := if signed then s[1..] else s;
      if !IsNumeral(digits) then None
      else
        var v: int := if s[0] == '-' then 0 - NumeralValue(digits) else NumeralValue(digits);
        if lo <= v <= hi then Some(v) else None
  }

  function ToIntOrNull(s: string): Option<int> {
    ParseInteger(s, IntMin, IntMax)
  }

  function ToLongOrNull(s: string): Option<int> {
    ParseInteger(s, LongMin, LongMax)
  }

  lemma {:induction false} NatDigitsValue(n: nat)
    ensures NumeralValue(NatDigits(n)) == n
  {
    if n >= 10 {
      NatDigitsValue(n / 10);
      var ds := NatDigits(n / 10) + [DigitChar(n % 10)];
      assert ds[..|ds| - 1] == NatDigits(n / 10);
    }
  }

  /** Parsing what `toString` printed gives the number back iff it fits the type. */
  lemma ParseDecimalString(n: int, lo: int, hi: int)
    ensures ParseInteger(DecimalString(n), lo, hi) == if lo <= n <= hi then Some(n) else None
  {
    if n < 0 {
      var ds := NatDigits(-n);
      NatDigitsValue(-n);
      assert DecimalString(n) == "-" + ds;
      assert ("-" + ds)[1..] == ds;
    } else {
      var ds := NatDigits(n);
      NatDigitsValue(n);
      assert DecimalString(n) == ds;
      assert IsDigit(ds[0]);
    }
  }

  /** A string with a character that is neither a digit nor a leading sign never parses. */
  lemma NonNumericNeverParses(s: string, k: nat, lo: int, hi: int)
    requires k < |s| && !IsDigit(s[k])
    requires k > 0 || (s[0] != '-' && s[0] != '+')
    ensures ParseInteger(s, lo, hi) == None
  {
    if |s| > 0 && (s[0] == '-' || s[0] == '+') {
      assert s[1..][k - 1] == s[k];
    }
  }

  /** `String.contains(pat)`, searching from the front. */
  function Contains(s: string, pat: string): bool
    decreases |s|
  {
    if |pat| > |s| then false
    else if s[..|pat|] == pat then true
    else |s| > 0 && Contains(s[1..], pat)
  }

  /** `pat` occurs in `s` starting at position `i`. */
  predicate OccursAt(s: string, pat: string, i: int) {
    0 <= i <= |s| - |pat| && s[i..i + |pat|] == pat
  }

  /** `Contains` holds exactly when `pat` occurs at some position of `s`. */
  lemma {:induction false} ContainsIff(s: string, pat: string)
    ensures Contains(s, pat) <==> exists i :: OccursAt(s, pat, i)
    decreases |s|
  {
    if |pat| > |s| {
    } else if s[..|pat|] == pat {
      assert OccursAt(s, pat, 0);
    } else if |s| == 0 {
    } else {
      ContainsIff(s[1..], pat);
      if Contains(s, pat) {
        var i :| OccursAt(s[1..], pat, i);
        assert s[i + 1..i + 1 + |pat|] == s[1..][i..i + |pat|];
        assert OccursAt(s, pat, i + 1);
      } else {
        forall i | OccursAt(s, pat, i)
          ensures false
        {
          if i > 0 {
            assert s[i..i + |pat|] == s[1..][i - 1..i - 1 + |pat|];
            assert OccursAt(s[1..], pat, i - 1);
          }
        }
      }
    }
  }

  /** SQLite's BINARY collation on text: code points compared in order, a prefix first. */
  predicate LexLessEq(a: string, b: string) {
    if a == [] then true
    else if b == [] then false
    else if a[0] != b[0] then a[0] < b[0]
    else LexLessEq(a[1..], b[1..])
  }

  lemma {:induction false} LexLessEqTotal(a: string, b: string)
    ensures LexLessEq(a, b) || LexLessEq(b, a)
  {
    if a != [] && b != [] && a[0] == b[0] {
      LexLessEqTotal(a[1..], b[1..]);
    }
  }

  lemma {:induction false} LexLessEqTransitive(a: string, b: string, c: string)
    requires LexLessEq(a, b) && LexLessEq(b, c)
    ensures LexLessEq(a, c)
  {
    if a != [] && b != [] && c != [] && a[0] == b[0] && b[0] == c[0] {
      LexLessEqTransitive(a[1..], b[1..], c[1..]);
    }
  }

  lemma {:induction false} LexLessEqAntisymmetric(a: string, b: string)
    requires LexLessEq(a, b) && LexLessEq(b, a)
    ensures a == b
  {
    if a != [] && b != [] {
      LexLessEqAntisymmetric(a[1..], b[1..]);
      assert a == [a[0]] + a[1..];
      assert b == [b[0]] + b[1..];
    }
  }
}
