/**
 * The .NET string and integer helpers the application relies on:
 * `char.IsWhiteSpace`, `string.IsNullOrWhiteSpace`, `string.Trim`,
 * `int.TryParse` and `int.ToString`. Whitespace is the ASCII set
 * (tab, line feed, vertical tab, form feed, carriage return, space)
 * and digits are '0'..'9'.
 */
module Text {
  import opened Common

  const MinInt32: int := -0x8000_0000
  const MaxInt32: int := 0x7FFF_FFFF

  predicate IsWhite(c: char) {
    c == ' ' || (9 <= c as int <= 13)
  }

  predicate IsDigit(c: char) {
    '0' <= c <= '9'
  }

  /** `string.IsNullOrWhiteSpace` on a non-null string. */
  predicate IsBlank(s: string) {
    forall i :: 0 <= i < |s| ==> IsWhite(s[i])
  }

  predicate AllDigits(s: string) {
    forall i :: 0 <= i < |s| ==> IsDigit(s[i])
  }

  predicate NoWhite(s: string) {
    forall i :: 0 <= i < |s| ==> !IsWhite(s[i])
  }

  /** Number of whitespace characters at the start of `s`. */
  function LeadingWhite(s: string): (n: nat)
    ensures n <= |s|
    ensures forall i :: 0 <= i < n ==> IsWhite(s[i])
    ensures n < |s| ==> !IsWhite(s[n])
  {
    if |s| == 0 || !IsWhite(s[0]) then 0
    else 1 + LeadingWhite(s[1..])
  }

  /** Number of whitespace characters at the end of `s`. */
  function TrailingWhite(s: string): (n: nat)
    ensures n <= |s|
    ensures forall i :: |s| - n <= i < |s| ==> IsWhite(s[i])
    ensures n < |s| ==> !IsWhite(s[|s| - n - 1])
    ensures |s| > 0 && !IsWhite(s[0]) ==> n < |s|
  {
    if |s| == 0 || !IsWhite(s[|s| - 1]) then 0
    else 1 + TrailingWhite(s[..|s| - 1])
  }

  /** `string.Trim`: drops the leading and the trailing whitespace of `s`. */
  function Trim(s: string): string {
    var a := LeadingWhite(s);
    if a == |s| then []
    else
      RunsApart(s);
      s[a..|s| - TrailingWhite(s)]
  }

  /** When `s` is not blank, its leading and trailing whitespace runs do not meet. */
  lemma RunsApart(s: string)
    requires LeadingWhite(s) < |s|
    ensures LeadingWhite(s) + TrailingWhite(s) < |s|
  {
  }

  /** `s` is `a` whitespace characters, then `r`, then only whitespace. */
  predicate Framed(s: string, a: nat, r: string) {
    a + |r| <= |s| &&
    s == s[..a] + r + s[a + |r|..] &&
    IsBlank(s[..a]) && IsBlank(s[a + |r|..])
  }

  /**
   * What trimming leaves: `s` is a whitespace-only prefix, then the result,
   * then a whitespace-only suffix; neither end of the result is whitespace,
   * and the result is empty exactly when `s` is blank.
   */
  lemma TrimShape(s: string)
    ensures var r := Trim(s);
      Framed(s, LeadingWhite(s), r) &&
      (r == [] || (!IsWhite(r[0]) && !IsWhite(r[|r| - 1]))) &&
      (r == [] <==> IsBlank(s))
  {
    var a := LeadingWhite(s);
    if a == |s| {
      assert s[..a] == s;
    } else {
      TrimShapeNotBlank(s);
      NotBlankAt(s, a);
    }
  }

  /** A string with a non-white character is not blank. */
  lemma NotBlankAt(s: string, i: nat)
    ensures i < |s| && !IsWhite(s[i]) ==> !IsBlank(s)
  {
  }

  /** `TrimShape` when some character of `s` is not whitespace. */
  lemma TrimShapeNotBlank(s: string)
    requires LeadingWhite(s) < |s|
    ensures var r := Trim(s);
      Framed(s, LeadingWhite(s), r) && 0 < |r| &&
      !IsWhite(r[0]) && !IsWhite(r[|r| - 1])
  {
    TrimIsSlice(s);
    TrimCore(s, LeadingWhite(s), TrailingWhite(s), Trim(s));
  }

  /** A text that is not blank trims to the slice between its whitespace runs. */
  lemma TrimIsSlice(s: string)
    requires LeadingWhite(s) < |s|
    ensures LeadingWhite(s) + TrailingWhite(s) < |s|
    ensures Trim(s) == s[LeadingWhite(s)..|s| - TrailingWhite(s)]
  {
    RunsApart(s);
  }

  /** A string with a blank prefix of length `a`, a blank suffix of length `b` and
      non-white characters just inside them splits into those three parts. */
  lemma TrimCore(s: string, a: nat, b: nat, r: string)
    requires a + b < |s| && r == s[a..|s| - b]
    requires forall i :: 0 <= i < a ==> IsWhite(s[i])
    requires forall i :: |s| - b <= i < |s| ==> IsWhite(s[i])
    requires !IsWhite(s[a]) && !IsWhite(s[|s| - b - 1])
    ensures Framed(s, a, r) && 0 < |r| && !IsWhite(r[0]) && !IsWhite(r[|r| - 1])
  {
    var e := |s| - b;
    ThreeParts(s, a, e);
    assert s[a..e][0] == s[a] && s[a..e][e - a - 1] == s[e - 1];
  }

  lemma ThreeParts(s: string, a: nat, e: nat)
    requires a <= e <= |s|
    ensures s == s[..a] + s[a..e] + s[e..]
  {
  }

  /** A string with no whitespace at its ends is its own trim. */
  lemma TrimUntrimmed(s: string)
    requires s == [] || (!IsWhite(s[0]) && !IsWhite(s[|s| - 1]))
    ensures Trim(s) == s
  {
    if s != [] {
      assert LeadingWhite(s) == 0;
      assert TrailingWhite(s) == 0;
    }
  }

  /** Trimming twice is trimming once. */
  lemma TrimIdempotent(s: string)
    ensures Trim(Trim(s)) == Trim(s)
  {
    TrimUntrimmed(Trim(s));
  }

  function DigitChar(d: nat): (c: char)
    requires d < 10
    ensures IsDigit(c)
  {
    ('0' as int + d) as char
  }

  function DigitValue(c: char): (d: nat)
    requires IsDigit(c)
    ensures d < 10 && DigitChar(d) == c
  {
    (c as int - '0' as int)
  }

  /** Decimal value of a string of digits, most significant first. */
  function DigitsValue(s: string): nat
    requires AllDigits(s)
  {
    if |s| == 0 then 0 else 10 * DigitsValue(s[..|s| - 1]) + DigitValue(s[|s| - 1])
  }

  /** Decimal digits of `n` without leading zeros. */
  function NatToDigits(n: nat): (s: string)
    ensures |s| > 0 && AllDigits(s)
    ensures s[0] == '0' ==> n == 0
  {
    if n < 10 then [DigitChar(n)] else NatToDigits(n / 10) + [DigitChar(n % 10)]
  }

  /** `int.ToString()`: an optional minus sign followed by the decimal digits. */
  function IntToString(n: int): (s: string)
    ensures |s| > 0 && NoWhite(s)
    ensures IsDigit(s[|s| - 1])
  {
    if n < 0 then "-" + NatToDigits(-n) else NatToDigits(n)
  }

  /**
   * `int.TryParse(s, out v)` with the default number style: optional
   * surrounding whitespace, an optional leading '+' or '-', at least one
   * digit, and a value that fits in 32 bits; otherwise no value.
   */
  function ParseInt(s: string): (r: Option<int>)
    ensures r.Some? ==> MinInt32 <= r.value <= MaxInt32
  {
    var t := Trim(s);
    var signed := |t| > 0 && (t[0] == '-' || t[0] == '+');
    var digits := if signed then t[1..] else t;
    if |digits| == 0 || !AllDigits(digits) then None
    else
      var magnitude: int := DigitsValue(digits);
      var v := if signed && t[0] == '-' then -magnitude else magnitude;
      if MinInt32 <= v <= MaxInt32 then Some(v) else None
  }

  lemma {:induction false} DigitsRoundTrip(n: nat)
    ensures DigitsValue(NatToDigits(n)) == n
  {
    if n >= 10 {
      var s := NatToDigits(n);
      assert s[..|s| - 1] == NatToDigits(n / 10);
      DigitsRoundTrip(n / 10);
    }
  }

  /**
   * The printed form is canonical: a minus sign exactly for a negative
   * number, never a plus sign, and no leading zeros.
   */
  lemma IntToStringCanonical(n: int)
    ensures var s := IntToString(n);
      (s[0] == '-' <==> n < 0) &&
      var digits := if n < 0 then s[1..] else s;
      |digits| > 0 && AllDigits(digits) && (digits[0] == '0' ==> digits == "0")
  {
    if n < 0 {
      assert IntToString(n)[1..] == NatToDigits(-n);
    }
  }

  /** What `int.ToString` prints, `int.TryParse` reads back. */
  lemma IntToStringRoundTrip(n: int)
    requires MinInt32 <= n <= MaxInt32
    ensures ParseInt(IntToString(n)) == Some(n)
  {
    var s := IntToString(n);
    TrimUntrimmed(s);
    if n < 0 {
      assert s[1..] == NatToDigits(-n);
      DigitsRoundTrip(-n);
    } else {
      DigitsRoundTrip(n);
    }
  }

  /** Different numbers print differently. */
  lemma IntToStringInjective(m: int, n: int)
    requires MinInt32 <= m <= MaxInt32 && MinInt32 <= n <= MaxInt32
    requires m != n
    ensures IntToString(m) != IntToString(n)
  {
    IntToStringRoundTrip(m);
    IntToStringRoundTrip(n);
  }

  lemma CancelSuffix(a: string, b: string, t: string)
    requires a + t == b + t
    ensures a == b
  {
    assert a == (a + t)[..|a|];
    assert b == (b + t)[..|b|];
  }

  lemma CancelPrefix(g: string, a: string, b: string)
    requires g + a == g + b
    ensures a == b
  {
    assert a == (g + a)[|g|..];
    assert b == (g + b)[|g|..];
  }
}
