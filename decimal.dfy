/**
 * Decimal text: the part of `strtoll(buf, &endptr, 10)` the converters
 * rely on (an optional sign and the longest run of digits after it; the
 * rest of the text is ignored) and the `%d` formatting of an integer.
 */
module Decimal {
  import opened Wrappers

  predicate IsDigit(c: char) {
    '0' <= c <= '9'
  }

  predicate AllDigits(s: string) {
    forall i :: 0 <= i < |s| ==> IsDigit(s[i])
  }

  /** The longest prefix of `s` made of digits. */
  function LeadingDigits(s: string): (ds: string)
    ensures |ds| <= |s| && ds == s[..|ds|]
    ensures AllDigits(ds)
    ensures |ds| < |s| ==> !IsDigit(s[|ds|])
  {
    if |s| == 0 || !IsDigit(s[0]) then []
    else [s[0]] + LeadingDigits(s[1..])
  }

  /** The value of a digit string, most significant digit first. */
  function DigitsValue(ds: string): nat
    requires AllDigits(ds)
  {
    if |ds| == 0 then 0
    else DigitsValue(ds[..|ds| - 1]) * 10 + (ds[|ds| - 1] as int - '0' as int)
  }

  /** Length of the optional sign at the start of `s`. */
  function SignLength(s: string): nat {
    if |s| > 0 && (s[0] == '-' || s[0] == '+') then 1 else 0
  }

  /**
   * The value `strtoll` reads from `s`, or `None` exactly when it consumes
   * nothing (no digit follows the optional sign); that is the case that
   * leaves `endptr == buf`.
   */
  function ParseDecimal(s: string): (r: Option<int>)
    ensures r.None? <==> SignLength(s) == |s| || !IsDigit(s[SignLength(s)])
  {
    var k := SignLength(s);
    var ds := LeadingDigits(s[k..]);
    var magnitude: int := if |ds| == 0 then 0 else DigitsValue(ds);
    if |ds| == 0 then None
    else if k == 1 && s[0] == '-' then Some(-magnitude)
    else Some(magnitude)
  }

  /** `%u`: the shortest decimal digits of `n`. */
  function FormatNat(n: nat): (s: string)
    ensures |s| >= 1 && AllDigits(s)
    ensures DigitsValue(s) == n
    ensures n > 0 ==> s[0] != '0'
    ensures n < 10 ==> |s| == 1
  {
    var last := [('0' as int + n % 10) as char];
    if n < 10 then last
    else
      var s := FormatNat(n / 10) + last;
      assert s[..|s| - 1] == FormatNat(n / 10);
      s
  }

  /**
   * The shape of a `%d` text: an optional minus sign, then at least one
   * digit, with no leading zero and no "-0".
   */
  predicate IsDecimalSpelling(t: string) {
    var k := if |t| > 0 && t[0] == '-' then 1 else 0;
    k < |t| && AllDigits(t[k..]) && (t[k] == '0' ==> |t| == 1)
  }

  /** `%d`: a minus sign before the digits of a negative value. */
  function FormatInt(n: int): string {
    if n < 0 then "-" + FormatNat(-n) else FormatNat(n)
  }

  /** `%d` prints the decimal spelling, with a minus sign exactly for a negative value. */
  lemma FormatIntSpelling(n: int)
    ensures IsDecimalSpelling(FormatInt(n))
    ensures FormatInt(n)[0] == '-' <==> n < 0
  {
    if n < 0 {
      assert FormatInt(n)[1..] == FormatNat(-n);
    }
  }

  /** A digit string that does not start with '0' is worth at least one. */
  lemma {:induction false} LeadingNonzero(ds: string)
    requires AllDigits(ds) && |ds| >= 1 && ds[0] != '0'
    ensures DigitsValue(ds) >= 1
  {
    if |ds| > 1 {
      LeadingNonzero(ds[..|ds| - 1]);
    }
  }

  /** Digits with no leading zero are what `%u` prints for their value. */
  lemma {:induction false} FormatDigits(ds: string)
    requires AllDigits(ds) && |ds| >= 1 && (ds[0] == '0' ==> |ds| == 1)
    ensures FormatNat(DigitsValue(ds)) == ds
  {
    var init := ds[..|ds| - 1];
    var d := ds[|ds| - 1] as int - '0' as int;
    if |ds| == 1 {
      assert DigitsValue(ds) == d;
    } else {
      LeadingNonzero(init);
      FormatDigits(init);
      var n := DigitsValue(ds);
      assert n == DigitsValue(init) * 10 + d;
      assert n / 10 == DigitsValue(init) && n % 10 == d;
      assert ds == init + [ds[|ds| - 1]];
    }
  }

  /**
   * `%d` is the only spelling of its value: a text of that shape that
   * reads as `n` is `FormatInt(n)`.
   */
  lemma DecimalSpellingUnique(t: string, n: int)
    requires IsDecimalSpelling(t) && ParseDecimal(t) == Some(n)
    ensures t == FormatInt(n)
  {
    var sign := if t[0] == '-' then "-" else "";
    var ds := t[|sign|..];
    assert t == sign + ds + "" && ds + "" == ds;
    LeadingDigitsOf(ds, "");
    SignedDigits(sign, ds, "");
    SpelledDigits(sign, ds);
  }

  /** A sign (or none) and digits without a leading zero, "-0" excluded, are the `%d` text of their value. */
  lemma SpelledDigits(sign: string, ds: string)
    requires sign == "" || sign == "-"
    requires AllDigits(ds) && |ds| >= 1 && (ds[0] == '0' ==> |ds| == 1 && sign == "")
    ensures FormatInt(if sign == "-" then -(DigitsValue(ds) as int) else DigitsValue(ds) as int) == sign + ds
  {
    FormatDigits(ds);
    if sign == "-" {
      LeadingNonzero(ds);
      NegativeFormat(DigitsValue(ds));
    } else {
      assert sign + ds == ds;
    }
  }

  lemma NegativeFormat(v: nat)
    requires v >= 1
    ensures FormatInt(-(v as int)) == "-" + FormatNat(v)
  {
  }

  /** A digit string followed by a non-digit is exactly what `LeadingDigits` keeps. */
  lemma {:induction false} LeadingDigitsOf(ds: string, rest: string)
    requires AllDigits(ds)
    requires |rest| == 0 || !IsDigit(rest[0])
    ensures LeadingDigits(ds + rest) == ds
  {
    if |ds| > 0 {
      assert (ds + rest)[1..] == ds[1..] + rest;
      LeadingDigitsOf(ds[1..], rest);
    }
  }

  /** Parsing what `%d` printed gives the value back, whatever non-digit text follows. */
  lemma ParseFormat(n: int, rest: string)
    requires |rest| == 0 || !IsDigit(rest[0])
    ensures ParseDecimal(FormatInt(n) + rest) == Some(n)
  {
    if n < 0 {
      var digits := FormatNat(-n);
      LeadingDigitsOf(digits, rest);
      SignedDigits("-", digits, rest);
      NegativeFormat(-n);
      assert FormatInt(n) + rest == "-" + digits + rest;
    } else {
      var digits := FormatNat(n);
      LeadingDigitsOf(digits, rest);
      SignedDigits("", digits, rest);
      assert FormatInt(n) + rest == "" + digits + rest;
    }
  }

  /** A sign (or none), digits and a non-digit tail read as the signed value of the digits. */
  lemma SignedDigits(sign: string, digits: string, rest: string)
    requires sign == "" || sign == "-"
    requires AllDigits(digits) && |digits| >= 1
    requires LeadingDigits(digits + rest) == digits
    ensures ParseDecimal(sign + digits + rest)
      == Some(if sign == "-" then -(DigitsValue(digits) as int) else DigitsValue(digits) as int)
  {
    var s := sign + digits + rest;
    assert IsDigit(digits[0]);
    assert SignLength(s) == |sign|;
    assert s[|sign|..] == digits + rest;
  }

  function Pow10(k: nat): (p: nat)
    ensures p >= 1
  {
    if k == 0 then 1 else 10 * Pow10(k - 1)
  }

  /** A value below 10^k prints in at most k digits (zero takes one). */
  lemma {:induction false} FormatNatLength(n: nat, k: nat)
    requires k >= 1 && n < Pow10(k)
    ensures |FormatNat(n)| <= k
  {
    if n >= 10 {
      FormatNatLength(n / 10, k - 1);
    }
  }

  /** A 32-bit value prints in at most 11 characters, sign included. */
  lemma FormatIntLength(n: int)
    requires -0x8000_0000 <= n < 0x8000_0000
    ensures |FormatInt(n)| <= 11
  {
    assert Pow10(5) == 100000;
    assert Pow10(10) == Pow10(5) * Pow10(5) by {
      Pow10Sum(5, 5);
    }
    FormatNatLength(if n < 0 then -n else n, 10);
  }

  lemma {:induction false} Pow10Sum(a: nat, b: nat)
    ensures Pow10(a + b) == Pow10(a) * Pow10(b)
  {
    if a > 0 {
      Pow10Sum(a - 1, b);
    }
  }

  /** "1000" reads as one thousand. */
  lemma ParseThousand()
    ensures ParseDecimal("1000") == Some(1000)
  {
    assert FormatInt(1000) + "" == "1000";
    ParseFormat(1000, "");
  }

  /** "0" is a value, not a failure: only a text with no digit fails. */
  lemma ParseZero()
    ensures ParseDecimal("0") == Some(0)
  {
  }

  /** A sign is read, and the text after the digits is ignored. */
  lemma ParseSignedPrefix()
    ensures ParseDecimal("-12x") == Some(-12)
  {
    assert FormatInt(-12) + "x" == "-12x";
    ParseFormat(-12, "x");
  }

  /** No digit after the optional sign: nothing is read. */
  lemma ParseNothing()
    ensures ParseDecimal("") == None && ParseDecimal("-") == None && ParseDecimal("x1") == None
  {
  }
}
