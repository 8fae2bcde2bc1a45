/**
 * Character-level helpers shared by the checkout: the `replace(/\D/g, "")`
 * filter applied to CPF and phone numbers, and decimal rendering of naturals
 * (JavaScript's `String(n)` for a non-negative integer).
 */
module Digits {

  predicate IsDigit(c: char)
  {
    '0' <= c <= '9'
  }

  predicate AllDigits(s: string)
  {
    forall i :: 0 <= i < |s| ==> IsDigit(s[i])
  }

  /** Number of decimal digits in `s`. */
  function DigitCount(s: string): nat
  {
    if s == [] then 0
    else (if IsDigit(s[0]) then 1 else 0) + DigitCount(s[1..])
  }

  /** `s.replace(/\D/g, "")`: every non-digit removed, digits kept in order. */
  function DigitsOnly(s: string): (r: string)
    ensures AllDigits(r)
    ensures |r| <= |s|
  {
    if s == [] then []
    else if IsDigit(s[0]) then [s[0]] + DigitsOnly(s[1..])
    else DigitsOnly(s[1..])
  }

  /** The filter keeps exactly as many characters as `s` has digits. */
  lemma {:induction false} DigitsOnlyLength(s: string)
    ensures |DigitsOnly(s)| == DigitCount(s)
  {
    if s != [] {
      DigitsOnlyLength(s[1..]);
    }
  }

  /** Filtering distributes over concatenation, so it keeps the digits in order. */
  lemma {:induction false} DigitsOnlyAppend(a: string, b: string)
    ensures DigitsOnly(a + b) == DigitsOnly(a) + DigitsOnly(b)
  {
    if a == [] {
      assert a + b == b;
    } else {
      assert (a + b)[0] == a[0] && (a + b)[1..] == a[1..] + b;
      DigitsOnlyAppend(a[1..], b);
    }
  }

  /** Mask characters do not matter: inserting a run without digits anywhere leaves the filtered digits as they were. */
  lemma DigitsOnlyIgnoresMask(a: string, mask: string, b: string)
    requires DigitCount(mask) == 0
    ensures DigitsOnly(a + mask + b) == DigitsOnly(a + b)
  {
    DigitsOnlyAppend(a + mask, b);
    DigitsOnlyAppend(a, mask);
    DigitsOnlyAppend(a, b);
    DigitsOnlyLength(mask);
  }

  /** A string of digits passes through unchanged, and only such a string does. */
  lemma {:induction false} DigitsOnlyFixedPoint(s: string)
    ensures DigitsOnly(s) == s <==> AllDigits(s)
  {
    if s != [] {
      DigitsOnlyFixedPoint(s[1..]);
      if !IsDigit(s[0]) {
        assert |DigitsOnly(s)| < |s|;
      }
    }
  }

  /** Filtering twice is filtering once. */
  lemma DigitsOnlyIdempotent(s: string)
    ensures DigitsOnly(DigitsOnly(s)) == DigitsOnly(s)
  {
    DigitsOnlyFixedPoint(DigitsOnly(s));
  }

  function DigitChar(d: nat): (c: char)
    requires d < 10
    ensures IsDigit(c)
  {
    ('0' as int + d) as char
  }

  function DigitValue(c: char): (d: nat)
    requires IsDigit(c)
    ensures d < 10
  {
    c as int - '0' as int
  }

  /** `String(n)` for a natural number: its shortest decimal rendering. */
  function NatToDecimal(n: nat): (r: string)
    ensures |r| >= 1 && AllDigits(r)
    ensures |r| == 1 <==> n < 10
    ensures r[0] == '0' ==> n == 0
  {
    if n < 10 then [DigitChar(n)]
    else NatToDecimal(n / 10) + [DigitChar(n % 10)]
  }

  /** The number a string of decimal digits denotes. */
  function DecimalValue(s: string): nat
    requires AllDigits(s)
  {
    if s == [] then 0
    else 10 * DecimalValue(s[..|s| - 1]) + DigitValue(s[|s| - 1])
  }

  /** Reading back a rendered number gives the number. */
  lemma {:induction false} DecimalRoundTrip(n: nat)
    ensures DecimalValue(NatToDecimal(n)) == n
  {
    var r := NatToDecimal(n);
    if n >= 10 {
      DecimalRoundTrip(n / 10);
      assert r[..|r| - 1] == NatToDecimal(n / 10);
    }
  }

  /** A leading zero does not change the value. */
  lemma LeadingZero(s: string)
    requires AllDigits(s)
    ensures AllDigits("0" + s) && DecimalValue("0" + s) == DecimalValue(s)
    decreases |s|
  {
    if s != [] {
      var t := "0" + s;
      assert t[..|t| - 1] == "0" + s[..|s| - 1];
      LeadingZero(s[..|s| - 1]);
    }
  }

  /** `String(n).padStart(2, "0")`. */
  function PadTwo(n: nat): (r: string)
    ensures AllDigits(r)
  {
    var s := NatToDecimal(n);
    if |s| >= 2 then s else "0" + s
  }

  /** Below 100 the padded rendering is exactly two digits and reads back as `n`. */
  lemma PadTwoRoundTrip(n: nat)
    requires n < 100
    ensures |PadTwo(n)| == 2 && DecimalValue(PadTwo(n)) == n
  {
    DecimalRoundTrip(n);
    if n < 10 {
      LeadingZero(NatToDecimal(n));
    } else {
      assert NatToDecimal(n) == NatToDecimal(n / 10) + [DigitChar(n % 10)];
    }
  }
}
