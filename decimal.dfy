/** Decimal text of natural numbers, as `Number.prototype.toString` and `padStart(2, '0')` produce it. */
module Decimal {

  predicate IsDigit(c: char) {
    '0' <= c <= '9'
  }

  predicate AllDigits(s: string) {
    forall i :: 0 <= i < |s| ==> IsDigit(s[i])
  }

  function DigitChar(d: nat): (c: char)
    requires d < 10
    ensures IsDigit(c)
  {
    (d + '0' as int) as char
  }

  function DigitValue(c: char): (d: nat)
    requires IsDigit(c)
    ensures d < 10
  {
    c as int - '0' as int
  }

  /** The shortest decimal numeral of `n`. */
  function NatToString(n: nat): (s: string)
    ensures |s| >= 1 && AllDigits(s)
    ensures |s| == 1 <==> n < 10
    decreases n
  {
    if n < 10 then [DigitChar(n)] else NatToString(n / 10) + [DigitChar(n % 10)]
  }

  /** The value of a decimal numeral (leading zeros allowed). */
  function ParseDecimal(s: string): nat
    requires AllDigits(s)
    decreases |s|
  {
    if s == [] then 0 else ParseDecimal(s[..|s| - 1]) * 10 + DigitValue(s[|s| - 1])
  }

  lemma {:induction false} ParseNatToString(n: nat)
    ensures ParseDecimal(NatToString(n)) == n
    decreases n
  {
    var s := NatToString(n);
    if n >= 10 {
      ParseNatToString(n / 10);
      assert s[..|s| - 1] == NatToString(n / 10);
    }
  }

  /** `padStart(2, '0')`: a one-character string gets one leading zero, longer ones are kept. */
  function PadStart2(s: string): (r: string)
    requires |s| >= 1
    ensures |r| == if |s| == 1 then 2 else |s|
    ensures r[|r| - |s|..] == s
    ensures forall i :: 0 <= i < |r| - |s| ==> r[i] == '0'
  {
    if |s| == 1 then "0" + s else s
  }

  /** The two-digit minute text: exactly two digits for 0..99 and it reads back as the number. */
  lemma TwoDigits(m: nat)
    requires m < 100
    ensures var t := PadStart2(NatToString(m)); |t| == 2 && AllDigits(t) && ParseDecimal(t) == m
  {
    ParseNatToString(m);
    var s := NatToString(m);
    if m < 10 {
      var t := PadStart2(s);
      assert t[..1] == "0";
    } else {
      assert |NatToString(m / 10)| == 1;
    }
  }

  /** Number of leading digit characters. */
  function LeadingDigits(s: string): (k: nat)
    ensures k <= |s|
    ensures AllDigits(s[..k])
    ensures k < |s| ==> !IsDigit(s[k])
    decreases |s|
  {
    if s != [] && IsDigit(s[0]) then
      assert s[..1 + LeadingDigits(s[1..])] == [s[0]] + s[1..][..LeadingDigits(s[1..])];
      1 + LeadingDigits(s[1..])
    else 0
  }

  lemma {:induction false} LeadingDigitsOf(d: string, rest: string)
    requires AllDigits(d)
    requires rest == [] || !IsDigit(rest[0])
    ensures LeadingDigits(d + rest) == |d|
    decreases |d|
  {
    if d != [] {
      assert (d + rest)[1..] == d[1..] + rest;
      LeadingDigitsOf(d[1..], rest);
    }
  }

  /** The padded text starts with '0' exactly when the number has a single digit. */
  lemma LeadingZeroPadding(m: nat)
    requires m < 100
    ensures PadStart2(NatToString(m))[0] == '0' <==> m < 10
  {
    if m >= 10 {
      var q := m / 10;
      assert 1 <= q < 10;
      assert NatToString(m) == [DigitChar(q)] + [DigitChar(m % 10)];
    }
  }
}
