/**
 * The two string helpers the tag generators rely on: `String(n)` for a
 * natural number, and `padStart`.
 */
module Numerals {

  predicate IsDigit(c: char) {
    '0' <= c <= '9'
  }

  function Digit(d: nat): (c: char)
    requires d < 10
    ensures IsDigit(c)
  {
    ('0' as int + d) as char
  }

  function DigitValue(c: char): (d: nat)
    requires IsDigit(c)
    ensures d < 10 && Digit(d) == c
  {
    c as int - '0' as int
  }

  /** The value of a string of decimal digits; leading zeros are allowed. */
  function DigitsValue(s: string): nat
    requires forall i | 0 <= i < |s| :: IsDigit(s[i])
  {
    if s == [] then 0 else 10 * DigitsValue(s[..|s| - 1]) + DigitValue(s[|s| - 1])
  }

  /** k copies of c. */
  function Repeat(c: char, k: nat): (r: string)
    ensures |r| == k && forall i | 0 <= i < k :: r[i] == c
  {
    seq(k, _ => c)
  }

  /** `String(n)`: the decimal numeral of n, without leading zeros. */
  function NatToString(n: nat): (s: string)
    ensures 1 <= |s|
    ensures forall i | 0 <= i < |s| :: IsDigit(s[i])
    ensures n > 0 ==> s[0] != '0'
    ensures n < 10 <==> |s| == 1
    ensures 10 <= n < 100 <==> |s| == 2
    ensures 100 <= n < 1000 <==> |s| == 3
  {
    if n < 10 then [Digit(n)] else NatToString(n / 10) + [Digit(n % 10)]
  }

  /** `s.padStart(width, fill)`: s, preceded by enough fill characters to reach the width. */
  function PadStart(s: string, width: nat, fill: char): (r: string)
    ensures |r| == if |s| < width then width else |s|
    ensures |s| <= |r| && r[|r| - |s|..] == s
    ensures forall i | 0 <= i < |r| - |s| :: r[i] == fill
  {
    if |s| < width then Repeat(fill, width - |s|) + s else s
  }

  /** Reading the numeral back gives the number. */
  lemma {:induction false} NatToStringValue(n: nat)
    ensures DigitsValue(NatToString(n)) == n
  {
    if n >= 10 {
      var s := NatToString(n);
      assert s[..|s| - 1] == NatToString(n / 10);
      NatToStringValue(n / 10);
    }
  }

  /** Distinct numbers have distinct numerals. */
  lemma NatToStringInjective(m: nat, n: nat)
    requires NatToString(m) == NatToString(n)
    ensures m == n
  {
    NatToStringValue(m);
    NatToStringValue(n);
  }

  /** Leading zeros do not change the value of a digit string. */
  lemma {:induction false} LeadingZeros(k: nat, s: string)
    requires forall i | 0 <= i < |s| :: IsDigit(s[i])
    ensures forall i | 0 <= i < k + |s| :: IsDigit((Repeat('0', k) + s)[i])
    ensures DigitsValue(Repeat('0', k) + s) == DigitsValue(s)
    decreases |s|
  {
    var z := Repeat('0', k);
    if s == [] {
      assert z + s == z;
      ZerosValue(k);
    } else {
      var init := s[..|s| - 1];
      assert (z + s)[..|z + s| - 1] == z + init;
      LeadingZeros(k, init);
    }
  }

  lemma {:induction false} ZerosValue(k: nat)
    ensures DigitsValue(Repeat('0', k)) == 0
  {
    if k > 0 {
      assert Repeat('0', k)[..k - 1] == Repeat('0', k - 1);
      ZerosValue(k - 1);
    }
  }

  /**
   * A number from 1 to 999, padded to three digits with zeros, is a
   * three-digit string that reads back as that number.
   */
  lemma Padded3(n: nat)
    requires 1 <= n <= 999
    ensures |PadStart(NatToString(n), 3, '0')| == 3
    ensures forall i | 0 <= i < 3 :: IsDigit(PadStart(NatToString(n), 3, '0')[i])
    ensures DigitsValue(PadStart(NatToString(n), 3, '0')) == n
  {
    var s := NatToString(n);
    NatToStringValue(n);
    if |s| < 3 {
      LeadingZeros(3 - |s|, s);
    }
  }

  /** Padding to three digits keeps distinct numbers from 1 to 999 apart. */
  lemma Padded3Injective(m: nat, n: nat)
    requires 1 <= m <= 999 && 1 <= n <= 999
    requires PadStart(NatToString(m), 3, '0') == PadStart(NatToString(n), 3, '0')
    ensures m == n
  {
    Padded3(m);
    Padded3(n);
  }
}
