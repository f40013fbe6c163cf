/**
  Decimal numerals: the `%d` verb of Go's `fmt` package, the zero-padded
  fields of the `time` package's layouts, and the parsers that read them back.
 */
module Decimal {

  predicate IsDigit(c: char) {
    '0' <= c <= '9'
  }

  predicate AllDigits(s: string) {
    forall k :: 0 <= k < |s| ==> IsDigit(s[k])
  }

  function DigitChar(d: nat): (c: char)
    requires d < 10
    ensures IsDigit(c)
  {
    (48 + d) as char
  }

  function DigitValue(c: char): (d: nat)
    requires IsDigit(c)
    ensures d < 10
  {
    c as int - 48
  }

  function Pow10(k: nat): (p: nat)
    ensures 1 <= p
  {
    if k == 0 then 1 else 10 * Pow10(k - 1)
  }

  /** The numeral of `n`, most significant digit first, without leading zeros. */
  function NatToDecimal(n: nat): (s: string)
    ensures s != [] && AllDigits(s)
    ensures s[0] == '0' ==> n == 0
    ensures |s| == 1 <==> n < 10
    decreases n
  {
    if n < 10 then [DigitChar(n)]
    else NatToDecimal(n / 10) + [DigitChar(n % 10)]
  }

  /** The value of a string of digits; the empty string reads as 0. */
  function ParseDigits(s: string): nat
    requires AllDigits(s)
  {
    if s == [] then 0
    else 10 * ParseDigits(s[..|s| - 1]) + DigitValue(s[|s| - 1])
  }

  lemma {:induction false} ParseNatToDecimal(n: nat)
    ensures ParseDigits(NatToDecimal(n)) == n
    decreases n
  {
    if n >= 10 {
      var s := NatToDecimal(n);
      assert s[..|s| - 1] == NatToDecimal(n / 10);
      ParseNatToDecimal(n / 10);
    }
  }

  /** Numerals of different numbers differ. */
  lemma NatToDecimalInjective(m: nat, n: nat)
    requires NatToDecimal(m) == NatToDecimal(n)
    ensures m == n
  {
    ParseNatToDecimal(m);
    ParseNatToDecimal(n);
  }

  /** A number below 10^w needs at most `w` digits (and always at least one). */
  lemma {:induction false} DecimalLength(n: nat, w: nat)
    requires 1 <= w && n < Pow10(w)
    ensures |NatToDecimal(n)| <= w
    decreases w
  {
    if n >= 10 {
      assert w >= 2;
      DecimalLength(n / 10, w - 1);
    }
  }

  /** An optional '-' followed by at least one digit. */
  predicate IsDecimal(s: string) {
    if |s| > 0 && s[0] == '-' then |s| > 1 && AllDigits(s[1..])
    else |s| > 0 && AllDigits(s)
  }

  /** `fmt`'s `%d`: a '-' for a negative number, then the numeral of its magnitude. */
  function FormatInt(n: int): (s: string)
    ensures IsDecimal(s)
    ensures s[0] == '-' <==> n < 0
    ensures var m := if n < 0 then s[1..] else s; m[0] == '0' ==> n == 0
  {
    if n < 0 then "-" + NatToDecimal(-n) else NatToDecimal(n)
  }

  function ParseInt(s: string): int
    requires IsDecimal(s)
  {
    if s[0] == '-' then -(ParseDigits(s[1..]) as int) else ParseDigits(s)
  }

  lemma ParseFormatInt(n: int)
    ensures ParseInt(FormatInt(n)) == n
  {
    var s := FormatInt(n);
    if n < 0 {
      var d := NatToDecimal(-n);
      assert s == "-" + d;
      assert s[1..] == d;
      ParseNatToDecimal(-n);
      assert ParseInt(s) == -(ParseDigits(d) as int);
    } else {
      assert s == NatToDecimal(n);
      ParseNatToDecimal(n);
    }
  }

  /** A numeral printed by `%d` contains no character but '-' and digits. */
  lemma FormatIntAlphabet(n: int, c: char)
    requires c != '-' && !IsDigit(c)
    ensures c !in FormatInt(n)
  {
  }

  /** Line 42 renders as "42". */
  lemma FormatIntFortyTwo()
    ensures FormatInt(42) == "42"
  {
    assert NatToDecimal(4) == "4";
    assert NatToDecimal(42) == NatToDecimal(4) + [DigitChar(2)];
  }

  lemma {:induction false} ParseZeros(z: string)
    requires forall k :: 0 <= k < |z| ==> z[k] == '0'
    ensures AllDigits(z) && ParseDigits(z) == 0
    decreases |z|
  {
    if z != [] {
      ParseZeros(z[..|z| - 1]);
    }
  }

  /** Leading zeros do not change the value of a string of digits. */
  lemma {:induction false} ParseLeadingZeros(z: string, d: string)
    requires forall k :: 0 <= k < |z| ==> z[k] == '0'
    requires AllDigits(d)
    ensures AllDigits(z + d) && ParseDigits(z + d) == ParseDigits(d)
    decreases |d|
  {
    if d == [] {
      assert z + d == z;
      ParseZeros(z);
    } else {
      var zd := z + d;
      assert zd[..|zd| - 1] == z + d[..|d| - 1];
      ParseLeadingZeros(z, d[..|d| - 1]);
    }
  }

  /** The time package's `appendInt(x, width)`: like `%d`, but the magnitude is
      left-padded with '0' to at least `width` digits. */
  function PadInt(x: int, width: nat): (s: string)
    ensures x >= 0 ==> AllDigits(s) && ParseDigits(s) == x
    ensures x >= 0 && 0 < width && x < Pow10(width) ==> |s| == width
    ensures x < 0 ==> |s| > 1 && s[0] == '-' && AllDigits(s[1..]) && ParseDigits(s[1..]) == -x
    ensures var m := |NatToDecimal(if x < 0 then -x else x)|;
      |s| == (if x < 0 then 1 else 0) + (if m < width then width else m)
  {
    var magnitude: nat := if x < 0 then -x else x;
    var padded := ZeroPadded(magnitude, width);
    if x < 0 then
      assert ("-" + padded)[1..] == padded;
      "-" + padded
    else padded
  }

  /** The numeral of `n`, left-padded with '0' to at least `width` digits. */
  function ZeroPadded(n: nat, width: nat): (s: string)
    ensures AllDigits(s) && ParseDigits(s) == n
    ensures |s| == (if |NatToDecimal(n)| < width then width else |NatToDecimal(n)|)
    ensures 0 < width && n < Pow10(width) ==> |s| == width
  {
    var digits := NatToDecimal(n);
    var zeros := seq(if |digits| < width then width - |digits| else 0, _ => '0');
    ParseNatToDecimal(n);
    ParseLeadingZeros(zeros, digits);
    assert 0 < width && n < Pow10(width) ==> |digits| <= width by {
      if 0 < width && n < Pow10(width) {
        DecimalLength(n, width);
      }
    }
    zeros + digits
  }

}
