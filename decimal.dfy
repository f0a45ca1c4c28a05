/** Decimal numerals as JavaScript's `String(n)` writes integers, with the
    inverse reading used to state what a numeral means. */
module Decimal {

  predicate IsDigit(c: char) {
    '0' <= c <= '9'
  }

  predicate AllDigits(s: string) {
    forall i :: 0 <= i < |s| ==> IsDigit(s[i])
  }

  function DigitValue(c: char): nat
    requires IsDigit(c)
  {
    c as int - '0' as int
  }

  function DigitChar(d: nat): (c: char)
    requires d < 10
    ensures IsDigit(c) && DigitValue(c) == d
  {
    (d + '0' as int) as char
  }

  /** The value of a string of decimal digits (the inverse of NatToString). */
  function ParseDigits(s: string): nat
    requires AllDigits(s)
    decreases |s|
  {
    if s == [] then 0 else ParseDigits(s[..|s| - 1]) * 10 + DigitValue(s[|s| - 1])
  }

  /** `String(n)` for a non-negative integer: shortest numeral, no leading zero. */
  function NatToString(n: nat): (s: string)
    ensures |s| >= 1 && AllDigits(s)
    ensures s[0] != '0' || n == 0
    ensures |s| == 1 <==> n < 10
    ensures |s| == 2 <==> 10 <= n < 100
    decreases n
  {
    if n < 10 then [DigitChar(n)] else NatToString(n / 10) + [DigitChar(n % 10)]
  }

  lemma {:induction false} ParseNatToString(n: nat)
    ensures ParseDigits(NatToString(n)) == n
    decreases n
  {
    if n >= 10 {
      var s := NatToString(n);
      assert s[..|s| - 1] == NatToString(n / 10);
      ParseNatToString(n / 10);
    }
  }

  /** `String(i)` for any integer: a minus sign before the magnitude when negative. */
  function IntToString(i: int): (s: string)
    ensures |s| >= 1
    ensures s[0] == '-' <==> i < 0
    ensures AllDigits(s[1..]) && (i < 0 ==> ParseDigits(s[1..]) == -i)
    ensures i >= 0 ==> AllDigits(s) && ParseDigits(s) == i
    ensures i >= 0 ==> (s[0] == '0' ==> s == "0")
    ensures i < 0 ==> |s| >= 2 && s[1] != '0'
  {
    ParseNatToString(if i < 0 then -i else i);
    if i < 0 then "-" + NatToString(-i) else NatToString(i)
  }

  lemma IntToStringInjective(a: int, b: int)
    ensures IntToString(a) == IntToString(b) ==> a == b
  {
    var sa, sb := IntToString(a), IntToString(b);
    if sa == sb && a < 0 {
      assert sa[1..] == sb[1..];
    }
  }

  /** `s.padStart(2, '0')`: zeros in front until the string is two long;
      a longer string is left as it is. */
  function PadStart2(s: string): (r: string)
    ensures |s| >= 2 ==> r == s
    ensures |s| < 2 ==> |r| == 2 && r[2 - |s|..] == s
    ensures forall i :: 0 <= i < |r| - |s| ==> r[i] == '0'
    decreases 2 - |s|
  {
    if |s| >= 2 then s else PadStart2("0" + s)
  }

  /** A day or month number (below 100) padded to two digits is its tens digit
      followed by its units digit, and reads back as itself. */
  lemma PadStart2Number(n: nat)
    requires n < 100
    ensures PadStart2(NatToString(n)) == [DigitChar(n / 10), DigitChar(n % 10)]
    ensures ParseDigits(PadStart2(NatToString(n))) == n
  {
    var s := NatToString(n);
    if n < 10 {
      assert PadStart2(s) == "0" + s;
    } else {
      assert s == NatToString(n / 10) + [DigitChar(n % 10)];
    }
    var r := PadStart2(s);
    var t := [DigitChar(n / 10)];
    assert r[..1] == t && t[..0] == [];
    assert ParseDigits(t) == n / 10;
  }

  /** Two numbers below 100 with the same two-digit spelling are equal. */
  lemma DigitPairInjective(a: nat, b: nat)
    requires a < 100 && b < 100
    ensures [DigitChar(a / 10), DigitChar(a % 10)] == [DigitChar(b / 10), DigitChar(b % 10)] ==> a == b
  {
    if [DigitChar(a / 10), DigitChar(a % 10)] == [DigitChar(b / 10), DigitChar(b % 10)] {
      assert DigitValue(DigitChar(a / 10)) == DigitValue(DigitChar(b / 10));
      assert DigitValue(DigitChar(a % 10)) == DigitValue(DigitChar(b % 10));
    }
  }
}
