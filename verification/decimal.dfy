/** Decimal rendering of integers, as Python's `"%d" % n` produces it, and the
    parser that inverts it. The fee-estimate gauge names embed the confirmation
    target in decimal, so distinct targets must give distinct names. */
module Decimal {

  predicate IsDigit(c: char) {
    '0' <= c <= '9'
  }

  function DigitChar(d: nat): (c: char)
    requires d < 10
    ensures IsDigit(c)
  {
    ['0', '1', '2', '3', '4', '5', '6', '7', '8', '9'][d]
  }

  function DigitValue(c: char): (d: nat)
    requires IsDigit(c)
    ensures d < 10
  {
    (c as int - '0' as int) as nat
  }

  lemma DigitRoundTrip(d: nat)
    requires d < 10
    ensures DigitValue(DigitChar(d)) == d
  {
  }

  /** Most significant digit first, no leading zeros, "0" for zero. */
  function NatToString(n: nat): (s: string)
    ensures |s| > 0
    ensures forall i :: 0 <= i < |s| ==> IsDigit(s[i])
    decreases n
  {
    if n < 10 then [DigitChar(n)]
    else NatToString(n / 10) + [DigitChar(n % 10)]
  }

  /** `"%d" % n`: a minus sign for negative numbers, then the magnitude. */
  function IntToString(n: int): (s: string)
    ensures |s| > 0
  {
    if n < 0 then "-" + NatToString(-n) else NatToString(n)
  }

  function ParseNat(s: string): (n: nat)
    requires forall i :: 0 <= i < |s| ==> IsDigit(s[i])
    decreases |s|
  {
    if |s| == 0 then 0
    else ParseNat(s[..|s| - 1]) * 10 + DigitValue(s[|s| - 1])
  }

  function ParseInt(s: string): int
    requires |s| > 0
    requires s[0] == '-' ==> forall i :: 1 <= i < |s| ==> IsDigit(s[i])
    requires s[0] != '-' ==> forall i :: 0 <= i < |s| ==> IsDigit(s[i])
  {
    if s[0] == '-' then 0 - ParseNat(s[1..]) as int else ParseNat(s)
  }

  lemma {:induction false} ParseNatToString(n: nat)
    ensures ParseNat(NatToString(n)) == n
    decreases n
  {
    var s := NatToString(n);
    if n < 10 {
      assert s[..|s| - 1] == [];
      DigitRoundTrip(n);
    } else {
      var p := NatToString(n / 10);
      assert s == p + [DigitChar(n % 10)];
      assert s[..|s| - 1] == p;
      ParseNatToString(n / 10);
      DigitRoundTrip(n % 10);
    }
  }

  /** The rendering is read back exactly, so it loses no information. */
  lemma IntToStringRoundTrip(n: int)
    ensures var s := IntToString(n);
            (s[0] == '-' <==> n < 0) &&
            (s[0] == '-' ==> forall i :: 1 <= i < |s| ==> IsDigit(s[i])) &&
            (s[0] != '-' ==> forall i :: 0 <= i < |s| ==> IsDigit(s[i])) &&
            ParseInt(s) == n
  {
    var s := IntToString(n);
    if n < 0 {
      var m := NatToString(-n);
      assert s == "-" + m;
      assert s[1..] == m;
      ParseNatToString(-n);
    } else {
      assert s == NatToString(n);
      assert IsDigit(s[0]);
      ParseNatToString(n);
    }
  }

  lemma IntToStringInjective(a: int, b: int)
    ensures IntToString(a) == IntToString(b) <==> a == b
  {
    IntToStringRoundTrip(a);
    IntToStringRoundTrip(b);
  }
}
