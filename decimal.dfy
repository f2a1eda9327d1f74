/** Decimal rendering and reading of integers, as the program gets them from
    Go's `strconv.Itoa` and `strconv.Atoi`. */
module Decimal {

  predicate IsDigit(c: char) {
    '0' <= c <= '9'
  }

  function DigitChar(d: nat): (c: char)
    requires d < 10
    ensures IsDigit(c) && c as int - '0' as int == d
  {
    (d + '0' as int) as char
  }

  /** Decimal digits of `n`, most significant first, without leading zeros. */
  function NatToString(n: nat): (s: string)
    ensures |s| > 0
    ensures forall i :: 0 <= i < |s| ==> IsDigit(s[i])
    decreases n
  {
    if n < 10 then [DigitChar(n)] else NatToString(n / 10) + [DigitChar(n % 10)]
  }

  /** `strconv.Itoa`: an optional minus sign followed by the decimal digits. */
  function Itoa(n: int): (s: string)
    ensures |s| > 0 && ' ' !in s
    ensures (s[0] == '-') <==> n < 0
  {
    if n < 0 then "-" + NatToString(-n) else NatToString(n)
  }

  /** The number a string of decimal digits denotes. */
  function DigitsValue(s: string): nat
    requires forall i :: 0 <= i < |s| ==> IsDigit(s[i])
  {
    if s == [] then 0
    else DigitsValue(s[..|s| - 1]) * 10 + AtoiDigit(s[|s| - 1])
  }

  lemma {:induction false} DigitsValueOfNatToString(n: nat)
    ensures DigitsValue(NatToString(n)) == n
    decreases n
  {
    var s := NatToString(n);
    if n >= 10 {
      DigitsValueOfNatToString(n / 10);
      assert s[..|s| - 1] == NatToString(n / 10);
    }
  }

  /** Distinct integers have distinct renderings. */
  lemma ItoaInjective(a: int, b: int)
    requires Itoa(a) == Itoa(b)
    ensures a == b
  {
    if a < 0 {
      assert Itoa(a)[1..] == NatToString(-a);
      assert Itoa(b)[1..] == NatToString(-b);
      DigitsValueOfNatToString(-a);
      DigitsValueOfNatToString(-b);
    } else {
      DigitsValueOfNatToString(a);
      DigitsValueOfNatToString(b);
    }
  }

  /** `strconv.Atoi` applied to a one-character string with its error
      ignored: a digit gives its value, anything else gives 0. */
  function AtoiDigit(c: char): (n: nat)
    ensures n < 10
    ensures IsDigit(c) ==> DigitChar(n) == c
    ensures !IsDigit(c) ==> n == 0
  {
    if IsDigit(c) then c as int - '0' as int else 0
  }

  lemma ItoaOfDigit(d: nat)
    requires d < 10
    ensures Itoa(d) == [DigitChar(d)]
  {
  }
}
