/**
 * Decimal rendering of non-negative integers, as Python's `str(n)` and
 * `f"{n}"` produce it. The controller builds marker ids and labels from it.
 */
module Decimal {

  predicate IsDigit(c: char) {
    '0' <= c <= '9'
  }

  function DigitChar(d: nat): (c: char)
    requires d < 10
    ensures IsDigit(c) && DigitValue(c) == d
  {
    (48 + d) as char
  }

  function DigitValue(c: char): nat
    requires IsDigit(c)
  {
    c as int - 48
  }

  /** The number a text of decimal digits denotes, read most significant digit first. */
  function DigitsValue(r: string): nat
    requires forall i :: 0 <= i < |r| ==> IsDigit(r[i])
    decreases |r|
  {
    if r == [] then 0 else 10 * DigitsValue(r[..|r| - 1]) + DigitValue(r[|r| - 1])
  }

  /** The decimal text of `n`, without sign or leading zeros. */
  function Show(n: nat): (r: string)
    ensures 1 <= |r|
    ensures |r| == 1 <==> n < 10
    ensures forall i :: 0 <= i < |r| ==> IsDigit(r[i])
    ensures DigitsValue(r) == n
    ensures |r| > 1 ==> r[0] != '0'
    decreases n
  {
    if n < 10 then [DigitChar(n)]
    else
      var r := Show(n / 10) + [DigitChar(n % 10)];
      assert r[..|r| - 1] == Show(n / 10);
      r
  }

  /** Distinct numbers have distinct decimal texts. */
  lemma ShowInjective(a: nat, b: nat)
    requires Show(a) == Show(b)
    ensures a == b
  {
    assert a == DigitsValue(Show(a)) == DigitsValue(Show(b)) == b;
  }
}
