/**
 * Decimal rendering of non-negative integers, as JavaScript's `String(n)` and
 * `n.toString()` write an integral number below 10^21 (larger numbers are
 * written with an exponent): the digits of `n`, most significant first, with no
 * sign and no leading zero. `Parse` is the independent reading back that the
 * round trip is stated against.
 */
module Decimal {
  import opened Wrappers

  predicate IsDigit(c: char) {
    '0' <= c <= '9'
  }

  predicate AllDigits(s: string) {
    forall i :: 0 <= i < |s| ==> IsDigit(s[i])
  }

  function DigitChar(d: nat): (c: char)
    requires d < 10
    ensures IsDigit(c)
  {
    ('0' as int + d) as char
  }

  function DigitValue(c: char): (d: nat)
    requires IsDigit(c)
    ensures d < 10
  {
    c as int - '0' as int
  }

  /** The number a string of decimal digits denotes, most significant digit first. */
  function Value(s: string): nat
    requires AllDigits(s)
  {
    if |s| == 0 then 0 else Value(s[..|s| - 1]) * 10 + DigitValue(s[|s| - 1])
  }

  /** The canonical decimal string of `n`. */
  function FromNat(n: nat): (s: string)
    ensures 1 <= |s|
    ensures AllDigits(s)
    ensures Value(s) == n
    ensures |s| > 1 ==> s[0] != '0'
    decreases n
  {
    if n < 10 then [DigitChar(n)]
    else
      var prefix := FromNat(n / 10);
      var s := prefix + [DigitChar(n % 10)];
      assert s[..|s| - 1] == prefix;
      s
  }

  /** Reads a canonical decimal string: non-empty, digits only, no leading zero. */
  function Parse(s: string): (r: Option<nat>)
    ensures r.Some? <==> 1 <= |s| && AllDigits(s) && (|s| > 1 ==> s[0] != '0')
  {
    if 1 <= |s| && AllDigits(s) && (|s| > 1 ==> s[0] != '0') then Some(Value(s)) else None
  }

  /** Reading back the rendering of any natural number gives that number. */
  lemma ParseFromNat(n: nat)
    ensures Parse(FromNat(n)) == Some(n)
  {
  }

  /** The rendering is injective: distinct numbers have distinct decimal strings. */
  lemma FromNatInjective(m: nat, n: nat)
    ensures FromNat(m) == FromNat(n) <==> m == n
  {
    if FromNat(m) == FromNat(n) {
      ParseFromNat(m);
      ParseFromNat(n);
    }
  }
}
