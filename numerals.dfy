/** Decimal numeric strings, as PHP's is_numeric and its (int)/(float) casts
    and JavaScript's Number() read them.

    A string is scanned as: an optional sign, a run of digits, an optional
    point followed by a run of digits, and whatever is left. Whitespace,
    exponents and hexadecimal forms are not part of this model. */
module Numerals {

  predicate IsDigit(c: char) { '0' <= c <= '9' }

  predicate AllDigits(d: string) { forall i :: 0 <= i < |d| ==> IsDigit(d[i]) }

  function DigitValue(c: char): nat
    requires IsDigit(c)
  {
    (c as int) - ('0' as int)
  }

  /** Length of the longest prefix of s made only of digits. */
  function DigitRun(s: string): (n: nat)
    ensures n <= |s| && AllDigits(s[..n])
    ensures n < |s| ==> !IsDigit(s[n])
  {
    if s != [] && IsDigit(s[0]) then
      var n := 1 + DigitRun(s[1..]);
      assert s[..n] == [s[0]] + s[1..][..n - 1];
      n
    else 0
  }

  /** Value of a digit string, most significant digit first. */
  function DigitsValue(d: string): nat
    requires AllDigits(d)
  {
    if d == [] then 0 else 10 * DigitsValue(d[..|d| - 1]) + DigitValue(d[|d| - 1])
  }

  function Pow10(n: nat): (p: nat)
    ensures p >= 1
  {
    if n == 0 then 1 else 10 * Pow10(n - 1)
  }

  /** A digit string of length n denotes less than 10^n. */
  lemma {:induction false} DigitsValueBelowPow10(d: string)
    requires AllDigits(d)
    ensures DigitsValue(d) < Pow10(|d|)
  {
    if d != [] {
      DigitsValueBelowPow10(d[..|d| - 1]);
    }
  }

  /** The parts of a scanned decimal. */
  datatype Decimal = Decimal(negative: bool, whole: string, point: bool, fraction: string, rest: string)

  function Scan(s: string): (d: Decimal)
    ensures AllDigits(d.whole) && AllDigits(d.fraction)
    ensures !d.point ==> d.fraction == []
  {
    var signed := s != [] && (s[0] == '+' || s[0] == '-');
    var body := if signed then s[1..] else s;
    var w := DigitRun(body);
    var afterWhole := body[w..];
    if afterWhole != [] && afterWhole[0] == '.' then
      var f := DigitRun(afterWhole[1..]);
      Decimal(signed && s[0] == '-', body[..w], true, afterWhole[1..][..f], afterWhole[1..][f..])
    else
      Decimal(signed && s[0] == '-', body[..w], false, [], afterWhole)
  }

  /** The whole string is a decimal number: at least one digit, nothing left over. */
  predicate IsNumericString(s: string)
  {
    var d := Scan(s);
    d.rest == [] && (d.whole != [] || d.fraction != [])
  }

  /** Value of the leading integer part (the sign and the digits before any point);
      0 when there are none. */
  function IntPrefix(s: string): int
  {
    var d := Scan(s);
    var m: int := DigitsValue(d.whole);
    if d.negative then -m else m
  }

  /** Value of the leading decimal; 0 when there are no digits. */
  function RealPrefix(s: string): real
  {
    var d := Scan(s);
    var m := DigitsValue(d.whole) as real + DigitsValue(d.fraction) as real / Pow10(|d.fraction|) as real;
    if d.negative then -m else m
  }

  /** Truncation toward zero, the rule of PHP's (int) cast of a float. */
  function Truncate(r: real): int
  {
    if r >= 0.0 then r.Floor else -((-r).Floor)
  }

  /** Truncation keeps the sign and loses less than one unit. */
  lemma TruncateBounds(r: real)
    ensures r >= 0.0 ==> 0 <= Truncate(r) && Truncate(r) as real <= r < Truncate(r) as real + 1.0
    ensures r < 0.0 ==> Truncate(r) <= 0 && Truncate(r) as real - 1.0 < r <= Truncate(r) as real
  {
  }

  lemma QuotientBelowOne(n: real, p: real)
    requires 0.0 <= n < p
    ensures 0.0 <= n / p < 1.0
  {
    assert n / p * p == n;
  }

  lemma FloorOfWholeAndFraction(w: nat, f: real)
    requires 0.0 <= f < 1.0
    ensures (w as real + f).Floor == w
  {
  }

  /** Casting a decimal string to float and truncating gives what a direct
      integer cast gives: the fraction digits never carry into the integer part. */
  lemma TruncateRealPrefix(s: string)
    ensures Truncate(RealPrefix(s)) == IntPrefix(s)
  {
    var d := Scan(s);
    var w := DigitsValue(d.whole);
    var p := Pow10(|d.fraction|);
    DigitsValueBelowPow10(d.fraction);
    var n := DigitsValue(d.fraction);
    assert (n as real) < (p as real);
    var frac := n as real / p as real;
    QuotientBelowOne(n as real, p as real);
    FloorOfWholeAndFraction(w, frac);
    var m := w as real + frac;
    assert RealPrefix(s) == if d.negative then -m else m;
  }
}
