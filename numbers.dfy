/**
  How a number is printed inside a template string. The model prints the
  exact decimal expansion of a real, with at most `MaxFractionDigits`
  digits after the point (truncated); it does not reproduce JavaScript's
  shortest round-trip printing of binary floating point.
 */
module NumberFormat {

  const MaxFractionDigits: nat := 15

  predicate IsDigit(c: char)
  {
    '0' <= c <= '9'
  }

  function Digit(d: nat): (c: char)
    requires d < 10
    ensures IsDigit(c)
  {
    ('0' as int + d) as char
  }

  /** The value of a decimal digit. */
  function DigitVal(c: char): (d: nat)
    requires IsDigit(c)
    ensures d < 10 && Digit(d) == c
  {
    c as int - '0' as int
  }

  /** The number a string of decimal digits denotes, most significant first. */
  function DigitsValue(s: string): nat
    requires forall i :: 0 <= i < |s| ==> IsDigit(s[i])
  {
    if s == [] then 0 else DigitsValue(s[..|s| - 1]) * 10 + DigitVal(s[|s| - 1])
  }

  /** 10 to the power `k`, as a real. */
  function Pow10(k: nat): (r: real)
    ensures r >= 1.0
  {
    if k == 0 then 1.0 else 10.0 * Pow10(k - 1)
  }

  /** The value of fraction digits written after a decimal point. */
  function FracValue(s: string): real
    requires forall i :: 0 <= i < |s| ==> IsDigit(s[i])
  {
    if s == [] then 0.0 else (DigitVal(s[0]) as real + FracValue(s[1..])) / 10.0
  }

  /** Decimal digits of a natural number, without leading zeros. */
  function NatStr(n: nat): (r: string)
    ensures 1 <= |r|
    ensures forall i :: 0 <= i < |r| ==> IsDigit(r[i])
    ensures (r[0] == '0') == (n == 0)
    decreases n
  {
    if n < 10 then [Digit(n)] else NatStr(n / 10) + [Digit(n % 10)]
  }

  /** Up to `k` fraction digits of `f`, stopping as soon as nothing is left. */
  function FracStr(f: real, k: nat): (r: string)
    requires 0.0 <= f < 1.0
    ensures |r| <= k
    ensures forall i :: 0 <= i < |r| ==> IsDigit(r[i])
    decreases k
  {
    if f == 0.0 || k == 0 then ""
    else
      var d := (f * 10.0).Floor;
      [Digit(d)] + FracStr(f * 10.0 - d as real, k - 1)
  }

  /** The text a template string shows for the number `x`. */
  function NumStr(x: real): (r: string)
    ensures 1 <= |r|
    decreases if x < 0.0 then 1 else 0
  {
    if x < 0.0 then "-" + NumStr(-x)
    else
      var n := x.Floor;
      var frac := x - n as real;
      if frac == 0.0 then NatStr(n) else NatStr(n) + "." + FracStr(frac, MaxFractionDigits)
  }

  /** The digits `NatStr` prints spell the number back. */
  lemma {:induction false} NatStrValue(n: nat)
    ensures DigitsValue(NatStr(n)) == n
    decreases n
  {
    var r := NatStr(n);
    if n < 10 {
      assert r[..0] == [];
      assert DigitVal(r[0]) == n;
    } else {
      NatStrValue(n / 10);
      assert r[..|r| - 1] == NatStr(n / 10);
      assert DigitVal(r[|r| - 1]) == n % 10;
    }
  }

  /**
    The fraction digits are `f` truncated: what they leave out is less than
    one unit of their last place, and nothing is left out when fewer than
    `k` digits were needed.
   */
  lemma {:induction false} FracStrValue(f: real, k: nat)
    requires 0.0 <= f < 1.0
    ensures var r := FracStr(f, k);
      0.0 <= f - FracValue(r) < 1.0 / Pow10(|r|) &&
      (|r| < k ==> FracValue(r) == f)
    decreases k
  {
    var r := FracStr(f, k);
    if f == 0.0 || k == 0 {
      assert r == "";
    } else {
      var d := (f * 10.0).Floor;
      var g := f * 10.0 - d as real;
      var rest := FracStr(g, k - 1);
      FracStrValue(g, k - 1);
      assert r == [Digit(d)] + rest;
      assert r[1..] == rest;
      assert DigitVal(r[0]) == d;
      assert FracValue(r) == (d as real + FracValue(rest)) / 10.0;
      assert f - FracValue(r) == (g - FracValue(rest)) / 10.0;
      assert Pow10(|r|) == 10.0 * Pow10(|rest|);
    }
  }

  /**
    What `NumStr` prints for a number that is not negative: the digits of its
    whole part, then, unless it is whole, a point and its fraction truncated
    to at most `MaxFractionDigits` digits (exact when fewer are needed).
   */
  lemma NumStrValue(x: real) returns (whole: string, fraction: string)
    requires x >= 0.0
    ensures forall i :: 0 <= i < |whole| ==> IsDigit(whole[i])
    ensures forall i :: 0 <= i < |fraction| ==> IsDigit(fraction[i])
    ensures NumStr(x) == if fraction == "" then whole else whole + "." + fraction
    ensures DigitsValue(whole) == x.Floor
    ensures (fraction == "") == (x == x.Floor as real)
    ensures |fraction| <= MaxFractionDigits
    ensures 0.0 <= x - x.Floor as real - FracValue(fraction) < 1.0 / Pow10(|fraction|)
    ensures |fraction| < MaxFractionDigits ==> x == x.Floor as real + FracValue(fraction)
  {
    var n := x.Floor;
    whole := NatStr(n);
    NatStrValue(n);
    var frac := x - n as real;
    fraction := FracStr(frac, MaxFractionDigits);
    FracStrValue(frac, MaxFractionDigits);
    FracStrEmpty(frac, MaxFractionDigits);
    WholeOrNot(x, whole, fraction);
  }

  /** Fraction digits are written exactly when there is a fraction (and room for a digit). */
  lemma {:induction false} FracStrEmpty(f: real, k: nat)
    requires 0.0 <= f < 1.0 && k > 0
    ensures (FracStr(f, k) == "") == (f == 0.0)
  {
    if f != 0.0 {
      var d := (f * 10.0).Floor;
      assert FracStr(f, k) == [Digit(d)] + FracStr(f * 10.0 - d as real, k - 1);
    }
  }

  lemma {:induction false} WholeOrNot(x: real, whole: string, fraction: string)
    requires x >= 0.0
    requires whole == NatStr(x.Floor)
    requires fraction == FracStr(x - x.Floor as real, MaxFractionDigits)
    requires (fraction == "") == (x - x.Floor as real == 0.0)
    ensures NumStr(x) == if fraction == "" then whole else whole + "." + fraction
  {
  }

  /** A whole number prints as its digits alone. */
  lemma WholeNumber(n: nat)
    ensures NumStr(n as real) == NatStr(n)
  {
  }

  /** The heading sizes for the starting font size of 16px. */
  lemma {:induction false} DefaultHeadingSizes()
    ensures NumStr(16.0 * 1.4) == "22.4"
    ensures NumStr(16.0 * 1.125) == "18"
  {
    assert (22.4).Floor == 22;
    assert NatStr(22) == NatStr(2) + [Digit(2)] == "22";
    assert (0.4 * 10.0).Floor == 4;
    assert FracStr(0.0, MaxFractionDigits - 1) == "";
    assert FracStr(0.4, MaxFractionDigits) == [Digit(4)] + FracStr(0.0, MaxFractionDigits - 1) == "4";
    assert (18.0).Floor == 18;
    assert NatStr(18) == NatStr(1) + [Digit(8)] == "18";
  }
}
