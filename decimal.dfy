/**
 * Decimal printing of numbers as Rust's `format!("{:.*}", d, x)` does it,
 * on exact reals: shifting by powers of ten, rounding half to even, and the
 * precision `x.log10().abs().ceil()` that the executor derives from a lot
 * or tick size.
 *
 * Shifts are written with multiplication and division by the constant 10
 * only (`Scale`, `Unscale`), which keeps every proof in linear arithmetic.
 */
module Decimal {
  import opened Base
  import opened Text

  /** x · 10^k */
  function Scale(x: real, k: nat): real {
    if k == 0 then x else 10.0 * Scale(x, k - 1)
  }

  /** y / 10^k */
  function Unscale(y: real, k: nat): (r: real)
    ensures y > 0.0 ==> r > 0.0
  {
    if k == 0 then y else Unscale(y, k - 1) / 10.0
  }

  lemma {:induction false} ScaleMonotone(x: real, y: real, k: nat)
    requires x <= y
    ensures Scale(x, k) <= Scale(y, k)
    ensures x < y ==> Scale(x, k) < Scale(y, k)
  {
    if k > 0 { ScaleMonotone(x, y, k - 1); }
  }

  lemma {:induction false} UnscaleMonotone(x: real, y: real, k: nat)
    requires x <= y
    ensures Unscale(x, k) <= Unscale(y, k)
  {
    if k > 0 { UnscaleMonotone(x, y, k - 1); }
  }

  lemma {:induction false} ScaleOfUnscale(y: real, k: nat)
    ensures Scale(Unscale(y, k), k) == y
  {
    if k > 0 {
      ScaleDiv10(Unscale(y, k - 1), k - 1);
      ScaleOfUnscale(y, k - 1);
    }
  }

  lemma {:induction false} ScaleDiv10(x: real, k: nat)
    ensures 10.0 * Scale(x / 10.0, k) == Scale(x, k)
  {
    if k > 0 { ScaleDiv10(x, k - 1); }
  }

  lemma {:induction false} UnscaleLinear(a: real, b: real, k: nat)
    ensures Unscale(a - b, k) == Unscale(a, k) - Unscale(b, k)
    ensures Unscale(0.0, k) == 0.0
  {
    if k > 0 { UnscaleLinear(a, b, k - 1); }
  }

  lemma {:induction false} UnscaleZeroIff(y: real, k: nat)
    ensures Unscale(y, k) == 0.0 <==> y == 0.0
  {
    if k > 0 { UnscaleZeroIff(y, k - 1); }
  }

  lemma {:induction false} ScaleOneAtLeastSucc(k: nat)
    ensures Scale(1.0, k) >= (k + 1) as real
  {
    if k > 0 { ScaleOneAtLeastSucc(k - 1); }
  }

  lemma {:induction false} ScaleMonotoneInShift(x: real, i: nat, j: nat)
    requires x >= 0.0 && i <= j
    ensures Scale(x, i) <= Scale(x, j)
  {
    if i < j {
      ScaleMonotoneInShift(x, i, j - 1);
      ScaleMonotone(0.0, x, j - 1);
      ScaleOfZero(j - 1);
    }
  }

  lemma {:induction false} ScaleOfZero(k: nat)
    ensures Scale(0.0, k) == 0.0
  {
    if k > 0 { ScaleOfZero(k - 1); }
  }

  /** 10^-j shifted up by j is 1; shifted by less it stays below 1, by more it exceeds it. */
  lemma {:induction false} ScaleOfPowerOfTen(j: nat, k: nat)
    ensures k == j ==> Scale(Unscale(1.0, j), k) == 1.0
    ensures k < j ==> Scale(Unscale(1.0, j), k) < 1.0
    ensures k > j ==> Scale(Unscale(1.0, j), k) > 1.0
  {
    ScaleOfUnscale(1.0, j);
    var x := Unscale(1.0, j);
    UnscaleMonotone(0.0, 1.0, j);
    UnscaleLinear(0.0, 0.0, j);
    UnscaleZeroIff(1.0, j);
    if k < j {
      // Scale(x, j) = 10^(j-k) · Scale(x, k) and 10^(j-k) > 1
      ScaleSplit(x, k, j - k);
      ScaleOneAtLeastSucc(j - k);
      ScaleOfZero(k);
      ScaleMonotone(0.0, x, k);
      ScaleGrows(Scale(x, k), j - k);
    } else if k > j {
      ScaleSplit(x, j, k - j);
      ScaleGrows(1.0, k - j);
    }
  }

  lemma {:induction false} ScaleNegate(x: real, k: nat)
    ensures Scale(-x, k) == -Scale(x, k)
  {
    if k > 0 { ScaleNegate(x, k - 1); }
  }

  /** n · 10^-k is n / 10^k. */
  lemma {:induction false} UnscaleOfMultiple(n: real, k: nat)
    ensures n * Unscale(1.0, k) == Unscale(n, k)
  {
    if k > 0 {
      UnscaleOfMultiple(n, k - 1);
      assert n * (Unscale(1.0, k - 1) / 10.0) == (n * Unscale(1.0, k - 1)) / 10.0;
    }
  }

  /** Scale(x, a + b) is Scale(Scale(x, a), b). */
  lemma {:induction false} ScaleSplit(x: real, a: nat, b: nat)
    ensures Scale(x, a + b) == Scale(Scale(x, a), b)
  {
    if b > 0 { ScaleSplit(x, a, b - 1); }
  }

  /** A positive number grows under a positive shift. */
  lemma {:induction false} ScaleGrows(x: real, k: nat)
    requires x > 0.0 && k > 0
    ensures Scale(x, k) > x
  {
    if k > 1 { ScaleGrows(x, k - 1); }
  }

  /** The value a printed `Fixed` reads back as. */
  datatype NumText = Fixed(mantissa: int, scale: nat) | Shortest(value: real)

  /**
   * `Fixed(m, d)` is the text of m / 10^d with exactly d digits after the
   * point; `Shortest(v)` is Rust's `{}` of v.  Both read back (`parse::<f64>`)
   * as `NumTextValue`.
   */
  function NumTextValue(t: NumText): real {
    match t
    case Fixed(m, d) => Unscale(m as real, d)
    case Shortest(v) => v
  }

  /** The last `d` decimal digits of `a`, with leading zeros. */
  function LowDigits(a: nat, d: nat): (r: string)
    ensures |r| == d
  {
    if d == 0 then "" else LowDigits(a / 10, d - 1) + [DigitChar(a % 10)]
  }

  /** `a` with its last `d` decimal digits dropped. */
  function HighPart(a: nat, d: nat): nat {
    if d == 0 then a else HighPart(a / 10, d - 1)
  }

  /** The characters of `Fixed(m, d)`: sign, integer part, and d digits after the point. */
  function FixedText(m: int, d: nat): (s: string)
    ensures |s| > 0 && (s[0] == '-' <==> m < 0)
  {
    var a: nat := if m < 0 then -m else m;
    var digits := NatToString(HighPart(a, d)) + (if d == 0 then "" else "." + LowDigits(a, d));
    if m < 0 then "-" + digits else digits
  }

  function RenderNumText(t: NumText, display: real -> string): string {
    match t
    case Fixed(m, d) => FixedText(m, d)
    case Shortest(v) => display(v)
  }

  /** Rounding to the nearest integer, ties to even: how `{:.*}` rounds the exact value. */
  function RoundHalfEven(x: real): (n: int)
    ensures x - 0.5 <= n as real <= x + 0.5
    ensures x == x.Floor as real ==> n == x.Floor
  {
    var f := x.Floor;
    var frac := x - f as real;
    if frac < 0.5 then f
    else if frac > 0.5 then f + 1
    else if f % 2 == 0 then f else f + 1
  }

  /** `format!("{:.*}", d, x)`. */
  function FormatFixed(x: real, d: nat): (t: NumText)
    ensures t.Fixed? && t.scale == d
  {
    Fixed(RoundHalfEven(Scale(x, d)), d)
  }

  /** The rounded mantissa is negative only for a negative value, and never positive for one. */
  lemma FormatFixedSign(x: real, d: nat)
    ensures FormatFixed(x, d).mantissa < 0 ==> x < 0.0
    ensures x < 0.0 ==> FormatFixed(x, d).mantissa <= 0
  {
    ScaleOfZero(d);
    if x < 0.0 {
      ScaleMonotone(x, 0.0, d);
    } else {
      ScaleMonotone(0.0, x, d);
    }
  }

  /**
   * The text of `format!("{:.*}", d, x)`.  Rust takes the sign from the
   * value, not from the rounded digits, so a negative value that rounds to
   * zero still prints its minus sign ("-0.00").
   */
  function FormatFixedText(x: real, d: nat): (s: string)
    ensures |s| > 0 && (s[0] == '-' <==> x < 0.0)
    ensures x >= 0.0 ==> s == FixedText(FormatFixed(x, d).mantissa, d)
  {
    FormatFixedSign(x, d);
    var m := FormatFixed(x, d).mantissa;
    if x < 0.0 && m == 0 then "-" + FixedText(m, d) else FixedText(m, d)
  }

  /** A small loss keeps its sign: -0.001 at two decimals prints "-0.00". */
  lemma SmallLossKeepsSign()
    ensures FormatFixedText(-0.001, 2) == "-0.00"
    ensures FormatFixedText(0.001, 2) == "0.00"
  {
    assert Scale(-0.001, 2) == -0.1;
    assert Scale(0.001, 2) == 0.1;
    assert LowDigits(0, 2) == "00";
  }

  /** The printed value is within half a unit of the last digit. */
  lemma FormatFixedError(x: real, d: nat)
    ensures -Unscale(0.5, d) <= NumTextValue(FormatFixed(x, d)) - x <= Unscale(0.5, d)
  {
    var m := RoundHalfEven(Scale(x, d)) as real;
    ScaleOfUnscale(x, d);
    UnscaleOfScale(x, d);
    UnscaleMonotone(m, Scale(x, d) + 0.5, d);
    UnscaleMonotone(Scale(x, d) - 0.5, m, d);
    UnscaleLinear(Scale(x, d) + 0.5, 0.5, d);
    UnscaleLinear(Scale(x, d) + 0.5, Scale(x, d), d);
    UnscaleLinear(Scale(x, d), 0.5, d);
  }

  lemma {:induction false} UnscaleOfScale(x: real, k: nat)
    ensures Unscale(Scale(x, k), k) == x
  {
    if k > 0 {
      UnscaleOfScale(x, k - 1);
      UnscaleMul10(Scale(x, k - 1), k - 1);
    }
  }

  lemma {:induction false} UnscaleMul10(y: real, k: nat)
    ensures Unscale(10.0 * y, k) / 10.0 == Unscale(y, k)
  {
    if k > 0 { UnscaleMul10(y, k - 1); }
  }

  /** Printing is idempotent: a printed value prints to the same text again. */
  lemma FormatFixedIdempotent(x: real, d: nat)
    ensures FormatFixed(NumTextValue(FormatFixed(x, d)), d) == FormatFixed(x, d)
  {
    ScaleOfUnscale(RoundHalfEven(Scale(x, d)) as real, d);
  }

  /** An exact multiple of 10^-d prints, and reads back, exactly. */
  lemma FormatFixedExact(steps: int, d: nat)
    ensures FormatFixed(Unscale(steps as real, d), d) == Fixed(steps, d)
  {
    ScaleOfUnscale(steps as real, d);
  }

  /**
   * Precisions are looked for up to 400 digits: every positive `f64` is at
   * least 10^-324 and at most 10^309, so the search never reaches the bound
   * for a value the source can hold.
   */
  const MaxDecimals: nat := 400

  /** The least d >= k with x · 10^d >= 1, stopping at `MaxDecimals`. */
  function DecimalsBelowOne(x: real, k: nat): (d: nat)
    requires k <= MaxDecimals
    requires k == 0 || Scale(x, k - 1) < 1.0
    ensures k <= d <= MaxDecimals && (d > 0 ==> Scale(x, d - 1) < 1.0)
    ensures d < MaxDecimals ==> Scale(x, d) >= 1.0
    decreases MaxDecimals - k
  {
    if k == MaxDecimals || Scale(x, k) >= 1.0 then k else DecimalsBelowOne(x, k + 1)
  }

  /** The least d >= k with x <= 10^d. */
  function DecimalsAboveOne(x: real, k: nat): (d: nat)
    requires 1.0 <= x
    requires k == 0 || Scale(1.0, k - 1) < x
    ensures k <= d && x <= Scale(1.0, d) && (d > 0 ==> Scale(1.0, d - 1) < x)
    decreases x.Floor - k
  {
    if x <= Scale(1.0, k) then k
    else
      ScaleOneAtLeastSucc(k);
      DecimalsAboveOne(x, k + 1)
  }

  /**
   * `x.log10().abs().ceil() as usize` for x > 0: below 1 the least d with
   * x · 10^d >= 1, from 1 on the least d with x <= 10^d.
   */
  function LogDecimals(x: real): (d: nat)
    requires x > 0.0
    ensures x < 1.0 && Scale(x, MaxDecimals) >= 1.0 ==>
      Scale(x, d) >= 1.0 && (d > 0 ==> Scale(x, d - 1) < 1.0)
    ensures x >= 1.0 ==> x <= Scale(1.0, d) && (d > 0 ==> Scale(1.0, d - 1) < x)
  {
    if x < 1.0 then DecimalsBelowOne(x, 0) else DecimalsAboveOne(x, 0)
  }

  /** The precision of 10^-k is k. */
  lemma LogDecimalsOfPowerOfTen(k: nat)
    requires k < MaxDecimals
    ensures LogDecimals(Unscale(1.0, k)) == k
  {
    var x := Unscale(1.0, k);
    UnscaleMonotone(0.0, 1.0, k);
    UnscaleLinear(0.0, 0.0, k);
    UnscaleZeroIff(1.0, k);
    ScaleOfPowerOfTen(k, 0);
    var d := LogDecimals(x);
    if k == 0 {
      assert x == 1.0;
    } else {
      assert x < 1.0;
      ScaleOfPowerOfTen(k, MaxDecimals);
      ScaleOfPowerOfTen(k, d);
      if d > k {
        ScaleOfPowerOfTen(k, d - 1);
      }
    }
  }
}
