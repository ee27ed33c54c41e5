/**
 * The exact fixed-point conversion at the bottom of the shared ledger: a double
 * is decoded from its bit fields and scaled by 10^9 in unsigned 128-bit integers.
 *
 * `ToCapacityUnits` follows the program's integer code; `Units` says, over the
 * reals, which integer that must be.
 */
module CapacityUnits {
  import opened Wrappers
  import opened Powers

  const UNITS_PER_GB: nat := 1_000_000_000
  /** 2^128: the first value a u128 cannot hold. */
  const U128_LIMIT: nat := 0x1_0000_0000_0000_0000_0000_0000_0000_0000
  type U128 = n: nat | n < U128_LIMIT
  const FRACTION_LIMIT: nat := 0x10_0000_0000_0000

  datatype Rounding = Down | Up
  datatype UnitsError = InvalidCapacity | OutOfRange

  /** The three bit fields of a binary64 value (section 3.4 of IEEE 754-2019). */
  datatype Fields = Fields(negative: bool, exponentBits: nat, fraction: nat)
  type Double = d: Fields | d.exponentBits < 2048 && d.fraction < FRACTION_LIMIT
    witness Fields(false, 0, 0)

  predicate IsFinite(d: Double) { d.exponentBits != 2047 }

  predicate IsZero(d: Double) { d.exponentBits == 0 && d.fraction == 0 }

  function Significand(d: Double): nat {
    if d.exponentBits == 0 then d.fraction else FRACTION_LIMIT + d.fraction
  }

  function Exponent(d: Double): int {
    if d.exponentBits == 0 then -1074 else d.exponentBits - 1023 - 52
  }

  function Magnitude(d: Double): real {
    if Exponent(d) >= 0 then (Significand(d) * Pow2(Exponent(d))) as real
    else Significand(d) as real / Pow2(-Exponent(d)) as real
  }

  /** The number a finite double denotes. */
  function Value(d: Double): real
    requires IsFinite(d)
  {
    if d.negative then -Magnitude(d) else Magnitude(d)
  }

  function CheckedMul(a: nat, b: nat): Option<nat> {
    if a * b < U128_LIMIT then Some(a * b) else None
  }

  function CheckedAdd(a: nat, b: nat): Option<nat> {
    if a + b < U128_LIMIT then Some(a + b) else None
  }

  function CheckedShl(shift: nat): Option<nat> {
    if shift < 128 then Some(Pow2(shift)) else None
  }

  /** Division in integers, with one more for a remainder when rounding up. */
  function Divided(scaled: nat, divisor: nat, rounding: Rounding): Result<nat, UnitsError>
    requires divisor > 0
  {
    var quotient := scaled / divisor;
    if rounding.Down? || scaled % divisor == 0 then Success(quotient)
    else
      match CheckedAdd(quotient, 1)
      case None => Failure(OutOfRange)
      case Some(units) => Success(units)
  }

  /** The program's conversion, branch by branch. */
  function ToCapacityUnits(d: Double, rounding: Rounding): Result<nat, UnitsError> {
    if !IsFinite(d) || (d.negative && !IsZero(d)) then Failure(InvalidCapacity)
    else if IsZero(d) then Success(0)
    else
      match CheckedMul(Significand(d), UNITS_PER_GB)
      case None => Failure(OutOfRange)
      case Some(scaled) =>
        if Exponent(d) >= 0 then
          match CheckedShl(Exponent(d))
          case None => Failure(OutOfRange)
          case Some(factor) =>
            match CheckedMul(scaled, factor)
            case None => Failure(OutOfRange)
            case Some(units) => Success(units)
        else if -Exponent(d) >= 128 then
          Success(if rounding.Down? then 0 else 1)
        else
          Divided(scaled, Pow2(-Exponent(d)), rounding)
  }

  function Ceiling(x: real): int { -((-x).Floor) }

  /**
   * The reference: the floor or the ceiling of `gb` * 10^9, refused when it does
   * not fit a u128. The rest of the model uses this on reals.
   */
  function Units(gb: real, rounding: Rounding): (r: Result<U128, UnitsError>)
    ensures r.Success? && rounding.Up? ==>
              gb * UNITS_PER_GB as real <= r.value as real < gb * UNITS_PER_GB as real + 1.0
    ensures r.Success? && rounding.Down? ==>
              gb * UNITS_PER_GB as real - 1.0 < r.value as real <= gb * UNITS_PER_GB as real
  {
    if gb < 0.0 then Failure(InvalidCapacity)
    else
      var x := gb * UNITS_PER_GB as real;
      var units := if rounding.Down? then x.Floor else Ceiling(x);
      if units >= U128_LIMIT then Failure(OutOfRange) else Success(units)
  }

  lemma {:induction false} Pow2Monotone(a: nat, b: nat)
    requires a <= b
    ensures Pow2(a) <= Pow2(b)
    decreases b
  {
    if a < b { Pow2Monotone(a, b - 1); }
  }

  lemma Pow2Of128()
    ensures Pow2(128) == U128_LIMIT
  {
    assert Pow2(1) == 2;
    Squared(1, 2);
    Squared(2, 4);
    Squared(4, 0x10);
    Squared(8, 0x100);
    Squared(16, 0x1_0000);
    Squared(32, 0x1_0000_0000);
    Squared(64, 0x1_0000_0000_0000_0000);
  }

  lemma Squared(n: nat, p: nat)
    requires Pow2(n) == p
    ensures Pow2(2 * n) == p * p
  {
    Pow2Sum(n, n);
  }

  lemma {:induction false} Pow2Sum(a: nat, b: nat)
    ensures Pow2(a + b) == Pow2(a) * Pow2(b)
  {
    if a > 0 { Pow2Sum(a - 1, b); }
  }

  /** Integer division computes the floor of a rational quotient; with a remainder the ceiling is one more. */
  lemma QuotientRounds(scaled: nat, divisor: nat)
    requires divisor > 0
    ensures (scaled as real / divisor as real).Floor == scaled / divisor
    ensures Ceiling(scaled as real / divisor as real)
            == scaled / divisor + (if scaled % divisor == 0 then 0 else 1)
  {
    var q, r, d := scaled / divisor, scaled % divisor, divisor as real;
    assert scaled == q * divisor + r;
    assert (q * divisor) as real == q as real * d;
    QuotientSplits(scaled as real, q as real, r as real, d);
    ProperFraction(r as real, d);
  }

  lemma QuotientSplits(a: real, q: real, r: real, d: real)
    requires d > 0.0 && a == q * d + r
    ensures a / d == q + r / d
  {
    assert (a / d) * d == a;
    assert (q + r / d) * d == q * d + r;
    SameProduct(a / d, q + r / d, d, a);
  }

  lemma SameProduct(x: real, y: real, d: real, p: real)
    requires d > 0.0 && x * d == p
    ensures y * d == p <==> x == y
  {
    assert (x - y) * d == p - y * d;
  }

  lemma ProperFraction(r: real, d: real)
    requires 0.0 <= r < d
    ensures 0.0 <= r / d < 1.0
    ensures r == 0.0 ==> r / d == 0.0
    ensures r > 0.0 ==> r / d > 0.0
  {
    QuotientGrows(r, d, d);
    QuotientOfSelf(d);
    if r > 0.0 {
      QuotientGrows(0.0, r, d);
    }
  }

  lemma QuotientOfSelf(d: real)
    requires d > 0.0
    ensures d / d == 1.0
  {
  }

  lemma QuotientGrows(a: real, b: real, d: real)
    requires d > 0.0 && a < b
    ensures a / d < b / d
  {
  }

  /** `x` doubled or halved |`e`| times. */
  function TimesPow2(x: real, e: int): real
    decreases if e < 0 then -e else e
  {
    if e == 0 then x else if e > 0 then 2.0 * TimesPow2(x, e - 1) else TimesPow2(x, e + 1) / 2.0
  }

  lemma Doubles(n: nat, p: nat)
    ensures n * (2 * p) == 2 * (n * p)
  {
  }

  lemma Halves(x: real, p: real)
    requires p > 0.0
    ensures x / (2.0 * p) == x / p / 2.0
  {
    assert (x / p / 2.0) * (2.0 * p) == x;
  }

  lemma {:induction false} ProductDoubles(n: nat, e: nat)
    ensures (n * Pow2(e)) as real == TimesPow2(n as real, e)
  {
    if e > 0 {
      ProductDoubles(n, e - 1);
      Doubles(n, Pow2(e - 1));
    }
  }

  lemma {:induction false} QuotientHalves(n: nat, e: nat)
    ensures n as real / Pow2(e) as real == TimesPow2(n as real, 0 - e)
  {
    if e > 0 {
      QuotientHalves(n, e - 1);
      Halves(n as real, Pow2(e - 1) as real);
    }
  }

  /** The number section 3.4 of IEEE 754-2019 gives: normal numbers have an implicit leading bit, the bias is 1023. */
  lemma ValueIsBinary64(d: Double)
    requires IsFinite(d)
    ensures var magnitude := if d.exponentBits == 0 then TimesPow2(d.fraction as real, -1022 - 52)
                             else TimesPow2((0x10_0000_0000_0000 + d.fraction) as real, d.exponentBits - 1023 - 52);
            Value(d) == if d.negative then -magnitude else magnitude
  {
    if Exponent(d) >= 0 {
      ProductDoubles(Significand(d), Exponent(d));
    } else {
      QuotientHalves(Significand(d), -Exponent(d));
    }
  }

  /** The integer code computes the exact rounded product, and refuses exactly the products at or above 2^128. */
  lemma ToCapacityUnitsIsExact(d: Double, rounding: Rounding)
    requires IsFinite(d)
    ensures ToCapacityUnits(d, rounding) == Units(Value(d), rounding)
    ensures ToCapacityUnits(d, rounding) == Failure(OutOfRange)
            <==> Value(d) * UNITS_PER_GB as real >= U128_LIMIT as real
  {
    if IsZero(d) {
      assert Value(d) == 0.0;
    } else {
      var sig, e := Significand(d), Exponent(d);
      assert 0 < sig < 0x20_0000_0000_0000;
      SignOfValue(d);
      if !d.negative {
        if e >= 0 {
          NonNegativeExponent(d, rounding);
        } else {
          NegativeExponent(d, rounding);
        }
      }
    }
  }

  lemma SignOfValue(d: Double)
    requires IsFinite(d) && !IsZero(d)
    ensures Value(d) < 0.0 <==> d.negative
  {
    var sig, e := Significand(d), Exponent(d);
    if e >= 0 {
      assert sig * Pow2(e) >= 1 by { Positive(sig, Pow2(e)); }
    } else {
      assert sig as real / Pow2(-e) as real > 0.0;
    }
  }

  lemma Positive(a: nat, b: nat)
    requires a >= 1 && b >= 1
    ensures a * b >= b
  {
  }

  /** (sig * u) * f and (sig * f) * u are the same number, over nat and over real. */
  lemma ScaleLast(sig: nat, u: nat, f: nat)
    ensures ((sig * f) as real) * u as real == ((sig * u) * f) as real
  {
    assert (sig * u) * f == (sig * f) * u;
  }

  lemma ScaleQuotient(sig: nat, u: nat, divisor: nat)
    requires divisor > 0
    ensures (sig as real / divisor as real) * u as real == (sig * u) as real / divisor as real
  {
  }

  lemma NonNegativeExponent(d: Double, rounding: Rounding)
    requires IsFinite(d) && !IsZero(d) && !d.negative && Exponent(d) >= 0
    ensures ToCapacityUnits(d, rounding) == Units(Value(d), rounding)
    ensures ToCapacityUnits(d, rounding) == Failure(OutOfRange)
            <==> Value(d) * UNITS_PER_GB as real >= U128_LIMIT as real
  {
    var sig, e := Significand(d), Exponent(d);
    var scaled, factor, x := sig * UNITS_PER_GB, Pow2(e), Value(d) * UNITS_PER_GB as real;
    var product := scaled * factor;
    assert x == product as real by { ScaleLast(sig, UNITS_PER_GB, factor); }
    assert product >= factor by { Positive(scaled, factor); }
    assert x.Floor == product && Ceiling(x) == product;
    assert Value(d) >= 0.0 by { SignOfValue(d); }
    if e >= 128 {
      Pow2Of128();
      Pow2Monotone(128, e);
    }
  }

  lemma NegativeExponent(d: Double, rounding: Rounding)
    requires IsFinite(d) && !IsZero(d) && !d.negative && Exponent(d) < 0
    ensures ToCapacityUnits(d, rounding) == Units(Value(d), rounding)
    ensures ToCapacityUnits(d, rounding) == Failure(OutOfRange)
            <==> Value(d) * UNITS_PER_GB as real >= U128_LIMIT as real
  {
    var sig, shift := Significand(d), -Exponent(d);
    var scaled, divisor, x := sig * UNITS_PER_GB, Pow2(shift), Value(d) * UNITS_PER_GB as real;
    var q, r := scaled / divisor, scaled % divisor;
    assert x == scaled as real / divisor as real by { ScaleQuotient(sig, UNITS_PER_GB, divisor); }
    assert x.Floor == q && Ceiling(x) == q + (if r == 0 then 0 else 1) by { QuotientRounds(scaled, divisor); }
    assert Value(d) >= 0.0 by { SignOfValue(d); }
    assert 0 < scaled < U128_LIMIT - 1;
    assert x <= scaled as real by { QuotientAtMost(scaled, divisor); }
    if shift >= 128 {
      assert divisor > scaled by { Pow2Of128(); Pow2Monotone(128, shift); }
      QuotientOfSmaller(scaled, divisor);
    }
  }

  lemma QuotientAtMost(a: nat, b: nat)
    requires b > 0
    ensures a as real / b as real <= a as real
  {
  }

  lemma QuotientOfSmaller(a: nat, b: nat)
    requires a < b
    ensures a / b == 0 && a % b == a
  {
  }
}
