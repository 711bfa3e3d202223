/**
 * The degree mapper: a raw count is scaled against the configured maximum
 * onto the angles 0..359 that drive the stepper-motor indicator.
 *
 * The conversion follows the plugin's own steps in exact (real) arithmetic:
 * divide 359 by the maximum, multiply by the count, floor, clamp above 359,
 * round. The lemmas below relate it to the integer formula
 * min(359, floor(count * 359 / max)) and prove the range, saturation, zero
 * and monotonicity properties of that formula.
 */
module DegreeMapper {

  /** The largest angle the indicator is driven to. */
  const MaxDegrees: int := 359

  /** The result of a conversion: an angle, or the error PHP raises on division by zero. */
  datatype Conversion = Degrees(value: int) | DivisionByZero

  /** PHP's round() with its default mode: to the nearest integer, halves away from zero. */
  function Round(x: real): (n: int)
    ensures 0.0 <= x ==> n as real - 0.5 <= x < n as real + 0.5
    ensures x < 0.0 ==> n as real - 0.5 < x <= n as real + 0.5
  {
    if 0.0 <= x then (x + 0.5).Floor else -((-x + 0.5).Floor)
  }

  /** Integer division rounding toward negative infinity, for a divisor of either sign. */
  function FloorDiv(a: int, b: int): (q: int)
    requires b != 0
    ensures 0 < b ==> q * b <= a < q * b + b
    ensures b < 0 ==> q * b + b < a <= q * b
  {
    if 0 < b then a / b else (-a) / (-b)
  }

  function Min(a: int, b: int): int {
    if a <= b then a else b
  }

  /**
   * convert_to_degrees with the already integer-converted maximum `max`.
   * A zero maximum is PHP's division by zero. There is no lower clamp, so a
   * negative maximum yields a negative angle.
   */
  function ToDegrees(count: nat, max: int): (c: Conversion)
    ensures c.DivisionByZero? <==> max == 0
  {
    if max == 0 then DivisionByZero
    else
      var steps := (MaxDegrees as real) / (max as real);
      var degrees := ((count as real) * steps).Floor;
      var clamped := if MaxDegrees < degrees then MaxDegrees else degrees;
      Degrees(Round(clamped as real))
  }

  /** Rounding an integer gives it back: the final round() changes nothing. */
  lemma RoundOfInteger(n: int)
    ensures Round(n as real) == n
  {
  }

  lemma MulMonotone(x: int, y: int, b: int)
    requires x <= y && 0 < b
    ensures x * b <= y * b
  {
  }

  lemma MulCancel(x: int, y: int, b: int)
    requires 0 < b && x * b < y * b
    ensures x < y
  {
  }

  lemma RealFractionBounds(u: real, b: real)
    requires 0.0 < b
    ensures 0.0 <= u * b ==> 0.0 <= u
    ensures u * b < b ==> u < 1.0
  {
  }

  lemma RealScale(c: real, k: real, m: real)
    requires m != 0.0
    ensures c * (k / m) == (c * k) / m
    ensures (c * k) / m == (-(c * k)) / (-m)
  {
  }

  lemma RealQuotientRemainder(a: real, b: real, q: real, r: real)
    requires b != 0.0 && a == q * b + r
    ensures (a / b - q) * b == r
  {
  }

  lemma CastProduct(x: int, y: int)
    ensures (x * y) as real == (x as real) * (y as real)
  {
  }

  lemma FloorUnique(x: real, q: int)
    requires q as real <= x < q as real + 1.0
    ensures x.Floor == q
  {
  }

  lemma CastQuotientRemainder(a: int, b: int, q: int, r: int)
    requires a == q * b + r
    ensures a as real == (q as real) * (b as real) + r as real
  {
    CastProduct(q, b);
  }

  lemma RealFloorOfDivision(a: real, b: real, q: int, r: real)
    requires 0.0 < b && a == (q as real) * b + r && 0.0 <= r < b
    ensures (a / b).Floor == q
  {
    RealQuotientRemainder(a, b, q as real, r);
    var u := a / b - q as real;
    assert u * b == r;
    RealFractionBounds(u, b);
    FloorUnique(a / b, q);
  }

  /** The floor of an exact quotient by a positive divisor is Euclidean division. */
  lemma FloorOfQuotient(a: int, b: int)
    requires 0 < b
    ensures ((a as real) / (b as real)).Floor == a / b
  {
    CastQuotientRemainder(a, b, a / b, a % b);
    RealFloorOfDivision(a as real, b as real, a / b, (a % b) as real);
  }

  /** The conversion equals min(359, floor(count * 359 / max)) for every non-zero maximum. */
  lemma ToDegreesFormula(count: nat, max: int)
    requires max != 0
    ensures ToDegrees(count, max) == Degrees(Min(MaxDegrees, FloorDiv(count * MaxDegrees, max)))
  {
    var a := count * MaxDegrees;
    var scaled := (count as real) * ((MaxDegrees as real) / (max as real));
    assert (count as real) * (MaxDegrees as real) == a as real;
    RealScale(count as real, MaxDegrees as real, max as real);
    if 0 < max {
      FloorOfQuotient(a, max);
      assert scaled.Floor == FloorDiv(a, max);
    } else {
      assert scaled == ((-a) as real) / ((-max) as real);
      FloorOfQuotient(-a, -max);
      assert scaled.Floor == FloorDiv(a, max);
    }
    RoundOfInteger(Min(MaxDegrees, scaled.Floor));
  }

  /** For a positive maximum the angle lies in 0..359. */
  lemma ToDegreesInRange(count: nat, max: int)
    requires 0 < max
    ensures ToDegrees(count, max).Degrees?
    ensures 0 <= ToDegrees(count, max).value <= MaxDegrees
  {
    ToDegreesFormula(count, max);
  }

  /**
   * For a positive maximum the angle is floor(count * 359 / max) when that is
   * at most 359, and 359 otherwise: the clamp changes nothing below the limit.
   */
  lemma ToDegreesClampsOnlyAboveLimit(count: nat, max: int)
    requires 0 < max
    ensures ToDegrees(count, max).Degrees?
    ensures var q := count * MaxDegrees / max;
      ToDegrees(count, max).value == if q <= MaxDegrees then q else MaxDegrees
  {
    ToDegreesFormula(count, max);
  }

  /** Below the maximum the angle is the exact floor of the proportional value. */
  lemma ToDegreesIsProportional(count: nat, max: int)
    requires count < max
    ensures ToDegrees(count, max).Degrees?
    ensures var d := ToDegrees(count, max).value;
      d * max <= count * MaxDegrees < (d + 1) * max
  {
    ToDegreesFormula(count, max);
    var q := FloorDiv(count * MaxDegrees, max);
    MulMonotone(count + 1, max, MaxDegrees);
    MulCancel(q, MaxDegrees, max);
  }

  /** The indicator is at full scale exactly when the count reaches the maximum. */
  lemma ToDegreesSaturates(count: nat, max: int)
    requires 0 < max
    ensures ToDegrees(count, max).Degrees?
    ensures ToDegrees(count, max).value == MaxDegrees <==> max <= count
  {
    ToDegreesFormula(count, max);
    var q := FloorDiv(count * MaxDegrees, max);
    if max <= count {
      MulMonotone(max, count, MaxDegrees);
      MulCancel(MaxDegrees, q + 1, max);
    } else {
      MulMonotone(count + 1, max, MaxDegrees);
      MulCancel(q, MaxDegrees, max);
    }
  }

  /** The indicator rests at 0 exactly when count * 359 is below the maximum. */
  lemma ToDegreesZero(count: nat, max: int)
    requires 0 < max
    ensures ToDegrees(count, max).Degrees?
    ensures ToDegrees(count, max).value == 0 <==> count * MaxDegrees < max
  {
    ToDegreesFormula(count, max);
    var q := FloorDiv(count * MaxDegrees, max);
    if max <= count * MaxDegrees {
      MulCancel(1, q + 1, max);
    } else {
      MulCancel(q, 1, max);
      MulCancel(0, q + 1, max);
    }
  }

  /** A zero count gives angle 0 for every non-zero maximum, whatever its sign. */
  lemma ZeroCountGivesZero(max: int)
    requires max != 0
    ensures ToDegrees(0, max) == Degrees(0)
  {
    ToDegreesFormula(0, max);
  }

  /** Floor division by a positive divisor is monotone in the dividend. */
  lemma FloorDivMonotone(a1: int, a2: int, b: int)
    requires a1 <= a2 && 0 < b
    ensures FloorDiv(a1, b) <= FloorDiv(a2, b)
  {
    MulCancel(FloorDiv(a1, b), FloorDiv(a2, b) + 1, b);
  }

  /** For a fixed positive maximum a larger count never moves the indicator back. */
  lemma ToDegreesMonotone(count1: nat, count2: nat, max: int)
    requires count1 <= count2 && 0 < max
    ensures ToDegrees(count1, max).Degrees? && ToDegrees(count2, max).Degrees?
    ensures ToDegrees(count1, max).value <= ToDegrees(count2, max).value
  {
    ToDegreesFormula(count1, max);
    ToDegreesFormula(count2, max);
    FloorDivMonotone(count1 * MaxDegrees, count2 * MaxDegrees, max);
  }

  /** With a negative maximum every positive count gives a negative angle, outside 0..359. */
  lemma NegativeMaxGivesNegativeAngle(count: nat, max: int)
    requires max < 0 && 0 < count
    ensures ToDegrees(count, max).Degrees?
    ensures ToDegrees(count, max).value < 0
  {
    ToDegreesFormula(count, max);
    var q := FloorDiv(count * MaxDegrees, max);
    assert q * (-max) < 0 * (-max);
    MulCancel(q, 0, -max);
  }

  /** Worked values: the default maximum of 100 and a misconfigured maximum of -1. */
  lemma ToDegreesExamples()
    ensures ToDegrees(0, 100) == Degrees(0)
    ensures ToDegrees(50, 100) == Degrees(179)
    ensures ToDegrees(100, 100) == Degrees(359)
    ensures ToDegrees(1000, 100) == Degrees(359)
    ensures ToDegrees(1, -1) == Degrees(-359)
    ensures ToDegrees(7, 0) == DivisionByZero
  {
    ToDegreesFormula(0, 100);
    ToDegreesFormula(50, 100);
    ToDegreesFormula(100, 100);
    ToDegreesFormula(1000, 100);
    ToDegreesFormula(1, -1);
  }
}
