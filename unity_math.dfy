/**
 * The small pieces of Unity's and .NET's maths library that the terrain
 * scripts use, over `real`: Mathf.Clamp, float.MaxValue, System.Math.Round
 * with a number of decimals (banker's rounding), and Vector2Int.
 */
module UnityMath {

  /** float.MaxValue, (2 - 2^-23) * 2^127. */
  const FLOAT_MAX: real := 340282346638528859811704183484516925440.0

  /** Vector2Int */
  datatype Vec2Int = Vec2Int(x: int, y: int)

  /** Mathf.PerlinNoise, left abstract. */
  type Noise2 = (real, real) -> real

  /** Mathf.Clamp(value, min, max) for min <= max. */
  function Clamp(value: real, min: real, max: real): (r: real)
    requires min <= max
    ensures min <= r <= max
    ensures min <= value <= max ==> r == value
    ensures value < min ==> r == min
    ensures value > max ==> r == max
  {
    if value < min then min else if value > max then max else value
  }

  /** 10^d, as the scale factor of rounding to d decimals. */
  function DecimalScale(d: nat): (p: real)
    ensures p >= 1.0
  {
    if d == 0 then 1.0 else 10.0 * DecimalScale(d - 1)
  }

  /** v * p: v with the decimal point moved right by the digits of p. */
  function Shift(v: real, p: real): real
  {
    v * p
  }

  predicate IsInteger(v: real)
  {
    v.Floor as real == v
  }

  lemma IntIsInteger(n: int)
    ensures IsInteger(n as real)
  {
  }

  /**
   * Round to the nearest integer; a value exactly half-way between two
   * integers goes to the even one (MidpointRounding.ToEven, the default of
   * System.Math.Round).
   */
  function RoundHalfEven(v: real): (r: int)
    ensures v - 0.5 <= r as real <= v + 0.5
    ensures IsInteger(v) ==> r as real == v
    ensures r as real == v + 0.5 || r as real == v - 0.5 ==> r % 2 == 0
  {
    var f := v.Floor;
    var frac := v - f as real;
    if frac < 0.5 then f
    else if frac > 0.5 then f + 1
    else if f % 2 == 0 then f
    else f + 1
  }

  /**
   * System.Math.Round(value, digits): round to `digits` decimals, half to
   * even.  The library throws for digits outside 0..15.  The result is the
   * multiple of 10^-digits nearest to v, within half a step of it.
   */
  function RoundDecimal(v: real, digits: int): (r: real)
    requires 0 <= digits <= 15
    ensures var p := DecimalScale(digits);
            v - 0.5 / p <= r <= v + 0.5 / p && Shift(r, p) == RoundHalfEven(Shift(v, p)) as real
  {
    var p := DecimalScale(digits);
    var n := RoundHalfEven(Shift(v, p));
    DivideBounds(v, n as real, p);
    Unscale(n, p)
  }

  /** n / p: the grid point numbered n for the grid of step 1 / p. */
  function Unscale(n: int, p: real): (r: real)
    requires p >= 1.0
    ensures Shift(r, p) == n as real
  {
    n as real / p
  }

  /** A value within half a unit of v * p, scaled back, is within 0.5 / p of v. */
  lemma DivideBounds(v: real, n: real, p: real)
    requires p >= 1.0 && Shift(v, p) - 0.5 <= n <= Shift(v, p) + 0.5
    ensures v - 0.5 / p <= n / p <= v + 0.5 / p
  {
    var e := n - v * p;
    assert n / p == v + e / p;
    assert -0.5 / p <= e / p <= 0.5 / p;
  }

  /** Rounding keeps a value of [0, 1] in [0, 1] (both bounds are representable). */
  lemma {:induction false} RoundDecimalUnitInterval(v: real, digits: int)
    requires 0 <= digits <= 15 && 0.0 <= v <= 1.0
    ensures 0.0 <= RoundDecimal(v, digits) <= 1.0
  {
    var p := DecimalScale(digits);
    var r := RoundDecimal(v, digits);
    var n := RoundHalfEven(Shift(v, p));
    ShiftUnitInterval(v, p);
    NearestIntegerInRange(n, p, digits);
    GridPointInUnitInterval(r, n as real, p);
  }

  lemma ShiftUnitInterval(v: real, p: real)
    requires p >= 1.0 && 0.0 <= v <= 1.0
    ensures 0.0 <= Shift(v, p) <= p
  {
    assert v * p <= 1.0 * p;
  }

  lemma GridPointInUnitInterval(r: real, n: real, p: real)
    requires p >= 1.0 && Shift(r, p) == n && 0.0 <= n <= p
    ensures 0.0 <= r <= 1.0
  {
  }

  /** An integer n in [-0.5, 10^d + 0.5] lies in [0, 10^d]. */
  lemma {:induction false} NearestIntegerInRange(n: int, p: real, d: nat)
    requires p == DecimalScale(d) && -0.5 <= n as real <= p + 0.5
    ensures 0 <= n && n as real <= p
  {
    ScaleIsInteger(d);
  }

  lemma {:induction false} ScaleIsInteger(d: nat)
    ensures IsInteger(DecimalScale(d))
  {
    if d > 0 {
      ScaleIsInteger(d - 1);
      var q := DecimalScale(d - 1);
      assert q == q.Floor as real;
      assert 10.0 * q == (10 * q.Floor) as real;
    }
  }

  /** Rounding an already rounded value changes nothing. */
  lemma {:induction false} RoundDecimalIdempotent(v: real, digits: int)
    requires 0 <= digits <= 15
    ensures RoundDecimal(RoundDecimal(v, digits), digits) == RoundDecimal(v, digits)
  {
    var p := DecimalScale(digits);
    var r := RoundDecimal(v, digits);
    var n := RoundHalfEven(Shift(v, p));
    IntIsInteger(n);
    assert RoundHalfEven(Shift(r, p)) == n;
    var r2 := RoundDecimal(r, digits);
    assert Shift(r2, p) == n as real;
    assert r2 * p == r * p;
  }
}
