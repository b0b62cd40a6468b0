/** The closed-form pieces of the correlation: the compensation modulus,
    the per-regime expansion coefficient alpha, and the exponential volume
    correction factor. */
module Formulas {
  import opened Charts

  /** The exponential function, as a parameter: a positive function that
      is 1 at 0. The model never computes it. */
  type ExpFn = f: real -> real | (forall x :: f(x) > 0.0) && f(0.0) == 1.0 witness (x: real) => 1.0

  /** A further property of the real exponential, assumed only by the
      lemmas that need it: it is below 1 for negative arguments. */
  ghost predicate BelowOneForNegative(exp: ExpFn)
  {
    forall x :: x < 0.0 ==> exp(x) < 1.0
  }

  function Abs(x: real): (r: real)
    ensures r >= 0.0 && (r == x || r == -x)
  {
    if x < 0.0 then -x else x
  }

  /** The second-order compensation modulus between a real and a standard
      temperature, a function of their difference alone. */
  function ComModulus(realTemp: real, stdTemp: real): (r: real)
    ensures realTemp == stdTemp ==> r == 1.0
    ensures -1000.0 <= realTemp - stdTemp <= 1000.0 ==> r > 0.0
  {
    var delta := realTemp - stdTemp;
    ModulusPositive(delta);
    1.0 - 0.000023 * delta - 0.00000002 * (delta * delta)
  }

  lemma ModulusPositive(delta: real)
    ensures -1000.0 <= delta <= 1000.0 ==> 1.0 - 0.000023 * delta - 0.00000002 * (delta * delta) > 0.0
  {
    if -1000.0 <= delta <= 1000.0 {
      SquareBound(delta, 1000.0);
    }
  }

  lemma SquareBound(x: real, b: real)
    requires b >= 0.0 && -b <= x <= b
    ensures x * x <= b * b
  {
    if x >= 0.0 {
      assert x * x <= x * b;
      assert x * b <= b * b;
    } else {
      assert x * x == (-x) * (-x);
      assert (-x) * (-x) <= (-x) * b;
      assert (-x) * b <= b * b;
    }
  }

  /** Shifting both temperatures by the same amount leaves the modulus unchanged. */
  lemma ComModulusShift(realTemp: real, stdTemp: real, k: real)
    ensures ComModulus(realTemp + k, stdTemp + k) == ComModulus(realTemp, stdTemp)
  {
  }

  /** The modulus exceeds 1 exactly when the real temperature is below the
      standard one by less than 1150 degrees. */
  lemma {:induction false} ComModulusAboveOne(realTemp: real, stdTemp: real)
    ensures ComModulus(realTemp, stdTemp) > 1.0 <==> -1150.0 < realTemp - stdTemp < 0.0
  {
    var delta := realTemp - stdTemp;
    var m := 0.000023 + 0.00000002 * delta;
    assert ComModulus(realTemp, stdTemp) - 1.0 == -(delta * m);
    if delta < 0.0 && delta > -1150.0 {
      assert m > 0.0;
      MulPositive(-delta, m);
      assert (-delta) * m == -(delta * m);
    } else if delta >= 0.0 {
      assert m > 0.0;
      MulNonNegative(delta, m);
    } else {
      assert m <= 0.0;
      MulNonNegative(-delta, -m);
      assert (-delta) * (-m) == delta * m;
    }
  }

  lemma MulPositive(x: real, y: real)
    requires x > 0.0 && y > 0.0
    ensures x * y > 0.0
  {
  }

  lemma MulNonNegative(x: real, y: real)
    requires x >= 0.0 && y >= 0.0
    ensures x * y >= 0.0
  {
  }

  /** The modulus that turns a raw 20 degree density into the reported one. */
  lemma ComModulusFifteenToTwenty()
    ensures ComModulus(15.0, 20.0) == 1.0001145
  {
  }

  /** The regression constants (K0, K1, A) of one regime. */
  datatype Coefficients = Coefficients(k0: real, k1: real, a: real)

  /** The coefficient table, by chart code; any code that names no regime
      gets the gasoline constants. */
  function CoefficientsFor(chart: uint8): (k: Coefficients)
    ensures k.k0 >= 0.0 && k.k1 >= 0.0
    ensures chart != UndueOil ==> k.a == 0.0 && (k.k0 > 0.0 || k.k1 > 0.0)
  {
    if chart == RawOil then Coefficients(613.9723, 0.0, 0.0)
    else if chart == Petrol then Coefficients(346.4228, 0.4388, 0.0)
    else if chart == UndueOil then Coefficients(2680.321, 0.0, -0.00336312)
    else if chart == SpaceOil then Coefficients(594.5418, 0.0, 0.0)
    else if chart == DieselOil then Coefficients(186.9696, 0.4862, 0.0)
    else if chart == LubeOil then Coefficients(0.0, 0.6278, 0.0)
    else Coefficients(346.4228, 0.4388, 0.0)
  }

  /** The density-dependent thermal expansion coefficient of a chart.
      It is positive for every positive density, except in the transition
      regime, whose negative constant term makes it positive only below
      about 892.7. Codes outside 0x10 to 0x15 get the gasoline alpha. */
  function Alpha(chart: uint8, density: real): (r: real)
    requires density != 0.0
    ensures RegimeOf(chart).None? ==> r == 346.4228 / (density * density) + 0.4388 / density
    ensures density > 0.0 && chart != UndueOil ==> r > 0.0
    ensures density > 0.0 && chart == UndueOil ==> (r > 0.0 <==> 0.00336312 * (density * density) < 2680.321)
  {
    var k := CoefficientsFor(chart);
    AlphaSign(chart, density);
    k.k0 / (density * density) + k.k1 / density + k.a
  }

  lemma AlphaSign(chart: uint8, d: real)
    requires d != 0.0
    ensures var k := CoefficientsFor(chart);
      && (d > 0.0 && chart != UndueOil ==> k.k0 / (d * d) + k.k1 / d + k.a > 0.0)
      && (d > 0.0 && chart == UndueOil ==>
            (k.k0 / (d * d) + k.k1 / d + k.a > 0.0 <==> 0.00336312 * (d * d) < 2680.321))
  {
    var k := CoefficientsFor(chart);
    if d > 0.0 {
      InversesPositive(d);
      if chart == UndueOil {
        UndueAlphaSign(d, k.k0 / (d * d) + k.k1 / d + k.a);
      }
    }
  }

  lemma InversesPositive(d: real)
    requires d > 0.0
    ensures 1.0 / d > 0.0 && 1.0 / (d * d) > 0.0
  {
    assert d * d > 0.0;
  }

  lemma UndueAlphaSign(d: real, r: real)
    requires d > 0.0
    requires r == 2680.321 / (d * d) + 0.0 / d + -0.00336312
    ensures r > 0.0 <==> 0.00336312 * (d * d) < 2680.321
  {
    var dd := d * d;
    assert dd > 0.0;
    assert r * dd == 2680.321 - 0.00336312 * dd;
    if r > 0.0 {
      MulPositive(r, dd);
    } else {
      MulNonNegative(-r, dd);
    }
  }

  /** Denser oil expands less: for positive densities alpha is strictly
      decreasing in density, in every chart. */
  lemma {:induction false} AlphaDecreasing(chart: uint8, d1: real, d2: real)
    requires 0.0 < d1 < d2
    ensures Alpha(chart, d2) < Alpha(chart, d1)
  {
    var k := CoefficientsFor(chart);
    InverseDecreasing(d1, d2);
    InverseDecreasing(d1 * d1, d2 * d2) by { SquareIncreasing(d1, d2); }
    ScaleInverse(k.k0, d1 * d1, d2 * d2);
    ScaleInverse(k.k1, d1, d2);
    assert k.k0 > 0.0 || k.k1 > 0.0;
  }

  lemma SquareIncreasing(x: real, y: real)
    requires 0.0 < x < y
    ensures 0.0 < x * x < y * y
  {
    assert x * x < x * y;
    assert x * y < y * y;
  }

  lemma InverseDecreasing(x: real, y: real)
    requires 0.0 < x < y
    ensures 0.0 < 1.0 / y < 1.0 / x
  {
    assert (1.0 / x) * x == 1.0;
    assert (1.0 / y) * y == 1.0;
    assert 1.0 / y > 0.0;
    assert (1.0 / y) * x < (1.0 / y) * y;
  }

  lemma ScaleInverse(k: real, x: real, y: real)
    requires k >= 0.0 && 0.0 < x < y
    requires 1.0 / y < 1.0 / x
    ensures k / y <= k / x
    ensures k > 0.0 ==> k / y < k / x
  {
    assert k / y == k * (1.0 / y);
    assert k / x == k * (1.0 / x);
  }

  /** The exponential volume correction factor exp(-a dt (1 + 0.8 a dt)):
      positive, and exactly 1 when either alpha or the temperature
      difference is 0. */
  function ExpFactor(exp: ExpFn, alpha: real, deltaTemp: real): (r: real)
    ensures r > 0.0
    ensures deltaTemp == 0.0 || alpha == 0.0 ==> r == 1.0
  {
    var x := alpha * deltaTemp;
    exp(-1.0 * x * (1.0 + 0.8 * x))
  }

  /** The factor is below 1 whenever alpha and the temperature difference
      share a sign: the exponent is then negative. */
  lemma ExpFactorBelowOne(exp: ExpFn, alpha: real, deltaTemp: real)
    requires BelowOneForNegative(exp)
    requires alpha * deltaTemp > 0.0
    ensures ExpFactor(exp, alpha, deltaTemp) < 1.0
  {
    var x := alpha * deltaTemp;
    MulPositive(x, 1.0 + 0.8 * x);
    assert -1.0 * x * (1.0 + 0.8 * x) < 0.0;
  }
}
