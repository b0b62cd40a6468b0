/** Projection of a 15 degree standard density to 20 degrees, and the
    volume correction factor from the real temperature to 20 degrees. */
module Projection {
  import opened Charts
  import opened Formulas

  /** The thermal expansion factor from 15 degrees to `temper`, with the
      alpha of the 15 degree density: positive, and 1 at 15 degrees. Both
      the projection and the VCF use it. */
  function ExpansionFrom15(exp: ExpFn, chart: uint8, den15: real, temper: real): (r: real)
    requires den15 != 0.0
    ensures r > 0.0
    ensures temper == 15.0 ==> r == 1.0
  {
    ExpFactor(exp, Alpha(chart, den15), temper - 15.0)
  }

  /** The raw 20 degree density of a 15 degree density: never 0, and of
      the same sign. */
  function RealRou20(exp: ExpFn, chart: uint8, rou15: real): (r: real)
    requires rou15 != 0.0
    ensures r != 0.0 && ((r > 0.0) == (rou15 > 0.0))
  {
    var vcf15 := ExpansionFrom15(exp, chart, rou15, 20.0);
    ScaleFacts(rou15, vcf15);
    rou15 * vcf15
  }

  /** Oil that expands on warming (positive alpha) is less dense at 20
      degrees than at 15. */
  lemma WarmingLowersDensity(exp: ExpFn, chart: uint8, rou15: real)
    requires BelowOneForNegative(exp)
    requires rou15 > 0.0 && Alpha(chart, rou15) > 0.0
    ensures RealRou20(exp, chart, rou15) < rou15
  {
    var a := Alpha(chart, rou15);
    MulPositive(a, 20.0 - 15.0);
    ExpFactorBelowOne(exp, a, 20.0 - 15.0);
    ScaleFacts(rou15, ExpansionFrom15(exp, chart, rou15, 20.0));
  }

  /** The arithmetic behind RealRou20's contract, for r = d * v. */
  lemma ScaleFacts(d: real, v: real)
    requires d != 0.0 && v > 0.0
    ensures d * v != 0.0 && ((d * v > 0.0) == (d > 0.0))
    ensures d > 0.0 && v < 1.0 ==> d * v < d
  {
    if d > 0.0 {
      MulPositive(d, v);
    } else {
      MulPositive(-d, v);
    }
  }

  /** The volume correction factor from `temper` to 20 degrees. It is
      den15 / den20 at 15 degrees, and it is positive exactly when the two
      densities share a sign. */
  function VCF20(exp: ExpFn, chart: uint8, temper: real, den15: real, den20: real): (r: real)
    requires den15 != 0.0 && den20 != 0.0
    ensures (r > 0.0) <==> ((den15 > 0.0) == (den20 > 0.0))
    ensures temper == 15.0 ==> r == den15 / den20
  {
    var e := ExpansionFrom15(exp, chart, den15, temper);
    QuotientFacts(den15, den20, e);
    Quotient(den15 * e, den20)
  }

  /** Division by a non-zero density. It is a function of its own only to
      carry the fact that a quantity over itself is 1, which is what makes
      the VCF against the projected density exactly 1 at 20 degrees. */
  function Quotient(n: real, d: real): (r: real)
    requires d != 0.0
    ensures n == d ==> r == 1.0
  {
    n / d
  }

  /** Projection and VCF use the same expansion factor, so at a real
      temperature of 20 degrees the VCF against the projected density is
      exactly 1. */
  lemma VcfAtTwenty(exp: ExpFn, chart: uint8, den15: real)
    requires den15 != 0.0
    ensures VCF20(exp, chart, 20.0, den15, RealRou20(exp, chart, den15)) == 1.0
  {
  }

  /** The arithmetic behind VCF20's contract, for r = a * e / b. */
  lemma QuotientFacts(a: real, b: real, e: real)
    requires a != 0.0 && b != 0.0 && e > 0.0
    ensures (a * e / b > 0.0) <==> ((a > 0.0) == (b > 0.0))
    ensures e == 1.0 ==> a * e / b == a / b
  {
    assert a * e / b == (a / b) * e;
    if (a > 0.0) == (b > 0.0) {
      assert a / b > 0.0;
      MulPositive(a / b, e);
    } else {
      assert -(a / b) > 0.0;
      MulPositive(-(a / b), e);
    }
  }
}
