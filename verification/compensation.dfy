/** The public entry point: validate the oil category, pick the chart
    (probing refined products with a provisional gasoline solve), solve
    for the 15 degree density, and project it to 20 degrees. */
module Compensation {
  import opened Wrappers
  import opened Charts
  import opened Formulas
  import opened Solver
  import opened Projection

  /** The two values the entry point writes through its out-pointers. */
  datatype Outputs = Outputs(density20: real, vcf20: real)

  /** The status code the entry point returns, with the outputs it wrote;
      None means neither output was written. */
  datatype Reply = Reply(status: uint8, written: Option<Outputs>)

  const Failure: Reply := Reply(0, None)

  /** The regime the computation ends up in, stated on categories and
      regimes: crude and lubricant have a fixed regime; a refined product
      gets the regime of the band its provisional gasoline solve falls in,
      or none; an undefined category code has none. */
  function FinalRegime(exp: ExpFn, oilKind: uint8, ref: Sample): (r: Option<Regime>)
    requires oilKind <= LubeOilType ==> Solvable(ref)
    ensures r.Some? ==> oilKind <= LubeOilType
    ensures oilKind == CrudeOilType ==> r == Some(CrudeRegime)
    ensures oilKind == LubeOilType ==> r == Some(LubeRegime)
    ensures oilKind == ProductOilType ==> r != Some(CrudeRegime) && r != Some(LubeRegime)
  {
    match CategoryOf(oilKind)
    case None => None
    case Some(c) =>
      if c == Product then ProductRegime(Solve15(exp, RegimeCode(Classify(c)), ref))
      else Some(Classify(c))
  }

  /** The outputs once the final chart is known: solve again on the
      reference sample, project to 20 degrees, correct the raw 20 degree
      density by the 15-to-20 modulus, and compute the factor from the real
      temperature to 20 degrees. That factor is 1 when the real temperature
      is 20, and the reported density has the sign of the apparent density. */
  function Compensate(exp: ExpFn, chart: uint8, ref: Sample, realTemper: real): (o: Outputs)
    requires Solvable(ref)
    ensures realTemper == 20.0 ==> o.vcf20 == 1.0
    ensures (o.density20 > 0.0) == (ApparentDensity(ref) > 0.0)
    ensures o.vcf20 > 0.0
  {
    var den15 := Solve15(exp, chart, ref);
    var den20 := RealRou20(exp, chart, den15);
    ComModulusFifteenToTwenty();
    VcfAtTwenty(exp, chart, den15);
    var density := den20 * ComModulus(15.0, 20.0);
    assert (density > 0.0) == (den20 > 0.0) by {
      if den20 > 0.0 { MulPositive(den20, 1.0001145); }
      else { MulPositive(-den20, 1.0001145); }
    }
    Outputs(density, VCF20(exp, chart, realTemper, den15, den20))
  }

  /** The entry point. It returns 1 and writes both outputs exactly when a
      final regime exists, computed in that regime's chart; otherwise it
      returns 0 and writes nothing: for a category code above 2 before any
      numeric work, and for a refined product whose provisional 15 degree
      density lies outside [610.6, 1163.5). Crude and lubricant always
      succeed. */
  function CalCompenDensity(exp: ExpFn, oilKind: uint8, refDensity: real, refTemper: real, realTemper: real): (r: Reply)
    requires oilKind <= LubeOilType ==> Solvable(Sample(refDensity, refTemper))
    ensures r.status == 0 || r.status == 1
    ensures r.written.Some? <==> r.status == 1
    ensures oilKind > LubeOilType ==> r == Failure
    ensures r.status == 1 <==> FinalRegime(exp, oilKind, Sample(refDensity, refTemper)).Some?
    ensures r.status == 1 ==>
      r.written == Some(Compensate(exp, RegimeCode(FinalRegime(exp, oilKind, Sample(refDensity, refTemper)).value),
                                   Sample(refDensity, refTemper), realTemper))
    ensures oilKind == ProductOilType ==>
      (r.status == 1 <==> ProductLow <= Solve15(exp, Petrol, Sample(refDensity, refTemper)) < ProductHigh)
    ensures oilKind == CrudeOilType || oilKind == LubeOilType ==> r.status == 1
  {
    var ref := Sample(refDensity, refTemper);
    if oilKind < CrudeOilType || oilKind > LubeOilType then Failure
    else
      var compenChart := ConvToCompenChart(oilKind);
      if compenChart == NoChart then Failure
      else
        var chart := if compenChart == Petrol then ChartForProductOil(Solve15(exp, compenChart, ref)) else compenChart;
        if chart == NoChart then Failure
        else Reply(1, Some(Compensate(exp, chart, ref, realTemper)))
  }

  /** A refined product sampled at 15 degrees is classified by its observed
      density itself: it is accepted exactly when that density lies in
      [610.6, 1163.5), and its final regime is the regime of that band. */
  lemma {:induction false} ProductAtFifteen(exp: ExpFn, refDensity: real, realTemper: real)
    requires refDensity != 0.0
    ensures CalCompenDensity(exp, ProductOilType, refDensity, 15.0, realTemper).status == 1
            <==> ProductLow <= refDensity < ProductHigh
    ensures FinalRegime(exp, ProductOilType, Sample(refDensity, 15.0)) == ProductRegime(refDensity)
  {
    SolveAtFifteen(exp, Petrol, Sample(refDensity, 15.0));
  }

  /** A diesel-band refined product sampled at 15 degrees is computed in the
      diesel chart, and one at density 1500 is rejected. */
  lemma DieselAndOutOfRangeProducts(exp: ExpFn, realTemper: real)
    ensures FinalRegime(exp, ProductOilType, Sample(900.0, 15.0)) == Some(Diesel)
    ensures CalCompenDensity(exp, ProductOilType, 1500.0, 15.0, realTemper) == Failure
  {
    ProductAtFifteen(exp, 900.0, realTemper);
    ProductAtFifteen(exp, 1500.0, realTemper);
    assert InBand(900.0, ProductBands[0]);
  }
}
