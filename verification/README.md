# Oil temperature compensation, modelled in Dafny

This project models the oil-temperature compensation library
`Crealize/temperatureCompensation.c`. Given an oil category, a density
observed at a reference temperature and the real temperature, the library
returns the standard density at 20 degrees and the volume correction factor
(VCF) from the real temperature to 20 degrees. It works in four stages:

- it classifies the category code into a compensation chart (crude,
  gasoline, transition, jet fuel, diesel, lube);
- it looks up the chart's regression constants (K0, K1, A), which give the
  expansion coefficient alpha = K0/d^2 + K1/d + A;
- it solves for the 15 degree density by a bounded fixed-point iteration;
- it projects that density to 20 degrees and computes the VCF.

A refined product is first solved in the gasoline chart. That provisional
15 degree density then picks the real chart by density band, and the
solve is run again in that chart.

Layout, one module per stage:

- `wrappers.dfy`: `Option`.
- `charts.dfy`: the code constants, the `Category` and `Regime` datatypes
  with their code tables, the category-to-chart switch, and the
  refined-product density bands.
- `formulas.dfy`: the compensation modulus, the coefficient table, alpha
  and the exponential factor.
- `solver.dfy`: the fixed-point iteration. `Iterate`, `ExitCount` and
  `Solve15` describe it as functions; the loop `RealRou15` computes it.
- `projection.dfy`: the 20 degree projection and the VCF. Both use one
  expansion factor, `ExpansionFrom15`, for `getExp(getAlpha(type, den15),
  temper - 15)`, which the C code computes twice.
- `compensation.dfy`: the entry point `CalCompenDensity`.

The model uses exact `real` arithmetic. `exp` is a parameter of type
`ExpFn`, a positive function that is 1 at 0. Every property proved here
holds for any such function. The two lemmas that compare a factor with 1
also require `BelowOneForNegative`: the function is below 1 for negative
arguments, as the real exponential is.

The C out-pointers are modelled as a `Reply`, which holds a status code and
an `Option<Outputs>`. `None` means neither output was written.

Two details of the code are easy to misread:

- **The iteration cap.** `ITER_MAX` is 99 and is commented as the maximum
  iteration count. But the `count > ITER_MAX` test sits in an `else if`
  behind `count%10==0` (`Crealize/temperatureCompensation.c:241-247`). At
  count 100 that test is skipped, so a non-converging iteration stops after
  101 passes. The model has `MaxIterations = 101`. `CapBreaks` proves the
  cap test does not fire at 100 and does fire at 101.
- **The category-to-chart switch.** The `default: ret = 0` branch of
  `convToCompenChart` cannot be reached from `CalCompenDensity`, because
  the category range check at `Crealize/temperatureCompensation.c:321`
  runs first. The model keeps both the check and the branch, in the same
  places.

## Model

| member | source | states |
|---|---|---|
| Charts.CategoryOf | Crealize/temperatureCompensation.h:23-25 | exactly the codes 0, 1 and 2 name an oil category, and the decoding inverts the category's code |
| Charts.CategoryCodeRoundTrip | Crealize/temperatureCompensation.h:23-25 | decoding a category's code gives back that category |
| Charts.RegimeOf | Crealize/temperatureCompensation.c:37-42 | exactly the codes 0x10 to 0x15 name a chart, and the decoding inverts the regime's code |
| Charts.RegimeCodeRoundTrip | Crealize/temperatureCompensation.c:37-42 | decoding a regime's code gives back that regime |
| Charts.ConvToCompenChart | Crealize/temperatureCompensation.c:153-181 | the result is 0 exactly for codes that name no category; otherwise it is the code of the category's starting regime: crude to 0x10, product to the provisional gasoline 0x11, lube to 0x15 |
| Charts.Lookup | Crealize/temperatureCompensation.c:193-210 | the result of an ordered band search is defined exactly when some band holds the density, and it is the regime of the first band in order that holds it, as in the priority if-chain |
| Charts.ProductBandsDisjoint | Crealize/temperatureCompensation.c:193-210 | no density lies in two of the four refined-product bands |
| Charts.ProductBandsCover | Crealize/temperatureCompensation.c:193-210 | the four bands together cover exactly [610.6, 1163.5) |
| Charts.ProductRegime | Crealize/temperatureCompensation.c:189-212 | a regime is chosen exactly inside [610.6, 1163.5); it is the regime of the one band holding the density; it is never crude or lube |
| Charts.ChartForProductOil | Crealize/temperatureCompensation.c:189-212 | the code switch returns a non-zero chart exactly inside [610.6, 1163.5); that chart is the code of the band's regime; it is never the crude or lube chart |
| Formulas.ComModulus | Crealize/temperatureCompensation.c:58-68 | the modulus is 1 when the two temperatures are equal, and positive when they differ by at most 1000 degrees |
| Formulas.ComModulusShift | Crealize/temperatureCompensation.c:63-66 | the modulus depends only on the temperature difference |
| Formulas.ComModulusAboveOne | Crealize/temperatureCompensation.c:66 | the modulus exceeds 1 exactly when the real temperature is below the standard one by less than 1150 degrees |
| Formulas.ComModulusFifteenToTwenty | Crealize/temperatureCompensation.c:345 | the final correction modulus from 15 to 20 degrees is 1.0001145 |
| Formulas.CoefficientsFor | Crealize/temperatureCompensation.c:85-122 | every chart has K0 >= 0 and K1 >= 0; outside the transition chart, A = 0 and K0 or K1 is positive |
| Formulas.Alpha | Crealize/temperatureCompensation.c:80-127 | a code outside 0x10 to 0x15 gets the gasoline alpha 346.4228/d^2 + 0.4388/d; for positive density alpha is positive in every chart except the transition chart, where it is positive exactly when 0.00336312 d^2 < 2680.321 |
| Formulas.AlphaDecreasing | Crealize/temperatureCompensation.c:85-124 | for positive densities, alpha strictly decreases as density grows, in every chart |
| Formulas.ExpFactor | Crealize/temperatureCompensation.c:139-145 | the factor is positive; it is 1 at zero temperature difference and for zero alpha |
| Formulas.ExpFactorBelowOne | Crealize/temperatureCompensation.c:143 | for an exponential below 1 on negative arguments, the factor is below 1 whenever alpha and the temperature difference share a sign |
| Solver.ApparentDensity | Crealize/temperatureCompensation.c:237 | the observed density on the 15 degree basis is the observed density itself at 15 degrees, and never 0 for a solvable sample |
| Solver.Step | Crealize/temperatureCompensation.c:236-239 | one pass never yields 0; its sign is the sign of the apparent density; at 15 degrees it returns the observed density |
| Solver.Iterate | Crealize/temperatureCompensation.c:233-240 | no estimate is ever 0, so alpha is always defined; after the first pass every estimate has the sign of the apparent density |
| Solver.Converged | Crealize/temperatureCompensation.c:253 | the loop's exit condition: a pass that left the estimate unchanged has converged, and at 15 degrees every pass has |
| Solver.CapBreaks | Crealize/temperatureCompensation.c:241-251 | the cap test fires at count 101, does not fire at count 100, and never fires below 101 |
| Solver.ExitCount | Crealize/temperatureCompensation.c:235-253 | the stopping count lies between the current count and 101; below 101 it is the first pass that converged within 1e-6; no earlier pass converged |
| Solver.Solve15 | Crealize/temperatureCompensation.c:225-256 | the solver's result is never 0 and has the sign of the apparent density |
| Solver.RealRou15 | Crealize/temperatureCompensation.c:225-256 | the loop runs between 1 and 101 passes; if it stops before 101, that pass converged within 1e-6; no earlier pass converged; it returns the last computed estimate |
| Solver.ExitCountUnique | Crealize/temperatureCompensation.c:235-255 | any count that is the first converged pass, or 101 with no converged pass before it, is the stopping count, and the solver's result is the estimate of that pass; so the loop's outputs determine `Solve15` |
| Solver.FixedPointReturned | Crealize/temperatureCompensation.c:233-253 | an observed density that is already a fixed point of the update is returned unchanged after one pass |
| Solver.SolveAtFifteen | Crealize/temperatureCompensation.c:237-239 | a sample taken at 15 degrees is its own 15 degree density |
| Projection.ExpansionFrom15 | Crealize/temperatureCompensation.c:275-276 | the 15-to-temperature expansion factor is positive, and 1 at 15 degrees |
| Projection.RealRou20 | Crealize/temperatureCompensation.c:269-280 | the raw 20 degree density is never 0 and has the sign of the 15 degree density |
| Projection.WarmingLowersDensity | Crealize/temperatureCompensation.c:275-277 | for an exponential below 1 on negative arguments, a positive 15 degree density with positive alpha projects to a lower 20 degree density |
| Projection.VcfAtTwenty | Crealize/temperatureCompensation.c:275-297 | for every non-zero 15 degree density and every chart, the VCF at a real temperature of 20 degrees, taken against that density's own projection to 20 degrees, is exactly 1 |
| Projection.VCF20 | Crealize/temperatureCompensation.c:291-300 | the VCF is den15/den20 at 15 degrees, and it is positive exactly when both densities share a sign |
| Compensation.FinalRegime | Crealize/temperatureCompensation.c:325-339 | a final regime exists only for category codes 0 to 2; crude is always the crude regime and lube the lube regime; a refined product never ends in either of them |
| Compensation.Compensate | Crealize/temperatureCompensation.c:341-347 | the VCF is positive, and exactly 1 when the real temperature is 20; the reported density has the sign of the apparent density |
| Compensation.CalCompenDensity | Crealize/temperatureCompensation.c:314-350 | the status is 0 or 1, and outputs are written exactly when it is 1; a category code above 2 fails before any numeric work; success happens exactly when a final regime exists, and the outputs are then computed in that regime's chart from the second solve; a refined product succeeds exactly when its probe density lies in [610.6, 1163.5); crude and lube always succeed |
| Compensation.ProductAtFifteen | Crealize/temperatureCompensation.c:331-339 | a refined product sampled at 15 degrees is accepted exactly when its observed density lies in [610.6, 1163.5), and it gets that band's regime |
| Compensation.DieselAndOutOfRangeProducts | Crealize/temperatureCompensation.c:193-196 | a refined product at density 900 and 15 degrees resolves to diesel; one at density 1500 is rejected and writes nothing |

## Left out

- `exp` and `pow`: `exp` is the parameter `ExpFn`. In `getComModulus`,
  `pow(10,-5)` and `pow(10,-8)` are folded into the constants 0.000023 and
  0.00000002, and `pow(rt-st, 2)` is the product `delta * delta`. Nothing is claimed about the convergence or accuracy of the
  iteration; that would be a real-analysis question about floating-point
  code.
- IEEE floating point: the model uses exact reals. This covers the
  narrowing of `getComModulus`'s arguments to `float` and all rounding.
- Division by zero: the C code would produce infinities or NaN, which exact
  reals cannot represent. `Alpha` requires a non-zero density. The solver
  requires `Solvable`: a non-zero observed density, and a modulus against
  15 degrees that is non-zero (true whenever the temperature is within
  1000 degrees of 15). `CalCompenDensity` requires this only for category
  codes 0 to 2, so the invalid-category path needs nothing.
- Solver.RealRou15: the three statements that compute `rou_t`, alpha and
  the next estimate are one call to `Step`, which computes the same value.
  The pass count is returned as a second output so that the bound can be
  stated.
- Formulas.ExpFactor: states only positivity and the value 1 at zero
  exponent, because `ExpFn` assumes only those two facts about `exp`. The
  comparison with 1 is the separate lemma `ExpFactorBelowOne`, under
  `BelowOneForNegative`.
- The `uint16_t` loop counter: it never exceeds 101, so it cannot wrap,
  and it is a `nat`.
- Debug printing (`DBG_PRINT`) is output only and has no effect on values.
- The watchdog reset `RstWdt()` under `EN_WDOG` is a host hook. Only its
  branch is kept, because that branch is what skips the cap test.
- The commented-out test prototype in `Crealize/temperatureCompensation.h`
  is not part of this model.
