/** The fixed-point solver for the 15 degree standard density: a functional
    description of the iteration (Iterate, ExitCount, Solve15) and the
    bounded loop that computes it (RealRou15). */
module Solver {
  import opened Charts
  import opened Formulas

  /** An observed density at the temperature it was measured at. */
  datatype Sample = Sample(density: real, temperature: real)

  /** Two successive estimates this close end the iteration. */
  const IterPrecision: real := 0.000001

  /** The iteration cap as the constant states it. */
  const IterMax: nat := 99

  /** The count at which the loop actually stops when it has not converged:
      the cap test is skipped on every tenth count, so count 100 passes it. */
  const MaxIterations: nat := 101

  /** The samples the iteration is defined on: a non-zero density and a
      temperature whose modulus against 15 degrees is non-zero, so that no
      estimate is ever 0 (the alpha formula divides by it). */
  predicate Solvable(s: Sample)
  {
    s.density != 0.0 && ComModulus(s.temperature, 15.0) != 0.0
  }

  /** The observed density brought onto the 15 degree basis by the modulus. */
  function ApparentDensity(s: Sample): (r: real)
    ensures s.temperature == 15.0 ==> r == s.density
    ensures Solvable(s) ==> r != 0.0
  {
    s.density * ComModulus(s.temperature, 15.0)
  }

  /** One pass of the loop body: the next estimate from the current one. */
  function Step(exp: ExpFn, chart: uint8, s: Sample, rou15: real): (r: real)
    requires Solvable(s) && rou15 != 0.0
    ensures r != 0.0
    ensures (r > 0.0) == (ApparentDensity(s) > 0.0)
    ensures s.temperature == 15.0 ==> r == s.density
  {
    ApparentDensity(s) / ExpFactor(exp, Alpha(chart, rou15), s.temperature - 15.0)
  }

  /** The estimate after k passes, starting from the observed density. */
  function Iterate(exp: ExpFn, chart: uint8, s: Sample, k: nat): (r: real)
    requires Solvable(s)
    ensures r != 0.0
    ensures k > 0 ==> ((r > 0.0) == (ApparentDensity(s) > 0.0))
  {
    if k == 0 then s.density else Step(exp, chart, s, Iterate(exp, chart, s, k - 1))
  }

  /** Pass k (k >= 1) moved the estimate by at most the precision. A pass
      that left the estimate where it was has converged, and at 15 degrees
      every pass has. */
  predicate Converged(exp: ExpFn, chart: uint8, s: Sample, k: nat): (b: bool)
    requires Solvable(s) && k >= 1
    ensures Iterate(exp, chart, s, k - 1) == Iterate(exp, chart, s, k) ==> b
    ensures s.temperature == 15.0 ==> b
  {
    Abs(Iterate(exp, chart, s, k - 1) - Iterate(exp, chart, s, k)) <= IterPrecision
  }

  /** Whether the cap test breaks the loop after the pass that made the
      counter `count`: it is skipped when the count is a multiple of 10, so
      it first fires at 101, not at 100. */
  function CapBreaks(count: nat): (b: bool)
    ensures b ==> count >= MaxIterations
    ensures count == MaxIterations ==> b
    ensures count == IterMax + 1 ==> !b
  {
    count % 10 != 0 && count > IterMax
  }

  /** The count at which the loop, having reached count k without stopping,
      does stop: the first count from k on that converged or hit the cap. */
  function ExitCount(exp: ExpFn, chart: uint8, s: Sample, k: nat): (c: nat)
    requires Solvable(s) && 1 <= k <= MaxIterations
    ensures k <= c <= MaxIterations
    ensures c < MaxIterations ==> Converged(exp, chart, s, c)
    ensures forall j :: k <= j < c ==> !Converged(exp, chart, s, j)
    decreases MaxIterations - k
  {
    if CapBreaks(k) || Converged(exp, chart, s, k) then k
    else ExitCount(exp, chart, s, k + 1)
  }

  /** The 15 degree density the solver returns: the last estimate computed. */
  function Solve15(exp: ExpFn, chart: uint8, s: Sample): (r: real)
    requires Solvable(s)
    ensures r != 0.0
    ensures (r > 0.0) == (ApparentDensity(s) > 0.0)
  {
    Iterate(exp, chart, s, ExitCount(exp, chart, s, 1))
  }

  /** The solver loop. It stops after at most 101 passes; it stops earlier
      only at the first pass that converged, and it returns the estimate
      that pass computed. */
  method RealRou15(exp: ExpFn, chart: uint8, s: Sample) returns (rou: real, count: nat)
    requires Solvable(s)
    ensures 1 <= count <= MaxIterations
    ensures count < MaxIterations ==> Converged(exp, chart, s, count)
    ensures forall k :: 1 <= k < count ==> !Converged(exp, chart, s, k)
    ensures rou == Iterate(exp, chart, s, count)
  {
    var tempRou := s.density;
    count := 0;
    while true
      invariant count < MaxIterations
      invariant tempRou == Iterate(exp, chart, s, count)
      invariant ExitCount(exp, chart, s, 1) == ExitCount(exp, chart, s, count + 1)
      decreases MaxIterations - count
    {
      var rou15 := tempRou;
      tempRou := Step(exp, chart, s, rou15);
      count := count + 1;
      PassFacts(exp, chart, s, count, rou15, tempRou);
      if count % 10 == 0 {
        // the host's watchdog hook runs here; it does not touch the values
      } else if count > IterMax {
        break;
      }
      if Abs(rou15 - tempRou) <= IterPrecision {
        break;
      }
    }
    rou := tempRou;
  }

  /** Within the loop's range, the cap test fires at 101 and only there. */
  lemma CapFacts(count: nat)
    requires 1 <= count <= MaxIterations
    ensures (count % 10 != 0 && count > IterMax) <==> count == MaxIterations
  {
  }

  /** What one pass of the loop establishes about the iterates. */
  lemma PassFacts(exp: ExpFn, chart: uint8, s: Sample, count: nat, rou15: real, tempRou: real)
    requires Solvable(s) && 1 <= count <= MaxIterations
    requires rou15 == Iterate(exp, chart, s, count - 1)
    requires tempRou == Step(exp, chart, s, rou15)
    ensures tempRou == Iterate(exp, chart, s, count)
    ensures ExitCount(exp, chart, s, count) ==
      if (count % 10 != 0 && count > IterMax) || Abs(rou15 - tempRou) <= IterPrecision then count
      else ExitCount(exp, chart, s, count + 1)
  {
    assert tempRou == Iterate(exp, chart, s, count);
    assert Converged(exp, chart, s, count) <==> Abs(rou15 - tempRou) <= IterPrecision;
    ExitCountUnfold(exp, chart, s, count);
  }

  lemma ExitCountUnfold(exp: ExpFn, chart: uint8, s: Sample, count: nat)
    requires Solvable(s) && 1 <= count <= MaxIterations
    ensures ExitCount(exp, chart, s, count) ==
      if (count % 10 != 0 && count > IterMax) || Converged(exp, chart, s, count) then count
      else ExitCount(exp, chart, s, count + 1)
  {
    CapFacts(count);
  }

  /** The stopping count is determined by the iterates: any count that is
      the first converged pass, or 101 with no converged pass before it, is
      the one ExitCount gives, so RealRou15 computes Solve15. */
  lemma {:induction false} ExitCountUnique(exp: ExpFn, chart: uint8, s: Sample, c: nat)
    requires Solvable(s) && 1 <= c <= MaxIterations
    requires c < MaxIterations ==> Converged(exp, chart, s, c)
    requires forall k :: 1 <= k < c ==> !Converged(exp, chart, s, k)
    ensures ExitCount(exp, chart, s, 1) == c
    ensures Solve15(exp, chart, s) == Iterate(exp, chart, s, c)
  {
  }

  /** An observed density that is already a fixed point of the update is
      returned unchanged, after a single pass. */
  lemma FixedPointReturned(exp: ExpFn, chart: uint8, s: Sample)
    requires Solvable(s)
    requires Step(exp, chart, s, s.density) == s.density
    ensures ExitCount(exp, chart, s, 1) == 1
    ensures Solve15(exp, chart, s) == s.density
  {
    assert Iterate(exp, chart, s, 1) == s.density;
    assert Converged(exp, chart, s, 1);
  }

  /** A sample taken at 15 degrees is its own 15 degree density. */
  lemma SolveAtFifteen(exp: ExpFn, chart: uint8, s: Sample)
    requires s.density != 0.0 && s.temperature == 15.0
    ensures Solvable(s)
    ensures Solve15(exp, chart, s) == s.density
  {
    FixedPointReturned(exp, chart, s);
  }
}
