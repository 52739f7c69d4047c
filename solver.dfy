/** The equivalence solver: the after-tax monthly Roth contribution whose Roth
    result matches a Traditional scenario's after-tax result, found by bisection
    (code.py:182-223). */
module Solver {
  import opened Simulator
  import opened Scenario

  /** The number of halvings before the search settles for the bracket's midpoint. */
  function MaxIterations(): nat
  {
    60
  }

  function Abs(x: real): real
  {
    if x < 0.0 then -x else x
  }

  /** `x` doubled `n` times, that is x * 2^n: how far a tolerance reaches back
      through `n` halvings of a bracket. */
  function Doubled(x: real, n: nat): (d: real)
    ensures x >= 0.0 ==> d >= x
  {
    if n == 0 then x else 2.0 * Doubled(x, n - 1)
  }

  /** The Traditional after-tax value the search aims at, for the caller's own
      reading of the entered contribution (TargetIsPortfolio shows it is what
      CalculatePortfolio reports). */
  function Target(a: Assumptions): real
  {
    ComputeTraditionalAfterTax(TraditionalSimulation(a), a.taxModel, a.retirementTaxRate)
  }

  lemma TargetIsPortfolio(a: Assumptions)
    ensures Target(a) == CalculatePortfolio(a).metrics.finalTradAfterTax
  {
  }

  /** The Roth after-tax final value when `monthly` goes into the Roth each month
      as an after-tax contribution: the after-tax part of savings grown with that
      contribution (RothFinalForIsPortfolio shows it is what CalculatePortfolio
      reports for such a candidate). */
  function RothFinalFor(a: Assumptions, monthly: real): real
  {
    Grow(SplitOf(a).afterTax, monthly, MonthlyRate(a.annualReturnRate), Months(a))
  }

  /** RothFinalFor as a function of the monthly amount alone. */
  function RothFinalCurve(a: Assumptions): real -> real
  {
    m => RothFinalFor(a, m)
  }

  /** What one more dollar a month adds to the Roth final value. */
  function RothSlope(a: Assumptions): real
  {
    Grow(0.0, 1.0, MonthlyRate(a.annualReturnRate), Months(a))
  }

  /** The top of the initial bracket: twice the largest of one dollar, four times
      the entered amount, and the target spread over the months to retirement. */
  function InitialHigh(a: Assumptions, target: real): (h: real)
    ensures h >= 2.0 && h >= 8.0 * a.monthlyContribution
    ensures a.retirementAge > a.currentAge ==> h * Months(a) as real >= 2.0 * target
  {
    var spread := target / Max(1.0, (a.retirementAge - a.currentAge) as real * 12.0);
    var h := Max(Max(1.0, a.monthlyContribution * 4.0), spread) * 2.0;
    assert a.retirementAge > a.currentAge ==> spread * Months(a) as real == target;
    h
  }

  /** Where a search ends: the candidate returned and whether it was accepted
      early for lying within tolerance. */
  datatype Outcome = Outcome(monthly: real, withinTolerance: bool)

  /** The search with `steps` halvings left on the bracket [low, high], where
      `rothFinal` gives the Roth result of a candidate: the midpoint is returned
      at once when its result is within `tol` of the target, otherwise the
      bracket keeps the half on the target's side; with no halvings left the
      midpoint is returned as it is. */
  function Bisect(rothFinal: real -> real, tol: real, target: real, low: real, high: real, steps: nat): Outcome
    decreases steps
  {
    var mid := (low + high) / 2.0;
    if steps == 0 then Outcome(mid, false)
    else if Abs(rothFinal(mid) - target) <= tol then Outcome(mid, true)
    else if rothFinal(mid) < target then Bisect(rothFinal, tol, target, mid, high, steps - 1)
    else Bisect(rothFinal, tol, target, low, mid, steps - 1)
  }

  /** The search the solver performs for the caller's assumptions when it aims
      at `target` with `iterations` halvings. */
  function SolveFor(a: Assumptions, tol: real, target: real, iterations: nat): Outcome
  {
    Bisect(RothFinalCurve(a), tol, target, 0.0, InitialHigh(a, target), iterations)
  }

  /** The search the solver performs for the caller's assumptions. */
  function Solve(a: Assumptions, tol: real): Outcome
  {
    SolveFor(a, tol, Target(a), MaxIterations())
  }

  /** The bisection loop: at most `iterations` halvings of [0, high], returning
      early on a candidate within tolerance and otherwise the final bracket's
      midpoint. `rothFinal` evaluates a candidate as an after-tax Roth contribution. */
  method BisectSearch(rothFinal: real -> real, tol: real, target: real, high: real, iterations: nat)
    returns (x: real)
    requires high >= 0.0
    ensures x == Bisect(rothFinal, tol, target, 0.0, high, iterations).monthly
    ensures 0.0 <= x <= high
  {
    var low := 0.0;
    var hi := high;
    for i := 0 to iterations
      invariant 0.0 <= low <= hi <= high
      invariant Bisect(rothFinal, tol, target, low, hi, iterations - i)
                == Bisect(rothFinal, tol, target, 0.0, high, iterations)
    {
      var midAfterTax := (low + hi) / 2.0;
      var rothFinalMid := rothFinal(midAfterTax);
      if Abs(rothFinalMid - target) <= tol {
        BisectAccepts(rothFinal, tol, target, low, hi, iterations - i);
        return midAfterTax;
      }
      BisectHalves(rothFinal, tol, target, low, hi, iterations - i);
      if rothFinalMid < target {
        low := midAfterTax;
      } else {
        hi := midAfterTax;
      }
    }
    x := (low + hi) / 2.0;
  }

  /** Bisect with halvings left accepts a midpoint within tolerance. */
  lemma BisectAccepts(rothFinal: real -> real, tol: real, target: real, low: real, high: real, steps: nat)
    requires steps > 0 && Abs(rothFinal((low + high) / 2.0) - target) <= tol
    ensures Bisect(rothFinal, tol, target, low, high, steps) == Outcome((low + high) / 2.0, true)
  {
  }

  /** Bisect with halvings left keeps the half of the bracket on the target's
      side when the midpoint is not within tolerance. */
  lemma BisectHalves(rothFinal: real -> real, tol: real, target: real, low: real, high: real, steps: nat)
    requires steps > 0 && Abs(rothFinal((low + high) / 2.0) - target) > tol
    ensures rothFinal((low + high) / 2.0) < target ==>
      Bisect(rothFinal, tol, target, low, high, steps)
      == Bisect(rothFinal, tol, target, (low + high) / 2.0, high, steps - 1)
    ensures rothFinal((low + high) / 2.0) >= target ==>
      Bisect(rothFinal, tol, target, low, high, steps)
      == Bisect(rothFinal, tol, target, low, (low + high) / 2.0, steps - 1)
  {
  }

  /** The solver: the Traditional after-tax target for the caller's reading of
      the entered amount, then a bisection over after-tax Roth contributions. */
  method FindEquivalentRothMonthly(a: Assumptions, tol: real) returns (x: real)
    ensures x == Solve(a, tol).monthly
    ensures 0.0 <= x <= InitialHigh(a, Target(a))
    ensures Solve(a, tol).withinTolerance ==> Abs(RothFinalFor(a, x) - Target(a)) <= tol
  {
    var target := CalculatePortfolio(a).metrics.finalTradAfterTax;
    TargetIsPortfolio(a);
    var high := InitialHigh(a, target);
    x := BisectSearch(RothFinalCurve(a), tol, target, high, MaxIterations());
    SolveSound(a, tol);
  }

  /** The search never leaves its bracket. */
  lemma {:induction false} BisectInBracket(rothFinal: real -> real, tol: real, target: real,
                                           low: real, high: real, steps: nat)
    requires low <= high
    ensures low <= Bisect(rothFinal, tol, target, low, high, steps).monthly <= high
    decreases steps
  {
    var mid := (low + high) / 2.0;
    if steps > 0 && Abs(rothFinal(mid) - target) > tol {
      if rothFinal(mid) < target {
        BisectInBracket(rothFinal, tol, target, mid, high, steps - 1);
      } else {
        BisectInBracket(rothFinal, tol, target, low, mid, steps - 1);
      }
    }
  }

  /** A candidate is accepted early only when its Roth result is within
      tolerance of the target. */
  lemma {:induction false} BisectEarlyExitWithinTolerance(rothFinal: real -> real, tol: real, target: real,
                                                          low: real, high: real, steps: nat)
    ensures var o := Bisect(rothFinal, tol, target, low, high, steps);
      o.withinTolerance ==> Abs(rothFinal(o.monthly) - target) <= tol
    decreases steps
  {
    var mid := (low + high) / 2.0;
    if steps > 0 && Abs(rothFinal(mid) - target) > tol {
      if rothFinal(mid) < target {
        BisectEarlyExitWithinTolerance(rothFinal, tol, target, mid, high, steps - 1);
      } else {
        BisectEarlyExitWithinTolerance(rothFinal, tol, target, low, mid, steps - 1);
      }
    }
  }

  /** The solver's answer lies in [0, high] and, when accepted early, is within
      tolerance of the target. */
  lemma SolveSound(a: Assumptions, tol: real)
    ensures var o := Solve(a, tol);
      0.0 <= o.monthly <= InitialHigh(a, Target(a)) &&
      (o.withinTolerance ==> Abs(RothFinalFor(a, o.monthly) - Target(a)) <= tol)
  {
    var target := Target(a);
    var f := RothFinalCurve(a);
    BisectInBracket(f, tol, target, 0.0, InitialHigh(a, target), MaxIterations());
    BisectEarlyExitWithinTolerance(f, tol, target, 0.0, InitialHigh(a, target), MaxIterations());
  }

  /** `f` is the line with intercept `c` and slope `s`. */
  ghost predicate IsLine(f: real -> real, c: real, s: real)
  {
    forall m :: f(m) == c + s * m
  }

  /** For a non-decreasing affine result (intercept c, slope s) and a target that
      lies between the results at the bracket's ends, a bracket narrow enough for
      the halvings left ends within tolerance. */
  lemma {:induction false} BisectConverges(rothFinal: real -> real, tol: real, target: real,
                                           low: real, high: real, steps: nat, c: real, s: real)
    requires low <= high && s >= 0.0
    requires IsLine(rothFinal, c, s)
    requires rothFinal(low) <= target <= rothFinal(high)
    requires s * (high - low) <= Doubled(tol, steps)
    ensures Abs(rothFinal(Bisect(rothFinal, tol, target, low, high, steps).monthly) - target) <= tol
    decreases steps
  {
    var mid := (low + high) / 2.0;
    assert rothFinal(mid) == c + s * mid && rothFinal(low) == c + s * low && rothFinal(high) == c + s * high;
    if steps == 0 {
      LineBetween(c, s, low, mid, high);
    } else if Abs(rothFinal(mid) - target) > tol {
      HalfSpread(s, low, high, Doubled(tol, steps - 1));
      if rothFinal(mid) < target {
        BisectConverges(rothFinal, tol, target, mid, high, steps - 1, c, s);
      } else {
        BisectConverges(rothFinal, tol, target, low, mid, steps - 1, c, s);
      }
    }
  }

  /** On a non-decreasing line, the value at a point between two others lies
      between their values. */
  lemma LineBetween(c: real, s: real, low: real, mid: real, high: real)
    requires s >= 0.0 && low <= mid <= high
    ensures c + s * low <= c + s * mid <= c + s * high
  {
    ScaleNonNegative(s, mid - low);
    ScaleNonNegative(s, high - mid);
  }

  /** Halving a bracket halves the spread of a line's values over it. */
  lemma HalfSpread(s: real, low: real, high: real, reach: real)
    requires s * (high - low) <= 2.0 * reach
    ensures s * (high - (low + high) / 2.0) <= reach
    ensures s * ((low + high) / 2.0 - low) <= reach
  {
    assert s * (high - (low + high) / 2.0) == s * (high - low) / 2.0;
    assert s * ((low + high) / 2.0 - low) == s * (high - low) / 2.0;
  }

  lemma ScaleNonNegative(x: real, y: real)
    requires x >= 0.0 && y >= 0.0
    ensures x * y >= 0.0
  {
  }

  /** Each candidate's Roth result is the Roth after-tax final value that
      CalculatePortfolio reports when the candidate is entered as an after-tax
      contribution. */
  lemma RothFinalForIsPortfolio(a: Assumptions, monthly: real)
    ensures RothFinalFor(a, monthly)
            == CalculatePortfolio(a.(monthlyContribution := monthly, contributionIsAfterTax := true)).metrics.finalRothAfterTax
  {
    var candidate := a.(monthlyContribution := monthly, contributionIsAfterTax := true);
    FinalGrossIsFinalBuckets(candidate);
    GrowOfNothing(MonthlyRate(a.annualReturnRate), Months(a));
  }

  /** The Roth result is affine in the monthly contribution: the Roth result of
      contributing nothing plus the contribution times RothSlope. */
  lemma RothFinalAffine(a: Assumptions, monthly: real)
    ensures RothFinalFor(a, monthly) == RothFinalFor(a, 0.0) + monthly * RothSlope(a)
  {
    GrowAffine(SplitOf(a).afterTax, monthly, MonthlyRate(a.annualReturnRate), Months(a));
  }

  /** With a non-negative return rate and non-negative savings split by a valid
      percentage, the Roth result of contributing nothing is non-negative and
      each dollar a month adds at least one dollar per month of saving. */
  lemma RothGrowthBounds(a: Assumptions)
    requires a.annualReturnRate >= 0.0 && a.currentSavings >= 0.0 && 0.0 <= a.percentCurrentPreTax <= 100.0
    ensures RothFinalFor(a, 0.0) >= 0.0
    ensures RothSlope(a) >= Months(a) as real
  {
    var rate := MonthlyRate(a.annualReturnRate);
    GrowMonotoneInRate(SplitOf(a).afterTax, 0.0, rate, rate, Months(a));
    GrowAtLeastPrincipal(0.0, 1.0, rate, Months(a));
  }

  /** Under the same conditions and with at least one year to retirement, the
      initial bracket's top for any target gives a Roth result no lower than
      that target. */
  lemma InitialHighReachesTarget(a: Assumptions, target: real)
    requires a.annualReturnRate >= 0.0 && a.currentSavings >= 0.0 && 0.0 <= a.percentCurrentPreTax <= 100.0
    requires a.retirementAge > a.currentAge
    ensures RothFinalFor(a, InitialHigh(a, target)) >= target
  {
    var high := InitialHigh(a, target);
    RothFinalAffine(a, high);
    RothGrowthBounds(a);
    BracketArithmetic(RothFinalFor(a, high), RothFinalFor(a, 0.0), high, RothSlope(a), Months(a) as real, target);
  }

  /** The arithmetic of InitialHighReachesTarget. */
  lemma BracketArithmetic(atHigh: real, atZero: real, high: real, slope: real, months: real, target: real)
    requires atHigh == atZero + high * slope && atZero >= 0.0
    requires slope >= months >= 0.0 && high >= 0.0 && high * months >= 2.0 * target
    ensures atHigh >= target
  {
    ScaleMonotone(months, slope, high);
    ScaleNonNegative(months, high);
  }

  /** RothFinalCurve is a line with intercept RothFinalFor(a, 0) and slope
      RothSlope(a); the slope is non-negative when no month's growth factor is. */
  lemma RothCurveAffine(a: Assumptions)
    ensures IsLine(RothFinalCurve(a), RothFinalFor(a, 0.0), RothSlope(a))
    ensures a.annualReturnRate >= -12.0 ==> RothSlope(a) >= 0.0
  {
    forall m
      ensures RothFinalCurve(a)(m) == RothFinalFor(a, 0.0) + m * RothSlope(a)
    {
      RothFinalAffine(a, m);
    }
    if a.annualReturnRate >= -12.0 {
      var rate := MonthlyRate(a.annualReturnRate);
      GrowMonotoneInRate(0.0, 1.0, rate, rate, Months(a));
    }
  }

  /** In exact arithmetic the search meets its tolerance whenever the target is
      not below the Roth result of contributing nothing, the return rate and the
      savings are non-negative, retirement is at least a year away, and the
      halvings shrink the bracket's spread of Roth results to the tolerance. */
  lemma SearchForMeetsTolerance(a: Assumptions, tol: real, target: real, iterations: nat)
    requires a.annualReturnRate >= 0.0 && a.currentSavings >= 0.0 && 0.0 <= a.percentCurrentPreTax <= 100.0
    requires a.retirementAge > a.currentAge
    requires RothFinalFor(a, 0.0) <= target
    requires RothSlope(a) * InitialHigh(a, target) <= Doubled(tol, iterations)
    ensures Abs(RothFinalFor(a, SolveFor(a, tol, target, iterations).monthly) - target) <= tol
  {
    var high := InitialHigh(a, target);
    RothCurveAffine(a);
    InitialHighReachesTarget(a, target);
    var f := RothFinalCurve(a);
    assert f(0.0) <= target <= f(high);
    BisectConverges(f, tol, target, 0.0, high, iterations, RothFinalFor(a, 0.0), RothSlope(a));
    assert f(SolveFor(a, tol, target, iterations).monthly) == RothFinalFor(a, SolveFor(a, tol, target, iterations).monthly);
  }

  /** SearchForMeetsTolerance for the solver's own target and sixty halvings. */
  lemma SolverMeetsTolerance(a: Assumptions, tol: real)
    requires a.annualReturnRate >= 0.0 && a.currentSavings >= 0.0 && 0.0 <= a.percentCurrentPreTax <= 100.0
    requires a.retirementAge > a.currentAge
    requires RothFinalFor(a, 0.0) <= Target(a)
    requires RothSlope(a) * InitialHigh(a, Target(a)) <= Doubled(tol, MaxIterations())
    ensures Abs(RothFinalFor(a, Solve(a, tol).monthly) - Target(a)) <= tol
  {
    SearchForMeetsTolerance(a, tol, Target(a), MaxIterations());
  }
}
