/** The scenario evaluator: one entered contribution read as a Roth (after-tax)
    and a Traditional (pre-tax) stream, one simulation for each, and the
    Traditional result valued under the selected tax model (code.py:39-180). */
module Scenario {
  import opened Simulator

  /** Tax model names; any other name falls back to the first. */
  const AllWithdrawalsTaxed: string := "all_withdrawals_taxed"
  const TaxGainsOnly: string := "tax_gains_only"

  /** The floor under the gross-up denominator `1 - currentTaxRate`. */
  const MinDenominator: real := 0.000000001

  /** The caller's assumptions; `monthlyContribution` is the entered amount. */
  datatype Assumptions = Assumptions(
    currentAge: int,
    retirementAge: int,
    currentSavings: real,
    monthlyContribution: real,
    annualReturnRate: real,
    contributionIsAfterTax: bool,
    currentTaxRate: real,
    percentCurrentPreTax: real,
    taxModel: string,
    retirementTaxRate: real)

  /** The two monthly streams derived from the entered contribution. */
  datatype Contributions = Contributions(rothMonthlyAfterTax: real, tradMonthlyPreTax: real)

  /** Current savings split into the part held pre-tax and the part held after-tax. */
  datatype StartingSplit = StartingSplit(preTax: real, afterTax: real)

  datatype Metrics = Metrics(
    finalRothGross: real,
    finalRothAfterTax: real,
    finalTradGross: real,
    finalTradAfterTax: real,
    netMonthlyRoth: real,
    netMonthlyTrad: real,
    yearsToRetirement: nat)

  /** The assumptions echoed back, with the two derived monthly amounts. */
  datatype ResolvedAssumptions = ResolvedAssumptions(
    contributionIsAfterTax: bool,
    currentTaxRate: real,
    retirementTaxRate: real,
    percentCurrentPreTax: real,
    taxModel: string,
    rothMonthlyAfterTax: real,
    tradMonthlyPreTax: real)

  datatype ScenarioResult = ScenarioResult(
    years: seq<nat>,
    rothYearly: seq<real>,
    tradYearly: seq<real>,
    metrics: Metrics,
    assumptions: ResolvedAssumptions)

  function Max(x: real, y: real): real
  {
    if x >= y then x else y
  }

  function Last(s: seq<real>): real
    requires |s| > 0
  {
    s[|s| - 1]
  }

  /** Whole years until retirement; a retirement age below the current age gives none. */
  function YearsToRetirement(currentAge: int, retirementAge: int): (y: nat)
    ensures retirementAge >= currentAge ==> y == retirementAge - currentAge
    ensures retirementAge <= currentAge ==> y == 0
  {
    if retirementAge - currentAge >= 0 then retirementAge - currentAge else 0
  }

  /** The number of simulated months: twelve per year to retirement. */
  function Months(a: Assumptions): (m: nat)
    ensures m % 12 == 0 && m / 12 == YearsToRetirement(a.currentAge, a.retirementAge)
  {
    YearsToRetirement(a.currentAge, a.retirementAge) * 12
  }

  /** The gross-up denominator: `1 - currentTaxRate`, but never below MinDenominator. */
  function Denominator(currentTaxRate: real): (d: real)
    ensures d >= MinDenominator && d >= 1.0 - currentTaxRate
    ensures d == MinDenominator || d == 1.0 - currentTaxRate
  {
    Max(MinDenominator, 1.0 - currentTaxRate)
  }

  /** Reads the entered amount as after-tax (Roth amount as entered, Traditional
      grossed up) or as pre-tax (Traditional as entered, Roth after tax now). */
  function ConvertContribution(amount: real, isAfterTax: bool, currentTaxRate: real): (c: Contributions)
    ensures isAfterTax ==>
              c.rothMonthlyAfterTax == amount && c.tradMonthlyPreTax * Denominator(currentTaxRate) == amount
    ensures !isAfterTax ==>
              c.tradMonthlyPreTax == amount && c.rothMonthlyAfterTax == amount * (1.0 - currentTaxRate)
  {
    var denom := Denominator(currentTaxRate);
    if isAfterTax then Contributions(amount, amount / denom)
    else Contributions(amount * (1.0 - currentTaxRate), amount)
  }

  /** Splits current savings by the pre-tax percentage; nothing is lost or created. */
  function SplitSavings(currentSavings: real, percentCurrentPreTax: real): (s: StartingSplit)
    ensures s.preTax + s.afterTax == currentSavings
    ensures percentCurrentPreTax == 100.0 ==> s.preTax == currentSavings && s.afterTax == 0.0
    ensures percentCurrentPreTax == 0.0 ==> s.preTax == 0.0 && s.afterTax == currentSavings
    ensures currentSavings >= 0.0 && 0.0 <= percentCurrentPreTax <= 100.0 ==>
              0.0 <= s.preTax <= currentSavings && 0.0 <= s.afterTax <= currentSavings
  {
    var preTax := currentSavings * (percentCurrentPreTax / 100.0);
    FractionBounds(currentSavings, percentCurrentPreTax);
    StartingSplit(preTax, currentSavings - preTax)
  }

  /** A percentage in [0, 100] of a non-negative amount lies between zero and the amount. */
  lemma FractionBounds(amount: real, percent: real)
    ensures amount >= 0.0 && 0.0 <= percent <= 100.0 ==> 0.0 <= amount * (percent / 100.0) <= amount
  {
    if amount >= 0.0 && 0.0 <= percent <= 100.0 {
      var fraction := percent / 100.0;
      assert 0.0 <= fraction <= 1.0;
      assert amount - amount * fraction == amount * (1.0 - fraction);
      assert amount * (1.0 - fraction) >= 0.0;
      assert amount * fraction >= 0.0;
    }
  }

  function ContributionsOf(a: Assumptions): Contributions
  {
    ConvertContribution(a.monthlyContribution, a.contributionIsAfterTax, a.currentTaxRate)
  }

  function SplitOf(a: Assumptions): StartingSplit
  {
    SplitSavings(a.currentSavings, a.percentCurrentPreTax)
  }

  /** The Roth run: only the after-tax part of savings, only after-tax contributions. */
  function RothSimulation(a: Assumptions): SimulationResult
  {
    Simulate(0.0, SplitOf(a).afterTax, 0.0, ContributionsOf(a).rothMonthlyAfterTax, a.annualReturnRate, Months(a))
  }

  /** The Traditional run: only the pre-tax part of savings, only pre-tax contributions. */
  function TraditionalSimulation(a: Assumptions): SimulationResult
  {
    Simulate(SplitOf(a).preTax, 0.0, ContributionsOf(a).tradMonthlyPreTax, 0.0, a.annualReturnRate, Months(a))
  }

  /** The after-tax value of a Traditional run. Under "all_withdrawals_taxed", and
      under any unrecognised model, the whole pre-tax bucket is taxed; under
      "tax_gains_only" only the gains above principal are, and never below zero. */
  function ComputeTraditionalAfterTax(sim: SimulationResult, taxModel: string, retirementTaxRate: real): (v: real)
    ensures taxModel != TaxGainsOnly ==>
              v == sim.finalAfterTaxBalance + sim.finalPreTaxBalance * (1.0 - retirementTaxRate)
    ensures taxModel == TaxGainsOnly && sim.finalPreTaxBalance + sim.finalAfterTaxBalance
                                        <= sim.preTaxPrincipalTotal + sim.afterTaxPrincipalTotal ==>
              v == sim.finalPreTaxBalance + sim.finalAfterTaxBalance
    ensures taxModel == TaxGainsOnly && retirementTaxRate >= 0.0 ==>
              v <= sim.finalPreTaxBalance + sim.finalAfterTaxBalance
    ensures taxModel == TaxGainsOnly && sim.finalPreTaxBalance + sim.finalAfterTaxBalance
                                        > sim.preTaxPrincipalTotal + sim.afterTaxPrincipalTotal ==>
              v == sim.preTaxPrincipalTotal + sim.afterTaxPrincipalTotal
                   + (sim.finalPreTaxBalance + sim.finalAfterTaxBalance
                      - sim.preTaxPrincipalTotal - sim.afterTaxPrincipalTotal) * (1.0 - retirementTaxRate)
    ensures taxModel == TaxGainsOnly && 0.0 <= retirementTaxRate <= 1.0 ==>
              v >= sim.preTaxPrincipalTotal + sim.afterTaxPrincipalTotal ||
              v == sim.finalPreTaxBalance + sim.finalAfterTaxBalance
  {
    var preTaxFinal := sim.finalPreTaxBalance;
    var afterTaxFinal := sim.finalAfterTaxBalance;
    var gross := preTaxFinal + afterTaxFinal;
    var principalTotal := sim.preTaxPrincipalTotal + sim.afterTaxPrincipalTotal;
    var gains := gross - principalTotal;
    if taxModel == AllWithdrawalsTaxed then
      afterTaxFinal + preTaxFinal * (1.0 - retirementTaxRate)
    else if taxModel == TaxGainsOnly then
      var taxableGains := Max(0.0, gains);
      gross - taxableGains * retirementTaxRate
    else
      afterTaxFinal + preTaxFinal * (1.0 - retirementTaxRate)
  }

  /** Evaluates one scenario: both runs, their yearly series and the summary metrics. */
  function CalculatePortfolio(a: Assumptions): (r: ScenarioResult)
    ensures r.metrics.yearsToRetirement == YearsToRetirement(a.currentAge, a.retirementAge)
    ensures |r.years| == r.metrics.yearsToRetirement + 1
    ensures forall i :: 0 <= i < |r.years| ==> r.years[i] == i
    ensures |r.rothYearly| == |r.years| && |r.tradYearly| == |r.years|
    ensures r.rothYearly[0] == SplitOf(a).afterTax && r.tradYearly[0] == SplitOf(a).preTax
    ensures r.metrics.finalRothGross == Last(r.rothYearly)
    ensures r.metrics.finalTradGross == Last(r.tradYearly)
    ensures r.metrics.finalRothAfterTax == r.metrics.finalRothGross
    ensures r.assumptions.rothMonthlyAfterTax == ContributionsOf(a).rothMonthlyAfterTax
    ensures r.assumptions.tradMonthlyPreTax == ContributionsOf(a).tradMonthlyPreTax
    ensures r.metrics.netMonthlyRoth == r.assumptions.rothMonthlyAfterTax
    ensures r.metrics.netMonthlyTrad == r.assumptions.tradMonthlyPreTax * (1.0 - a.currentTaxRate)
  {
    var years := YearsToRetirement(a.currentAge, a.retirementAge);
    var c := ContributionsOf(a);
    var split := SplitOf(a);
    var rothSim := RothSimulation(a);
    var tradSim := TraditionalSimulation(a);
    var rothYearly := rothSim.yearlyTotals;
    var tradYearly := tradSim.yearlyTotals;
    var finalRothGross :=
      if |rothYearly| > 0 then Last(rothYearly) else (if split.afterTax != 0.0 then split.afterTax else 0.0);
    var finalTradGross :=
      if |tradYearly| > 0 then Last(tradYearly) else (if split.preTax != 0.0 then split.preTax else 0.0);
    var finalRothAfterTax := finalRothGross;
    var finalTradAfterTax := ComputeTraditionalAfterTax(tradSim, a.taxModel, a.retirementTaxRate);
    var netMonthlyRoth :=
      if a.contributionIsAfterTax then c.rothMonthlyAfterTax else c.rothMonthlyAfterTax;
    var netMonthlyTrad :=
      if a.contributionIsAfterTax then c.tradMonthlyPreTax * (1.0 - a.currentTaxRate)
      else c.tradMonthlyPreTax * (1.0 - a.currentTaxRate);
    ScenarioResult(
      seq(years + 1, i requires 0 <= i <= years => i),
      rothYearly,
      tradYearly,
      Metrics(finalRothGross, finalRothAfterTax, finalTradGross, finalTradAfterTax,
              netMonthlyRoth, netMonthlyTrad, years),
      ResolvedAssumptions(a.contributionIsAfterTax, a.currentTaxRate, a.retirementTaxRate,
                          a.percentCurrentPreTax, a.taxModel, c.rothMonthlyAfterTax, c.tradMonthlyPreTax))
  }

  /** Because the month count is a whole number of years, the last yearly total
      is the sum of the final buckets: the empty-series fallbacks never apply. */
  lemma FinalGrossIsFinalBuckets(a: Assumptions)
    ensures var m := CalculatePortfolio(a).metrics;
      m.finalRothGross == RothSimulation(a).finalPreTaxBalance + RothSimulation(a).finalAfterTaxBalance &&
      m.finalTradGross == TraditionalSimulation(a).finalPreTaxBalance + TraditionalSimulation(a).finalAfterTaxBalance
  {
  }

  /** Whenever the denominator is not floored, the Traditional stream costs the
      same out of pocket each month as the Roth stream, whichever way the
      contribution was entered. */
  lemma NetOutlaysEqual(a: Assumptions)
    requires 1.0 - a.currentTaxRate >= MinDenominator
    ensures CalculatePortfolio(a).metrics.netMonthlyTrad == CalculatePortfolio(a).metrics.netMonthlyRoth
  {
    var r := CalculatePortfolio(a);
    var c := ContributionsOf(a);
    assert r.metrics.netMonthlyRoth == c.rothMonthlyAfterTax;
    assert r.metrics.netMonthlyTrad == c.tradMonthlyPreTax * (1.0 - a.currentTaxRate);
    ConvertedOutlaysEqual(a.monthlyContribution, a.contributionIsAfterTax, a.currentTaxRate);
  }

  /** The two converted contributions cost the same out of pocket whenever the
      denominator is not floored. */
  lemma ConvertedOutlaysEqual(amount: real, isAfterTax: bool, currentTaxRate: real)
    requires 1.0 - currentTaxRate >= MinDenominator
    ensures var c := ConvertContribution(amount, isAfterTax, currentTaxRate);
      c.tradMonthlyPreTax * (1.0 - currentTaxRate) == c.rothMonthlyAfterTax
  {
    if isAfterTax {
      assert Denominator(currentTaxRate) == 1.0 - currentTaxRate;
    }
  }

  /** An unrecognised tax model is valued exactly as "all_withdrawals_taxed". */
  lemma UnknownTaxModelFallsBack(a: Assumptions, model: string)
    requires model != AllWithdrawalsTaxed && model != TaxGainsOnly
    ensures CalculatePortfolio(a.(taxModel := model)).metrics.finalTradAfterTax
            == CalculatePortfolio(a.(taxModel := AllWithdrawalsTaxed)).metrics.finalTradAfterTax
  {
    assert TraditionalSimulation(a.(taxModel := model)) == TraditionalSimulation(a.(taxModel := AllWithdrawalsTaxed));
  }

  /** With no growth there are no gains, so "tax_gains_only" leaves the
      Traditional balance untaxed. */
  lemma GainsOnlyWithoutGrowthIsUntaxed(a: Assumptions)
    requires a.taxModel == TaxGainsOnly && a.annualReturnRate == 0.0
    ensures CalculatePortfolio(a).metrics.finalTradAfterTax == CalculatePortfolio(a).metrics.finalTradGross
  {
    var c := ContributionsOf(a);
    ZeroRateKeepsPrincipal(SplitOf(a).preTax, 0.0, c.tradMonthlyPreTax, 0.0, Months(a));
  }

  /** For a non-negative Traditional run (savings, contributions, growth factor and
      retirement rate), taxing only gains never leaves less than taxing every
      withdrawal. */
  lemma GainsOnlyNotBelowAllTaxed(a: Assumptions)
    requires a.currentSavings >= 0.0 && 0.0 <= a.percentCurrentPreTax <= 100.0
    requires a.monthlyContribution >= 0.0
    requires a.annualReturnRate >= -12.0 && a.retirementTaxRate >= 0.0
    ensures CalculatePortfolio(a.(taxModel := TaxGainsOnly)).metrics.finalTradAfterTax
            >= CalculatePortfolio(a.(taxModel := AllWithdrawalsTaxed)).metrics.finalTradAfterTax
  {
    var sim := TraditionalSimulation(a);
    var c := ContributionsOf(a);
    var rate := MonthlyRate(a.annualReturnRate);
    var t := a.retirementTaxRate;
    assert c.tradMonthlyPreTax >= 0.0;
    GrowOfNothing(rate, Months(a));
    GrowMonotoneInRate(SplitOf(a).preTax, c.tradMonthlyPreTax, rate, rate, Months(a));
    assert sim.preTaxPrincipalTotal + sim.afterTaxPrincipalTotal >= 0.0;
    assert TraditionalSimulation(a.(taxModel := TaxGainsOnly)) == sim;
    assert TraditionalSimulation(a.(taxModel := AllWithdrawalsTaxed)) == sim;
    GainsOnlyNotBelowAllTaxedFor(sim, t);
  }

  /** The valuation step of GainsOnlyNotBelowAllTaxed, for one Traditional run. */
  lemma GainsOnlyNotBelowAllTaxedFor(sim: SimulationResult, t: real)
    requires sim.finalAfterTaxBalance == 0.0 && sim.finalPreTaxBalance >= 0.0
    requires sim.preTaxPrincipalTotal + sim.afterTaxPrincipalTotal >= 0.0 && t >= 0.0
    ensures ComputeTraditionalAfterTax(sim, TaxGainsOnly, t) >= ComputeTraditionalAfterTax(sim, AllWithdrawalsTaxed, t)
  {
    var gross := sim.finalPreTaxBalance;
    var principal := sim.preTaxPrincipalTotal + sim.afterTaxPrincipalTotal;
    if gross > principal {
      assert gross - (gross - principal) * t == gross * (1.0 - t) + principal * t;
      assert principal * t >= 0.0;
    } else {
      assert gross * t >= 0.0;
    }
  }
}
