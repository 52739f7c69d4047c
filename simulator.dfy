/** The two-bucket monthly simulator: a pre-tax and an after-tax balance advanced
    month by month under contributions and compound growth (code.py:3-37). */
module Simulator {

  /** The flat monthly rate: the annual rate divided by twelve, so that twelve
      months of it add up to the annual rate (no compounded-equivalent conversion). */
  function MonthlyRate(annualReturnRate: real): (r: real)
    ensures 12.0 * r == annualReturnRate
    ensures (r >= 0.0) == (annualReturnRate >= 0.0)
  {
    annualReturnRate / 12.0
  }

  /** One month of one bucket: the contribution is added first, then the bucket
      (contribution included) grows by one month's rate. */
  function Step(balance: real, monthly: real, rate: real): real
  {
    (balance + monthly) * (1.0 + rate)
  }

  /** The balance of one bucket after `months` contribution-and-growth steps. */
  function Grow(start: real, monthly: real, rate: real, months: nat): real
    decreases months
  {
    if months == 0 then start else Step(Grow(start, monthly, rate, months - 1), monthly, rate)
  }

  /** The principal of one bucket: its starting amount plus every contribution. */
  function Principal(start: real, monthly: real, months: nat): real
  {
    start + monthly * months as real
  }

  datatype SimulationResult = SimulationResult(
    yearlyTotals: seq<real>,
    finalPreTaxBalance: real,
    finalAfterTaxBalance: real,
    preTaxPrincipalTotal: real,
    afterTaxPrincipalTotal: real)

  /** The combined balance of both buckets after `month` steps at monthly rate `rate`. */
  function Total(currentPreTax: real, currentAfterTax: real, monthlyPreTax: real, monthlyAfterTax: real,
                 rate: real, month: nat): real
  {
    Grow(currentPreTax, monthlyPreTax, rate, month) + Grow(currentAfterTax, monthlyAfterTax, rate, month)
  }

  /** What a simulation of `months` months produces: the combined total at year 0
      and after every twelfth month, both final balances and both principals. */
  function Simulate(currentPreTax: real, currentAfterTax: real, monthlyPreTax: real, monthlyAfterTax: real,
                    annualReturnRate: real, months: nat): (r: SimulationResult)
    ensures |r.yearlyTotals| == months / 12 + 1
    ensures r.yearlyTotals[0] == currentPreTax + currentAfterTax
    ensures months == 0 ==>
              r.finalPreTaxBalance == currentPreTax && r.finalAfterTaxBalance == currentAfterTax
    ensures months % 12 == 0 ==>
              r.yearlyTotals[months / 12] == r.finalPreTaxBalance + r.finalAfterTaxBalance
    ensures r.preTaxPrincipalTotal == Principal(currentPreTax, monthlyPreTax, months)
    ensures r.afterTaxPrincipalTotal == Principal(currentAfterTax, monthlyAfterTax, months)
  {
    var rate := MonthlyRate(annualReturnRate);
    SimulationResult(
      seq(months / 12 + 1, k requires 0 <= k <= months / 12 =>
        Total(currentPreTax, currentAfterTax, monthlyPreTax, monthlyAfterTax, rate, 12 * k)),
      Grow(currentPreTax, monthlyPreTax, rate, months),
      Grow(currentAfterTax, monthlyAfterTax, rate, months),
      Principal(currentPreTax, monthlyPreTax, months),
      Principal(currentAfterTax, monthlyAfterTax, months))
  }

  /** The simulation loop: both accumulators advance one month per iteration and
      the combined total is appended after every twelfth month. */
  method SimulateBucketsMonthly(currentPreTax: real, currentAfterTax: real, monthlyPreTax: real,
                                monthlyAfterTax: real, annualReturnRate: real, months: nat)
    returns (res: SimulationResult)
    ensures res == Simulate(currentPreTax, currentAfterTax, monthlyPreTax, monthlyAfterTax, annualReturnRate, months)
  {
    var monthlyRate := MonthlyRate(annualReturnRate);
    var pre := currentPreTax;
    var after := currentAfterTax;
    var yearlyTotals := [pre + after];
    for month := 1 to months + 1
      invariant pre == Grow(currentPreTax, monthlyPreTax, monthlyRate, month - 1)
      invariant after == Grow(currentAfterTax, monthlyAfterTax, monthlyRate, month - 1)
      invariant |yearlyTotals| == (month - 1) / 12 + 1
      invariant forall k :: 0 <= k < |yearlyTotals| ==>
                  yearlyTotals[k] == Total(currentPreTax, currentAfterTax, monthlyPreTax, monthlyAfterTax, monthlyRate, 12 * k)
    {
      pre := pre + monthlyPreTax;
      after := after + monthlyAfterTax;
      pre := pre * (1.0 + monthlyRate);
      after := after * (1.0 + monthlyRate);
      if month % 12 == 0 {
        assert 12 * (|yearlyTotals|) == month;
        yearlyTotals := yearlyTotals + [pre + after];
      }
    }
    var preTaxPrincipalTotal := currentPreTax + monthlyPreTax * months as real;
    var afterTaxPrincipalTotal := currentAfterTax + monthlyAfterTax * months as real;
    res := SimulationResult(yearlyTotals, pre, after, preTaxPrincipalTotal, afterTaxPrincipalTotal);
  }

  /** At rate zero every step adds the contribution and multiplies by one, so a
      bucket holds exactly its principal. */
  lemma {:induction false} GrowAtZeroRate(start: real, monthly: real, months: nat)
    ensures Grow(start, monthly, 0.0, months) == Principal(start, monthly, months)
  {
    if months > 0 {
      GrowAtZeroRate(start, monthly, months - 1);
    }
  }

  /** A simulation at annual rate zero: both final buckets equal their principal
      totals and the year-k total is the starting sum plus twelve months of both
      contributions per year. */
  lemma ZeroRateKeepsPrincipal(currentPreTax: real, currentAfterTax: real, monthlyPreTax: real,
                               monthlyAfterTax: real, months: nat)
    ensures var r := Simulate(currentPreTax, currentAfterTax, monthlyPreTax, monthlyAfterTax, 0.0, months);
      r.finalPreTaxBalance == r.preTaxPrincipalTotal &&
      r.finalAfterTaxBalance == r.afterTaxPrincipalTotal &&
      forall k :: 0 <= k < |r.yearlyTotals| ==>
        r.yearlyTotals[k] == currentPreTax + currentAfterTax + (monthlyPreTax + monthlyAfterTax) * (12 * k) as real
  {
    GrowAtZeroRate(currentPreTax, monthlyPreTax, months);
    GrowAtZeroRate(currentAfterTax, monthlyAfterTax, months);
    forall k | 0 <= k <= months / 12
      ensures Total(currentPreTax, currentAfterTax, monthlyPreTax, monthlyAfterTax, 0.0, 12 * k)
              == currentPreTax + currentAfterTax + (monthlyPreTax + monthlyAfterTax) * (12 * k) as real
    {
      GrowAtZeroRate(currentPreTax, monthlyPreTax, 12 * k);
      GrowAtZeroRate(currentAfterTax, monthlyAfterTax, 12 * k);
    }
  }

  /** An empty bucket that receives nothing stays empty, at any rate. */
  lemma {:induction false} GrowOfNothing(rate: real, months: nat)
    ensures Grow(0.0, 0.0, rate, months) == 0.0
  {
    if months > 0 {
      GrowOfNothing(rate, months - 1);
    }
  }

  /** A bucket's balance is affine in its monthly contribution: the growth of the
      starting amount plus the contribution times the growth of one unit a month. */
  lemma {:induction false} GrowAffine(start: real, monthly: real, rate: real, months: nat)
    ensures Grow(start, monthly, rate, months)
            == Grow(start, 0.0, rate, months) + monthly * Grow(0.0, 1.0, rate, months)
  {
    if months == 0 {
      assert Grow(0.0, 1.0, rate, 0) == 0.0;
    } else {
      GrowAffine(start, monthly, rate, months - 1);
      GrowAffineStep(start, monthly, rate, months);
    }
  }

  /** The inductive step of GrowAffine: the affine split for one month more. */
  lemma GrowAffineStep(start: real, monthly: real, rate: real, months: nat)
    requires months > 0
    requires Grow(start, monthly, rate, months - 1)
             == Grow(start, 0.0, rate, months - 1) + monthly * Grow(0.0, 1.0, rate, months - 1)
    ensures Grow(start, monthly, rate, months)
            == Grow(start, 0.0, rate, months) + monthly * Grow(0.0, 1.0, rate, months)
  {
    AffineStep(Grow(start, monthly, rate, months - 1), Grow(start, 0.0, rate, months - 1),
               Grow(0.0, 1.0, rate, months - 1), monthly, rate);
  }

  /** The arithmetic of one step of GrowAffine. */
  lemma AffineStep(w: real, s: real, u: real, monthly: real, rate: real)
    requires w == s + monthly * u
    ensures Step(w, monthly, rate) == Step(s, 0.0, rate) + monthly * Step(u, 1.0, rate)
  {
    var g := 1.0 + rate;
    calc {
      (s + monthly * u + monthly) * g;
      s * g + (monthly * u) * g + monthly * g;
      { assert (monthly * u) * g == monthly * (u * g); }
      s * g + monthly * (u * g) + monthly * g;
      s * g + monthly * (u * g + g);
    }
  }

  /** `x` raised to the power `n`. */
  function Pow(x: real, n: nat): real
  {
    if n == 0 then 1.0 else x * Pow(x, n - 1)
  }

  /** The annuity closed form of a bucket's balance, multiplied through by the
      rate so that it needs no division: the start compounds for every month,
      and each contribution compounds from the month it is added. */
  lemma {:induction false} GrowClosedForm(start: real, monthly: real, rate: real, months: nat)
    ensures Grow(start, monthly, rate, months) * rate
            == start * Pow(1.0 + rate, months) * rate
               + monthly * (1.0 + rate) * (Pow(1.0 + rate, months) - 1.0)
  {
    if months > 0 {
      GrowClosedForm(start, monthly, rate, months - 1);
      GrowClosedFormStep(start, monthly, rate, months);
    }
  }

  /** The inductive step of GrowClosedForm: the closed form for one month more. */
  lemma GrowClosedFormStep(start: real, monthly: real, rate: real, months: nat)
    requires months > 0
    requires Grow(start, monthly, rate, months - 1) * rate
             == start * Pow(1.0 + rate, months - 1) * rate
                + monthly * (1.0 + rate) * (Pow(1.0 + rate, months - 1) - 1.0)
    ensures Grow(start, monthly, rate, months) * rate
            == start * Pow(1.0 + rate, months) * rate
               + monthly * (1.0 + rate) * (Pow(1.0 + rate, months) - 1.0)
  {
    ClosedFormStep(Grow(start, monthly, rate, months - 1), start, monthly, rate, Pow(1.0 + rate, months - 1));
  }

  /** The arithmetic of one step of GrowClosedForm. */
  lemma ClosedFormStep(w: real, start: real, monthly: real, rate: real, p: real)
    requires w * rate == start * p * rate + monthly * (1.0 + rate) * (p - 1.0)
    ensures Step(w, monthly, rate) * rate
            == start * ((1.0 + rate) * p) * rate + monthly * (1.0 + rate) * ((1.0 + rate) * p - 1.0)
  {
    var g := 1.0 + rate;
    calc {
      (w + monthly) * g * rate;
      (w * rate + monthly * rate) * g;
      (start * p * rate + monthly * g * (p - 1.0) + monthly * rate) * g;
      start * (g * p) * rate + monthly * g * (g * (p - 1.0) + rate);
      { assert g * (p - 1.0) + rate == g * p - 1.0; }
      start * (g * p) * rate + monthly * g * (g * p - 1.0);
    }
  }

  /** When a month's growth factor is non-negative, a larger start and a larger
      contribution never give a smaller balance. */
  lemma {:induction false} GrowMonotone(start1: real, start2: real, monthly1: real, monthly2: real,
                                        rate: real, months: nat)
    requires start1 <= start2 && monthly1 <= monthly2 && 1.0 + rate >= 0.0
    ensures Grow(start1, monthly1, rate, months) <= Grow(start2, monthly2, rate, months)
  {
    if months > 0 {
      GrowMonotone(start1, start2, monthly1, monthly2, rate, months - 1);
      var b1 := Grow(start1, monthly1, rate, months - 1) + monthly1;
      var b2 := Grow(start2, monthly2, rate, months - 1) + monthly2;
      ScaleMonotone(b1, b2, 1.0 + rate);
    }
  }

  /** Multiplying by a non-negative factor keeps an ordering. */
  lemma ScaleMonotone(x: real, y: real, g: real)
    requires x <= y && g >= 0.0
    ensures x * g <= y * g
  {
    assert y * g - x * g == (y - x) * g;
  }

  /** With a non-negative rate, a non-negative start and a non-negative
      contribution, a bucket never holds less than its principal. */
  lemma {:induction false} GrowAtLeastPrincipal(start: real, monthly: real, rate: real, months: nat)
    requires start >= 0.0 && monthly >= 0.0 && rate >= 0.0
    ensures Grow(start, monthly, rate, months) >= Principal(start, monthly, months)
  {
    if months > 0 {
      GrowAtLeastPrincipal(start, monthly, rate, months - 1);
      var b := Grow(start, monthly, rate, months - 1) + monthly;
      assert b >= 0.0;
      assert b * (1.0 + rate) == b + b * rate;
      assert b * rate >= 0.0;
    }
  }

  /** For non-negative starts and contributions and growth factors that stay
      non-negative, a higher rate never gives a smaller balance. */
  lemma {:induction false} GrowMonotoneInRate(start: real, monthly: real, rate1: real, rate2: real, months: nat)
    requires start >= 0.0 && monthly >= 0.0 && -1.0 <= rate1 <= rate2
    ensures 0.0 <= Grow(start, monthly, rate1, months) <= Grow(start, monthly, rate2, months)
  {
    if months > 0 {
      GrowMonotoneInRate(start, monthly, rate1, rate2, months - 1);
      StepMonotone(Grow(start, monthly, rate1, months - 1) + monthly,
                   Grow(start, monthly, rate2, months - 1) + monthly, 1.0 + rate1, 1.0 + rate2);
    }
  }

  /** The arithmetic of one step of GrowMonotoneInRate. */
  lemma StepMonotone(b1: real, b2: real, g1: real, g2: real)
    requires 0.0 <= b1 <= b2 && 0.0 <= g1 <= g2
    ensures 0.0 <= b1 * g1 <= b2 * g2
  {
    ScaleMonotone(b1, b2, g1);
    assert b2 * g2 - b2 * g1 == b2 * (g2 - g1);
    assert b2 * (g2 - g1) >= 0.0;
  }

  /** Raising the annual rate (other inputs fixed and non-negative, annual rate
      at least -12 so that no month's growth factor is negative) never decreases
      either final balance or any yearly total. */
  lemma SimulateMonotoneInRate(currentPreTax: real, currentAfterTax: real, monthlyPreTax: real,
                               monthlyAfterTax: real, annualRate1: real, annualRate2: real, months: nat)
    requires currentPreTax >= 0.0 && currentAfterTax >= 0.0 && monthlyPreTax >= 0.0 && monthlyAfterTax >= 0.0
    requires -12.0 <= annualRate1 <= annualRate2
    ensures var r1 := Simulate(currentPreTax, currentAfterTax, monthlyPreTax, monthlyAfterTax, annualRate1, months);
            var r2 := Simulate(currentPreTax, currentAfterTax, monthlyPreTax, monthlyAfterTax, annualRate2, months);
      r1.finalPreTaxBalance <= r2.finalPreTaxBalance &&
      r1.finalAfterTaxBalance <= r2.finalAfterTaxBalance &&
      forall k :: 0 <= k < |r1.yearlyTotals| ==> r1.yearlyTotals[k] <= r2.yearlyTotals[k]
  {
    var rate1, rate2 := MonthlyRate(annualRate1), MonthlyRate(annualRate2);
    GrowMonotoneInRate(currentPreTax, monthlyPreTax, rate1, rate2, months);
    GrowMonotoneInRate(currentAfterTax, monthlyAfterTax, rate1, rate2, months);
    forall k | 0 <= k <= months / 12
      ensures Total(currentPreTax, currentAfterTax, monthlyPreTax, monthlyAfterTax, rate1, 12 * k)
              <= Total(currentPreTax, currentAfterTax, monthlyPreTax, monthlyAfterTax, rate2, 12 * k)
    {
      GrowMonotoneInRate(currentPreTax, monthlyPreTax, rate1, rate2, 12 * k);
      GrowMonotoneInRate(currentAfterTax, monthlyAfterTax, rate1, rate2, 12 * k);
    }
  }
}
