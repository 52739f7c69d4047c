# Retirement portfolio calculator: Roth versus Traditional, in Dafny

This project models the computational core of a small retirement-projection
library, `code.py`, which compares saving the same monthly budget in a Roth
(after-tax) account and in a Traditional (pre-tax) account. It has three parts,
each in its own module:

- `Simulator` (`simulator.dfy`): the two-bucket monthly simulator. The annual
  rate becomes a flat monthly rate (annual / 12). Each month, each bucket
  receives its contribution and then grows by one month's rate. The combined
  total is recorded at year 0 and after every twelfth month. The principal is
  computed directly as the starting amount plus every contribution. The loop
  is the method `SimulateBucketsMonthly`. It is proved equal to the function
  `Simulate`, which is built from `Grow`, the balance of one bucket after n
  months.
- `Scenario` (`scenario.dfy`): the scenario evaluator `CalculatePortfolio`. It
  turns the age gap into a whole number of years and months. It reads the
  entered contribution as a Roth amount and a Traditional amount, using a
  gross-up denominator floored at 1e-9. It splits current savings into a
  pre-tax part and an after-tax part. It runs one Roth and one Traditional
  simulation. It values the Traditional result under "all_withdrawals_taxed"
  or "tax_gains_only"; any other model name falls back to the first.
- `Solver` (`solver.dfy`): the equivalence solver `FindEquivalentRothMonthly`.
  It computes the Traditional after-tax target. It then bisects the Roth
  after-tax monthly amount over `[0, high]` for at most 60 halvings. It
  returns early on a candidate within `tol` of the target; otherwise it
  returns the midpoint of the final bracket. The loop is the method
  `BisectSearch`. It is proved equal to the recursive function `Bisect`, and
  the solver's properties are proved about `Bisect`.

Money is Dafny `real`, so all arithmetic is exact.

## Model

| member | source | states |
|---|---|---|
| Simulator.MonthlyRate | code.py:3-4 | twelve monthly rates add up to the annual rate, and the monthly rate is non-negative exactly when the annual rate is |
| Simulator.Simulate | code.py:6-37 | the yearly totals have months / 12 + 1 entries; the first is the sum of the starting balances; with no months the finals are the starts; when months is a multiple of 12 the last total is the sum of the final balances; each principal is start + monthly * months |
| Simulator.SimulateBucketsMonthly | code.py:13-37 | the loop (contribution added, then growth, a total appended on every twelfth month) produces exactly `Simulate`'s result |
| Simulator.GrowAtZeroRate | code.py:20-29 | at rate 0 a bucket's final balance equals its principal |
| Simulator.ZeroRateKeepsPrincipal | code.py:17-29 | at annual rate 0 both final balances equal their principal totals, and the year-k total is the starting sum plus 12k months of both contributions |
| Simulator.GrowOfNothing | code.py:20-24 | an empty bucket receiving nothing stays empty at any rate |
| Simulator.GrowClosedForm | code.py:20-24 | a bucket's balance times the monthly rate r equals start * (1 + r)^n * r + monthly * (1 + r) * ((1 + r)^n - 1): the annuity formula, stated without division |
| Simulator.GrowAffine | code.py:20-24 | a bucket's final balance is the growth of its start plus the contribution times the growth of one unit a month |
| Simulator.GrowMonotone | code.py:20-24 | with a non-negative growth factor, a larger start and a larger contribution never give a smaller balance |
| Simulator.GrowAtLeastPrincipal | code.py:20-29 | with non-negative start, contribution and rate, a bucket never holds less than its principal |
| Simulator.GrowMonotoneInRate | code.py:20-24 | for non-negative inputs and growth factors, the balance is non-negative and never decreases as the rate rises |
| Simulator.SimulateMonotoneInRate | code.py:13-26 | with non-negative starting balances and contributions, raising the annual rate (from at least -12) never lowers either final balance or any yearly total |
| Scenario.YearsToRetirement | code.py:55 | the years to retirement are the age gap when it is non-negative and 0 otherwise |
| Scenario.Months | code.py:55-56 | the month count is a multiple of 12 and is twelve times the years to retirement |
| Scenario.Denominator | code.py:65 | the gross-up denominator is 1 - current tax rate or the 1e-9 floor, whichever is larger |
| Scenario.ConvertContribution | code.py:65-71 | after-tax input: Roth = input and Traditional * denominator = input; pre-tax input: Traditional = input and Roth = input * (1 - current tax rate) |
| Scenario.SplitSavings | code.py:74-75 | the pre-tax and after-tax parts add up to current savings; 100% and 0% put everything on one side; a valid percentage of non-negative savings gives two parts between 0 and the savings |
| Scenario.ComputeTraditionalAfterTax | code.py:120-140 | all-taxed and unknown models: after-tax final + pre-tax final * (1 - retirement rate); gains-only: equals gross when there are no gains, is at most gross for a non-negative retirement rate, is principal + gains * (1 - retirement rate) when there are gains (the principal is never taxed), and for a rate in [0, 1] is at least the principal or, when there are no gains, equal to gross |
| Scenario.CalculatePortfolio | code.py:39-180 | years are 0..years to retirement, and both series have that length; the Roth series starts at the after-tax split and the Traditional series at the pre-tax split; final gross values are the last yearly entries; Roth after-tax equals Roth gross; the echoed contributions are the converted ones; each net monthly outlay is derived from its converted contribution |
| Scenario.FinalGrossIsFinalBuckets | code.py:111-117 | each final gross value is the sum of its run's final buckets, so the empty-series fallbacks never apply |
| Scenario.NetOutlaysEqual | code.py:65-71 | when 1 - current tax rate is at least 1e-9, the Traditional and Roth net monthly outlays are equal, whichever way the input was entered |
| Scenario.ConvertedOutlaysEqual | code.py:65-71 | the same equality for the two converted contributions |
| Scenario.UnknownTaxModelFallsBack | code.py:129-140 | an unrecognised tax model gives exactly the "all_withdrawals_taxed" value |
| Scenario.GainsOnlyWithoutGrowthIsUntaxed | code.py:133-136 | at annual rate 0, "tax_gains_only" leaves the Traditional gross untaxed |
| Scenario.GainsOnlyNotBelowAllTaxed | code.py:120-140 | for non-negative savings with a pre-tax percentage in [0, 100], a non-negative entered contribution, an annual rate of at least -12 and a non-negative retirement rate, taxing only gains never leaves less than taxing every withdrawal |
| Scenario.GainsOnlyNotBelowAllTaxedFor | code.py:120-140 | the same comparison for one Traditional run with an empty after-tax bucket |
| Solver.TargetIsPortfolio | code.py:193-198 | the solver's target is the Traditional after-tax value that the scenario evaluator reports |
| Solver.RothFinalForIsPortfolio | code.py:207-216 | each candidate's Roth result is the Roth after-tax value that the scenario evaluator reports for that candidate entered as an after-tax contribution |
| Solver.RothFinalAffine | code.py:207-216 | the Roth result is the result of contributing nothing plus the candidate times the Roth slope |
| Solver.RothCurveAffine | code.py:207-216 | the candidate-to-result curve is a line, with non-negative slope when the annual rate is at least -12 |
| Solver.InitialHigh | code.py:202 | the initial bracket top is at least 2 and at least 8 times the entered amount; with retirement ahead, it times the month count is at least twice the target |
| Solver.BisectSearch | code.py:201-223 | the loop returns exactly what `Bisect` specifies for the given number of halvings, and its answer lies in [0, high] |
| Solver.FindEquivalentRothMonthly | code.py:182-223 | the answer is the search's result for 60 halvings; it lies in [0, initial high]; when returned early, its Roth result is within tolerance of the target |
| Solver.BisectInBracket | code.py:201-223 | the search never leaves its bracket |
| Solver.BisectEarlyExitWithinTolerance | code.py:217-218 | an early answer always has a Roth result within tolerance of the target |
| Solver.SolveSound | code.py:201-223 | the solver's answer lies in [0, initial high]; if accepted early, its Roth result is within tolerance of the target |
| Solver.BisectConverges | code.py:204-223 | for a non-decreasing linear result curve that brackets the target, a bracket whose spread of results is at most tol * 2^steps ends within tolerance |
| Solver.RothGrowthBounds | code.py:207-216 | with a non-negative rate and non-negative, validly split savings, contributing nothing gives a non-negative Roth result, and the slope is at least the month count |
| Solver.InitialHighReachesTarget | code.py:202 | under those conditions, and with retirement ahead, the initial bracket top gives a Roth result no lower than any target |
| Solver.SearchForMeetsTolerance | code.py:201-223 | under those conditions, for a target not below the result of contributing nothing, the search ends within tolerance once the halvings shrink the bracket's spread of results to tol |
| Solver.SolverMeetsTolerance | code.py:182-223 | the same for the solver's own target and 60 halvings |

## Left out

- The Streamlit user interface (code.py:228-405) is not modelled. It is presentation code over external libraries. The per-year Traditional after-tax approximations it computes for display (code.py:296-320, 381-401) are left out with it.
- The console fallback (code.py:407-415) is not modelled. It is printing and exception handling.
- `_format_currency` (code.py:225-226) is not modelled. It is float formatting.
- The first Roth simulation (code.py:78-87) is not modelled. Line 90 overwrites its result, so one Roth run is modelled.
- IEEE-754 floating point is not modelled. Money is `real`, so rounding, overflow and the float behaviour of the 1e-9 floor are outside the model. `Solver.SolverMeetsTolerance` states convergence in exact arithmetic only.
- Simulator.SimulateBucketsMonthly: `months` is a `nat`. The source's `range(1, months + 1)` with a negative count does nothing, and the evaluator only ever passes 12 * max(0, gap).
- Solver.FindEquivalentRothMonthly: each candidate is evaluated through the closed form `RothFinalFor`, not by re-running the whole scenario as code.py:207-215 does. `Solver.RothFinalForIsPortfolio` proves the two values are equal.
- The default arguments (for example `tol=1.0`, `current_tax_rate=0.22`) are not modelled. Callers pass every argument explicitly.
- The tax model is a `string` compared by equality, as in the source. No normalisation is applied.
