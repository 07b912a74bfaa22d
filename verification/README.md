# Insurance coverage analysis — a Dafny model

This project models the analysis engine of a single-page insurance analysis
tool. The engine takes a customer profile, the customer's insurance contracts,
the insured amounts for twenty fixed coverage categories, a set of ancillary
coverage flags and a table of standard amounts, and produces:

- **premium affordability**: the total monthly premium, its ratio to income,
  the payments still owed, the premium still payable after retirement and at
  ages 60, 70 and 80, and a first-match risk classification (안정 / 위험);
- **a per-category gap analysis**: a standard amount chosen by mode (minimum,
  recommended or the customer's own), reduced to 60% from age 60 and raised by
  half for a family history of the category's disease domain, then the gap
  and a 부족 / 보통 / 적정 classification;
- **four ancillary checks** in a fixed order: medical indemnity (실손),
  driver's criminal settlement, fire damage and daily liability;
- **presentation-side figures**: the lifecycle table's percentages and risk
  flags, the count of 부족 categories and the list of missing ancillary
  coverages in the closing summary.

Modules follow the engine's parts: `Inputs` (profile, contracts, flags,
calendar months), `Numbers` (JavaScript's `Math.round` of a quotient),
`Coverage` (the twenty categories, their labels, disease domains and built-in
standards), `Premium` (affordability), `Gap` (coverage gaps), `Ancillary`
(the four checks), `Engine` (the whole analysis) and `Report` (the figures the
report derives from it).

Representation choices:

- The evaluation date is a parameter, a `YearMonth` (year, 0-based month).
  A contract's pay-end date is an optional `YearMonth`; an empty date is `None`.
- Premiums, income, ages and standard amounts are integers. The income ratio
  and the adjusted recommended amounts are exact `real`s instead of binary
  floating point.
- `Math.round(n / d)` with `d > 0` is the integer `r` with
  `r - 1/2 <= n/d < r + 1/2`, computed with floor division.
- The label substring tests (`includes("암")`, `"뇌"`, `"심장"`, `"급성심근"`,
  `"치매"`) are replaced by a domain table over the twenty categories.
  `Coverage.DomainMatchesLabel` proves the table agrees with the substring
  tests on the actual Korean labels, and `Gap.AdjustmentMatchesLabelTests`
  lifts this to the adjusted amounts.
- The coverage and standards tables are maps that hold every category
  (`Covers`). The engine starts them with every key and only ever updates one
  key at a time.
- The result groups the affordability figures into one `Affordability` record.
  The risk reason is an enumeration; its post-retirement case carries the
  rounded percentage that the message shows.

## Model

| member | source | states |
|---|---|---|
| Coverage.CoverageKeys | script.js:8-30 | the category list has twenty entries, holds every category and repeats none, and lists each category at its position in the table's declaration order |
| Coverage.InitialStandards | script.js:8-29 | the built-in table has an entry for every category, with no user amount set and 0 < minimum < recommended |
| Coverage.InitialEntry | script.js:9-28 | every built-in row has a positive minimum below its recommended amount and no user amount |
| Coverage.DomainMatchesLabel | script.js:183-185 | a category's label contains one of a domain's search terms exactly when the domain table assigns the category to that domain |
| Coverage.DomainOf | script.js:13-21 | the cancer categories are the four table rows from 암 진단비, the brain and heart ones the next four, dementia the one after, and all other categories have no disease domain |
| Numbers.RoundQuotient | script.js:205 | the result is the nearest integer to n/d, with halves rounded up |
| Premium.ContractShare | script.js:157-170 | a contract without a pay-end date adds nothing; with months remaining it owes months × premium, otherwise nothing; it counts its premium after retirement exactly when it is paid beyond the retirement year, and at age 60, 70 or 80 exactly when it is paid in the year the customer reaches that age; with a non-negative premium the shares are ordered and bounded by the premium |
| Premium.MonthsLeft | script.js:161 | the months left are the calendar months from today's month to the pay-end month |
| Premium.YearAtAge | script.js:155-166 | the customer reaches the given age as many years after the current year as the age lies above the current age |
| Premium.TotalPremium | script.js:149 | the total is non-negative for non-negative premiums and zero when every premium is zero |
| Premium.Tally | script.js:152-170 | with non-negative premiums the age-80 total ≤ age-70 total ≤ age-60 total ≤ the total premium, the post-retirement total is at most the total premium, and the owed payments are non-negative |
| Premium.TallyConcat | script.js:157-170 | the figures of two contract lists placed one after the other are the sums of the two lists' figures |
| Premium.TallyOrderIndependent | script.js:157-170 | moving a leading block of contracts to the end of the list changes none of the figures |
| Premium.TotalPremiumConcat | script.js:149 | the total premium of two contract lists placed one after the other is the sum of their totals |
| Premium.DatelessContractsOweNothing | script.js:158 | contracts without pay-end dates owe nothing and count at no milestone and not after retirement |
| Premium.PaidIn | script.js:163-169 | the selected contracts are exactly those of the list still paid in the given year, and there are no more of them than contracts |
| Premium.TallyCountsPaidIn | script.js:155-169 | the post-retirement premium is the total premium of the contracts paid beyond the retirement year, and the premium at 60, 70 and 80 is the total premium of the contracts paid in the year the customer reaches that age |
| Premium.EarlyRetirementCoversAge60 | script.js:155-167 | for a retirement age below 60, the premium still payable at 60 is at most the premium payable after retirement |
| Premium.MonthsLeftPositiveIffLater | script.js:161-162 | for valid month indexes, months remain exactly when the pay-end month is after the current month |
| Premium.IncomeRatio | script.js:150 | the ratio is 0 without a positive income; otherwise ratio × income = total premium / 100, so the premium is ratio% of income × 10,000 |
| Premium.IncomeRatioAbove15 | script.js:150-174 | the ratio exceeds 15% exactly when income is positive and the premium exceeds 1,500 won per unit of income |
| Premium.Assess | script.js:172-175 | the status is 위험 exactly when a reason is given; the income reason applies exactly when the ratio exceeds 15, whatever else holds; the post-retirement reason applies exactly when the ratio is at most 15, the total is positive and the post-retirement premium exceeds 30% of it; its percentage is the post-retirement premium's share of the total, rounded |
| Premium.RiskFor | script.js:150-175 | the same first-match rules, stated on the won amounts: the status is 위험 exactly when a reason is given; the income reason applies exactly when the premium exceeds 1,500 won per unit of positive income; the post-retirement reason applies otherwise exactly when the total is positive and the post-retirement premium exceeds 30% of it, and carries that share of the total as a rounded percentage |
| Premium.Afford | script.js:149-175 | the total premium is the sum of the premiums and is the current lifecycle premium; the post-retirement and the age-60, 70 and 80 premiums are the contract figures; the reported owed amount is the owed won amount divided by 10,000 and rounded; with non-negative premiums the milestones are ordered and bounded by the total and nothing owed is negative; the risk rules hold on the computed totals, and a post-retirement reason carries the post-retirement premium's rounded percentage of the total |
| Premium.AffordOrderIndependent | script.js:149-175 | two lists holding the same contracts, in any order, give the same affordability figures |
| Premium.TallyPermutation | script.js:149-170 | two lists holding the same contracts, in any order, have the same total premium and the same figures |
| Premium.AccumulateContracts | script.js:149-170 | the two passes over the contract list compute exactly the recursive total premium and the recursive figures |
| Premium.SumPremiums | script.js:149 | the loop's running sum ends at the recursive total premium |
| Premium.VisitAll | script.js:157-170 | the loop's running figures end at the recursive figures of the whole list |
| Premium.VisitContract | script.js:157-169 | one visit adds the contract's share to the running figures and leaves them unchanged for a contract without a pay-end date |
| Gap.BaseAmount | script.js:180 | minimum mode picks the minimum and recommended mode the recommended amount; the customer's mode picks the customer's amount when it is set (positive) and the recommended one otherwise |
| Gap.AdjustedAmount | script.js:182-185 | the adjusted amount is the base × 0.6 from age 60, × 1.5 for a family history of the category's domain; both together give 0.9 × base; a non-negative base stays between 60% and 150% of itself |
| Gap.AdjustmentMatchesLabelTests | script.js:182-185 | adjusting by the domain table gives the same amount as adjusting by the label substring tests |
| Gap.AdjustedByLabel | script.js:182-185 | the adjustment by label tests leaves only the age factor without any family history, and for a customer under 60 never lowers a non-negative amount |
| Gap.Classify | script.js:189-190 | 부족 exactly when current < half the recommended amount; 보통 exactly when from half up to below it; 적정 otherwise |
| Gap.ClassifyAntitone | script.js:189-190 | raising the recommended amount never improves the classification |
| Gap.GapFor | script.js:179-192 | one category's line carries the category, its current amount, the adjusted amount, their difference and the classification |
| Gap.GapAnalysis | script.js:177-193 | there is one line per category, twenty in all, in the table's order, each computed from that category's amount and standard |
| Gap.GapNegativeIffNotAdequate | script.js:187-190 | with non-negative standards, a line's gap is negative exactly when it is not 적정 |
| Gap.RecommendedNoMoreLenientThanMinimum | script.js:180-190 | when minimum ≤ recommended, the recommended mode gives no larger gap and no better classification than the minimum mode |
| Gap.InitialStandardsQualify | script.js:8-29 | the built-in table has non-negative amounts with the minimum at most the recommended one, so the gap and mode results above apply to it |
| Ancillary.AncillaryChecks | script.js:195-203 | four checks in a fixed order; 실손 fails exactly without an indemnity policy; the driver check is not applicable exactly for a non-driver and otherwise fails exactly when its flag is absent; fire and liability fail exactly when their flags are absent; only the driver check can be not applicable |
| Ancillary.DriverFlagIgnoredForNonDrivers | script.js:197-201 | for a non-driver the driver flag does not affect the checks |
| Ancillary.LabelTextInjective | script.js:196-203 | the four displayed check labels are pairwise different |
| Engine.CalculateAnalysis | script.js:144-206 | the total premium is the sum of the premiums and the current lifecycle premium; the income reason applies exactly on the 1,500-won threshold; the status is 위험 exactly with a reason; twenty gap lines in table order carrying the entered amounts; four checks |
| Report.LifecycleRows | script.js:334 | the lifecycle table shows the current, age-60, age-70 and age-80 premiums in that order |
| Report.RowPercent | script.js:47 | the percentage is 0 without a positive total and otherwise the row's premium as a percentage of the total, rounded to the nearest integer |
| Report.IsRiskRow | script.js:47-48 | a row is flagged exactly when it is not the current row, the total is positive and the row's premium is at least 30.5% of the total |
| Report.PercentAbove30 | script.js:47-48 | the displayed percentage exceeds 30 exactly when the total is positive and the premium is at least 30.5% of it |
| Report.RiskFlagsMonotone | script.js:47-48 | with non-negative premiums a flagged age-80 row implies a flagged age-70 row, and that a flagged age-60 row |
| Report.CurrentRowIsWhole | script.js:47 | the current row shows 100% for a positive total |
| Report.DeficientCount | script.js:367 | the count is the number of gap lines classified 부족 |
| Report.MissingLabels | script.js:369-371 | a check label is listed exactly when some check with that label failed, and the list is no longer than the checks |
| Report.MissingChecksListed | script.js:369-371 | each ancillary coverage is listed as missing exactly under the condition that fails its check |
| Report.MissingChecksInOrder | script.js:369-371 | the summary lists the failed checks once each, in the checks' order: medical indemnity, driver, fire, liability |

## Left out

- The user interface: React components, state hooks and re-running the analysis on every change. These only call the engine and show its result.
- The login gate and browser-storage persistence. These are storage I/O and an allow-list comparison.
- Reading the clock and parsing date strings. The evaluation month and each pay-end month are parameters; the timezone in which a 'YYYY-MM-DD' string is read is not modelled.
- `Number()` coercion of text input and NaN propagation. Inputs are well-typed integers, so fractional premiums, ages or incomes are not modelled.
- Binary floating point. Ratios and adjusted amounts are exact rationals, so rounding artefacts of doubles (for example at the 15% or 30% thresholds) are not modelled.
- The wording of the risk reason and of the summary, `toLocaleString` and `toFixed`. The reason is an enumeration plus the rounded percentage.
- Printing and the PDF export.
- The maturity date of a contract: it is stored but takes no part in the analysis.
- Gap.GapAnalysis: requires that the coverage and standards tables hold every category. The engine keeps them so; a missing key would yield `undefined`/NaN in the program, and that is not modelled.
- Premium.Afford: states the income ratio as `IncomeRatio` of the total premium, and that function's own contract gives its value.
- Engine.CalculateAnalysis: restates only the headline facts. The affordability figures' full contract is `Premium.Afford`, and the gap lines' full contract is `Gap.GapAnalysis`.
