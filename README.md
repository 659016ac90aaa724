# Retirement contribution tax-savings simulator: verified model

This project models the calculation engine of the salary simulator (`SalarySimulator.tsx`) in Dafny. A user picks a professional status (`profession_liberale`, or any other value such as `salarie`). They enter an income and a retirement contribution. The simulator then reports the tax before and after deducting the contribution, the saving per period, per month and per year, and linear projections over 5, 10, 15 and 20 years.

Everything lives in one module, `SalarySimulator`, in `salary_simulator.dfy`:

- **Bracket tables.** `MonthlyBrackets` and `AnnualBrackets` hold six rows each. A row has integer bounds `min..max`, where the last row has no `max`, plus a `rate` and a `deduction`. Amounts are exact `real`s.
- **Tax lookup.** `CalculateTax` is the source's scan: a loop that returns `max(0, income*rate - deduction)` for the first row whose closed interval contains the income, and 0 if no row does. It is proved equal to the recursive `Tax`, and the lemmas are about `Tax`.
- **Cap, period, report.** `MaxContribution` is the 10% / 50% cap. `EffectivePeriod` forces annual for liberal professions, and `TableFor` picks the table. `Compute` is the pure specification of the report.
- **State.** The class `Simulator` holds the route's `profession`, the parsed `salary`, `contribution` and `period` fields, and `results`. `HandleCalculate` leaves `results` unchanged when an input is 0 or NaN (`IsFalsy`). Otherwise it replaces `results` with `Compute(...)`. The "limited" note (`LimitNoteShown`, `Truncated`) compares the stored report with the current contribution field.

### Gaps between the bracket bounds
In the annual table the row formulas meet exactly at each row's `max`. For example, 0.1 × 40000 = 4000 is the 10% row's deduction, so the 0% and 10% formulas agree at 40000, and 0.1 × 60000 − 4000 = 0.2 × 60000 − 10000 = 2000. The monthly deductions are rounded to cents (333.33, 833.33, 1833.33, 2283.33), so there the formulas meet only within about one unit of the seam. At 6667, for instance, the 20% row gives 500.07 and the 30% formula would give 500.1. What is proved for both tables is exact: the tax never drops from one row's `max` to the next row's `min` (`SeamsRise`, in `TablesSound`). The bounds, however, are whole numbers and both are inclusive. So a fractional income strictly between one row's `max` and the next row's `min` matches no row and is taxed 0; examples are 5000.5 monthly and 40000.5 annual. The model follows the code, and states what does hold:

- `CoveredMonotone`: the tax is non-decreasing over incomes that some row contains.
- `WholeIncomeCovered` and `WholeIncomeMonotone`: every whole non-negative income is contained in some row, and the tax is non-decreasing over whole incomes.
- `SavingsNonNegativeWhenCovered`: when the salary is contained in a row of the effective table, a non-negative contribution never gives negative savings.
- `SavingsNonNegative`: the same for every whole positive salary and positive contribution.
- `FractionalSalaryLosesSavings`: salary 5000.5 with contribution 1 (monthly) reports savings of -166.62.
- `CapLandsInGap`: a whole salary of 6667 with a fractional cap of 3333.5 leaves the reduced income in a gap, where it is untaxed.

A negative taxable income matches no row and is taxed 0; `TaxableIncomeFloor` shows a positive salary never produces one.

## Model

| member | source | states |
|---|---|---|
| `SalarySimulator.MonthlyBrackets` | src/pages/Processing/components/SalarySimulator.tsx:38-45 | the six monthly rows, with the same bounds, rates and deductions as the source |
| `SalarySimulator.AnnualBrackets` | src/pages/Processing/components/SalarySimulator.tsx:48-55 | the six annual rows, with the same bounds, rates and deductions as the source |
| `SalarySimulator.Matches` | src/pages/Processing/components/SalarySimulator.tsx:59-61 | a row contains an income when it is at least `min` and, if there is a `max`, at most `max` |
| `SalarySimulator.IsLiberal` | src/pages/Processing/components/SalarySimulator.tsx:70 | the profession test `profession === "profession_liberale"`, used for the cap and the period |
| `SalarySimulator.IsFalsy` | src/pages/Processing/components/SalarySimulator.tsx:80 | the guard `!salaryNum \|\| !contributionNum`: a parsed input is rejected when it is NaN or 0 |
| `SalarySimulator.Truncated` | src/pages/Processing/components/SalarySimulator.tsx:307 | the note condition: the parsed contribution is a number and exceeds the report's effective contribution |
| `SalarySimulator.Simulator.LimitNoteShown` | src/pages/Processing/components/SalarySimulator.tsx:667 | the note is rendered when there is a report (line 486) and `Truncated` holds against the current contribution field |
| `SalarySimulator.Max0` | src/pages/Processing/components/SalarySimulator.tsx:63 | the result is the larger of 0 and its argument: at least both, and equal to one of them |
| `SalarySimulator.RowTax` | src/pages/Processing/components/SalarySimulator.tsx:63 | a row's tax is `income*rate - deduction` floored at 0, and is never negative |
| `SalarySimulator.Tax` | src/pages/Processing/components/SalarySimulator.tsx:57-67 | the first-match lookup never returns a negative amount |
| `SalarySimulator.CalculateTax` | src/pages/Processing/components/SalarySimulator.tsx:57-67 | the loop with early return computes exactly the first-match specification `Tax` |
| `SalarySimulator.TaxOfFirstMatch` | src/pages/Processing/components/SalarySimulator.tsx:58-64 | when row k is the first row whose closed interval contains the income, the tax is row k's tax |
| `SalarySimulator.TaxOfNoMatch` | src/pages/Processing/components/SalarySimulator.tsx:58-66 | when no row contains the income, the tax is 0 |
| `SalarySimulator.MaxBelowLaterMin` | src/pages/Processing/components/SalarySimulator.tsx:38-55 | in an ascending table, every earlier row's upper bound is below every later row's lower bound |
| `SalarySimulator.TaxInRow` | src/pages/Processing/components/SalarySimulator.tsx:57-67 | in an ascending table, the row containing the income decides the tax wherever that row stands |
| `SalarySimulator.UncoveredIncomeUntaxed` | src/pages/Processing/components/SalarySimulator.tsx:57-66 | an income below the first row, or strictly inside a gap between rows, matches no row and is taxed 0 |
| `SalarySimulator.WholeIncomeCovered` | src/pages/Processing/components/SalarySimulator.tsx:38-55 | rows that start one above the previous row's upper bound, with an unbounded last row, contain every whole income from the first lower bound on |
| `SalarySimulator.RowMonotone` | src/pages/Processing/components/SalarySimulator.tsx:63 | within a row with a non-negative rate, the tax does not decrease with income |
| `SalarySimulator.ChainRows` | src/pages/Processing/components/SalarySimulator.tsx:57-67 | the tax in a lower row is never above the tax in a higher row, passing through the seams between them |
| `SalarySimulator.CoveredMonotone` | src/pages/Processing/components/SalarySimulator.tsx:57-67 | over incomes that some row contains, the tax is non-decreasing |
| `SalarySimulator.ReducedIncomeTaxedNoMore` | src/pages/Processing/components/SalarySimulator.tsx:89-91 | lowering an income that a row contains never raises its tax, even when the lower income falls in a gap |
| `SalarySimulator.MonthlyTableSound` | src/pages/Processing/components/SalarySimulator.tsx:38-45 | the monthly rows ascend, have non-negative rates, leave no gap between whole numbers, and the tax never drops at a seam |
| `SalarySimulator.AnnualTableSound` | src/pages/Processing/components/SalarySimulator.tsx:48-55 | the same four facts for the annual rows |
| `SalarySimulator.TablesSound` | src/pages/Processing/components/SalarySimulator.tsx:38-55 | both tables satisfy those facts and start at 0 with a row of rate 0 and deduction 0 |
| `SalarySimulator.TableFor` | src/pages/Processing/components/SalarySimulator.tsx:84-85 | the monthly period selects the monthly table and the annual period the annual table |
| `SalarySimulator.UncoveredUntaxed` | src/pages/Processing/components/SalarySimulator.tsx:38-66 | in either table, negative incomes and incomes strictly inside a gap match no row and are taxed 0 |
| `SalarySimulator.GapExamples` | src/pages/Processing/components/SalarySimulator.tsx:38-66 | one fractional income in each of the five gaps of each table (3333.5, 5000.5, 6667.5, 8333.5, 15000.5 monthly; 40000.5, 60000.5, 80000.5, 100000.5, 180000.5 annual), and -1 in both tables, are all taxed 0 |
| `SalarySimulator.FirstRowUntaxed` | src/pages/Processing/components/SalarySimulator.tsx:38-63 | incomes 0..3333 monthly and 0..40000 annual are taxed 0 |
| `SalarySimulator.BoundsInclusive` | src/pages/Processing/components/SalarySimulator.tsx:38-61 | 3333 falls in the 0% row; 3334 falls in the 10% row and is taxed 0.07; 40001 annual falls in the 10% row |
| `SalarySimulator.WorkedValues` | src/pages/Processing/components/SalarySimulator.tsx:38-63 | tax of 5000 monthly is 166.67, of 4000 monthly 66.67, of 100000 annual 12000, of 90000 annual 9000 |
| `SalarySimulator.WholeIncomeMonotone` | src/pages/Processing/components/SalarySimulator.tsx:38-67 | over whole non-negative incomes, the tax of either table is non-decreasing |
| `SalarySimulator.MaxContribution` | src/pages/Processing/components/SalarySimulator.tsx:69-74 | the cap is 10% of the salary for `profession_liberale` and 50% for every other value; for a non-negative salary it lies between 0 and half the salary |
| `SalarySimulator.CapRatioExact` | src/pages/Processing/components/SalarySimulator.tsx:69-74 | for a non-zero salary, the cap equals 10% of it exactly when the profession is liberal, and 50% exactly when it is not |
| `SalarySimulator.Min` | src/pages/Processing/components/SalarySimulator.tsx:87 | the result is at most both arguments and equal to one of them |
| `SalarySimulator.EffectivePeriod` | src/pages/Processing/components/SalarySimulator.tsx:82-83 | the period is annual whenever the profession is liberal, and the selected period otherwise |
| `SalarySimulator.Compute` | src/pages/Processing/components/SalarySimulator.tsx:82-112 | the report uses the effective period and its table. The effective contribution is at most the cap and at most the contribution, and equals one of them. The taxes are the lookups of the salary and the reduced income. Savings are tax before minus tax after. Annual savings are 12 times monthly savings, and whichever of the two matches the period equals the period savings. The 5/10/15/20-year figures are annual savings times 5/10/15/20 |
| `SalarySimulator.TaxableIncomeFloor` | src/pages/Processing/components/SalarySimulator.tsx:86-90 | for a positive salary, the reduced income is at least half the salary (nine tenths for liberal professions) and so positive |
| `SalarySimulator.TruncatedIffOverCap` | src/pages/Processing/components/SalarySimulator.tsx:307 | the "limited" note shows exactly when the contribution exceeds the cap |
| `SalarySimulator.SavingsNonNegativeWhenCovered` | src/pages/Processing/components/SalarySimulator.tsx:86-93 | when a row of the effective table contains the salary and the contribution is non-negative, the period savings are never negative |
| `SalarySimulator.SavingsNonNegative` | src/pages/Processing/components/SalarySimulator.tsx:89-93 | for a whole positive salary and a positive contribution, the period savings are never negative |
| `SalarySimulator.FractionalSalaryLosesSavings` | src/pages/Processing/components/SalarySimulator.tsx:89-93 | for salary 5000.5 (in a gap) and contribution 1, the tax before is 0, the tax after is 166.62, and the savings are -166.62 |
| `SalarySimulator.CapLandsInGap` | src/pages/Processing/components/SalarySimulator.tsx:86-93 | for salary 6667 and contribution 5000 (monthly), the cap 3333.5 leaves a reduced income in a gap, taxed 0, so the savings are 500.07 |
| `SalarySimulator.EmployeeMonthlyScenario` | src/pages/Processing/components/SalarySimulator.tsx:76-113 | 5000 monthly with 1000 contributed gives the whole report: taxes 166.67 / 66.67, savings 100 per month and 1200 per year, and 6000 / 12000 / 18000 / 24000 over 5 / 10 / 15 / 20 years |
| `SalarySimulator.LiberalAnnualScenario` | src/pages/Processing/components/SalarySimulator.tsx:76-113 | a liberal profession with 100000 and 20000 is forced to annual: cap and effective contribution 10000, taxes 12000 / 9000, savings 3000 per year and 250 per month, projections up to 60000, and the contribution counts as truncated |
| `SalarySimulator.Simulator.constructor` | src/pages/Processing/components/SalarySimulator.tsx:30-35 | empty fields (NaN), a monthly period and no report |
| `SalarySimulator.Simulator.SetSalary` | src/pages/Processing/components/SalarySimulator.tsx:414 | the salary field is replaced and nothing else changes |
| `SalarySimulator.Simulator.SetPeriod` | src/pages/Processing/components/SalarySimulator.tsx:423 | the period field is replaced and nothing else changes |
| `SalarySimulator.Simulator.SetContribution` | src/pages/Processing/components/SalarySimulator.tsx:452 | the contribution field is replaced and nothing else changes; the stored report is kept |
| `SalarySimulator.Simulator.HandleCalculate` | src/pages/Processing/components/SalarySimulator.tsx:76-113 | `results` is unchanged when the salary or the contribution is 0 or NaN, and otherwise becomes the full report `Compute(...)`; on valid input the note shows exactly when the contribution exceeds the cap; only `results` changes |
| `SalarySimulator.LiberalSession` | src/pages/Processing/components/SalarySimulator.tsx:666-676 | a sequence of form events. The returned flags say that calculating with an empty contribution does nothing, that the report for 100000 / 20000 shows the note, and that a later edit of the contribution to 5000 keeps the report and hides the note. The report returned is the one for 100000 / 20000, annual, saving 3000 |

## Left out

- PDF export (`generatePDF`): page layout, dates and the file save go through a foreign document library.
- `formatCurrency`: locale formatting and display rounding.
- The JSX markup, the bar chart and route navigation.
- String parsing of the form fields. Fields are taken as already parsed `Number`s, either `NaN` or a real. "0 or NaN" is the single predicate `IsFalsy`.
- `Simulator.HandleCalculate`: infinities (`parseFloat("Infinity")`) and IEEE-754 rounding are not modelled; the arithmetic is exact over the reals.
- `Simulator.SetPeriod`: the form renders the period selector only when the profession is `salarie` (src/pages/Processing/components/SalarySimulator.tsx:420-435). For any other non-liberal route value, and for an absent one, the period stays monthly in the source. The model lets `SetPeriod` run for every profession. A non-`salarie` profession behaves like `salarie` only in the engine (`Compute`, `HandleCalculate`), not in the form.
- `Simulator.constructor`: the profession comes from the route and may be absent. An absent profession behaves like any string other than `profession_liberale`, so it is modelled as a `string`.
- The access gate, the protected routes, the profession selection page, the type declarations and the layout components are not part of this model. They hold no computation.
