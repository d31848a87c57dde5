# Nigerian PAYE calculator: the tax engine

This project models the personal income tax engine of a Nigerian PAYE
(pay-as-you-earn) calculator. The engine is `calculateTax` in
`services/taxCalculator.ts`. It works on the statutory progressive band table
`TAX_BANDS` in `constants.ts` and on the record types in `types.ts`.

Given a worker's monthly figures, the engine:

1. annualises salary plus other income, and annualises pension, NHF (National
   Housing Fund) and other deductions;
2. takes the Consolidated Relief Allowance (CRA): the higher of ₦200,000 and
   1% of gross, plus 20% of gross;
3. subtracts the CRA and the deductions from gross, never going below zero;
4. walks the band table once. Each band takes the lesser of what remains and
   its width, and owes that amount at the band's rate. Every band emits one
   entry, even when nothing is left for it.
5. reports the annual tax, a twelfth of it as the monthly tax, and net monthly
   income (salary less the monthly tax).

Files:

- `types.dfy` (module `Types`): the input and result records.
- `constants.dfy` (module `Constants`): the band table. A band's limit is
  `Finite(width)` or `Unbounded`; `Unbounded` stands for the source's
  `Infinity`. This file also defines `Levy`, the tax on an amount at a
  whole-percent rate, and proves the table's shape.
- `tax_calculator.dfy` (module `TaxCalculator`): the engine.
  - `Calculate` is the engine as a function of the inputs and any band table.
    `Allocate` is its band walk.
  - `WalkBands` and `CalculateTax` are the engine as the program runs it: a
    `for` loop that appends an entry per band, accumulates the tax and lowers
    what remains.
  - `WalkBands` works over any table; its postcondition ties it to the walk
    `Allocate(table, taxableIncome)` and its total tax to `TotalTax` of those
    entries. `CalculateTax`'s postcondition ties it to `Calculate` over the
    statutory table.
  - The file also holds the lemmas about the walk: one entry per band, the
    bounds on each entry, conservation, the unbounded top band and
    monotonicity.
- `tax_properties.dfy` (module `TaxProperties`): what every calculation
  guarantees. These are stated first for any band table of the right shape,
  then for the statutory table, with the calculator's default inputs as a
  worked scenario.

Money is exact `real` arithmetic.

Every statutory rate is a whole percentage, so a band holds its rate as a
percentage (`ratePercent`, e.g. 15). `Rate(band)` is the fraction the program
stores and reports (0.15). `Levy(amount, p)` is the tax on `amount` at `p`%.
`LevyIsProduct` proves it equals `amount * (p / 100)`, so every entry's tax is
exactly its amount times its rate, as in the source. `WalkBands` computes
`amountInBand * Rate(band)`, as the source does.

The relief takes the higher of ₦200,000 and 1% of gross
(`Math.max(200000, 0.01 * annualGross)`, services/taxCalculator.ts:9); it does
not add them. On the calculator's default inputs (₦250,000 monthly salary,
₦20,000 monthly pension) gross is ₦3,000,000 and the relief is
`max(₦200,000, ₦30,000) + ₦600,000` = ₦800,000, which gives:

| figure | value |
|---|---|
| taxable income | ₦1,960,000 |
| annual tax | ₦174,000 |
| monthly tax | ₦14,500 |
| net monthly income | ₦235,500 |

## Model

Several lemmas about the walk hold only for tables whose finite bands have
non-negative widths, as every band of the statutory table has: with a negative
width, `Math.min` hands that band a negative amount. Their rows say so. The
lemmas about tables that end in their only unbounded band also assume that
shape, which the statutory table has too (`TaxBandsWellFormed`).

| member | source | states |
|---|---|---|
| `TaxCalculator.CalculateTax` | services/taxCalculator.ts:5-64 | The program's straight-line relief arithmetic, band loop and monthly views over the statutory table produce exactly `Calculate(inputs, TaxBands)`, the result every property below is stated about. |
| `TaxCalculator.WalkBands` | services/taxCalculator.ts:22-49 | The loop that appends one entry per band, adds each band's tax and lowers the remainder emits exactly the walk `Allocate(table, taxable)`, and its running total is exactly the entries' total tax. |
| `TaxCalculator.Calculate` | services/taxCalculator.ts:5-64 | The engine as a function of the inputs and a band table, the result every property below is stated about: one entry per band, non-negative taxable income, a relief of at least ₦200,000 + 20% of gross, and net monthly income plus monthly tax equal to the salary. |
| `TaxCalculator.AnnualGross` | services/taxCalculator.ts:6 | Annual gross is twelve months of salary plus other income: a twelfth of it gives back the monthly sum, and it is non-negative when both monthly figures are. |
| `TaxCalculator.AllowableDeductions` | services/taxCalculator.ts:14-15 | The deductions are twelve months of pension, NHF and other deductions: a twelfth gives back the monthly sum, and they are non-negative when all three are. |
| `TaxCalculator.ConsolidatedRelief` | services/taxCalculator.ts:9-11 | The relief is at least ₦200,000 + 20% of gross and at least 21% of gross, and equals one of the two. For non-negative gross it is at least ₦200,000, and exactly ₦200,000 only when gross is zero. |
| `TaxCalculator.TaxableIncome` | services/taxCalculator.ts:18-19 | Taxable income is never negative and never below gross less relief and deductions; it is either zero or exactly that difference. |
| `TaxCalculator.Max` | services/taxCalculator.ts:9 | The result is at least both arguments and is one of them. |
| `TaxCalculator.Min` | services/taxCalculator.ts:37 | The result is at most both arguments and is one of them. |
| `TaxCalculator.CapAt` | services/taxCalculator.ts:37 | A band's share never exceeds what remains or a finite band's width, and is one of the two; an unbounded band takes everything that remains. |
| `TaxCalculator.BandAmountBounds` | services/taxCalculator.ts:27-37 | What one band takes (`BandAmount`): nothing once nothing remains; otherwise no more than what remains and no more than a finite width, and either all that remains or the full width. |
| `TaxCalculator.ChargeAtRate` | services/taxCalculator.ts:28-45 | The entry a band emits (`Charge`) copies the band's label and rate, records the amount, and owes exactly the amount times the rate; an entry allocated nothing owes nothing. |
| `TaxCalculator.TotalTaxAppend` | services/taxCalculator.ts:47 | The total tax (`TotalTax`, the figure the loop accumulates with `+=`) of two runs of entries is the sum of their totals, so appending an entry adds exactly its tax. |
| `TaxCalculator.Allocate` | services/taxCalculator.ts:26-49 | The walk emits exactly one entry per band of the table. |
| `TaxCalculator.AllocateAt` | services/taxCalculator.ts:27-45 | Entry `k` charges band `k` for its share of whatever bands `0..k-1` left unallocated. |
| `TaxCalculator.RemainingStep` | services/taxCalculator.ts:48 | Passing band `k` lowers the unallocated income by exactly that entry's amount. |
| `TaxCalculator.WalkStep` | services/taxCalculator.ts:37-48 | One loop iteration: the entry list grows by band `i`'s charge, the remainder falls by its amount, and the total tax rises by its tax. |
| `TaxCalculator.AllocateEntryBounds` | services/taxCalculator.ts:27-45 | For a band whose width, if finite, is non-negative: its entry copies the band's label and rate and owes its amount at that rate. It is zero once nothing remains, and otherwise takes the lesser of what remains and the band's width. It lies between zero and both. |
| `TaxCalculator.RemainingNotAbove` | services/taxCalculator.ts:48 | With non-negative widths the unallocated income never grows along the walk. |
| `TaxCalculator.AllocateExhausted` | services/taxCalculator.ts:27-34 | Once nothing remains at band `k`, that entry and every later one take nothing and owe nothing. |
| `TaxCalculator.AllocateConserves` | services/taxCalculator.ts:37-48 | Over a table ending in its only unbounded band, the entries' taxable amounts add up to the whole taxable income. |
| `TaxCalculator.LayeredOf` | constants.ts:2-9 | A table whose only unbounded band is the last and whose widths are non-negative reads band by band as finite bands ending in one unbounded band. |
| `TaxCalculator.FiniteWidthSumNonNegative` | constants.ts:3-7 | The finite widths of a table of non-negative finite widths ending in its only unbounded band add up to a non-negative amount. |
| `TaxCalculator.FiniteHead` | services/taxCalculator.ts:37 | For a table of non-negative finite widths ending in its only unbounded band, when the income covers every finite width, the first band takes exactly its width, and what it leaves still covers the remaining widths. |
| `TaxCalculator.AllocateFullBand` | services/taxCalculator.ts:37 | For a table of non-negative finite widths ending in its only unbounded band, when the income covers every finite width, each band before the last is allocated exactly its width. |
| `TaxCalculator.AllocateExcess` | services/taxCalculator.ts:37-48 | For a table of non-negative finite widths ending in its only unbounded band, when the income covers every finite width, the last band is allocated the whole excess over them. |
| `TaxCalculator.BandAmountMonotone` | services/taxCalculator.ts:37-48 | For a band of non-negative width, more unallocated income never gives a smaller share and never leaves less for the next band. |
| `TaxCalculator.TotalTaxIsWalkTax` | services/taxCalculator.ts:38-47 | The entries' total tax equals the tax the walk accumulates band by band. |
| `TaxCalculator.WalkTaxAboveFiniteBands` | services/taxCalculator.ts:37-48 | For a table of non-negative finite widths ending in its only unbounded band, when the income covers every finite width, the walk's tax is the tax of the full finite bands plus the excess at the top band's rate. |
| `TaxCalculator.TaxAboveFiniteBands` | services/taxCalculator.ts:37-48 | The same, for the entries' total tax over any table with non-negative finite widths whose only unbounded band is the last. |
| `TaxCalculator.WalkTaxMonotone` | services/taxCalculator.ts:26-49 | With non-negative widths, more income never gives less tax from the walk. |
| `TaxCalculator.AllocateTaxMonotone` | services/taxCalculator.ts:26-49 | With non-negative widths, more taxable income never gives a smaller total tax. |
| `Constants.Rate` | constants.ts:3-8 | A band's stored rate is non-negative, and at most 1 when its percentage is at most 100. |
| `Constants.LevyIsProduct` | services/taxCalculator.ts:38 | The tax on an amount at `p`% (`Levy`) is exactly the amount times the rate `p / 100`, for every amount and percentage. |
| `Constants.LevyAtRate` | services/taxCalculator.ts:38 | A band's levy on any amount is that amount times the band's stored rate, `amountInBand * band.rate`. |
| `Constants.LevyMonotone` | services/taxCalculator.ts:38 | At one rate, a larger amount never owes less. |
| `Constants.LevyOfZero` | services/taxCalculator.ts:31-32 | A zero amount owes nothing at any rate. |
| `Constants.TaxBandsWellFormed` | constants.ts:2-9 | The statutory table `TaxBands` has six bands and only the last is unbounded. Every finite width is positive. Every rate lies in [0, 1] and rates never fall down the table. The first band is a tax-free ₦800,000. |
| `Constants.FiniteWidthTotal` | constants.ts:3-8 | The finite widths add up to ₦49,999,999. Filled, they owe ₦10,429,999.85. The top rate is 25%. |
| `TaxProperties.AnnualFigures` | services/taxCalculator.ts:6-19 | Gross and deductions are the monthly figures times twelve. The relief obeys the floor and choice above. Taxable income is gross less relief and deductions, floored at zero. |
| `TaxProperties.AllocateFits` | services/taxCalculator.ts:27-45 | For non-negative taxable income and a table with non-negative finite widths, every entry copies its band's label and rate. It owes the levy on its amount at that rate, which `LevyAtRate` proves is the amount times the rate. Its amount lies between zero and both the taxable income and the band's width. |
| `TaxProperties.BreakdownShape` | services/taxCalculator.ts:26-49 | Over a table with non-negative finite widths, the result's breakdown has one entry per band, in table order, each fitting its band as above. |
| `TaxProperties.MonthlyViews` | services/taxCalculator.ts:51-52 | Monthly tax is a twelfth of the annual tax. Net monthly income is salary less that tax. Other income is taxed but left out of the net figure. |
| `TaxProperties.Conservation` | services/taxCalculator.ts:37-48 | Over a table ending in its only unbounded band, the entries' amounts add up to the taxable income and their tax to the annual tax. |
| `TaxProperties.ZeroOnceExhausted` | services/taxCalculator.ts:27-34 | Once the earlier entries have taken all the taxable income, every later entry is zero. |
| `TaxProperties.TotalTaxOfZeros` | services/taxCalculator.ts:47 | Entries that owe nothing add up to no tax. |
| `TaxProperties.NoTaxableIncomeNoTax` | services/taxCalculator.ts:19-34 | With no taxable income, every entry is zero, no tax is due, and net pay is the whole salary. |
| `TaxProperties.ZeroIncomeZeroTax` | services/taxCalculator.ts:5-64 | Zero income and deductions give a ₦200,000 relief, no taxable income, no tax and zero net pay. |
| `TaxProperties.TaxableIncomeMonotone` | services/taxCalculator.ts:9-19 | More annual gross, with the same deductions, never gives less taxable income. |
| `TaxProperties.SalaryMonotone` | services/taxCalculator.ts:5-64 | With non-negative widths, raising the monthly salary with every other input unchanged never lowers the annual tax. |
| `TaxProperties.TaxNonNegative` | services/taxCalculator.ts:18-52 | With non-negative widths, the clamp at line 19 leaves no refund: the annual and monthly tax are never negative, and net pay never exceeds the salary. |
| `TaxProperties.AllocateFillsFiniteBands` | services/taxCalculator.ts:37-48 | For a table with non-negative finite widths whose only unbounded band is the last, when the income covers every finite width, each finite band is filled exactly. The last band takes the excess. The total tax is the full finite bands' tax plus the levy on the excess at the top rate (the excess times that rate, by `LevyAtRate`). |
| `TaxProperties.ExcessInTopBand` | services/taxCalculator.ts:37-48 | The same, under the same premises, stated about the calculation's result. |
| `TaxProperties.StatutoryBreakdown` | constants.ts:2-9 | Over the statutory table: six entries fitting their bands, adding up to the taxable income and the annual tax. |
| `TaxProperties.StatutorySalaryMonotone` | services/taxCalculator.ts:5-64 | Over the statutory table, a raise never lowers the annual tax. |
| `TaxProperties.StatutoryTopBand` | constants.ts:3-8 | Over the statutory table, taxable income of ₦49,999,999 or more fills the five finite bands. The excess is taxed at 25% alone, for a total of ₦10,429,999.85 plus 25% of the excess. |
| `TaxProperties.DefaultScenario` | App.tsx:19-25 | The default inputs give gross ₦3,000,000, relief ₦800,000, deductions ₦240,000 and taxable ₦1,960,000. That is ₦800,000 at 0% and ₦1,160,000 at 15%, for ₦174,000 of tax, ₦14,500 a month and ₦235,500 net. |
| `TaxProperties.ScenarioOverTable` | services/taxCalculator.ts:5-64 | The same figures over any six-band table that opens with a tax-free ₦800,000 band and a 15% ₦2,199,999 band. |
| `TaxProperties.ScenarioWalk` | services/taxCalculator.ts:26-49 | ₦1,960,000 walked over such a table fills the first band, puts ₦1,160,000 owing ₦174,000 in the second, and leaves the other four at zero. |

## Left out

- The user interface is not part of this model: the React app, form handling and input parsing, charts, history and CSV export, login, and the tax assistant chat with its network calls. None of it takes part in the calculation.
- `EDUCATIONAL_TIPS` (constants.ts:11-28) is static prose.
- `ChatMessage` and `TaxHistoryRecord` (types.ts:35-49) belong to the chat and the history views, not to the engine.
- IEEE-754 rounding is not modelled. Money is exact real arithmetic, so the model's figures are the exact values the floating-point ones approximate. Non-finite inputs are out of the model too. An infinite income makes the taxable income, the band figures and the tax NaN (`Infinity - Infinity` at services/taxCalculator.ts:18). An infinite deduction makes the deductions infinite and the taxable income 0. A real has neither value.
- `employmentType` and `year` are kept in `TaxInputs`, but the engine never reads them, and neither does the model.
- Rates are held as whole percentages (`ratePercent: nat`), because every statutory rate is one. A table with a fractional percentage, such as 17.5%, cannot be written in this model, and neither can a negative rate. The generic monotonicity lemmas (`SalaryMonotone`, `WalkTaxMonotone`, `AllocateTaxMonotone`) therefore name only non-negative widths as a premise: non-negative rates hold for every table the model can express.
- `TaxCalculator.CalculateTax` is the engine over the statutory table only, as in the source. Running the walk over other tables is covered by `WalkBands` and `Calculate`.
