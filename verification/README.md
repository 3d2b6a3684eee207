# ROI projection engine in Dafny

A Dafny model of the calculation engine of the ROI projection tool. The engine turns an equipment purchase's inputs into a 61-month cash-flow projection and its summary figures. The inputs cover cost, payment milestones, operating profile, labor reduction and throughput gain.

The model covers:

- **Labor savings** (`LaborSavings`): hours saved, burdened rate, annual and monthly savings.
- **Capacity benefit** (`CapacityBenefit`): throughput delta, operating hours, extra units, annual and monthly contribution margin.
- **Payment-milestone expansion** (`PaymentMilestones`). The schedule becomes an ordered list of (month, fraction of equipment cost) events:
  - the down-payment at month 0;
  - the optional milestones, verbatim and in order;
  - the pre-shipment payment;
  - the final payment at commissioning plus 30 or 60 days' terms.
- **Monthly cash-flow generator** (`Cashflow`). It covers months 0 through 60:
  - each milestone is paid in the month its own month rounds to;
  - installation and the one-time loss are charged only on an exact month match;
  - benefits accrue from the commissioning month on;
  - discounting uses `1 / (1 + annual rate)^month`;
  - three running totals are kept.
- **Orchestrator** (`Engine`):
  - the break-even month is found by first-crossing search;
  - the offset after commissioning and the 24-month payback verdict (`Yes` / `No` / `N/A`);
  - operating margin, installed cost and operating hours;
  - NPV at month 60;
  - the chart series.

All arithmetic is over exact reals, so the spreadsheet identities hold exactly. Two library calls are modelled:

- `Math.round(x)` is `(x + 0.5).Floor`: the nearest integer, with halves rounded toward +infinity as JavaScript does.
- `Math.pow(1 + rate, m)` is a recursive power over a natural exponent.

The generator is written twice:

- `Cashflow.Rows` follows the source loop, carrying its three running totals from month to month.
- `Cashflow.ReferenceRow` states every field of a month in closed form, with the running totals as prefix sums (`CostsBefore`, `BenefitsBefore`, `DiscountedBefore`).

`GenerateMonthlyCashflows` is proved equal to the reference row by row. The result is recorded as `IsCashflowTable`, and the property lemmas in `CashflowProperties`, `EngineProperties` and `DefaultScenario` take a table satisfying it.

Where the code is more precise than its comments or design notes, the model follows the code:

- Milestone months are rounded with `Math.round`, not round-half-to-even.
- A null break-even gives `N/A`. A spreadsheet comment in the source shows `No` for that case.

Modules: `Types`, `Numeric`, `LaborSavings`, `CapacityBenefit`, `PaymentMilestones`, `Cashflow`, `CashflowProperties`, `Engine`, `EngineProperties`, `DefaultScenario`.

## Model

| member | source | states |
|---|---|---|
| Numeric.Round | src/calculations/cashflow.ts:60 | The rounded month is the integer whose half-open window [k − ½, k + ½) holds the milestone month, so halves go up. |
| Numeric.RoundUnique | src/calculations/cashflow.ts:60 | Any integer whose window holds x is the rounded value, so each milestone month rounds to exactly one month index. |
| Numeric.RoundOfInteger | src/calculations/cashflow.ts:60 | An integral milestone month is paid in that same month. |
| Numeric.Pow | src/calculations/cashflow.ts:96 | The power of a non-zero base is non-zero, so the discount factor's division is defined. The power of a positive base is positive, and of a base ≥ 1 it is ≥ 1. |
| Numeric.PowGrows | src/calculations/cashflow.ts:96 | For a base ≥ 1, the power does not decrease as the month grows. |
| LaborSavings.CalculateLaborSavings | src/calculations/laborSavings.ts:9-24 | Hours saved = units reduced × shifts × hours × days. Annual savings = hours saved × burdened rate. Monthly × 12 = annual. |
| LaborSavings.LaborSavingsLinear | src/calculations/laborSavings.ts:9-24 | Monthly savings are the labor reduction times a per-unit figure that does not depend on it. |
| LaborSavings.NoReductionNoSavings | src/calculations/laborSavings.ts:9-24 | Reducing no labor gives zero hours, zero annual and zero monthly savings. |
| LaborSavings.LaborSavingsSign | src/calculations/laborSavings.ts:6-31 | With non-negative factors, savings are non-negative for a non-negative reduction. A negative reduction is accepted unclamped and gives negative savings when the per-unit figure is positive. |
| LaborSavings.LaborSavingsMonotone | src/calculations/laborSavings.ts:9-24 | With non-negative factors, reducing more labor never saves less. |
| LaborSavings.PerUnitNonNegative | src/calculations/laborSavings.ts:9-24 | Non-negative shifts, hours, days, wage and burden give a non-negative per-unit saving. |
| CapacityBenefit.CalculateCapacityBenefit | src/calculations/capacityBenefit.ts:9-26 | delta + baseline = proposed, so delta may be negative. Hours = shifts × hours × days. Extra units = delta × hours. Annual = extra units × margin. Monthly × 12 = annual. |
| CapacityBenefit.CapacityBenefitLinear | src/calculations/capacityBenefit.ts:9-26 | The monthly benefit is the throughput delta times a rate that does not depend on throughput. |
| CapacityBenefit.CapacityBenefitSign | src/calculations/capacityBenefit.ts:9-26 | With positive hours and margin, the benefit is positive, zero or negative exactly when proposed is above, equal to or below baseline. |
| CapacityBenefit.CapacityBenefitMonotone | src/calculations/capacityBenefit.ts:9-26 | With non-negative hours and margin, a lower proposed rate never gives a higher benefit. |
| PaymentMilestones.FinalPaymentMonth | src/calculations/cashflow.ts:34 | Terms of 30 days put the final payment exactly 1 month after commissioning, and 60 days exactly 2 months (both directions). |
| PaymentMilestones.BuildPaymentMilestones | src/calculations/cashflow.ts:9-41 | The list has \|optional\| + 3 events in order: the down-payment at month 0, each optional milestone verbatim at index i + 1, then pre-shipment, then the final payment. |
| PaymentMilestones.ExpansionKeepsTotal | src/calculations/cashflow.ts:9-41 | The events' percentages add up to the schedule's total, whatever it is, because no sum check is made. Expansion neither drops nor invents money. |
| Cashflow.DueIn | src/calculations/cashflow.ts:59-60 | The events due in a month are exactly those whose month rounds to it. Every such event is included and nothing else is. |
| Cashflow.DueInCounts | src/calculations/cashflow.ts:59-60 | The filter keeps every copy: an event occurs in a month's list as often as in the schedule when its month rounds to that month, and not at all otherwise. Two identical milestones are both paid. |
| Cashflow.DiscountFactor | src/calculations/cashflow.ts:96 | The factor is 1 at month 0. For a non-negative rate it lies in (0, 1]. |
| Cashflow.Rows | src/calculations/cashflow.ts:55-127 | The loop, run from month m with the prefix sums of the earlier months, yields rows m..60, each equal to its closed-form reference row. |
| Cashflow.StepMatchesReference | src/calculations/cashflow.ts:102-109 | One loop pass that starts from the prefix sums through m − 1 produces month m's closed-form row, whose totals are the prefix sums through m. |
| Cashflow.GenerateMonthlyCashflows | src/calculations/cashflow.ts:43-130 | Exactly 61 rows with row i for month i, each equal to the reference row for its month. |
| CashflowProperties.RowFollowsMonthlyRules | src/calculations/cashflow.ts:59-100 | Every row applies the per-month rules (listed below this table). |
| CashflowProperties.CumulativeTotalsAreRunningSums | src/calculations/cashflow.ts:102-109 | The three running totals start at month 0's figures and add each month's investment, benefit and discounted flow. Cumulative net = benefits − costs in every row. |
| CashflowProperties.ExactMonthChargedOnce | src/calculations/cashflow.ts:64-66 | An exact-match charge is made once in months 0..n−1 if its month is an integer in that window, and never otherwise. A fractional month never fires. |
| CashflowProperties.DisbursementIsCostTimesTotal | src/calculations/cashflow.ts:59-61 | Paying a list of events costs the equipment cost times the sum of their percentages. |
| CashflowProperties.EveryPaymentDisbursedOnce | src/calculations/cashflow.ts:59-61 | When every event rounds into months 0..n−1, those months together pay each event once and in full. No milestone is split or repeated. |
| CashflowProperties.CostsSplit | src/calculations/cashflow.ts:59-88 | Cumulative investment is the milestone payments plus the installation charges plus the one-time-loss charges. |
| CashflowProperties.TotalCostsOverHorizon | src/calculations/cashflow.ts:55-107 | If the schedule rounds into months 0..60, then total cost at month 60 = equipment cost × schedule total, plus installation and the loss when their months are integers in 0..60. |
| CashflowProperties.ScheduleDisbursement | src/calculations/cashflow.ts:59-61 | The expanded schedule, paid in full, costs the equipment cost times the schedule's percentages. |
| CashflowProperties.FractionalLossNeverFires | src/calculations/cashflow.ts:84 | A non-integral lost-production month leaves every row's one-time loss at 0 and its investment equal to its CAPEX. |
| CashflowProperties.FirstBenefitMonth | src/calculations/cashflow.ts:70-76 | A month receives benefits exactly when it is at or after this index, the ceiling of the commissioning month (at least 0). |
| CashflowProperties.BenefitsBeforeClosedForm | src/calculations/cashflow.ts:70-80 | Benefits over months 0..n−1 are 0 up to the first benefit month, then the monthly margin times the number of months since. |
| CashflowProperties.CumulativeBenefitsFromCommissioning | src/calculations/cashflow.ts:70-108 | A row's cumulative benefits are 0 before commissioning. From month m = FirstBenefitMonth on they are (m + 1 − FirstBenefitMonth) × monthly margin. |
| CashflowProperties.CostsBeforeMonotone | src/calculations/cashflow.ts:107 | With no negative monthly investment, cumulative costs over a longer prefix are no smaller. |
| CashflowProperties.BenefitsBeforeMonotone | src/calculations/cashflow.ts:108 | With no negative monthly benefit, cumulative benefits over a longer prefix are no smaller. |
| CashflowProperties.CumulativeCostsNonDecreasing | src/calculations/cashflow.ts:107 | When every month's investment is ≥ 0, cumulative costs never fall from row to row. |
| CashflowProperties.CumulativeBenefitsNonDecreasing | src/calculations/cashflow.ts:108 | When every month's benefit is ≥ 0, cumulative benefits never fall from row to row. |
| CashflowProperties.DiscountFactorNonIncreasing | src/calculations/cashflow.ts:96 | For a non-negative rate, the discount factor does not grow from one month to the next. |
| Engine.FirstBreakEvenIndex | src/calculations/engine.ts:21-27 | A found index has cumulative net ≥ 0 and every earlier row < 0. None is found exactly when every row is < 0. |
| Engine.BreakEvenProjectMonth | src/calculations/engine.ts:21-27 | In a table indexed by month, the result is the first month with cumulative net ≥ 0, or null when there is none. |
| Engine.BreakEvenAfterCommissioning | src/calculations/engine.ts:31-34 | Null exactly when break-even is null. Otherwise it plus the commissioning month is the break-even month, so it may be negative. |
| Engine.PaybackWithin24Months | src/calculations/engine.ts:38-45 | N/A exactly when there is no break-even. Yes exactly when the offset is ≤ 24. No exactly when the offset is > 24. |
| Engine.NpvAt60Months | src/calculations/engine.ts:59-60 | The NPV is row 60's cumulative discounted cash flow when the table has that row, and 0 when it is too short. |
| Engine.ChartData | src/calculations/engine.ts:63-68 | One point per row, in order, copying month and the three undiscounted running totals. |
| Engine.CalculateRoi | src/calculations/engine.ts:9-83 | The full result (listed below this table). |
| EngineProperties.CostsDependOnCostFieldsOnly | src/calculations/cashflow.ts:59-107 | Cumulative costs depend only on the cost fields: equipment, installation, schedule, commissioning and loss. |
| EngineProperties.BenefitsDominated | src/calculations/cashflow.ts:70-108 | With the same commissioning month, a smaller monthly margin earns no more over any prefix of months. |
| EngineProperties.NetDominated | src/calculations/cashflow.ts:104-109 | Same costs and a smaller margin give a cumulative net no higher in any row. |
| EngineProperties.BreakEvenNoEarlierWhenThroughputFalls | src/calculations/engine.ts:17-27 | With non-negative hours and margin, lowering the proposed throughput never brings break-even earlier. If the lower rate breaks even, the higher rate does too, in the same month or before. |
| EngineProperties.CostFreeMonthZero | src/calculations/cashflow.ts:104-109 | With no costs and commissioning after month 0, month 0 ends with cumulative costs, benefits and net all exactly 0. |
| EngineProperties.CostFreeBreaksEvenAtOnce | src/calculations/engine.ts:17-27 | A cost-free project commissioned after month 0 breaks even in month 0. |
| EngineProperties.BreakEvenBeforeCommissioning | src/calculations/engine.ts:31-45 | Break-even before the commissioning month gives a negative after-commissioning figure, and the verdict is still Yes. |
| EngineProperties.FirstBreakEvenIsWhereNetTurns | src/calculations/engine.ts:21-27 | If cumulative net is negative exactly before month k, the first break-even is k. |
| DefaultScenario.DefaultScheduleIsComplete | src/types/index.ts:128-138 | The default schedule has 2 optional milestones (within the documented 0..4 bound), and 0.40 + 0.20 + 0.15 + 0.15 + 0.10 = 1 exactly. |
| DefaultScenario.DefaultDisbursementMonths | src/types/index.ts:128-148 | The default event months 0, 2.8, 5.5, 6.9 and 8 + 1 round to months 0, 3, 6, 7 and 9, all inside the horizon. |
| DefaultScenario.DefaultLaborSavings | src/calculations/laborSavings.ts:9-24 | For the defaults: 15,360 hours saved; monthly savings 2×3×8×320×(22.48×1.35)/12 = 38,845.44. |
| DefaultScenario.DefaultCapacityBenefit | src/calculations/capacityBenefit.ts:9-26 | For the defaults: delta 50 and 7,680 hours; monthly benefit 50×7680×1.75/12 = 56,000. |
| DefaultScenario.DefaultDueIn | src/calculations/cashflow.ts:59-61 | Exactly one default event is due in each of months 0, 3, 6, 7 and 9. None is due in any other month. |
| DefaultScenario.DefaultInvestmentByMonth | src/calculations/cashflow.ts:59-88 | Default investment by month (listed below this table). |
| DefaultScenario.DefaultCostsBefore | src/calculations/cashflow.ts:107 | Default cumulative costs step up through month 9 and then stay at 1,249,675. |
| DefaultScenario.DefaultFirstBenefitMonth | src/calculations/cashflow.ts:70-76 | Default benefits start in month 8. |
| DefaultScenario.DefaultBenefitsBefore | src/calculations/cashflow.ts:108 | Default benefits over months 0..n−1 are 0 through month 7, then 94,845.44 per month. |
| DefaultScenario.DefaultNetThrough | src/calculations/cashflow.ts:107-109 | The default cumulative net is negative through month 20 and non-negative from month 21: 13 × 94,845.44 < 1,249,675 ≤ 14 × 94,845.44. |
| DefaultScenario.DefaultTable | src/calculations/cashflow.ts:104-109 | At any discount rate, every row of the default table has costs of 1,249,675 from month 9 on (less in month 8) and benefits of (k − 7) × 94,845.44 from month 8. Cumulative net is ≥ 0 exactly from month 21. |
| DefaultScenario.DefaultBreakEvenMonth | src/calculations/engine.ts:17-27 | At any discount rate, the default project breaks even in month 21. |
| DefaultScenario.DefaultPayback | src/calculations/engine.ts:31-45 | The default project breaks even 13 months after commissioning, so payback within 24 months is Yes. |
| DefaultScenario.DefaultSummary | src/calculations/engine.ts:48-57 | Default installed cost 1,215,675, labor 38,845.44, capacity 56,000, margin 94,845.44, 7,680 operating hours. |

`CashflowProperties.RowFollowsMonthlyRules` states these rules for every row:

- CAPEX is the equipment cost times the percentages of the events due that month, plus installation on an exact month match.
- Labor and capacity benefits are gated on month ≥ commissioning.
- The total benefit is labor plus capacity.
- The one-time loss applies only on an exact month match.
- Investment = CAPEX + loss.
- Net = benefit − investment.
- The discount factor is 1/(1+rate)^m.
- The discounted flow is net × factor.

`Engine.CalculateRoi` states the full result:

- The table is the generator's: 61 rows, with row i for month i.
- Break-even is the first month with cumulative net ≥ 0, or null exactly when every row is negative.
- The after-commissioning offset and the payback verdict follow break-even.
- Margin = labor + capacity.
- Installed cost = equipment + installation.
- Operating hours come from the capacity calculation.
- NPV is row 60's cumulative discounted flow, so the fallback of 0 never applies.
- The chart copies each row's month and running totals.

`DefaultScenario.DefaultInvestmentByMonth` gives the default investment by month:

- month 0: 455,790;
- month 3: 227,895;
- months 6 and 7: 170,921.25 each;
- month 8: 110,200 (installation 76,200 plus the 34,000 loss);
- month 9: 113,947.5;
- every other month: 0.

## Left out

- The React user interface, its state hooks, local-storage persistence and memoised recalculation: rendering and state plumbing around the engine.
- The form's advisory check that percentages total 100%, and the documented 0–4 bound on optional milestones (a comment on the schedule type; nothing enforces it). The engine enforces neither; the model accepts any total and any number of optional milestones.
- The lead-capture form embed and the chart rendering: third-party scripts and drawing, not calculation.
- Number formatting and parsing helpers: thin wrappers over the platform's `Intl.NumberFormat` and `parseFloat`.
- `generateMilestoneId`: it draws on `Math.random`, and milestone ids play no part in the calculation.
- IEEE-754 double behaviour: the model computes over exact reals, so accumulation drift, rounding of `Math.pow` and `Infinity`/`NaN` are not modelled.
- Cashflow.DiscountFactor: the case `1 + annualDiscountRate == 0` (a rate of −1) is excluded by a precondition on every member that builds rows, and so on `CalculateRoi`. In the source, month 0's factor is still 1, because `Math.pow(0, 0)` is 1. From month 1 on the factor is `1 / 0 = Infinity`. A month with zero net flow then contributes `0 × Infinity = NaN`, and with the default schedule month 1 already has zero net flow. So the cumulative discounted flow and the NPV become NaN. The undiscounted outputs stay finite in the source: costs, benefits, net, break-even, payback and the chart. The model promises nothing for this rate, not even those outputs.
- The source's left fold over the due events is summed from the front; over the reals the order of the additions does not change the sum.
- `buildPaymentMilestones` receives the schedule and the commissioning month rather than the whole input record, the only two fields it reads.
- The default project's NPV: the default break-even, payback and table figures are stated for the default inputs at any discount rate, since discounting does not enter them. The exact default NPV at 12% (a sum of 61 terms with denominators up to 1.12^60) is not computed.
