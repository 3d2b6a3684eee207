/**
 * The ROI engine: runs labor savings, capacity benefit and the cash-flow
 * generator, then derives break-even timing, the 24-month payback verdict,
 * summary figures, NPV at month 60 and the chart series.
 */
module Engine {
  import opened Types
  import opened LaborSavings
  import opened CapacityBenefit
  import opened Cashflow

  /** Index of the first row, from `from` on, whose cumulative net is
      non-negative; `None` when every such row is still negative. */
  function FirstBreakEvenIndex(rows: seq<MonthlyCashflow>, from: nat): (r: Option<nat>)
    requires from <= |rows|
    ensures r.Some? ==> from <= r.value < |rows| && rows[r.value].cumulativeNet >= 0.0
    ensures r.Some? ==> forall j :: from <= j < r.value ==> rows[j].cumulativeNet < 0.0
    ensures r.None? <==> forall j :: from <= j < |rows| ==> rows[j].cumulativeNet < 0.0
    decreases |rows| - from
  {
    if from == |rows| then None
    else if rows[from].cumulativeNet >= 0.0 then Some(from)
    else FirstBreakEvenIndex(rows, from + 1)
  }

  /** `month` is the first month of a table indexed by month whose
      cumulative net is non-negative, or `None` when every month's is
      negative. */
  predicate IsFirstBreakEven(rows: seq<MonthlyCashflow>, month: Option<int>)
  {
    match month
    case Some(k) =>
      && 0 <= k < |rows|
      && rows[k].cumulativeNet >= 0.0
      && forall j :: 0 <= j < k ==> rows[j].cumulativeNet < 0.0
    case None =>
      forall j :: 0 <= j < |rows| ==> rows[j].cumulativeNet < 0.0
  }

  /** The month of the first row whose cumulative net is non-negative. */
  function BreakEvenProjectMonth(rows: seq<MonthlyCashflow>): (r: Option<int>)
    ensures (forall i :: 0 <= i < |rows| ==> rows[i].month == i) ==> IsFirstBreakEven(rows, r)
  {
    match FirstBreakEvenIndex(rows, 0)
    case None => None
    case Some(k) => Some(rows[k].month)
  }

  /** Break-even counted from commissioning; negative when break-even comes first. */
  function BreakEvenAfterCommissioning(breakEven: Option<int>, commissioningMonth: real): (r: Option<real>)
    ensures r.None? <==> breakEven.None?
    ensures r.Some? ==> r.value + commissioningMonth == breakEven.value as real
  {
    match breakEven
    case None => None
    case Some(k) => Some(k as real - commissioningMonth)
  }

  /** `'N/A'` without break-even, `'Yes'` within 24 months of commissioning,
      `'No'` after that. */
  function PaybackWithin24Months(afterCommissioning: Option<real>): (r: Payback)
    ensures r == NotApplicable <==> afterCommissioning.None?
    ensures r == Yes <==> afterCommissioning.Some? && afterCommissioning.value <= 24.0
    ensures r == No <==> afterCommissioning.Some? && afterCommissioning.value > 24.0
  {
    match afterCommissioning
    case None => NotApplicable
    case Some(months) => if months <= 24.0 then Yes else No
  }

  function ToChartPoint(row: MonthlyCashflow): ChartDataPoint
  {
    ChartDataPoint(row.month, row.cumulativeCosts, row.cumulativeBenefits, row.cumulativeNet)
  }

  /** The chart series: one point per row, in row order, copying the month
      and the three undiscounted running totals. */
  function ChartData(rows: seq<MonthlyCashflow>): (r: seq<ChartDataPoint>)
    ensures |r| == |rows|
    ensures forall i :: 0 <= i < |r| ==>
              && r[i].month == rows[i].month
              && r[i].cumulativeCosts == rows[i].cumulativeCosts
              && r[i].cumulativeBenefits == rows[i].cumulativeBenefits
              && r[i].cumulativeNet == rows[i].cumulativeNet
  {
    seq(|rows|, i requires 0 <= i < |rows| => ToChartPoint(rows[i]))
  }

  /** Cumulative discounted cash flow at month 60, with the source's
      fallback of 0 for a table too short to have that row. */
  function NpvAt60Months(rows: seq<MonthlyCashflow>): (r: real)
    ensures |rows| > AnalysisHorizon ==> r == rows[AnalysisHorizon].cumulativeDiscountedCashFlow
    ensures |rows| <= AnalysisHorizon ==> r == 0.0
  {
    if |rows| > 60 then rows[60].cumulativeDiscountedCashFlow else 0.0
  }

  /** The full calculation. */
  function CalculateRoi(inputs: RoiInputs): (r: RoiOutputs)
    requires 1.0 + inputs.annualDiscountRate != 0.0
    // The table is the generator's, built from the two formula results.
    ensures IsCashflowTable(inputs, CalculateLaborSavings(inputs), CalculateCapacityBenefit(inputs), r.cashflows)
    ensures |r.cashflows| == AnalysisHorizon + 1
    ensures forall i :: 0 <= i < |r.cashflows| ==> r.cashflows[i].month == i
    // Break-even is the first month whose cumulative net is non-negative.
    ensures IsFirstBreakEven(r.cashflows, r.breakEvenProjectMonth)
    ensures r.breakEvenAfterCommissioning.None? <==> r.breakEvenProjectMonth.None?
    ensures r.breakEvenProjectMonth.Some? ==>
              r.breakEvenAfterCommissioning.value
              == r.breakEvenProjectMonth.value as real - inputs.commissioningMonth
    // Payback verdict.
    ensures r.paybackWithin24Months == NotApplicable <==> r.breakEvenProjectMonth.None?
    ensures r.paybackWithin24Months == Yes <==>
              r.breakEvenAfterCommissioning.Some? && r.breakEvenAfterCommissioning.value <= 24.0
    ensures r.paybackWithin24Months == No <==>
              r.breakEvenAfterCommissioning.Some? && r.breakEvenAfterCommissioning.value > 24.0
    // Summary figures.
    ensures r.monthlyLaborSavings == CalculateLaborSavings(inputs).monthlySavings
    ensures r.monthlyCapacityBenefit == CalculateCapacityBenefit(inputs).monthlyBenefit
    ensures r.monthlyOperatingMargin == r.monthlyLaborSavings + r.monthlyCapacityBenefit
    ensures r.totalInstalledCost == inputs.equipmentCost + inputs.installationCost
    ensures r.operatingHoursPerYear == OperatingHoursPerYear(inputs)
    // NPV is the last row's cumulative discounted cash flow; the fallback never applies.
    ensures r.npvAt60Months == r.cashflows[AnalysisHorizon].cumulativeDiscountedCashFlow
    // The chart series projects each row onto month and the undiscounted running totals.
    ensures |r.chartData| == |r.cashflows|
    ensures forall i :: 0 <= i < |r.chartData| ==>
              && r.chartData[i].month == r.cashflows[i].month
              && r.chartData[i].cumulativeCosts == r.cashflows[i].cumulativeCosts
              && r.chartData[i].cumulativeBenefits == r.cashflows[i].cumulativeBenefits
              && r.chartData[i].cumulativeNet == r.cashflows[i].cumulativeNet
  {
    var labor := CalculateLaborSavings(inputs);
    var capacity := CalculateCapacityBenefit(inputs);
    var cashflows := GenerateMonthlyCashflows(inputs, labor, capacity);
    var breakEven := BreakEvenProjectMonth(cashflows);
    var afterCommissioning := BreakEvenAfterCommissioning(breakEven, inputs.commissioningMonth);
    RoiOutputs(
      breakEvenProjectMonth := breakEven,
      breakEvenAfterCommissioning := afterCommissioning,
      paybackWithin24Months := PaybackWithin24Months(afterCommissioning),
      monthlyLaborSavings := labor.monthlySavings,
      monthlyCapacityBenefit := capacity.monthlyBenefit,
      monthlyOperatingMargin := labor.monthlySavings + capacity.monthlyBenefit,
      totalInstalledCost := inputs.equipmentCost + inputs.installationCost,
      operatingHoursPerYear := capacity.operatingHoursPerYear,
      npvAt60Months := NpvAt60Months(cashflows),
      chartData := ChartData(cashflows),
      cashflows := cashflows
    )
  }
}
