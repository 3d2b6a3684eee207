/**
 * Input and output records of the ROI calculation engine, and the default
 * input record taken from the reference spreadsheet.
 *
 * Every quantity the TypeScript code holds as a `number` is a `real` here, so
 * the arithmetic of the model is exact; month indices of the generated rows
 * are integers.
 */
module Types {

  /** A value that may be absent (the source's `number | null`). */
  datatype Option<T> = None | Some(value: T)

  /** Days of net terms for the final payment: the literal union `30 | 60`. */
  type FinalPaymentTerms = d: int | d == 30 || d == 60 witness 30

  /** One of the zero to four user-added progress payments. */
  datatype OptionalMilestone = OptionalMilestone(
    id: string,
    name: string,
    percentage: real,  // fraction of the equipment cost, 0.2 for 20%
    month: real        // may be fractional, for example 2.8
  )

  /** The structured payment schedule: down-payment at month 0, optional
      milestones, pre-shipment payment, and final payment on net terms
      counted from commissioning. */
  datatype PaymentSchedule = PaymentSchedule(
    downpaymentPercent: real,
    optionalMilestones: seq<OptionalMilestone>,
    preShipmentPercent: real,
    preShipmentMonth: real,
    finalPaymentPercent: real,
    finalPaymentTerms: FinalPaymentTerms
  )

  datatype RoiInputs = RoiInputs(
    // CAPEX
    equipmentCost: real,
    installationCost: real,
    paymentSchedule: PaymentSchedule,
    // Operating profile
    shiftsPerDay: real,
    hoursPerShift: real,
    operatingDaysPerYear: real,
    // Labor savings
    baseWage: real,
    burdenMultiplier: real,
    laborUnitsReduced: real,
    // Capacity benefit
    baselineUnitsPerHour: real,
    proposedUnitsPerHour: real,
    contributionMarginPerUnit: real,
    // Timing
    commissioningMonth: real,
    installationMonth: real,
    lostProductionCost: real,
    lostProductionMonth: real,
    // Discounting
    annualDiscountRate: real
  )

  datatype LaborSavingsResult = LaborSavingsResult(
    annualHoursSaved: real,
    annualSavings: real,
    monthlySavings: real
  )

  datatype CapacityBenefitResult = CapacityBenefitResult(
    deltaUnitsPerHour: real,
    operatingHoursPerYear: real,
    incrementalUnitsPerYear: real,
    annualBenefit: real,
    monthlyBenefit: real
  )

  /** One row of the monthly cash-flow table. */
  datatype MonthlyCashflow = MonthlyCashflow(
    month: int,
    capexOut: real,
    laborSavings: real,
    capacityBenefit: real,
    totalBenefit: real,
    oneTimeLoss: real,
    investmentOut: real,
    netCashFlow: real,
    discountFactor: real,
    discountedCashFlow: real,
    cumulativeDiscountedCashFlow: real,
    cumulativeCosts: real,
    cumulativeBenefits: real,
    cumulativeNet: real
  )

  /** The chart series keeps the month and the three undiscounted running totals. */
  datatype ChartDataPoint = ChartDataPoint(
    month: int,
    cumulativeCosts: real,
    cumulativeBenefits: real,
    cumulativeNet: real
  )

  /** The tri-state `'Yes' | 'No' | 'N/A'`. */
  datatype Payback = Yes | No | NotApplicable

  datatype RoiOutputs = RoiOutputs(
    breakEvenProjectMonth: Option<int>,
    breakEvenAfterCommissioning: Option<real>,
    paybackWithin24Months: Payback,
    monthlyLaborSavings: real,
    monthlyCapacityBenefit: real,
    monthlyOperatingMargin: real,
    totalInstalledCost: real,
    operatingHoursPerYear: real,
    npvAt60Months: real,
    chartData: seq<ChartDataPoint>,
    cashflows: seq<MonthlyCashflow>
  )

  /** The default input record of the reference spreadsheet. */
  const DefaultInputs: RoiInputs := RoiInputs(
    equipmentCost := 1139475.0,
    installationCost := 76200.0,
    paymentSchedule := PaymentSchedule(
      downpaymentPercent := 0.40,
      optionalMilestones := [
        OptionalMilestone("1", "Engineered Drawings Approved", 0.20, 2.8),
        OptionalMilestone("2", "Progress Milestone (24 weeks)", 0.15, 5.5)
      ],
      preShipmentPercent := 0.15,
      preShipmentMonth := 6.9,
      finalPaymentPercent := 0.10,
      finalPaymentTerms := 30
    ),
    shiftsPerDay := 3.0,
    hoursPerShift := 8.0,
    operatingDaysPerYear := 320.0,
    baseWage := 22.48,
    burdenMultiplier := 1.35,
    laborUnitsReduced := 2.0,
    baselineUnitsPerHour := 1600.0,
    proposedUnitsPerHour := 1650.0,
    contributionMarginPerUnit := 1.75,
    commissioningMonth := 8.0,
    installationMonth := 8.0,
    lostProductionCost := 34000.0,
    lostProductionMonth := 8.0,
    annualDiscountRate := 0.12
  )
}
