/**
 * The monthly cash-flow generator: one row per integer month 0..60 with
 * CAPEX disbursements, gated recurring benefits, the one-time loss, the
 * discount factor and three running totals.
 *
 * Each per-month quantity is a function of the month. The generator itself
 * (`Rows`) mirrors the source loop and carries running totals from month to
 * month; `ReferenceRow` states every field in closed form, with the running
 * totals as prefix sums, and `GenerateMonthlyCashflows` is proved to agree
 * with it row by row.
 */
module Cashflow {
  import opened Types
  import opened Numeric
  import opened PaymentMilestones

  /** Last month analysed: the table holds months 0 through 60. */
  const AnalysisHorizon: nat := 60

  /** The expanded payment schedule of an input record. */
  function Events(inputs: RoiInputs): seq<PaymentEvent>
  {
    BuildPaymentMilestones(inputs.paymentSchedule, inputs.commissioningMonth)
  }

  /** The events disbursed in month `m`: those whose month rounds to `m`,
      kept in schedule order. */
  function DueIn(events: seq<PaymentEvent>, m: int): (r: seq<PaymentEvent>)
    ensures forall i :: 0 <= i < |r| ==> Round(r[i].month) == m
    ensures forall i :: 0 <= i < |events| && Round(events[i].month) == m ==> events[i] in r
    ensures forall e :: e in r ==> e in events
  {
    if |events| == 0 then []
    else if Round(events[0].month) == m then [events[0]] + DueIn(events[1..], m)
    else DueIn(events[1..], m)
  }

  /** `DueIn` keeps every copy of a due event: each event occurs in the
      result as often as in the schedule when its month rounds to `m`, and
      not at all otherwise. Two milestones with the same month and
      percentage are therefore both paid. */
  lemma {:induction false} DueInCounts(events: seq<PaymentEvent>, m: int)
    ensures forall e :: multiset(DueIn(events, m))[e]
                        == if Round(e.month) == m then multiset(events)[e] else 0
  {
    if |events| > 0 {
      DueInCounts(events[1..], m);
      assert events == [events[0]] + events[1..];
      assert multiset(events) == multiset{events[0]} + multiset(events[1..]);
      if Round(events[0].month) == m {
        assert multiset(DueIn(events, m)) == multiset{events[0]} + multiset(DueIn(events[1..], m));
      }
    }
  }

  /** Equipment cost times each due event's percentage, added up (over the
      reals the order of the additions is immaterial). */
  function Disbursement(cost: real, due: seq<PaymentEvent>): real
  {
    if |due| == 0 then 0.0 else cost * due[0].percentage + Disbursement(cost, due[1..])
  }

  function MilestoneCapex(inputs: RoiInputs, m: int): real
  {
    Disbursement(inputs.equipmentCost, DueIn(Events(inputs), m))
  }

  /** Installation is paid only when the month equals the installation month exactly. */
  function InstallationAt(inputs: RoiInputs, m: int): real
  {
    if m as real == inputs.installationMonth then inputs.installationCost else 0.0
  }

  function CapexOut(inputs: RoiInputs, m: int): real
  {
    MilestoneCapex(inputs, m) + InstallationAt(inputs, m)
  }

  /** Recurring benefits accrue from the commissioning month on. */
  predicate Commissioned(inputs: RoiInputs, m: int)
  {
    m as real >= inputs.commissioningMonth
  }

  function LaborSavingsAt(inputs: RoiInputs, labor: LaborSavingsResult, m: int): real
  {
    if Commissioned(inputs, m) then labor.monthlySavings else 0.0
  }

  function CapacityBenefitAt(inputs: RoiInputs, capacity: CapacityBenefitResult, m: int): real
  {
    if Commissioned(inputs, m) then capacity.monthlyBenefit else 0.0
  }

  function TotalBenefitAt(inputs: RoiInputs, labor: LaborSavingsResult, capacity: CapacityBenefitResult, m: int): real
  {
    LaborSavingsAt(inputs, labor, m) + CapacityBenefitAt(inputs, capacity, m)
  }

  /** The one-time loss fires only on exact equality with the month index. */
  function OneTimeLossAt(inputs: RoiInputs, m: int): real
  {
    if m as real == inputs.lostProductionMonth then inputs.lostProductionCost else 0.0
  }

  function InvestmentOutAt(inputs: RoiInputs, m: int): real
  {
    CapexOut(inputs, m) + OneTimeLossAt(inputs, m)
  }

  function NetCashFlowAt(inputs: RoiInputs, labor: LaborSavingsResult, capacity: CapacityBenefitResult, m: int): real
  {
    TotalBenefitAt(inputs, labor, capacity, m) - InvestmentOutAt(inputs, m)
  }

  /** `1 / (1 + annualRate)^m`: the annual rate is applied per monthly step. */
  function DiscountFactor(annualRate: real, m: nat): (r: real)
    requires 1.0 + annualRate != 0.0
    ensures m == 0 ==> r == 1.0
    ensures annualRate >= 0.0 ==> 0.0 < r <= 1.0
  {
    1.0 / Pow(1.0 + annualRate, m)
  }

  function DiscountedCashFlowAt(inputs: RoiInputs, labor: LaborSavingsResult, capacity: CapacityBenefitResult, m: nat): real
    requires 1.0 + inputs.annualDiscountRate != 0.0
  {
    NetCashFlowAt(inputs, labor, capacity, m) * DiscountFactor(inputs.annualDiscountRate, m)
  }

  /** Investment paid in months 0 .. n-1. */
  function CostsBefore(inputs: RoiInputs, n: nat): real
  {
    if n == 0 then 0.0 else CostsBefore(inputs, n - 1) + InvestmentOutAt(inputs, n - 1)
  }

  /** Benefits earned in months 0 .. n-1. */
  function BenefitsBefore(inputs: RoiInputs, labor: LaborSavingsResult, capacity: CapacityBenefitResult, n: nat): real
  {
    if n == 0 then 0.0
    else BenefitsBefore(inputs, labor, capacity, n - 1) + TotalBenefitAt(inputs, labor, capacity, n - 1)
  }

  /** Discounted net cash flow of months 0 .. n-1. */
  function DiscountedBefore(inputs: RoiInputs, labor: LaborSavingsResult, capacity: CapacityBenefitResult, n: nat): real
    requires 1.0 + inputs.annualDiscountRate != 0.0
  {
    if n == 0 then 0.0
    else DiscountedBefore(inputs, labor, capacity, n - 1) + DiscountedCashFlowAt(inputs, labor, capacity, n - 1)
  }

  /** Row `m` stated in closed form: per-month figures and, for the running
      totals, the prefix sums through month `m`. */
  function ReferenceRow(inputs: RoiInputs, labor: LaborSavingsResult, capacity: CapacityBenefitResult, m: nat): MonthlyCashflow
    requires 1.0 + inputs.annualDiscountRate != 0.0
  {
    MonthlyCashflow(
      month := m,
      capexOut := CapexOut(inputs, m),
      laborSavings := LaborSavingsAt(inputs, labor, m),
      capacityBenefit := CapacityBenefitAt(inputs, capacity, m),
      totalBenefit := TotalBenefitAt(inputs, labor, capacity, m),
      oneTimeLoss := OneTimeLossAt(inputs, m),
      investmentOut := InvestmentOutAt(inputs, m),
      netCashFlow := NetCashFlowAt(inputs, labor, capacity, m),
      discountFactor := DiscountFactor(inputs.annualDiscountRate, m),
      discountedCashFlow := DiscountedCashFlowAt(inputs, labor, capacity, m),
      cumulativeDiscountedCashFlow := DiscountedBefore(inputs, labor, capacity, m + 1),
      cumulativeCosts := CostsBefore(inputs, m + 1),
      cumulativeBenefits := BenefitsBefore(inputs, labor, capacity, m + 1),
      cumulativeNet := BenefitsBefore(inputs, labor, capacity, m + 1) - CostsBefore(inputs, m + 1)
    )
  }

  /** One pass of the generator loop: the row for month `m`, given the
      running totals carried in from the months before it. */
  function StepRow(inputs: RoiInputs, labor: LaborSavingsResult, capacity: CapacityBenefitResult, m: nat,
                   costs: real, benefits: real, discounted: real): MonthlyCashflow
    requires 1.0 + inputs.annualDiscountRate != 0.0
  {
    var investmentOut := InvestmentOutAt(inputs, m);
    var totalBenefit := TotalBenefitAt(inputs, labor, capacity, m);
    var discountedCashFlow := DiscountedCashFlowAt(inputs, labor, capacity, m);
    var cumulativeDiscountedCashFlow := discounted + discountedCashFlow;
    var cumulativeCosts := costs + investmentOut;
    var cumulativeBenefits := benefits + totalBenefit;
    MonthlyCashflow(m, CapexOut(inputs, m), LaborSavingsAt(inputs, labor, m), CapacityBenefitAt(inputs, capacity, m),
                    totalBenefit, OneTimeLossAt(inputs, m), investmentOut, NetCashFlowAt(inputs, labor, capacity, m),
                    DiscountFactor(inputs.annualDiscountRate, m), discountedCashFlow,
                    cumulativeDiscountedCashFlow, cumulativeCosts, cumulativeBenefits,
                    cumulativeBenefits - cumulativeCosts)
  }

  /** The generator loop from month `m` to the horizon. The running totals
      passed in are those of the months before `m`. */
  function Rows(inputs: RoiInputs, labor: LaborSavingsResult, capacity: CapacityBenefitResult, m: nat,
                costs: real, benefits: real, discounted: real): (r: seq<MonthlyCashflow>)
    requires 1.0 + inputs.annualDiscountRate != 0.0
    requires m <= AnalysisHorizon + 1
    requires costs == CostsBefore(inputs, m)
    requires benefits == BenefitsBefore(inputs, labor, capacity, m)
    requires discounted == DiscountedBefore(inputs, labor, capacity, m)
    ensures |r| == AnalysisHorizon + 1 - m
    ensures forall i :: 0 <= i < |r| ==> r[i] == ReferenceRow(inputs, labor, capacity, m + i)
    decreases AnalysisHorizon + 1 - m
  {
    if m > AnalysisHorizon then []
    else
      var row := StepRow(inputs, labor, capacity, m, costs, benefits, discounted);
      StepMatchesReference(inputs, labor, capacity, m);
      [row] + Rows(inputs, labor, capacity, m + 1,
                   row.cumulativeCosts, row.cumulativeBenefits, row.cumulativeDiscountedCashFlow)
  }

  /** One loop pass, started from the prefix sums of the earlier months,
      produces the closed-form row and so the next month's prefix sums. */
  lemma StepMatchesReference(inputs: RoiInputs, labor: LaborSavingsResult, capacity: CapacityBenefitResult, m: nat)
    requires 1.0 + inputs.annualDiscountRate != 0.0
    ensures StepRow(inputs, labor, capacity, m, CostsBefore(inputs, m), BenefitsBefore(inputs, labor, capacity, m),
                    DiscountedBefore(inputs, labor, capacity, m))
         == ReferenceRow(inputs, labor, capacity, m)
  {
    assert CostsBefore(inputs, m + 1) == CostsBefore(inputs, m) + InvestmentOutAt(inputs, m);
    assert BenefitsBefore(inputs, labor, capacity, m + 1)
        == BenefitsBefore(inputs, labor, capacity, m) + TotalBenefitAt(inputs, labor, capacity, m);
    assert DiscountedBefore(inputs, labor, capacity, m + 1)
        == DiscountedBefore(inputs, labor, capacity, m) + DiscountedCashFlowAt(inputs, labor, capacity, m);
  }

  /** `rows` holds months 0 through 60, each row equal to its closed-form
      reference row. */
  predicate IsCashflowTable(inputs: RoiInputs, labor: LaborSavingsResult, capacity: CapacityBenefitResult,
                            rows: seq<MonthlyCashflow>)
    requires 1.0 + inputs.annualDiscountRate != 0.0
  {
    && |rows| == AnalysisHorizon + 1
    && forall i :: 0 <= i < |rows| ==> rows[i] == ReferenceRow(inputs, labor, capacity, i)
  }

  /** The 61-row cash-flow table: row `i` is month `i`, and every field is
      the closed-form figure for that month, running totals included. */
  function GenerateMonthlyCashflows(inputs: RoiInputs, labor: LaborSavingsResult, capacity: CapacityBenefitResult)
    : (r: seq<MonthlyCashflow>)
    requires 1.0 + inputs.annualDiscountRate != 0.0
    ensures |r| == AnalysisHorizon + 1
    ensures forall i :: 0 <= i < |r| ==> r[i].month == i
    ensures IsCashflowTable(inputs, labor, capacity, r)
  {
    Rows(inputs, labor, capacity, 0, 0.0, 0.0, 0.0)
  }
}
