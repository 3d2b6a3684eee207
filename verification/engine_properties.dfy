/**
 * Properties of the ROI engine that relate several calculations: how
 * break-even moves when the inputs change, and break-even before
 * commissioning.
 */
module EngineProperties {
  import opened Types
  import opened LaborSavings
  import opened CapacityBenefit
  import opened Cashflow
  import opened CashflowProperties
  import opened Engine

  /** Two input records that agree on every cost field. */
  predicate SameCosts(a: RoiInputs, b: RoiInputs)
  {
    && a.equipmentCost == b.equipmentCost
    && a.installationCost == b.installationCost
    && a.installationMonth == b.installationMonth
    && a.paymentSchedule == b.paymentSchedule
    && a.commissioningMonth == b.commissioningMonth
    && a.lostProductionCost == b.lostProductionCost
    && a.lostProductionMonth == b.lostProductionMonth
  }

  /** Cumulative costs depend on the cost fields only: throughput, labor
      and the discount rate do not enter them. */
  lemma {:induction false} CostsDependOnCostFieldsOnly(a: RoiInputs, b: RoiInputs, n: nat)
    requires SameCosts(a, b)
    ensures CostsBefore(a, n) == CostsBefore(b, n)
  {
    if n > 0 {
      CostsDependOnCostFieldsOnly(a, b, n - 1);
      assert Events(a) == Events(b);
      assert InvestmentOutAt(a, n - 1) == InvestmentOutAt(b, n - 1);
    }
  }

  /** With the same commissioning month, a smaller monthly operating margin
      earns no more over any prefix of months. */
  lemma {:induction false} BenefitsDominated(a: RoiInputs, laborA: LaborSavingsResult, capacityA: CapacityBenefitResult,
                                             b: RoiInputs, laborB: LaborSavingsResult, capacityB: CapacityBenefitResult,
                                             n: nat)
    requires a.commissioningMonth == b.commissioningMonth
    requires laborA.monthlySavings + capacityA.monthlyBenefit <= laborB.monthlySavings + capacityB.monthlyBenefit
    ensures BenefitsBefore(a, laborA, capacityA, n) <= BenefitsBefore(b, laborB, capacityB, n)
  {
    if n > 0 {
      BenefitsDominated(a, laborA, capacityA, b, laborB, capacityB, n - 1);
      assert TotalBenefitAt(a, laborA, capacityA, n - 1) <= TotalBenefitAt(b, laborB, capacityB, n - 1);
    }
  }

  /** Row by row, a table with no higher costs and no higher margin has no
      higher cumulative net. */
  lemma NetDominated(a: RoiInputs, laborA: LaborSavingsResult, capacityA: CapacityBenefitResult, rowsA: seq<MonthlyCashflow>,
                     b: RoiInputs, laborB: LaborSavingsResult, capacityB: CapacityBenefitResult, rowsB: seq<MonthlyCashflow>)
    requires 1.0 + a.annualDiscountRate != 0.0 && 1.0 + b.annualDiscountRate != 0.0
    requires IsCashflowTable(a, laborA, capacityA, rowsA)
    requires IsCashflowTable(b, laborB, capacityB, rowsB)
    requires SameCosts(a, b)
    requires laborA.monthlySavings + capacityA.monthlyBenefit <= laborB.monthlySavings + capacityB.monthlyBenefit
    ensures |rowsA| == |rowsB|
    ensures forall k :: 0 <= k < |rowsA| ==> rowsA[k].cumulativeNet <= rowsB[k].cumulativeNet
  {
    forall k | 0 <= k < |rowsA|
      ensures rowsA[k].cumulativeNet <= rowsB[k].cumulativeNet
    {
      assert rowsA[k] == ReferenceRow(a, laborA, capacityA, k);
      assert rowsB[k] == ReferenceRow(b, laborB, capacityB, k);
      CostsDependOnCostFieldsOnly(a, b, k + 1);
      BenefitsDominated(a, laborA, capacityA, b, laborB, capacityB, k + 1);
    }
  }

  /** Throughput leaves labor savings untouched. */
  lemma LaborIgnoresThroughput(inputs: RoiInputs, proposed: real)
    ensures CalculateLaborSavings(inputs.(proposedUnitsPerHour := proposed)) == CalculateLaborSavings(inputs)
  {
  }

  /** Lowering the proposed throughput, all else equal, never brings
      break-even forward: with non-negative operating hours and margin,
      break-even under the lower rate implies break-even under the higher
      rate in the same month or earlier. */
  lemma BreakEvenNoEarlierWhenThroughputFalls(inputs: RoiInputs, lowerProposed: real)
    requires 1.0 + inputs.annualDiscountRate != 0.0
    requires OperatingHoursPerYear(inputs) >= 0.0 && inputs.contributionMarginPerUnit >= 0.0
    requires lowerProposed <= inputs.proposedUnitsPerHour
    ensures var high := CalculateRoi(inputs).breakEvenProjectMonth;
            var low := CalculateRoi(inputs.(proposedUnitsPerHour := lowerProposed)).breakEvenProjectMonth;
            low.Some? ==> high.Some? && high.value <= low.value
  {
    var lower := inputs.(proposedUnitsPerHour := lowerProposed);
    var high, low := CalculateRoi(inputs), CalculateRoi(lower);
    LaborIgnoresThroughput(inputs, lowerProposed);
    CapacityBenefitMonotone(inputs, lowerProposed);
    NetDominated(lower, CalculateLaborSavings(lower), CalculateCapacityBenefit(lower), low.cashflows,
                 inputs, CalculateLaborSavings(inputs), CalculateCapacityBenefit(inputs), high.cashflows);
    if low.breakEvenProjectMonth.Some? {
      var k := low.breakEvenProjectMonth.value;
      assert high.cashflows[k].cumulativeNet >= 0.0;
    }
  }

  /** A project with no costs at all, commissioned after month 0, ends
      month 0 with a cumulative net of exactly zero. */
  lemma CostFreeMonthZero(inputs: RoiInputs, labor: LaborSavingsResult, capacity: CapacityBenefitResult,
                          rows: seq<MonthlyCashflow>)
    requires 1.0 + inputs.annualDiscountRate != 0.0
    requires IsCashflowTable(inputs, labor, capacity, rows)
    requires inputs.equipmentCost == 0.0 && inputs.installationCost == 0.0 && inputs.lostProductionCost == 0.0
    requires inputs.commissioningMonth > 0.0
    ensures rows[0].cumulativeCosts == 0.0 && rows[0].cumulativeBenefits == 0.0 && rows[0].cumulativeNet == 0.0
  {
    assert rows[0] == ReferenceRow(inputs, labor, capacity, 0);
    DisbursementIsCostTimesTotal(0.0, DueIn(Events(inputs), 0));
    assert InvestmentOutAt(inputs, 0) == 0.0;
    assert CostsBefore(inputs, 1) == 0.0;
    assert BenefitsBefore(inputs, labor, capacity, 1) == 0.0;
  }

  /** A project with no costs at all, commissioned after month 0, breaks
      even in month 0. */
  lemma CostFreeBreaksEvenAtOnce(inputs: RoiInputs)
    requires 1.0 + inputs.annualDiscountRate != 0.0
    requires inputs.equipmentCost == 0.0 && inputs.installationCost == 0.0 && inputs.lostProductionCost == 0.0
    requires inputs.commissioningMonth > 0.0
    ensures CalculateRoi(inputs).breakEvenProjectMonth == Some(0)
  {
    var r := CalculateRoi(inputs);
    var rows := r.cashflows;
    assert rows[0].cumulativeNet >= 0.0 by {
      CostFreeMonthZero(inputs, CalculateLaborSavings(inputs), CalculateCapacityBenefit(inputs), rows);
    }
  }

  /** Break-even that comes before commissioning gives a negative
      after-commissioning figure, which still counts as payback within 24
      months. */
  lemma BreakEvenBeforeCommissioning(breakEven: Option<int>, commissioningMonth: real)
    requires breakEven.Some? && (breakEven.value as real) < commissioningMonth
    ensures var after := BreakEvenAfterCommissioning(breakEven, commissioningMonth);
            && after == Some(breakEven.value as real - commissioningMonth)
            && after.value < 0.0
            && PaybackWithin24Months(after) == Yes
  {
  }

  /** The first break-even month is determined by the table: when the
      cumulative net is negative exactly before month `k`, it is `k`. */
  lemma FirstBreakEvenIsWhereNetTurns(rows: seq<MonthlyCashflow>, month: Option<int>, k: nat)
    requires IsFirstBreakEven(rows, month)
    requires k < |rows|
    requires forall j :: 0 <= j < |rows| ==> (rows[j].cumulativeNet >= 0.0 <==> j >= k)
    ensures month == Some(k)
  {
    assert rows[k].cumulativeNet >= 0.0;
    match month
    case None =>
    case Some(v) =>
      assert rows[v].cumulativeNet >= 0.0;
  }
}
