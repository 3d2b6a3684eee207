/**
 * Properties of the generated cash-flow table: the rules each row follows,
 * the running totals as prefix sums, where and how often each payment is
 * made, when benefits start, and how the discount factor behaves.
 */
module CashflowProperties {
  import opened Types
  import opened Numeric
  import opened PaymentMilestones
  import opened Cashflow

  /** Every row applies the source's per-month rules: milestones are paid in
      the month their own month rounds to, installation and the one-time loss
      only on an exact month match, benefits from commissioning on, and the
      discount factor is `1 / (1 + rate)^month`. */
  lemma RowFollowsMonthlyRules(inputs: RoiInputs, labor: LaborSavingsResult, capacity: CapacityBenefitResult,
                                rows: seq<MonthlyCashflow>, m: nat)
    requires 1.0 + inputs.annualDiscountRate != 0.0
    requires IsCashflowTable(inputs, labor, capacity, rows)
    requires m <= AnalysisHorizon
    ensures var row := rows[m];
      && row.month == m
      && row.capexOut
         == Disbursement(inputs.equipmentCost, DueIn(Events(inputs), m))
            + (if m as real == inputs.installationMonth then inputs.installationCost else 0.0)
      && row.laborSavings == (if m as real >= inputs.commissioningMonth then labor.monthlySavings else 0.0)
      && row.capacityBenefit == (if m as real >= inputs.commissioningMonth then capacity.monthlyBenefit else 0.0)
      && row.totalBenefit == row.laborSavings + row.capacityBenefit
      && row.oneTimeLoss == (if m as real == inputs.lostProductionMonth then inputs.lostProductionCost else 0.0)
      && row.investmentOut == row.capexOut + row.oneTimeLoss
      && row.netCashFlow == row.totalBenefit - row.investmentOut
      && row.discountFactor == 1.0 / Pow(1.0 + inputs.annualDiscountRate, m)
      && row.discountedCashFlow == row.netCashFlow * row.discountFactor
  {
  }

  /** The three running totals start from zero before month 0 and add each
      month's figure; the undiscounted net is benefits minus costs. */
  lemma CumulativeTotalsAreRunningSums(inputs: RoiInputs, labor: LaborSavingsResult, capacity: CapacityBenefitResult,
                                       rows: seq<MonthlyCashflow>)
    requires 1.0 + inputs.annualDiscountRate != 0.0
    requires IsCashflowTable(inputs, labor, capacity, rows)
    ensures rows[0].cumulativeCosts == rows[0].investmentOut
    ensures rows[0].cumulativeBenefits == rows[0].totalBenefit
    ensures rows[0].cumulativeDiscountedCashFlow == rows[0].discountedCashFlow
    ensures forall i :: 0 < i < |rows| ==>
              && rows[i].cumulativeCosts == rows[i - 1].cumulativeCosts + rows[i].investmentOut
              && rows[i].cumulativeBenefits == rows[i - 1].cumulativeBenefits + rows[i].totalBenefit
              && rows[i].cumulativeDiscountedCashFlow
                 == rows[i - 1].cumulativeDiscountedCashFlow + rows[i].discountedCashFlow
    ensures forall i :: 0 <= i < |rows| ==>
              rows[i].cumulativeNet == rows[i].cumulativeBenefits - rows[i].cumulativeCosts
  {
    assert rows[0] == ReferenceRow(inputs, labor, capacity, 0);
    assert CostsBefore(inputs, 1) == InvestmentOutAt(inputs, 0);
    assert BenefitsBefore(inputs, labor, capacity, 1) == TotalBenefitAt(inputs, labor, capacity, 0);
    assert DiscountedBefore(inputs, labor, capacity, 1) == DiscountedCashFlowAt(inputs, labor, capacity, 0);
    forall i | 0 < i < |rows|
      ensures rows[i].cumulativeCosts == rows[i - 1].cumulativeCosts + rows[i].investmentOut
      ensures rows[i].cumulativeBenefits == rows[i - 1].cumulativeBenefits + rows[i].totalBenefit
      ensures rows[i].cumulativeDiscountedCashFlow
              == rows[i - 1].cumulativeDiscountedCashFlow + rows[i].discountedCashFlow
    {
      assert rows[i] == ReferenceRow(inputs, labor, capacity, i);
      assert rows[i - 1] == ReferenceRow(inputs, labor, capacity, i - 1);
    }
  }

  // ---------------------------------------------------------------------
  // Where the money goes: each payment in full, in exactly one month.
  // ---------------------------------------------------------------------

  /** Milestone payments disbursed in months 0 .. n-1. */
  function MonthsDisbursed(events: seq<PaymentEvent>, cost: real, n: nat): real
  {
    if n == 0 then 0.0 else MonthsDisbursed(events, cost, n - 1) + Disbursement(cost, DueIn(events, n - 1))
  }

  /** Amount charged in months 0 .. n-1 by a rule that fires when the month
      equals `target` exactly (installation, one-time loss). */
  function ExactMonthTotal(target: real, amount: real, n: nat): real
  {
    if n == 0 then 0.0
    else ExactMonthTotal(target, amount, n - 1) + (if (n - 1) as real == target then amount else 0.0)
  }

  /** `x` names one of the analysed months. */
  predicate IsHorizonMonth(x: real)
  {
    x.Floor as real == x && 0.0 <= x <= AnalysisHorizon as real
  }

  /** An exact-match charge is made once if its month is an integer inside
      the window, and never otherwise: a fractional month never fires. */
  lemma {:induction false} ExactMonthChargedOnce(target: real, amount: real, n: nat)
    ensures ExactMonthTotal(target, amount, n)
         == (if target.Floor as real == target && 0.0 <= target < n as real then amount else 0.0)
  {
    if n > 0 {
      ExactMonthChargedOnce(target, amount, n - 1);
      var f := target.Floor;
      if f as real == target && 0.0 <= target < n as real {
        assert 0 <= f < n;
        if f != n - 1 {
          assert f < n - 1;
          assert target < (n - 1) as real;
        }
      }
    }
  }

  lemma {:induction false} NoEventsNothingDisbursed(cost: real, n: nat)
    ensures MonthsDisbursed([], cost, n) == 0.0
  {
    if n > 0 {
      NoEventsNothingDisbursed(cost, n - 1);
    }
  }

  /** The first event contributes its full amount once if its month rounds
      into the window, separately from the rest of the list. */
  lemma {:induction false} MonthsDisbursedFirst(events: seq<PaymentEvent>, cost: real, n: nat)
    requires |events| > 0
    ensures MonthsDisbursed(events, cost, n)
         == (if 0 <= Round(events[0].month) < n then cost * events[0].percentage else 0.0)
            + MonthsDisbursed(events[1..], cost, n)
  {
    if n > 0 {
      MonthsDisbursedFirst(events, cost, n - 1);
      var rest := DueIn(events[1..], n - 1);
      if Round(events[0].month) == n - 1 {
        assert ([events[0]] + rest)[1..] == rest;
      }
    }
  }

  /** Paying a list of events at once costs the equipment cost times their
      total percentage. */
  lemma {:induction false} DisbursementIsCostTimesTotal(cost: real, events: seq<PaymentEvent>)
    ensures Disbursement(cost, events) == cost * TotalPercentage(events)
  {
    if |events| > 0 {
      DisbursementIsCostTimesTotal(cost, events[1..]);
      var p, t := events[0].percentage, TotalPercentage(events[1..]);
      assert cost * (p + t) == cost * p + cost * t;
    }
  }

  /** A milestone is never split across months: when every event's month
      rounds into the window, the months together pay each event's amount
      exactly once. */
  lemma {:induction false} EveryPaymentDisbursedOnce(events: seq<PaymentEvent>, cost: real, n: nat)
    requires forall i :: 0 <= i < |events| ==> 0 <= Round(events[i].month) < n
    ensures MonthsDisbursed(events, cost, n) == Disbursement(cost, events)
    decreases |events|
  {
    if |events| == 0 {
      NoEventsNothingDisbursed(cost, n);
    } else {
      assert 0 <= Round(events[0].month) < n;
      MonthsDisbursedFirst(events, cost, n);
      EveryPaymentDisbursedOnce(events[1..], cost, n);
    }
  }

  /** Investment splits into milestone payments, installation and the loss. */
  lemma {:induction false} CostsSplit(inputs: RoiInputs, n: nat)
    ensures CostsBefore(inputs, n)
         == MonthsDisbursed(Events(inputs), inputs.equipmentCost, n)
            + ExactMonthTotal(inputs.installationMonth, inputs.installationCost, n)
            + ExactMonthTotal(inputs.lostProductionMonth, inputs.lostProductionCost, n)
  {
    if n > 0 {
      CostsSplit(inputs, n - 1);
    }
  }

  /** Every scheduled payment rounds to a month in 0..60. */
  predicate ScheduleWithinHorizon(inputs: RoiInputs)
  {
    forall i :: 0 <= i < |Events(inputs)| ==> 0 <= Round(Events(inputs)[i].month) <= AnalysisHorizon
  }

  /** When the schedule fits the horizon, total costs at month 60 are the
      equipment cost times the schedule's percentages (whatever they add up
      to), plus installation and the one-time loss when their months are
      integers inside the horizon. */
  lemma TotalCostsOverHorizon(inputs: RoiInputs, labor: LaborSavingsResult, capacity: CapacityBenefitResult,
                              rows: seq<MonthlyCashflow>)
    requires 1.0 + inputs.annualDiscountRate != 0.0
    requires IsCashflowTable(inputs, labor, capacity, rows)
    requires ScheduleWithinHorizon(inputs)
    ensures rows[AnalysisHorizon].cumulativeCosts
         == inputs.equipmentCost * ScheduleTotal(inputs.paymentSchedule)
            + (if IsHorizonMonth(inputs.installationMonth) then inputs.installationCost else 0.0)
            + (if IsHorizonMonth(inputs.lostProductionMonth) then inputs.lostProductionCost else 0.0)
  {
    var n := AnalysisHorizon + 1;
    assert rows[AnalysisHorizon] == ReferenceRow(inputs, labor, capacity, AnalysisHorizon);
    CostsSplit(inputs, n);
    EveryPaymentDisbursedOnce(Events(inputs), inputs.equipmentCost, n);
    ScheduleDisbursement(inputs);
    ExactMonthChargedOnce(inputs.installationMonth, inputs.installationCost, n);
    ExactMonthChargedOnce(inputs.lostProductionMonth, inputs.lostProductionCost, n);
    HorizonMonthWindow(inputs.installationMonth);
    HorizonMonthWindow(inputs.lostProductionMonth);
  }

  /** The expanded schedule, paid in full, costs the equipment cost times
      the schedule's percentages. */
  lemma ScheduleDisbursement(inputs: RoiInputs)
    ensures Disbursement(inputs.equipmentCost, Events(inputs))
         == inputs.equipmentCost * ScheduleTotal(inputs.paymentSchedule)
  {
    DisbursementIsCostTimesTotal(inputs.equipmentCost, Events(inputs));
    ExpansionKeepsTotal(inputs.paymentSchedule, inputs.commissioningMonth);
  }

  /** For an integral month, lying before month 61 is lying at or before month 60. */
  lemma HorizonMonthWindow(x: real)
    ensures IsHorizonMonth(x)
        <==> x.Floor as real == x && 0.0 <= x < (AnalysisHorizon + 1) as real
  {
    if x.Floor as real == x && x < (AnalysisHorizon + 1) as real {
      assert x.Floor < AnalysisHorizon + 1;
    }
  }

  /** A fractional lost-production month never matches a month index, so no
      row carries a one-time loss. */
  lemma FractionalLossNeverFires(inputs: RoiInputs, labor: LaborSavingsResult, capacity: CapacityBenefitResult,
                                 rows: seq<MonthlyCashflow>)
    requires 1.0 + inputs.annualDiscountRate != 0.0
    requires IsCashflowTable(inputs, labor, capacity, rows)
    requires inputs.lostProductionMonth.Floor as real != inputs.lostProductionMonth
    ensures forall i :: 0 <= i < |rows| ==> rows[i].oneTimeLoss == 0.0 && rows[i].investmentOut == rows[i].capexOut
  {
    forall i | 0 <= i < |rows|
      ensures rows[i].oneTimeLoss == 0.0
    {
      assert (i as real).Floor == i;
    }
  }

  // ---------------------------------------------------------------------
  // Benefits.
  // ---------------------------------------------------------------------

  /** The first month index at which benefits accrue. */
  function FirstBenefitMonth(inputs: RoiInputs): (r: nat)
    ensures forall m: nat :: Commissioned(inputs, m) <==> m >= r
  {
    var c := inputs.commissioningMonth;
    if c <= 0.0 then 0
    else if c.Floor as real == c then c.Floor
    else c.Floor + 1
  }

  /** Benefits earned before month `n`: nothing up to the first benefit
      month, then the full monthly margin for every month since. */
  lemma {:induction false} BenefitsBeforeClosedForm(inputs: RoiInputs, labor: LaborSavingsResult,
                                                    capacity: CapacityBenefitResult, n: nat)
    ensures var f := FirstBenefitMonth(inputs);
            BenefitsBefore(inputs, labor, capacity, n)
            == if n <= f then 0.0 else (n - f) as real * (labor.monthlySavings + capacity.monthlyBenefit)
  {
    if n > 0 {
      BenefitsBeforeClosedForm(inputs, labor, capacity, n - 1);
      var f, margin := FirstBenefitMonth(inputs), labor.monthlySavings + capacity.monthlyBenefit;
      if n - 1 > f {
        assert (n - 1 - f) as real * margin + margin == (n - f) as real * margin;
      }
    }
  }

  /** Cumulative benefits are zero before commissioning and grow by exactly
      the monthly margin in each month from commissioning on. */
  lemma CumulativeBenefitsFromCommissioning(inputs: RoiInputs, labor: LaborSavingsResult,
                                            capacity: CapacityBenefitResult, rows: seq<MonthlyCashflow>, m: nat)
    requires 1.0 + inputs.annualDiscountRate != 0.0
    requires IsCashflowTable(inputs, labor, capacity, rows)
    requires m <= AnalysisHorizon
    ensures var f := FirstBenefitMonth(inputs);
            rows[m].cumulativeBenefits
            == if m < f then 0.0 else (m + 1 - f) as real * (labor.monthlySavings + capacity.monthlyBenefit)
  {
    var row := rows[m];
    assert row == ReferenceRow(inputs, labor, capacity, m);
    assert row.cumulativeBenefits == BenefitsBefore(inputs, labor, capacity, m + 1);
    BenefitsBeforeClosedForm(inputs, labor, capacity, m + 1);
  }

  // ---------------------------------------------------------------------
  // Monotonicity of the running totals.
  // ---------------------------------------------------------------------

  lemma {:induction false} CostsBeforeMonotone(inputs: RoiInputs, a: nat, b: nat)
    requires a <= b
    requires forall m: nat :: m < b ==> InvestmentOutAt(inputs, m) >= 0.0
    ensures CostsBefore(inputs, a) <= CostsBefore(inputs, b)
    decreases b - a
  {
    if a < b {
      CostsBeforeMonotone(inputs, a, b - 1);
    }
  }

  lemma {:induction false} BenefitsBeforeMonotone(inputs: RoiInputs, labor: LaborSavingsResult,
                                                  capacity: CapacityBenefitResult, a: nat, b: nat)
    requires a <= b
    requires forall m: nat :: m < b ==> TotalBenefitAt(inputs, labor, capacity, m) >= 0.0
    ensures BenefitsBefore(inputs, labor, capacity, a) <= BenefitsBefore(inputs, labor, capacity, b)
    decreases b - a
  {
    if a < b {
      BenefitsBeforeMonotone(inputs, labor, capacity, a, b - 1);
    }
  }

  /** Cumulative costs never fall when no month has a negative investment. */
  lemma CumulativeCostsNonDecreasing(inputs: RoiInputs, labor: LaborSavingsResult, capacity: CapacityBenefitResult,
                                     rows: seq<MonthlyCashflow>)
    requires 1.0 + inputs.annualDiscountRate != 0.0
    requires IsCashflowTable(inputs, labor, capacity, rows)
    requires forall i :: 0 <= i <= AnalysisHorizon ==> InvestmentOutAt(inputs, i) >= 0.0
    ensures forall i, j :: 0 <= i <= j < |rows| ==> rows[i].cumulativeCosts <= rows[j].cumulativeCosts
  {
    forall i, j | 0 <= i <= j < |rows|
      ensures rows[i].cumulativeCosts <= rows[j].cumulativeCosts
    {
      CostsBeforeMonotone(inputs, i + 1, j + 1);
    }
  }

  /** Cumulative benefits never fall when no month has a negative benefit. */
  lemma CumulativeBenefitsNonDecreasing(inputs: RoiInputs, labor: LaborSavingsResult, capacity: CapacityBenefitResult,
                                        rows: seq<MonthlyCashflow>)
    requires 1.0 + inputs.annualDiscountRate != 0.0
    requires IsCashflowTable(inputs, labor, capacity, rows)
    requires forall i :: 0 <= i <= AnalysisHorizon ==> TotalBenefitAt(inputs, labor, capacity, i) >= 0.0
    ensures forall i, j :: 0 <= i <= j < |rows| ==> rows[i].cumulativeBenefits <= rows[j].cumulativeBenefits
  {
    forall i, j | 0 <= i <= j < |rows|
      ensures rows[i].cumulativeBenefits <= rows[j].cumulativeBenefits
    {
      BenefitsBeforeMonotone(inputs, labor, capacity, i + 1, j + 1);
    }
  }

  // ---------------------------------------------------------------------
  // Discounting.
  // ---------------------------------------------------------------------

  /** With a non-negative rate the discount factor never grows from one
      month to the next. */
  lemma DiscountFactorNonIncreasing(annualRate: real, m: nat)
    requires annualRate >= 0.0
    ensures DiscountFactor(annualRate, m + 1) <= DiscountFactor(annualRate, m)
  {
    PowGrows(1.0 + annualRate, m);
    ReciprocalShrinks(Pow(1.0 + annualRate, m), Pow(1.0 + annualRate, m + 1));
  }
}
