/**
 * The shipped default inputs worked through the model: the schedule's
 * shape and total, the two monthly benefit figures, the month-by-month
 * investment, and the resulting break-even and payback.
 */
module DefaultScenario {
  import opened Types
  import opened Numeric
  import opened LaborSavings
  import opened CapacityBenefit
  import opened PaymentMilestones
  import opened Cashflow
  import opened CashflowProperties
  import opened Engine
  import opened EngineProperties

  /** Total cost of the default project: equipment, installation and the
      one-time production loss. */
  const DefaultTotalCost: real := 1249675.0

  /** Monthly operating margin of the default project once commissioned. */
  const DefaultMonthlyMargin: real := 94845.44

  /** The default schedule has two optional milestones (inside the 0 to 4
      documented in a comment on the schedule type) and its percentages add
      up to exactly 100%. */
  lemma DefaultScheduleIsComplete()
    ensures |DefaultInputs.paymentSchedule.optionalMilestones| == 2
    ensures ScheduleTotal(DefaultInputs.paymentSchedule) == 1.0
  {
    var ms := DefaultInputs.paymentSchedule.optionalMilestones;
    assert ms[1..][1..] == [];
    assert OptionalTotal(ms) == 0.20 + 0.15;
  }

  /** The default events fall in months 0, 2.8, 5.5, 6.9 and 8 + 1, and are
      disbursed in months 0, 3, 6, 7 and 9, all inside the horizon. */
  lemma DefaultDisbursementMonths()
    ensures var e := Events(DefaultInputs);
            && |e| == 5
            && e[0] == PaymentEvent(0.0, 0.40) && e[1] == PaymentEvent(2.8, 0.20)
            && e[2] == PaymentEvent(5.5, 0.15) && e[3] == PaymentEvent(6.9, 0.15)
            && e[4] == PaymentEvent(9.0, 0.10)
            && Round(e[0].month) == 0 && Round(e[1].month) == 3 && Round(e[2].month) == 6
            && Round(e[3].month) == 7 && Round(e[4].month) == 9
    ensures ScheduleWithinHorizon(DefaultInputs)
  {
    RoundOfInteger(0);
    RoundUnique(2.8, 3);
    RoundUnique(5.5, 6);
    RoundUnique(6.9, 7);
    RoundOfInteger(9);
  }

  /** Default labor savings: two operators over 3 x 8 h x 320 days at a
      burdened rate of 22.48 x 1.35. */
  lemma DefaultLaborSavings()
    ensures var r := CalculateLaborSavings(DefaultInputs);
            && r.annualHoursSaved == 15360.0
            && r.monthlySavings == 2.0 * 3.0 * 8.0 * 320.0 * (22.48 * 1.35) / 12.0
            && r.monthlySavings == 38845.44
  {
  }

  /** Default capacity benefit: 50 extra units per hour over 7680 hours at
      a margin of 1.75 per unit. */
  lemma DefaultCapacityBenefit()
    ensures var r := CalculateCapacityBenefit(DefaultInputs);
            && r.deltaUnitsPerHour == 50.0
            && r.operatingHoursPerYear == 7680.0
            && r.monthlyBenefit == 50.0 * 7680.0 * 1.75 / 12.0
            && r.monthlyBenefit == 56000.0
  {
  }

  /** The default events due in month `m`: exactly one event in each of
      months 0, 3, 6, 7 and 9, none in any other month. */
  lemma DefaultDueIn(m: int)
    ensures var e := Events(DefaultInputs);
            DueIn(e, m) == if m == 0 then [e[0]] else if m == 3 then [e[1]] else if m == 6 then [e[2]]
                           else if m == 7 then [e[3]] else if m == 9 then [e[4]] else []
  {
    DefaultDisbursementMonths();
    var e := Events(DefaultInputs);
    var s1, s2, s3, s4 := e[1..], e[2..], e[3..], e[4..];
    assert s4[1..] == [];
    assert DueIn(s4, m) == if m == 9 then [e[4]] else [];
    assert s3[1..] == s4;
    assert DueIn(s3, m) == if m == 7 then [e[3]] + DueIn(s4, m) else DueIn(s4, m);
    assert s2[1..] == s3;
    assert DueIn(s2, m) == if m == 6 then [e[2]] + DueIn(s3, m) else DueIn(s3, m);
    assert s1[1..] == s2;
    assert DueIn(s1, m) == if m == 3 then [e[1]] + DueIn(s2, m) else DueIn(s2, m);
    assert DueIn(e, m) == if m == 0 then [e[0]] + DueIn(s1, m) else DueIn(s1, m);
  }

  /** Investment paid in each month of the default project. Installation
      and the one-time loss both land in month 8. */
  lemma DefaultInvestmentByMonth(m: int)
    ensures InvestmentOutAt(DefaultInputs, m)
         == if m == 0 then 455790.0
            else if m == 3 then 227895.0
            else if m == 6 || m == 7 then 170921.25
            else if m == 8 then 76200.0 + 34000.0
            else if m == 9 then 113947.5
            else 0.0
  {
    DefaultDisbursementMonths();
    DefaultDueIn(m);
    var e := Events(DefaultInputs);
    var due := DueIn(e, m);
    if |due| == 1 {
      assert due[1..] == [];
    }
  }

  /** Cumulative costs through month n - 1 of the default project: the last
      payment falls in month 9, after which the total stays at 1,249,675. */
  lemma {:induction false} DefaultCostsBefore(n: nat)
    ensures CostsBefore(DefaultInputs, n)
         == if n == 0 then 0.0
            else if n <= 3 then 455790.0
            else if n <= 6 then 683685.0
            else if n == 7 then 854606.25
            else if n == 8 then 1025527.5
            else if n == 9 then 1135727.5
            else DefaultTotalCost
  {
    if n > 0 {
      DefaultCostsBefore(n - 1);
      DefaultInvestmentByMonth(n - 1);
    }
  }

  /** Benefits accrue from month 8, the commissioning month. */
  lemma DefaultFirstBenefitMonth()
    ensures FirstBenefitMonth(DefaultInputs) == 8
  {
    assert Commissioned(DefaultInputs, 8);
    assert !Commissioned(DefaultInputs, 7);
  }

  /** Cumulative net of the default project through month `k`: negative
      up to month 20, non-negative from month 21 on. */
  lemma DefaultNetThrough(k: nat)
    ensures var labor, capacity := CalculateLaborSavings(DefaultInputs), CalculateCapacityBenefit(DefaultInputs);
            BenefitsBefore(DefaultInputs, labor, capacity, k + 1) - CostsBefore(DefaultInputs, k + 1) >= 0.0
            <==> k >= 21
  {
    var labor, capacity := CalculateLaborSavings(DefaultInputs), CalculateCapacityBenefit(DefaultInputs);
    DefaultLaborSavings();
    DefaultCapacityBenefit();
    DefaultFirstBenefitMonth();
    DefaultCostsBefore(k + 1);
    BenefitsBeforeClosedForm(DefaultInputs, labor, capacity, k + 1);
    var benefits := BenefitsBefore(DefaultInputs, labor, capacity, k + 1);
    if k < 8 {
      assert benefits == 0.0;
    } else {
      assert benefits == (k - 7) as real * DefaultMonthlyMargin;
      if k >= 21 {
        assert benefits >= 14.0 * DefaultMonthlyMargin;
      } else {
        assert benefits <= 13.0 * DefaultMonthlyMargin;
      }
    }
  }

  /** Benefits earned before month n by the default project. */
  lemma DefaultBenefitsBefore(n: nat)
    ensures BenefitsBefore(DefaultInputs, CalculateLaborSavings(DefaultInputs), CalculateCapacityBenefit(DefaultInputs), n)
         == if n <= 8 then 0.0 else (n - 8) as real * DefaultMonthlyMargin
  {
    DefaultLaborSavings();
    DefaultCapacityBenefit();
    DefaultFirstBenefitMonth();
    BenefitsBeforeClosedForm(DefaultInputs, CalculateLaborSavings(DefaultInputs), CalculateCapacityBenefit(DefaultInputs), n);
  }

  /** The default project with any discount rate: every other input is
      the shipped default. The undiscounted figures do not depend on the
      rate. */
  predicate IsDefaultProject(inputs: RoiInputs)
  {
    inputs == DefaultInputs.(annualDiscountRate := inputs.annualDiscountRate)
  }

  /** The default table month by month: costs fully paid by month 9,
      benefits of 94,845.44 per month from month 8, and a cumulative net
      that is negative exactly up to month 20. */
  lemma DefaultTable(inputs: RoiInputs, rows: seq<MonthlyCashflow>)
    requires IsDefaultProject(inputs)
    requires 1.0 + inputs.annualDiscountRate != 0.0
    requires IsCashflowTable(inputs, CalculateLaborSavings(inputs), CalculateCapacityBenefit(inputs), rows)
    ensures forall k :: 9 <= k < |rows| ==> rows[k].cumulativeCosts == DefaultTotalCost
    ensures rows[8].cumulativeCosts < DefaultTotalCost
    ensures forall k :: 0 <= k < |rows| ==>
              rows[k].cumulativeBenefits == if k < 8 then 0.0 else (k - 7) as real * DefaultMonthlyMargin
    ensures forall k :: 0 <= k < |rows| ==> (rows[k].cumulativeNet >= 0.0 <==> k >= 21)
  {
    var labor, capacity := CalculateLaborSavings(inputs), CalculateCapacityBenefit(inputs);
    var defaultLabor, defaultCapacity := CalculateLaborSavings(DefaultInputs), CalculateCapacityBenefit(DefaultInputs);
    assert labor == defaultLabor && capacity == defaultCapacity;
    assert SameCosts(inputs, DefaultInputs);
    forall k | 0 <= k < |rows|
      ensures k >= 9 ==> rows[k].cumulativeCosts == DefaultTotalCost
      ensures k == 8 ==> rows[k].cumulativeCosts < DefaultTotalCost
      ensures rows[k].cumulativeBenefits == if k < 8 then 0.0 else (k - 7) as real * DefaultMonthlyMargin
      ensures rows[k].cumulativeNet >= 0.0 <==> k >= 21
    {
      assert rows[k] == ReferenceRow(inputs, labor, capacity, k);
      CostsDependOnCostFieldsOnly(inputs, DefaultInputs, k + 1);
      BenefitsDominated(inputs, labor, capacity, DefaultInputs, defaultLabor, defaultCapacity, k + 1);
      BenefitsDominated(DefaultInputs, defaultLabor, defaultCapacity, inputs, labor, capacity, k + 1);
      DefaultCostsBefore(k + 1);
      DefaultBenefitsBefore(k + 1);
      DefaultNetThrough(k);
    }
  }

  /** At any discount rate, the default project breaks even in month 21. */
  lemma DefaultBreakEvenMonth(inputs: RoiInputs)
    requires IsDefaultProject(inputs)
    requires 1.0 + inputs.annualDiscountRate != 0.0
    ensures CalculateRoi(inputs).breakEvenProjectMonth == Some(21)
  {
    var r := CalculateRoi(inputs);
    var rows := r.cashflows;
    assert forall j :: 0 <= j < |rows| ==> (rows[j].cumulativeNet >= 0.0 <==> j >= 21) by {
      DefaultTable(inputs, rows);
    }
    FirstBreakEvenIsWhereNetTurns(rows, r.breakEvenProjectMonth, 21);
  }

  /** Break-even comes 13 months after commissioning, so the default
      project pays back within 24 months. */
  lemma DefaultPayback(inputs: RoiInputs)
    requires IsDefaultProject(inputs)
    requires 1.0 + inputs.annualDiscountRate != 0.0
    ensures CalculateRoi(inputs).breakEvenAfterCommissioning == Some(13.0)
    ensures CalculateRoi(inputs).paybackWithin24Months == Yes
  {
    DefaultBreakEvenMonth(inputs);
  }

  /** The summary figures of the default project. */
  lemma DefaultSummary(inputs: RoiInputs)
    requires IsDefaultProject(inputs)
    requires 1.0 + inputs.annualDiscountRate != 0.0
    ensures var r := CalculateRoi(inputs);
            && r.totalInstalledCost == 1215675.0
            && r.monthlyLaborSavings == 38845.44
            && r.monthlyCapacityBenefit == 56000.0
            && r.monthlyOperatingMargin == DefaultMonthlyMargin
            && r.operatingHoursPerYear == 7680.0
  {
    DefaultLaborSavings();
    DefaultCapacityBenefit();
    assert CalculateLaborSavings(inputs) == CalculateLaborSavings(DefaultInputs);
    assert CalculateCapacityBenefit(inputs) == CalculateCapacityBenefit(DefaultInputs);
  }
}
