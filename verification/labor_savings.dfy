/**
 * Monthly labor-cost savings from reducing the labor needed per shift.
 */
module LaborSavings {
  import opened Types

  /** Hourly wage including benefits and taxes. */
  function BurdenedRate(inputs: RoiInputs): real
  {
    inputs.baseWage * inputs.burdenMultiplier
  }

  /** Labor hours, savings per year and savings per month. No input is
      rejected: a negative reduction gives negative savings. */
  function CalculateLaborSavings(inputs: RoiInputs): (r: LaborSavingsResult)
    ensures r.annualHoursSaved
         == inputs.laborUnitsReduced
          * (inputs.shiftsPerDay * inputs.hoursPerShift * inputs.operatingDaysPerYear)
    ensures r.annualSavings == r.annualHoursSaved * BurdenedRate(inputs)
    ensures r.monthlySavings * 12.0 == r.annualSavings
  {
    var annualHoursSaved :=
      inputs.laborUnitsReduced * inputs.shiftsPerDay * inputs.hoursPerShift * inputs.operatingDaysPerYear;
    var annualSavings := annualHoursSaved * BurdenedRate(inputs);
    var monthlySavings := annualSavings / 12.0;
    LaborSavingsResult(annualHoursSaved, annualSavings, monthlySavings)
  }

  /** Monthly savings per unit of labor reduced. */
  function SavingsPerUnit(inputs: RoiInputs): real
  {
    inputs.shiftsPerDay * inputs.hoursPerShift * inputs.operatingDaysPerYear * BurdenedRate(inputs) / 12.0
  }

  /** Savings are linear in the labor reduction. */
  lemma LaborSavingsLinear(inputs: RoiInputs)
    ensures CalculateLaborSavings(inputs).monthlySavings == inputs.laborUnitsReduced * SavingsPerUnit(inputs)
  {
    var s, h, d := inputs.shiftsPerDay, inputs.hoursPerShift, inputs.operatingDaysPerYear;
    var u, b := inputs.laborUnitsReduced, BurdenedRate(inputs);
    assert u * s * h * d * b == u * (s * h * d * b);
  }

  /** Reducing no labor saves nothing, in all three figures. */
  lemma NoReductionNoSavings(inputs: RoiInputs)
    requires inputs.laborUnitsReduced == 0.0
    ensures CalculateLaborSavings(inputs) == LaborSavingsResult(0.0, 0.0, 0.0)
  {
  }

  /** With non-negative operating profile, wage and burden, the sign of the
      savings follows the sign of the reduction; a negative reduction is
      accepted and costs money when every factor is positive. */
  lemma LaborSavingsSign(inputs: RoiInputs)
    requires inputs.shiftsPerDay >= 0.0 && inputs.hoursPerShift >= 0.0 && inputs.operatingDaysPerYear >= 0.0
    requires inputs.baseWage >= 0.0 && inputs.burdenMultiplier >= 0.0
    ensures inputs.laborUnitsReduced >= 0.0 ==> CalculateLaborSavings(inputs).monthlySavings >= 0.0
    ensures inputs.laborUnitsReduced < 0.0 && SavingsPerUnit(inputs) > 0.0
        ==> CalculateLaborSavings(inputs).monthlySavings < 0.0
  {
    PerUnitNonNegative(inputs);
    LaborSavingsLinear(inputs);
    var u, k := inputs.laborUnitsReduced, SavingsPerUnit(inputs);
    if u >= 0.0 {
      assert u * k >= 0.0;
    } else if k > 0.0 {
      assert u * k < 0.0;
    }
  }

  /** Reducing more labor never saves less, all else equal. */
  lemma LaborSavingsMonotone(inputs: RoiInputs, moreUnits: real)
    requires inputs.shiftsPerDay >= 0.0 && inputs.hoursPerShift >= 0.0 && inputs.operatingDaysPerYear >= 0.0
    requires inputs.baseWage >= 0.0 && inputs.burdenMultiplier >= 0.0
    requires inputs.laborUnitsReduced <= moreUnits
    ensures CalculateLaborSavings(inputs).monthlySavings
         <= CalculateLaborSavings(inputs.(laborUnitsReduced := moreUnits)).monthlySavings
  {
    var more := inputs.(laborUnitsReduced := moreUnits);
    PerUnitNonNegative(inputs);
    LaborSavingsLinear(inputs);
    LaborSavingsLinear(more);
    assert SavingsPerUnit(more) == SavingsPerUnit(inputs);
    var k := SavingsPerUnit(inputs);
    assert moreUnits * k - inputs.laborUnitsReduced * k == (moreUnits - inputs.laborUnitsReduced) * k;
  }

  lemma PerUnitNonNegative(inputs: RoiInputs)
    requires inputs.shiftsPerDay >= 0.0 && inputs.hoursPerShift >= 0.0 && inputs.operatingDaysPerYear >= 0.0
    requires inputs.baseWage >= 0.0 && inputs.burdenMultiplier >= 0.0
    ensures SavingsPerUnit(inputs) >= 0.0
  {
    var s, h, d := inputs.shiftsPerDay, inputs.hoursPerShift, inputs.operatingDaysPerYear;
    assert s * h >= 0.0;
    assert s * h * d >= 0.0;
    assert BurdenedRate(inputs) >= 0.0;
    assert s * h * d * BurdenedRate(inputs) >= 0.0;
  }
}
