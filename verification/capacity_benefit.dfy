/**
 * Monthly contribution-margin benefit from a change in throughput.
 */
module CapacityBenefit {
  import opened Types

  /** Hours the line runs per year. */
  function OperatingHoursPerYear(inputs: RoiInputs): real
  {
    inputs.shiftsPerDay * inputs.hoursPerShift * inputs.operatingDaysPerYear
  }

  /** Throughput delta, operating hours, extra units, and the yearly and
      monthly benefit. A proposed rate below the baseline is accepted and
      gives a negative benefit. */
  function CalculateCapacityBenefit(inputs: RoiInputs): (r: CapacityBenefitResult)
    ensures r.deltaUnitsPerHour + inputs.baselineUnitsPerHour == inputs.proposedUnitsPerHour
    ensures r.operatingHoursPerYear == OperatingHoursPerYear(inputs)
    ensures r.incrementalUnitsPerYear == r.deltaUnitsPerHour * r.operatingHoursPerYear
    ensures r.annualBenefit == r.incrementalUnitsPerYear * inputs.contributionMarginPerUnit
    ensures r.monthlyBenefit * 12.0 == r.annualBenefit
  {
    var deltaUnitsPerHour := inputs.proposedUnitsPerHour - inputs.baselineUnitsPerHour;
    var operatingHoursPerYear := OperatingHoursPerYear(inputs);
    var incrementalUnitsPerYear := deltaUnitsPerHour * operatingHoursPerYear;
    var annualBenefit := incrementalUnitsPerYear * inputs.contributionMarginPerUnit;
    var monthlyBenefit := annualBenefit / 12.0;
    CapacityBenefitResult(deltaUnitsPerHour, operatingHoursPerYear, incrementalUnitsPerYear,
                          annualBenefit, monthlyBenefit)
  }

  /** Monthly benefit per unit-per-hour of extra throughput. */
  function BenefitPerUnitRate(inputs: RoiInputs): real
  {
    OperatingHoursPerYear(inputs) * inputs.contributionMarginPerUnit / 12.0
  }

  /** The benefit is linear in the throughput delta. */
  lemma CapacityBenefitLinear(inputs: RoiInputs)
    ensures CalculateCapacityBenefit(inputs).monthlyBenefit
         == (inputs.proposedUnitsPerHour - inputs.baselineUnitsPerHour) * BenefitPerUnitRate(inputs)
  {
    var dlt, h, m := inputs.proposedUnitsPerHour - inputs.baselineUnitsPerHour,
                     OperatingHoursPerYear(inputs), inputs.contributionMarginPerUnit;
    assert dlt * h * m == dlt * (h * m);
  }

  /** With positive operating hours and margin, the benefit has the sign of
      the throughput delta: positive, zero (proposed equals baseline) or
      negative. */
  lemma CapacityBenefitSign(inputs: RoiInputs)
    requires OperatingHoursPerYear(inputs) > 0.0 && inputs.contributionMarginPerUnit > 0.0
    ensures var b := CalculateCapacityBenefit(inputs).monthlyBenefit;
            && (b > 0.0 <==> inputs.proposedUnitsPerHour > inputs.baselineUnitsPerHour)
            && (b == 0.0 <==> inputs.proposedUnitsPerHour == inputs.baselineUnitsPerHour)
            && (b < 0.0 <==> inputs.proposedUnitsPerHour < inputs.baselineUnitsPerHour)
  {
    CapacityBenefitLinear(inputs);
    var k := BenefitPerUnitRate(inputs);
    assert k > 0.0 by {
      assert OperatingHoursPerYear(inputs) * inputs.contributionMarginPerUnit > 0.0;
    }
    var dlt := inputs.proposedUnitsPerHour - inputs.baselineUnitsPerHour;
    if dlt > 0.0 {
      assert dlt * k > 0.0;
    } else if dlt < 0.0 {
      assert dlt * k < 0.0;
    }
  }

  /** Lowering the proposed throughput never raises the benefit, all else
      equal, when hours and margin are non-negative. */
  lemma CapacityBenefitMonotone(inputs: RoiInputs, lowerProposed: real)
    requires OperatingHoursPerYear(inputs) >= 0.0 && inputs.contributionMarginPerUnit >= 0.0
    requires lowerProposed <= inputs.proposedUnitsPerHour
    ensures CalculateCapacityBenefit(inputs.(proposedUnitsPerHour := lowerProposed)).monthlyBenefit
         <= CalculateCapacityBenefit(inputs).monthlyBenefit
  {
    var lower := inputs.(proposedUnitsPerHour := lowerProposed);
    CapacityBenefitLinear(inputs);
    CapacityBenefitLinear(lower);
    var k := BenefitPerUnitRate(inputs);
    assert BenefitPerUnitRate(lower) == k;
    assert k >= 0.0 by {
      assert OperatingHoursPerYear(inputs) * inputs.contributionMarginPerUnit >= 0.0;
    }
    var dHigh := inputs.proposedUnitsPerHour - inputs.baselineUnitsPerHour;
    var dLow := lowerProposed - inputs.baselineUnitsPerHour;
    assert dHigh * k - dLow * k == (dHigh - dLow) * k;
  }
}
