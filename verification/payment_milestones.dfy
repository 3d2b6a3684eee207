/**
 * Expansion of the structured payment schedule into an ordered list of
 * (month, fraction of equipment cost) disbursement events.
 */
module PaymentMilestones {
  import opened Types

  datatype PaymentEvent = PaymentEvent(month: real, percentage: real)

  /** Month of the final payment: commissioning plus net terms in 30-day months. */
  function FinalPaymentMonth(commissioningMonth: real, terms: FinalPaymentTerms): (r: real)
    ensures terms == 30 <==> r == commissioningMonth + 1.0
    ensures terms == 60 <==> r == commissioningMonth + 2.0
  {
    commissioningMonth + terms as real / 30.0
  }

  function OptionalEvents(milestones: seq<OptionalMilestone>): seq<PaymentEvent>
  {
    seq(|milestones|, i requires 0 <= i < |milestones| =>
      PaymentEvent(milestones[i].month, milestones[i].percentage))
  }

  /** Down-payment at month 0, the optional milestones verbatim and in order,
      the pre-shipment payment, and the final payment after commissioning.
      Percentages are taken as given; their total is not checked. */
  function BuildPaymentMilestones(schedule: PaymentSchedule, commissioningMonth: real): (r: seq<PaymentEvent>)
    ensures |r| == |schedule.optionalMilestones| + 3
    ensures r[0] == PaymentEvent(0.0, schedule.downpaymentPercent)
    ensures forall i :: 0 <= i < |schedule.optionalMilestones| ==>
              r[i + 1] == PaymentEvent(schedule.optionalMilestones[i].month,
                                       schedule.optionalMilestones[i].percentage)
    ensures r[|r| - 2] == PaymentEvent(schedule.preShipmentMonth, schedule.preShipmentPercent)
    ensures r[|r| - 1] == PaymentEvent(FinalPaymentMonth(commissioningMonth, schedule.finalPaymentTerms),
                                       schedule.finalPaymentPercent)
  {
    [PaymentEvent(0.0, schedule.downpaymentPercent)]
    + OptionalEvents(schedule.optionalMilestones)
    + [PaymentEvent(schedule.preShipmentMonth, schedule.preShipmentPercent),
       PaymentEvent(FinalPaymentMonth(commissioningMonth, schedule.finalPaymentTerms),
                    schedule.finalPaymentPercent)]
  }

  /** Sum of the percentages of a list of events. */
  function TotalPercentage(events: seq<PaymentEvent>): real
  {
    if |events| == 0 then 0.0 else events[0].percentage + TotalPercentage(events[1..])
  }

  /** Sum of the percentages of the optional milestones. */
  function OptionalTotal(milestones: seq<OptionalMilestone>): real
  {
    if |milestones| == 0 then 0.0 else milestones[0].percentage + OptionalTotal(milestones[1..])
  }

  /** The schedule's percentages as the user entered them (the figure the
      input form compares against 100%). */
  function ScheduleTotal(schedule: PaymentSchedule): real
  {
    schedule.downpaymentPercent + OptionalTotal(schedule.optionalMilestones)
    + schedule.preShipmentPercent + schedule.finalPaymentPercent
  }

  lemma {:induction false} TotalPercentageAppend(a: seq<PaymentEvent>, b: seq<PaymentEvent>)
    ensures TotalPercentage(a + b) == TotalPercentage(a) + TotalPercentage(b)
    decreases |a|
  {
    if |a| > 0 {
      assert (a + b)[1..] == a[1..] + b;
      TotalPercentageAppend(a[1..], b);
    } else {
      assert a + b == b;
    }
  }

  lemma {:induction false} OptionalEventsTotal(milestones: seq<OptionalMilestone>)
    ensures TotalPercentage(OptionalEvents(milestones)) == OptionalTotal(milestones)
    decreases |milestones|
  {
    if |milestones| > 0 {
      assert OptionalEvents(milestones)[1..] == OptionalEvents(milestones[1..]);
      OptionalEventsTotal(milestones[1..]);
    }
  }

  /** Expansion neither drops nor invents money: the events carry exactly
      the schedule's percentages, whatever they add up to. */
  lemma {:induction false} ExpansionKeepsTotal(schedule: PaymentSchedule, commissioningMonth: real)
    ensures TotalPercentage(BuildPaymentMilestones(schedule, commissioningMonth)) == ScheduleTotal(schedule)
  {
    var head := [PaymentEvent(0.0, schedule.downpaymentPercent)];
    var middle := OptionalEvents(schedule.optionalMilestones);
    var tail := [PaymentEvent(schedule.preShipmentMonth, schedule.preShipmentPercent),
                 PaymentEvent(FinalPaymentMonth(commissioningMonth, schedule.finalPaymentTerms),
                              schedule.finalPaymentPercent)];
    TotalPercentageAppend(head + middle, tail);
    TotalPercentageAppend(head, middle);
    OptionalEventsTotal(schedule.optionalMilestones);
    assert TotalPercentage(head) == schedule.downpaymentPercent;
    assert tail[1..][1..] == [];
    assert TotalPercentage(tail) == schedule.preShipmentPercent + schedule.finalPaymentPercent;
  }
}
