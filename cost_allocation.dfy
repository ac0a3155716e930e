/**
  Working-time and cost allocation of bva.py: calculate_alert_costs and
  calculate_incident_costs, which are the same algorithm applied to the
  alert and the incident inputs.
 */
module CostAllocation {

  /** The working-hours configuration shared by all FTEs. */
  datatype WorkCalendar = WorkCalendar(
    hoursPerDay: real,
    daysPerWeek: real,
    weeksPerYear: real,
    holidaySickDays: real)

  /** Working hours of one FTE per year: working days times hours per day. */
  function AnnualWorkingHours(c: WorkCalendar): real
  {
    (c.weeksPerYear * c.daysPerWeek - c.holidaySickDays) * c.hoursPerDay
  }

  /** The four values the allocation returns, in the order calculate_alert_costs returns them. */
  datatype Allocation = Allocation(
    costPerUnit: real,
    totalHandlingCost: real,
    fteTimeFraction: real,
    workingHoursPerFte: real)

  const NoAllocation := Allocation(0.0, 0.0, 0.0, 0.0)

  /**
    Fully-loaded cost of handling one unit of work (an alert or an incident)
    derived from headcount economics. Zero volume or zero FTEs yields all
    zeros. The FTE time fraction is not clamped: it exceeds 1 when the
    triage workload exceeds the available FTE hours.
   */
  function AllocateCost(volume: real, ftes: real, triageMinutes: real, salary: real, cal: WorkCalendar): (a: Allocation)
    ensures volume == 0.0 || ftes == 0.0 ==> a == NoAllocation
    ensures volume != 0.0 && ftes != 0.0 ==> a.workingHoursPerFte == AnnualWorkingHours(cal)
    ensures volume != 0.0 && ftes != 0.0 && ftes * AnnualWorkingHours(cal) > 0.0 ==>
              a.fteTimeFraction * (ftes * AnnualWorkingHours(cal)) == volume * triageMinutes / 60.0
    ensures ftes * AnnualWorkingHours(cal) <= 0.0 ==>
              a.fteTimeFraction == 0.0 && a.totalHandlingCost == 0.0 && a.costPerUnit == 0.0
    ensures a.totalHandlingCost == ftes * salary * a.fteTimeFraction
    ensures volume >= 0.0 ==> a.costPerUnit * volume == a.totalHandlingCost
    ensures volume < 0.0 ==> a.costPerUnit == 0.0
  {
    if volume == 0.0 || ftes == 0.0 then NoAllocation
    else
      var totalHours := volume * triageMinutes / 60.0;
      var hoursPerFte := AnnualWorkingHours(cal);
      var available := ftes * hoursPerFte;
      var fraction := if available > 0.0 then totalHours / available else 0.0;
      var totalCost := ftes * salary * fraction;
      var perUnit := if volume > 0.0 then totalCost / volume else 0.0;
      Allocation(perUnit, totalCost, fraction, hoursPerFte)
  }

  /**
    Whenever FTE hours are available, the cost per unit is the triage time
    in hours times the salary per working hour: it does not depend on how
    many FTEs share the work.
   */
  lemma CostPerUnitClosedForm(volume: real, ftes: real, triageMinutes: real, salary: real, cal: WorkCalendar)
    requires volume > 0.0 && ftes != 0.0 && ftes * AnnualWorkingHours(cal) > 0.0
    ensures AnnualWorkingHours(cal) != 0.0
    ensures AllocateCost(volume, ftes, triageMinutes, salary, cal).costPerUnit
            == (triageMinutes / 60.0) * salary / AnnualWorkingHours(cal)
  {
    var h := AnnualWorkingHours(cal);
    var a := AllocateCost(volume, ftes, triageMinutes, salary, cal);
    var f := a.fteTimeFraction;
    assert h != 0.0;
    assert f * (ftes * h) == volume * triageMinutes / 60.0;
    calc {
      a.costPerUnit * volume * h;
      a.totalHandlingCost * h;
      ftes * salary * f * h;
      salary * (f * (ftes * h));
      salary * (volume * triageMinutes / 60.0);
      volume * ((triageMinutes / 60.0) * salary / h) * h;
    }
    CancelPositive(a.costPerUnit, (triageMinutes / 60.0) * salary / h, volume, h);
  }

  /** Cancels the non-zero factor v * h from both sides of an equation (one nonlinear step kept apart). */
  lemma CancelPositive(x: real, y: real, v: real, h: real)
    requires v > 0.0 && h != 0.0 && x * v * h == v * y * h
    ensures x == y
  {
    assert (x - y) * (v * h) == 0.0;
  }

  /** Non-negative inputs give non-negative costs and fraction. */
  lemma AllocationNonNegative(volume: real, ftes: real, triageMinutes: real, salary: real, cal: WorkCalendar)
    requires volume >= 0.0 && ftes >= 0.0 && triageMinutes >= 0.0 && salary >= 0.0
    ensures var a := AllocateCost(volume, ftes, triageMinutes, salary, cal);
            a.costPerUnit >= 0.0 && a.totalHandlingCost >= 0.0 && a.fteTimeFraction >= 0.0
  {
    var a := AllocateCost(volume, ftes, triageMinutes, salary, cal);
    if volume != 0.0 && ftes != 0.0 && ftes * AnnualWorkingHours(cal) > 0.0 {
      var available := ftes * AnnualWorkingHours(cal);
      assert a.fteTimeFraction == volume * triageMinutes / 60.0 / available;
      assert volume * triageMinutes >= 0.0;
      assert ftes * salary >= 0.0;
      assert a.totalHandlingCost == (ftes * salary) * a.fteTimeFraction;
    }
  }

  /** The standard calendar: 52 weeks of 5 days, 25 days off, 8 hours a day. */
  const StandardCalendar := WorkCalendar(8.0, 5.0, 52.0, 25.0)

  /**
    1.2 million alerts a year at 25 minutes each with 10 FTEs on a 50,000
    salary: 1,880 working hours per FTE, a time fraction far above 1 (the
    workload is 26.6 times the available hours), and a cost per alert of
    25/60 * 50,000 / 1,880.
   */
  lemma StandardAlertExample()
    ensures AnnualWorkingHours(StandardCalendar) == 1880.0
    ensures var a := AllocateCost(1200000.0, 10.0, 25.0, 50000.0, StandardCalendar);
            a.workingHoursPerFte == 1880.0 && a.fteTimeFraction > 1.0
            && a.costPerUnit == (25.0 / 60.0) * 50000.0 / 1880.0
            && a.totalHandlingCost == 1200000.0 * a.costPerUnit
  {
    CostPerUnitClosedForm(1200000.0, 10.0, 25.0, 50000.0, StandardCalendar);
  }
}
