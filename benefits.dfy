/**
  The baseline benefit calculator of bva.py: reduction and triage savings
  for alerts and incidents, major-incident MTTR savings, the total annual
  benefits, and the equivalent-FTE figure derived from the savings.
 */
module Benefits {
  import opened CostAllocation

  /** The inputs of one kind of work (alerts or incidents). Percentages are 0..100. */
  datatype Workload = Workload(
    volume: real,
    ftes: real,
    triageMinutes: real,
    salary: real,
    reductionPct: real,
    triageSavedPct: real)

  /** Major-incident (Sev1) inputs. */
  datatype MajorIncidents = MajorIncidents(
    volume: real,
    costPerHour: real,
    mttrHours: real,
    mttrImprovementPct: real)

  /** Annual amounts that are added to the benefits as entered. */
  datatype AdditionalBenefits = AdditionalBenefits(
    toolSavings: real,
    peopleEfficiency: real,
    fteAvoidance: real,
    slaPenaltyAvoidance: real,
    revenueGrowth: real,
    capexSavings: real,
    opexSavings: real)

  /** Every operational input the baseline needs. */
  datatype BaselineInputs = BaselineInputs(
    calendar: WorkCalendar,
    alerts: Workload,
    incidents: Workload,
    major: MajorIncidents,
    additional: AdditionalBenefits)

  /** The savings line items of one kind of work. */
  datatype WorkloadSavings = WorkloadSavings(
    avoidedUnits: real,
    remainingUnits: real,
    reductionSavings: real,
    remainingHandlingCost: real,
    triageSavings: real)

  /** Everything the baseline computation produces. */
  datatype Baseline = Baseline(
    alertCosts: Allocation,
    incidentCosts: Allocation,
    alertSavings: WorkloadSavings,
    incidentSavings: WorkloadSavings,
    majorIncidentSavings: real,
    totalAnnualBenefits: real)

  /**
    Reduction savings on the avoided units, then triage savings on the cost
    of the units that remain: the two percentages do not simply add up.
   */
  function ReductionAndTriage(volume: real, costPerUnit: real, reductionPct: real, triageSavedPct: real): (s: WorkloadSavings)
    ensures s.avoidedUnits + s.remainingUnits == volume
    ensures s.reductionSavings + s.remainingHandlingCost == volume * costPerUnit
    ensures 0.0 <= reductionPct <= 100.0 && volume >= 0.0 ==> 0.0 <= s.avoidedUnits <= volume
    ensures 0.0 <= triageSavedPct <= 100.0 && s.remainingHandlingCost >= 0.0 ==>
              0.0 <= s.triageSavings <= s.remainingHandlingCost
    ensures triageSavedPct == 0.0 ==> s.triageSavings == 0.0
  {
    var reduction := reductionPct / 100.0;
    var avoided := volume * reduction;
    var remaining := volume - avoided;
    var remainingCost := remaining * costPerUnit;
    var saved := triageSavedPct / 100.0;
    var triage := remainingCost * saved;
    assert avoided * costPerUnit + remainingCost == volume * costPerUnit;
    ScaleByFraction(volume, reduction);
    ScaleByFraction(remainingCost, saved);
    WorkloadSavings(avoided, remaining, avoided * costPerUnit, remainingCost, triage)
  }

  /**
    The savings line items as percentages: the reduction percentage r of the
    volume and of its handling cost, then the triage percentage t of the
    cost of what remains. Together they save r + t - r * t of the handling
    cost: the percentages do not simply add.
   */
  lemma ReductionAndTriageIs(volume: real, costPerUnit: real, reductionPct: real, triageSavedPct: real)
    ensures var s := ReductionAndTriage(volume, costPerUnit, reductionPct, triageSavedPct);
            var r, t, cost := reductionPct / 100.0, triageSavedPct / 100.0, volume * costPerUnit;
            && s.avoidedUnits == r * volume
            && s.remainingUnits == (1.0 - r) * volume
            && s.reductionSavings == r * cost
            && s.remainingHandlingCost == (1.0 - r) * cost
            && s.triageSavings == t * ((1.0 - r) * cost)
            && s.reductionSavings + s.triageSavings == (r + t - r * t) * cost
  {
  }

  /** Taking a fraction in [0, 1] of a non-negative amount gives at most that amount. */
  lemma ScaleByFraction(x: real, p: real)
    ensures x >= 0.0 && 0.0 <= p <= 1.0 ==> 0.0 <= x * p <= x
  {
    if x >= 0.0 && 0.0 <= p <= 1.0 {
      assert x - x * p == x * (1.0 - p);
      assert x * (1.0 - p) >= 0.0;
    }
  }

  /** With in-range inputs, every savings item of a workload is non-negative. */
  lemma ReductionAndTriageNonNegative(volume: real, costPerUnit: real, reductionPct: real, triageSavedPct: real)
    requires volume >= 0.0 && costPerUnit >= 0.0
    requires 0.0 <= reductionPct <= 100.0 && 0.0 <= triageSavedPct <= 100.0
    ensures var s := ReductionAndTriage(volume, costPerUnit, reductionPct, triageSavedPct);
            s.reductionSavings >= 0.0 && s.remainingHandlingCost >= 0.0 && s.triageSavings >= 0.0
  {
    var s := ReductionAndTriage(volume, costPerUnit, reductionPct, triageSavedPct);
    assert s.remainingUnits >= 0.0;
    assert s.remainingHandlingCost == s.remainingUnits * costPerUnit;
  }

  /**
    MTTR savings: hours saved per major incident times the volume times the
    cost per hour. With in-range inputs it lies between zero and the full
    yearly cost of major-incident downtime.
   */
  function MajorIncidentSavings(m: MajorIncidents): (r: real)
    ensures m.mttrImprovementPct == 0.0 ==> r == 0.0
    ensures m.volume >= 0.0 && m.costPerHour >= 0.0 && m.mttrHours >= 0.0 && 0.0 <= m.mttrImprovementPct <= 100.0 ==>
              0.0 <= r <= m.volume * m.mttrHours * m.costPerHour
  {
    var hoursSavedPerIncident := (m.mttrImprovementPct / 100.0) * m.mttrHours;
    var totalHoursSaved := m.volume * hoursSavedPerIncident;
    var full := m.volume * m.mttrHours * m.costPerHour;
    assert totalHoursSaved * m.costPerHour == (m.mttrImprovementPct / 100.0) * full;
    ScaleByFraction(full, m.mttrImprovementPct / 100.0);
    totalHoursSaved * m.costPerHour
  }

  /** The MTTR savings are the improvement percentage of the full yearly cost of major-incident downtime. */
  lemma MajorIncidentSavingsIs(m: MajorIncidents)
    ensures MajorIncidentSavings(m) == (m.mttrImprovementPct / 100.0) * (m.volume * m.mttrHours * m.costPerHour)
  {
  }

  /** The seven additional benefit amounts together. */
  function AdditionalTotal(a: AdditionalBenefits): real
  {
    a.toolSavings + a.peopleEfficiency + a.fteAvoidance + a.slaPenaltyAvoidance
      + a.revenueGrowth + a.capexSavings + a.opexSavings
  }

  /** The savings that come from time saved on alerts, incidents and major incidents. */
  function OperationalSavings(b: Baseline): real
  {
    b.alertSavings.reductionSavings + b.alertSavings.triageSavings
      + b.incidentSavings.reductionSavings + b.incidentSavings.triageSavings
      + b.majorIncidentSavings
  }

  /**
    The workload hypothesis of the non-negativity lemmas: no negative
    input and percentages of 0..100. The input form does not enforce it.
   */
  ghost predicate InRange(w: Workload)
  {
    w.volume >= 0.0 && w.ftes >= 0.0 && w.triageMinutes >= 0.0 && w.salary >= 0.0
    && 0.0 <= w.reductionPct <= 100.0 && 0.0 <= w.triageSavedPct <= 100.0
  }

  /** The major-incident hypothesis of the non-negativity lemmas: no negative input, an improvement of 0..100%. */
  ghost predicate MajorInRange(m: MajorIncidents)
  {
    m.volume >= 0.0 && m.costPerHour >= 0.0 && m.mttrHours >= 0.0 && 0.0 <= m.mttrImprovementPct <= 100.0
  }

  /** The cost allocation of one workload under the shared calendar. */
  function WorkloadCosts(w: Workload, cal: WorkCalendar): Allocation
  {
    AllocateCost(w.volume, w.ftes, w.triageMinutes, w.salary, cal)
  }

  /** The reduction and triage savings of one workload at its allocated cost per unit. */
  function WorkloadBenefits(w: Workload, a: Allocation): WorkloadSavings
  {
    ReductionAndTriage(w.volume, a.costPerUnit, w.reductionPct, w.triageSavedPct)
  }

  /**
    The baseline business case: cost allocation for alerts and incidents,
    their savings, the MTTR savings, and the total annual benefits, which
    are the operational savings plus every additional amount, unweighted.
    With in-range inputs the total is at least the additional amounts.
   */
  function ComputeBaseline(inp: BaselineInputs): (b: Baseline)
    ensures b.alertCosts == WorkloadCosts(inp.alerts, inp.calendar)
    ensures b.incidentCosts == WorkloadCosts(inp.incidents, inp.calendar)
    ensures b.alertSavings == WorkloadBenefits(inp.alerts, b.alertCosts)
    ensures b.incidentSavings == WorkloadBenefits(inp.incidents, b.incidentCosts)
    ensures b.majorIncidentSavings == MajorIncidentSavings(inp.major)
    ensures b.alertSavings.avoidedUnits + b.alertSavings.remainingUnits == inp.alerts.volume
    ensures b.incidentSavings.avoidedUnits + b.incidentSavings.remainingUnits == inp.incidents.volume
    ensures b.alertSavings.reductionSavings + b.alertSavings.remainingHandlingCost
            == inp.alerts.volume * b.alertCosts.costPerUnit
    ensures b.incidentSavings.reductionSavings + b.incidentSavings.remainingHandlingCost
            == inp.incidents.volume * b.incidentCosts.costPerUnit
    ensures b.totalAnnualBenefits == OperationalSavings(b) + AdditionalTotal(inp.additional)
    ensures InRange(inp.alerts) && InRange(inp.incidents) && MajorInRange(inp.major) ==>
              OperationalSavings(b) >= 0.0 && b.totalAnnualBenefits >= AdditionalTotal(inp.additional)
  {
    var alertCosts := WorkloadCosts(inp.alerts, inp.calendar);
    var incidentCosts := WorkloadCosts(inp.incidents, inp.calendar);
    var alertSavings := WorkloadBenefits(inp.alerts, alertCosts);
    var incidentSavings := WorkloadBenefits(inp.incidents, incidentCosts);
    var major := MajorIncidentSavings(inp.major);
    var total := alertSavings.reductionSavings + alertSavings.triageSavings
                 + incidentSavings.reductionSavings + incidentSavings.triageSavings
                 + major + AdditionalTotal(inp.additional);
    var b := Baseline(alertCosts, incidentCosts, alertSavings, incidentSavings, major, total);
    BaselineNonNegative(inp, b);
    b
  }

  /** Under the non-negativity hypotheses, the operational savings of a baseline are not negative. */
  lemma BaselineNonNegative(inp: BaselineInputs, b: Baseline)
    requires b.alertCosts == WorkloadCosts(inp.alerts, inp.calendar)
    requires b.incidentCosts == WorkloadCosts(inp.incidents, inp.calendar)
    requires b.alertSavings == WorkloadBenefits(inp.alerts, b.alertCosts)
    requires b.incidentSavings == WorkloadBenefits(inp.incidents, b.incidentCosts)
    requires b.majorIncidentSavings == MajorIncidentSavings(inp.major)
    ensures InRange(inp.alerts) && InRange(inp.incidents) && MajorInRange(inp.major) ==> OperationalSavings(b) >= 0.0
  {
    if InRange(inp.alerts) && InRange(inp.incidents) && MajorInRange(inp.major) {
      var al, inc := inp.alerts, inp.incidents;
      AllocationNonNegative(al.volume, al.ftes, al.triageMinutes, al.salary, inp.calendar);
      AllocationNonNegative(inc.volume, inc.ftes, inc.triageMinutes, inc.salary, inp.calendar);
      ReductionAndTriageNonNegative(al.volume, b.alertCosts.costPerUnit, al.reductionPct, al.triageSavedPct);
      ReductionAndTriageNonNegative(inc.volume, b.incidentCosts.costPerUnit, inc.reductionPct, inc.triageSavedPct);
    }
  }

  /**
    The salary used to convert savings into FTEs: the mean of the two
    salaries when both are positive, otherwise whichever one is positive,
    otherwise 0.
   */
  function EffectiveSalary(alertSalary: real, incidentSalary: real): (r: real)
    ensures r > 0.0 <==> alertSalary > 0.0 || incidentSalary > 0.0
    ensures alertSalary <= 0.0 && incidentSalary <= 0.0 ==> r == 0.0
    ensures alertSalary > 0.0 && incidentSalary > 0.0 ==>
              r - alertSalary == incidentSalary - r
    ensures alertSalary > 0.0 && incidentSalary <= 0.0 ==> r == alertSalary
    ensures alertSalary <= 0.0 && incidentSalary > 0.0 ==> r == incidentSalary
  {
    if alertSalary > 0.0 && incidentSalary > 0.0 then (alertSalary + incidentSalary) / 2.0
    else if alertSalary > 0.0 then alertSalary
    else if incidentSalary > 0.0 then incidentSalary
    else 0.0
  }

  /** How many FTEs' salaries the savings amount to; 0 when there is no positive salary. */
  function EquivalentFtes(savings: real, salary: real): (r: real)
    ensures salary > 0.0 ==> r * salary == savings
    ensures salary <= 0.0 ==> r == 0.0
    ensures salary > 0.0 && savings >= 0.0 ==> r >= 0.0
  {
    if salary > 0.0 then savings / salary else 0.0
  }

  /** The equivalent-FTE figure of a baseline, using both salaries of its inputs. */
  function BaselineEquivalentFtes(inp: BaselineInputs): (r: real)
    ensures var s := EffectiveSalary(inp.alerts.salary, inp.incidents.salary);
            s > 0.0 ==> r * s == OperationalSavings(ComputeBaseline(inp))
    ensures inp.alerts.salary <= 0.0 && inp.incidents.salary <= 0.0 ==> r == 0.0
    ensures InRange(inp.alerts) && InRange(inp.incidents) && MajorInRange(inp.major) ==> r >= 0.0
  {
    EquivalentFtes(OperationalSavings(ComputeBaseline(inp)),
                   EffectiveSalary(inp.alerts.salary, inp.incidents.salary))
  }
}
