/**
  The scenario run of bva.py: every scenario of the table is projected
  year by year, then its monthly payback is added. The annual and the
  monthly payback of a scenario agree, and the scenarios are ordered.
 */
module Projection {
  import opened Wrappers
  import opened Sums
  import opened Realization
  import opened Scenario
  import opened Monthly

  /** The monthly inputs of a scenario over the same costs and timeline. */
  function PlanOf(benefits: real, delay: int, ramp: int, c: Costs): MonthlyPlan
  {
    MonthlyPlan(benefits, c.platformCost, c.servicesCost, delay, ramp)
  }

  /** The evaluation year (1-based) that a 1-based month falls in. */
  function YearOfMonth(month: Option<nat>): (year: Option<nat>)
    ensures month.None? <==> year.None?
    ensures month.Some? && month.value >= 1 ==> (year.value - 1) * 12 < month.value <= year.value * 12
  {
    match month
    case None => None
    case Some(m) => if m == 0 then Some(0) else Some((m - 1) / 12 + 1)
  }

  /** The net of a yearly row, written out: benefits at the factor, less the platform cost and the year-1 services cost. */
  lemma RowNet(year: nat, b: real, f: real, c: Costs)
    ensures YearRow(year, b, f, c).netCashFlow == b * f - c.platformCost - (if year == 1 then c.servicesCost else 0.0)
  {
  }

  /**
    Within evaluation year `y`, whose realization factor is `f`, the
    annual net cash flow (with the services cost added back in year 1)
    equals the sum of that year's twelve monthly nets.
   */
  lemma YearStep(nets: seq<real>, mn: seq<real>, p: MonthlyPlan, c: Costs, y: nat, f: real)
    requires 1 <= y <= |nets| && y * 12 <= |mn| && p.annualPlatformCost == c.platformCost
    requires nets[y - 1] == YearRow(y, p.annualBenefits, f, c).netCashFlow
    requires PrefixSum(mn, y * 12) == PrefixSum(mn, (y - 1) * 12) + p.annualBenefits * f - p.annualPlatformCost
    ensures PrefixSum(nets, y) - PrefixSum(nets, y - 1) + (if y == 1 then c.servicesCost else 0.0)
            == PrefixSum(mn, y * 12) - PrefixSum(mn, (y - 1) * 12)
  {
    RowNet(y, p.annualBenefits, f, c);
  }

  /**
    Every evaluation year's annual net cash flow (with the services cost
    added back in year 1) is the sum of that year's twelve monthly nets.
   */
  lemma YearsAgree(p: MonthlyPlan, years: int, c: Costs)
    requires p.annualPlatformCost == c.platformCost && p.servicesCost == c.servicesCost
    ensures var nets := Nets(CashFlows(p.annualBenefits, YearFactors(p.delay, p.ramp, years), c));
            var mn := MonthlyNets(p, MonthCount(years * 12));
            forall y :: 1 <= y <= |nets| ==>
              PrefixSum(nets, y) - PrefixSum(nets, y - 1) + (if y == 1 then p.servicesCost else 0.0)
              == PrefixSum(mn, y * 12) - PrefixSum(mn, (y - 1) * 12)
  {
    var nets := Nets(CashFlows(p.annualBenefits, YearFactors(p.delay, p.ramp, years), c));
    forall y | 1 <= y <= |nets|
      ensures PrefixSum(nets, y) - PrefixSum(nets, y - 1) + (if y == 1 then p.servicesCost else 0.0)
              == PrefixSum(MonthlyNets(p, MonthCount(years * 12)), y * 12) - PrefixSum(MonthlyNets(p, MonthCount(years * 12)), (y - 1) * 12)
    {
      YearAgrees(p, years, c, y, nets, MonthlyNets(p, MonthCount(years * 12)));
    }
  }

  /** Evaluation year `y` of the yearly nets `nets` adds what its twelve months of `mn` add, with the services cost added back in year 1. */
  lemma YearAgrees(p: MonthlyPlan, years: int, c: Costs, y: nat, nets: seq<real>, mn: seq<real>)
    requires p.annualPlatformCost == c.platformCost
    requires nets == Nets(CashFlows(p.annualBenefits, YearFactors(p.delay, p.ramp, years), c))
    requires mn == MonthlyNets(p, MonthCount(years * 12))
    requires 1 <= y <= |nets|
    ensures PrefixSum(nets, y) - PrefixSum(nets, y - 1) + (if y == 1 then c.servicesCost else 0.0)
            == PrefixSum(mn, y * 12) - PrefixSum(mn, (y - 1) * 12)
  {
    var f := YearRealization(y, p.delay, p.ramp);
    YearFactorsAt(p.delay, p.ramp, years, y - 1);
    assert nets[y - 1] == YearRow(y, p.annualBenefits, f, c).netCashFlow;
    YearOfMonths(p, y, MonthCount(years * 12), f);
    YearStep(nets, mn, p, c, y, f);
  }

  /**
    When every year adds what its twelve months add (the first year also
    the opening cost), the yearly running totals are minus the opening
    cost plus the monthly running totals at the year ends.
   */
  lemma {:induction false} YearEnds(nets: seq<real>, mn: seq<real>, opening: real, y: nat)
    requires 1 <= y <= |nets| && |mn| == |nets| * 12
    requires forall k :: 1 <= k <= |nets| ==>
               PrefixSum(nets, k) - PrefixSum(nets, k - 1) + (if k == 1 then opening else 0.0)
               == PrefixSum(mn, k * 12) - PrefixSum(mn, (k - 1) * 12)
    ensures PrefixSum(nets, y) == -opening + PrefixSum(mn, y * 12)
  {
    if y > 1 {
      YearEnds(nets, mn, opening, y - 1);
    }
  }

  /**
    With benefits and services cost not negative, the annual payback is
    the evaluation year in which the monthly payback month falls, and
    there is an annual payback exactly when there is a monthly one.
   */
  lemma AnnualPaybackFromMonthly(p: MonthlyPlan, years: int, c: Costs)
    requires p.annualBenefits >= 0.0 && c.servicesCost >= 0.0
    requires p.annualPlatformCost == c.platformCost && p.servicesCost == c.servicesCost
    ensures FirstBreakEven(0.0, Nets(CashFlows(p.annualBenefits, YearFactors(p.delay, p.ramp, years), c)))
            == YearOfMonth(FirstBreakEven(-p.servicesCost, MonthlyNets(p, MonthCount(years * 12))))
  {
    YearEndsAgree(p, years, c);
    YearBlocks(Nets(CashFlows(p.annualBenefits, YearFactors(p.delay, p.ramp, years), c)), MonthlyNets(p, MonthCount(years * 12)), p.servicesCost);
  }

  /**
    The yearly nets `nets` and the monthly nets `mn` line up: twelve months
    per year, each year end's running total is the monthly one less
    `opening`, and the monthly nets never decrease.
   */
  ghost predicate YearsOfMonths(nets: seq<real>, mn: seq<real>, opening: real)
  {
    && |mn| == |nets| * 12
    && (forall y :: 1 <= y <= |nets| ==> PrefixSum(nets, y) == -opening + PrefixSum(mn, y * 12))
    && (forall i, j :: 0 <= i <= j < |mn| ==> mn[i] <= mn[j])
  }

  /** With benefits not negative, a plan's yearly and monthly nets line up. */
  lemma YearEndsAgree(p: MonthlyPlan, years: int, c: Costs)
    requires p.annualBenefits >= 0.0
    requires p.annualPlatformCost == c.platformCost && p.servicesCost == c.servicesCost
    ensures YearsOfMonths(Nets(CashFlows(p.annualBenefits, YearFactors(p.delay, p.ramp, years), c)),
                          MonthlyNets(p, MonthCount(years * 12)), p.servicesCost)
  {
    var nets := Nets(CashFlows(p.annualBenefits, YearFactors(p.delay, p.ramp, years), c));
    var mn := MonthlyNets(p, MonthCount(years * 12));
    YearsAgree(p, years, c);
    forall y | 1 <= y <= |nets|
      ensures PrefixSum(nets, y) == -p.servicesCost + PrefixSum(mn, y * 12)
    {
      YearEnds(nets, mn, p.servicesCost, y);
    }
    MonthlyNetsNonDecreasing(p, MonthCount(years * 12));
  }

  /**
    If each year's running total equals `-opening` plus the running total
    of its twelve months, and the monthly flows never decrease, the first
    break-even year is the year of the first break-even month.
   */
  lemma YearBlocks(nets: seq<real>, mn: seq<real>, opening: real)
    requires opening >= 0.0 && YearsOfMonths(nets, mn, opening)
    ensures FirstBreakEven(0.0, nets) == YearOfMonth(FirstBreakEven(-opening, mn))
  {
    var monthly := FirstBreakEven(-opening, mn);
    if monthly.None? {
      YearBlocksNone(nets, mn, opening);
    } else {
      MonthInYear(monthly.value, |nets|);
      YearBlocksSome(nets, mn, opening, monthly.value, YearOfMonth(monthly).value);
    }
  }

  /** Month m of a horizon of whole years falls in year (m - 1) / 12 + 1 of it. */
  lemma MonthInYear(m: nat, years: nat)
    requires 1 <= m <= years * 12
    ensures 1 <= YearOfMonth(Some(m)).value <= years
  {
  }

  /** No break-even month: no year end breaks even either. */
  lemma YearBlocksNone(nets: seq<real>, mn: seq<real>, opening: real)
    requires |mn| == |nets| * 12
    requires forall y :: 1 <= y <= |nets| ==> PrefixSum(nets, y) == -opening + PrefixSum(mn, y * 12)
    requires FirstBreakEven(-opening, mn).None?
    ensures FirstBreakEven(0.0, nets).None?
  {
    forall y | 1 <= y <= |nets|
      ensures PrefixSum(nets, y) < 0.0
    {
      assert 1 <= y * 12 <= |mn|;
    }
  }

  /** Break-even month m falls in year y: year y is the break-even year. */
  lemma YearBlocksSome(nets: seq<real>, mn: seq<real>, opening: real, m: nat, y: nat)
    requires opening >= 0.0 && |mn| == |nets| * 12
    requires forall k :: 1 <= k <= |nets| ==> PrefixSum(nets, k) == -opening + PrefixSum(mn, k * 12)
    requires forall i, j :: 0 <= i <= j < |mn| ==> mn[i] <= mn[j]
    requires FirstBreakEven(-opening, mn) == Some(m)
    requires 1 <= y <= |nets| && (y - 1) * 12 < m <= y * 12
    ensures FirstBreakEven(0.0, nets) == Some(y)
  {
    StaysBrokenEven(-opening, mn, y * 12);
    EarlierYearsNegative(nets, mn, opening, m, y);
    FirstBreakEvenIs(0.0, nets, y);
  }

  /** Every year end before the break-even month is still negative. */
  lemma EarlierYearsNegative(nets: seq<real>, mn: seq<real>, opening: real, m: nat, y: nat)
    requires |mn| == |nets| * 12
    requires forall k :: 1 <= k <= |nets| ==> PrefixSum(nets, k) == -opening + PrefixSum(mn, k * 12)
    requires FirstBreakEven(-opening, mn) == Some(m)
    requires y <= |nets| && (y - 1) * 12 < m
    ensures forall j :: 1 <= j < y ==> PrefixSum(nets, j) < 0.0
  {
    forall j | 1 <= j < y
      ensures PrefixSum(nets, j) < 0.0
    {
      assert 1 <= j * 12 < m;
    }
  }

  /** A scenario's entry in the run: its name, its projection and its monthly payback. */
  datatype ScenarioReport = ScenarioReport(name: string, result: ScenarioResult, paybackMonths: Option<nat>)

  /** The monthly inputs of scenario `def`: scaled benefits, scaled and truncated delay. */
  function ScenarioPlan(baseBenefits: real, def: ScenarioDef, t: Timeline, c: Costs): MonthlyPlan
  {
    PlanOf(baseBenefits * def.benefitsMultiplier, ScenarioDelay(t.delayMonths, def.delayMultiplier), t.rampMonths, c)
  }

  /** The first month of the evaluation period whose cumulative value for scenario `def` is non-negative. */
  function MonthlyPayback(baseBenefits: real, def: ScenarioDef, t: Timeline, c: Costs): Option<nat>
  {
    PaybackMonth(ScenarioPlan(baseBenefits, def, t, c), t.evaluationYears * 12)
  }

  /** What the run reports for scenario `def`. */
  ghost predicate IsReport(r: ScenarioReport, def: ScenarioDef, baseBenefits: real, t: Timeline, c: Costs)
    requires 1.0 + t.discountRate != 0.0
  {
    && r.name == def.name
    && IsScenarioResult(r.result, baseBenefits, def.benefitsMultiplier, def.delayMultiplier, t, c)
    && r.paybackMonths == MonthlyPayback(baseBenefits, def, t, c)
  }

  /**
    Projects every scenario of the table, then adds to each its monthly
    payback over the whole evaluation period.
   */
  method RunScenarios(baseBenefits: real, t: Timeline, c: Costs) returns (reports: seq<ScenarioReport>)
    requires 1.0 + t.discountRate != 0.0
    ensures |reports| == |Scenarios|
    ensures forall i :: 0 <= i < |reports| ==> IsReport(reports[i], Scenarios[i], baseBenefits, t, c)
  {
    reports := ProjectScenarios(Scenarios, baseBenefits, t, c);
  }

  /** The two passes of the run over a list of scenario definitions: project each, then add each monthly payback. */
  method ProjectScenarios(defs: seq<ScenarioDef>, baseBenefits: real, t: Timeline, c: Costs) returns (reports: seq<ScenarioReport>)
    requires 1.0 + t.discountRate != 0.0
    ensures |reports| == |defs|
    ensures forall i :: 0 <= i < |reports| ==> IsReport(reports[i], defs[i], baseBenefits, t, c)
  {
    var results := ProjectEach(defs, baseBenefits, t, c);
    reports := AddPaybacks(defs, results, baseBenefits, t, c);
  }

  /** First pass: the projection of every scenario, in table order. */
  method ProjectEach(defs: seq<ScenarioDef>, baseBenefits: real, t: Timeline, c: Costs) returns (results: seq<ScenarioResult>)
    requires 1.0 + t.discountRate != 0.0
    ensures |results| == |defs|
    ensures forall k :: 0 <= k < |results| ==>
              IsScenarioResult(results[k], baseBenefits, defs[k].benefitsMultiplier, defs[k].delayMultiplier, t, c)
  {
    results := [];
    for i := 0 to |defs|
      invariant |results| == i
      invariant forall k :: 0 <= k < i ==>
                  IsScenarioResult(results[k], baseBenefits, defs[k].benefitsMultiplier, defs[k].delayMultiplier, t, c)
    {
      var res := CalculateScenarioResults(baseBenefits, defs[i].benefitsMultiplier, defs[i].delayMultiplier, t, c);
      results := results + [res];
    }
  }

  /** Second pass: each projection joined with its scenario's name and monthly payback. */
  method AddPaybacks(defs: seq<ScenarioDef>, results: seq<ScenarioResult>, baseBenefits: real, t: Timeline, c: Costs)
    returns (reports: seq<ScenarioReport>)
    requires 1.0 + t.discountRate != 0.0
    requires |results| == |defs|
    requires forall k :: 0 <= k < |results| ==>
               IsScenarioResult(results[k], baseBenefits, defs[k].benefitsMultiplier, defs[k].delayMultiplier, t, c)
    ensures |reports| == |defs|
    ensures forall i :: 0 <= i < |reports| ==> IsReport(reports[i], defs[i], baseBenefits, t, c)
  {
    reports := [];
    for i := 0 to |defs|
      invariant |reports| == i
      invariant forall k :: 0 <= k < i ==> IsReport(reports[k], defs[k], baseBenefits, t, c)
    {
      var report := AddMonthlyPayback(results[i], defs[i], baseBenefits, t, c);
      ReportOfResult(report, results[i], defs[i], baseBenefits, t, c);
      reports := reports + [report];
    }
  }

  /** A projection of `def` joined with its name and monthly payback is the report of `def`. */
  lemma ReportOfResult(report: ScenarioReport, res: ScenarioResult, def: ScenarioDef, baseBenefits: real, t: Timeline, c: Costs)
    requires 1.0 + t.discountRate != 0.0
    requires IsScenarioResult(res, baseBenefits, def.benefitsMultiplier, def.delayMultiplier, t, c)
    requires report == ScenarioReport(def.name, res, MonthlyPayback(baseBenefits, def, t, c))
    ensures IsReport(report, def, baseBenefits, t, c)
  {
  }

  /** Attaches to one scenario's projection its monthly payback over the evaluation period. */
  method AddMonthlyPayback(res: ScenarioResult, def: ScenarioDef, baseBenefits: real, t: Timeline, c: Costs)
    returns (report: ScenarioReport)
    ensures report == ScenarioReport(def.name, res, MonthlyPayback(baseBenefits, def, t, c))
  {
    var scenarioBenefits := baseBenefits * def.benefitsMultiplier;
    var scenarioDelay := ScenarioDelay(t.delayMonths, def.delayMultiplier);
    var plan := PlanOf(scenarioBenefits, scenarioDelay, t.rampMonths, c);
    var maxMonths := t.evaluationYears * 12;
    var paybackMonths := PaybackMonths(plan, maxMonths);
    assert paybackMonths == PaybackMonth(plan, maxMonths);
    assert plan == ScenarioPlan(baseBenefits, def, t, c);
    assert PaybackMonth(plan, maxMonths) == MonthlyPayback(baseBenefits, def, t, c);
    report := ScenarioReport(def.name, res, paybackMonths);
  }

  /** Larger yearly benefits and a shorter delay never lower the NPV (for a rate above -100%). */
  lemma NpvOrdered(b1: real, b2: real, d1: int, d2: int, t: Timeline, c: Costs)
    requires 0.0 <= b1 <= b2 && d2 <= d1 && 1.0 + t.discountRate > 0.0
    ensures Npv(CashFlows(b1, YearFactors(d1, t.rampMonths, t.evaluationYears), c), t.discountRate)
            <= Npv(CashFlows(b2, YearFactors(d2, t.rampMonths, t.evaluationYears), c), t.discountRate)
  {
    var fs1, fs2 := YearFactors(d1, t.rampMonths, t.evaluationYears), YearFactors(d2, t.rampMonths, t.evaluationYears);
    YearFactorsAntitone(d2, d1, t.rampMonths, t.evaluationYears);
    CashFlowsMonotone(b1, fs1, b2, fs2, c);
    NpvMonotone(CashFlows(b1, fs1, c), CashFlows(b2, fs2, c), t.discountRate);
  }

  /** With the same positive total cost, a larger NPV gives a larger ROI. */
  lemma RoiFollowsNpv(npv1: real, npv2: real, tco: real)
    requires npv1 <= npv2
    ensures tco > 0.0 ==> Roi(npv1, tco) <= Roi(npv2, tco)
  {
  }

  /** Larger yearly benefits and a shorter delay never postpone the annual payback. */
  lemma AnnualPaybackOrdered(b1: real, b2: real, d1: int, d2: int, ramp: int, years: int, c: Costs)
    requires 0.0 <= b1 <= b2 && d2 <= d1
    ensures NoLaterThan(FirstBreakEven(0.0, Nets(CashFlows(b2, YearFactors(d2, ramp, years), c))),
                        FirstBreakEven(0.0, Nets(CashFlows(b1, YearFactors(d1, ramp, years), c))))
  {
    var fs1, fs2 := YearFactors(d1, ramp, years), YearFactors(d2, ramp, years);
    YearFactorsAntitone(d2, d1, ramp, years);
    CashFlowsMonotone(b1, fs1, b2, fs2, c);
    FirstBreakEvenMonotone(0.0, Nets(CashFlows(b1, fs1, c)), Nets(CashFlows(b2, fs2, c)));
  }

  /** Larger yearly benefits and a shorter delay never postpone the monthly payback. */
  lemma MonthlyPaybackOrdered(p1: MonthlyPlan, p2: MonthlyPlan, maxMonths: int)
    requires 0.0 <= p1.annualBenefits <= p2.annualBenefits && p2.delay <= p1.delay
    requires p1.annualPlatformCost == p2.annualPlatformCost && p1.ramp == p2.ramp && p1.servicesCost == p2.servicesCost
    ensures NoLaterThan(PaybackMonth(p2, maxMonths), PaybackMonth(p1, maxMonths))
  {
    var n := MonthCount(maxMonths);
    MonthlyNetsDominated(p1, p2, n);
    FirstBreakEvenMonotone(-p1.servicesCost, MonthlyNets(p1, n), MonthlyNets(p2, n));
  }

  /** The yearly rows of scenario `def`: its scaled benefits over its scaled delay. */
  function ScenarioFlows(baseBenefits: real, def: ScenarioDef, t: Timeline, c: Costs): seq<CashFlowYear>
  {
    var p := ScenarioPlan(baseBenefits, def, t, c);
    CashFlows(p.annualBenefits, YearFactors(p.delay, t.rampMonths, t.evaluationYears), c)
  }

  /**
    Of two scenarios, the one with the larger benefits multiplier and the
    smaller delay multiplier has an NPV at least as large, the same total
    cost, and an ROI at least as large when that cost is positive.
   */
  lemma ScenarioMetricsOrdered(d1: ScenarioDef, d2: ScenarioDef, baseBenefits: real, t: Timeline, c: Costs)
    requires baseBenefits >= 0.0 && 1.0 + t.discountRate > 0.0
    requires 0.0 <= d1.benefitsMultiplier <= d2.benefitsMultiplier
    requires 0.0 <= d2.delayMultiplier <= d1.delayMultiplier
    ensures Npv(ScenarioFlows(baseBenefits, d1, t, c), t.discountRate) <= Npv(ScenarioFlows(baseBenefits, d2, t, c), t.discountRate)
    ensures Tco(ScenarioFlows(baseBenefits, d1, t, c)) == Tco(ScenarioFlows(baseBenefits, d2, t, c))
    ensures Tco(ScenarioFlows(baseBenefits, d1, t, c)) > 0.0 ==>
              Roi(Npv(ScenarioFlows(baseBenefits, d1, t, c), t.discountRate), Tco(ScenarioFlows(baseBenefits, d1, t, c)))
              <= Roi(Npv(ScenarioFlows(baseBenefits, d2, t, c), t.discountRate), Tco(ScenarioFlows(baseBenefits, d2, t, c)))
  {
    var p1, p2 := ScenarioPlan(baseBenefits, d1, t, c), ScenarioPlan(baseBenefits, d2, t, c);
    var rows1, rows2 := ScenarioFlows(baseBenefits, d1, t, c), ScenarioFlows(baseBenefits, d2, t, c);
    ScenarioInputsOrdered(d1, d2, baseBenefits, t);
    NpvOrdered(p1.annualBenefits, p2.annualBenefits, p1.delay, p2.delay, t, c);
    TcoSharedByScenarios(p1.annualBenefits, YearFactors(p1.delay, t.rampMonths, t.evaluationYears),
                         p2.annualBenefits, YearFactors(p2.delay, t.rampMonths, t.evaluationYears), c);
    RoiFollowsNpv(Npv(rows1, t.discountRate), Npv(rows2, t.discountRate), Tco(rows1));
  }

  /**
    Of two scenarios, the one with the larger benefits multiplier and the
    smaller delay multiplier has an annual payback no later.
   */
  lemma ScenarioPaybacksOrdered(d1: ScenarioDef, d2: ScenarioDef, baseBenefits: real, t: Timeline, c: Costs)
    requires baseBenefits >= 0.0
    requires 0.0 <= d1.benefitsMultiplier <= d2.benefitsMultiplier
    requires 0.0 <= d2.delayMultiplier <= d1.delayMultiplier
    ensures NoLaterThan(FirstBreakEven(0.0, Nets(ScenarioFlows(baseBenefits, d2, t, c))), FirstBreakEven(0.0, Nets(ScenarioFlows(baseBenefits, d1, t, c))))
  {
    ScenarioInputsOrdered(d1, d2, baseBenefits, t);
    var p1, p2 := ScenarioPlan(baseBenefits, d1, t, c), ScenarioPlan(baseBenefits, d2, t, c);
    AnnualPaybackOrdered(p1.annualBenefits, p2.annualBenefits, p1.delay, p2.delay, t.rampMonths, t.evaluationYears, c);
  }

  /**
    Of two scenarios, the one with the larger benefits multiplier and the
    smaller delay multiplier has a monthly payback no later.
   */
  lemma MonthlyPaybacksOrdered(d1: ScenarioDef, d2: ScenarioDef, baseBenefits: real, t: Timeline, c: Costs)
    requires baseBenefits >= 0.0
    requires 0.0 <= d1.benefitsMultiplier <= d2.benefitsMultiplier
    requires 0.0 <= d2.delayMultiplier <= d1.delayMultiplier
    ensures NoLaterThan(MonthlyPayback(baseBenefits, d2, t, c), MonthlyPayback(baseBenefits, d1, t, c))
  {
    ScenarioInputsOrdered(d1, d2, baseBenefits, t);
    MonthlyPaybackOrdered(ScenarioPlan(baseBenefits, d1, t, c), ScenarioPlan(baseBenefits, d2, t, c), t.evaluationYears * 12);
  }

  /** The scaled benefits and delays of two scenarios follow their multipliers. */
  lemma ScenarioInputsOrdered(d1: ScenarioDef, d2: ScenarioDef, baseBenefits: real, t: Timeline)
    requires baseBenefits >= 0.0
    requires 0.0 <= d1.benefitsMultiplier <= d2.benefitsMultiplier
    requires 0.0 <= d2.delayMultiplier <= d1.delayMultiplier
    ensures 0.0 <= baseBenefits * d1.benefitsMultiplier <= baseBenefits * d2.benefitsMultiplier
    ensures ScenarioDelay(t.delayMonths, d2.delayMultiplier) <= ScenarioDelay(t.delayMonths, d1.delayMultiplier)
  {
    ScaleOrdered(baseBenefits, d1.benefitsMultiplier, d2.benefitsMultiplier, baseBenefits * d1.benefitsMultiplier, baseBenefits * d2.benefitsMultiplier);
    ScenarioDelayMonotone(t.delayMonths, d2.delayMultiplier, d1.delayMultiplier);
  }

  /** A non-negative base scaled by ordered non-negative multipliers gives ordered non-negative results. */
  lemma ScaleOrdered(base: real, m1: real, m2: real, b1: real, b2: real)
    requires base >= 0.0 && 0.0 <= m1 <= m2 && b1 == base * m1 && b2 == base * m2
    ensures 0.0 <= b1 <= b2
  {
  }

  /**
    In the scenario table, each scenario's multipliers dominate the
    previous one's (Conservative, then Expected, then Optimistic), so
    each of the orderings above holds from one to the next.
   */
  lemma ScenarioTableOrdered(i: nat)
    requires i + 1 < |Scenarios|
    ensures 0.0 <= Scenarios[i].benefitsMultiplier <= Scenarios[i + 1].benefitsMultiplier
    ensures 0.0 <= Scenarios[i + 1].delayMultiplier <= Scenarios[i].delayMultiplier
  {
  }

  /**
    For a scenario with non-negative benefits and a non-negative services
    cost, the annual payback year is the year of the monthly payback.
   */
  lemma ScenarioPaybacksAgree(def: ScenarioDef, baseBenefits: real, t: Timeline, c: Costs)
    requires baseBenefits * def.benefitsMultiplier >= 0.0 && c.servicesCost >= 0.0
    ensures FirstBreakEven(0.0, Nets(ScenarioFlows(baseBenefits, def, t, c))) == YearOfMonth(MonthlyPayback(baseBenefits, def, t, c))
  {
    var p := ScenarioPlan(baseBenefits, def, t, c);
    assert ScenarioFlows(baseBenefits, def, t, c) == CashFlows(p.annualBenefits, YearFactors(p.delay, p.ramp, t.evaluationYears), c);
    AnnualPaybackFromMonthly(p, t.evaluationYears, c);
    assert MonthlyPayback(baseBenefits, def, t, c) == FirstBreakEven(-p.servicesCost, MonthlyNets(p, MonthCount(t.evaluationYears * 12)));
  }
}
