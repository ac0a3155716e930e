/**
  The scenario projector of bva.py (calculate_scenario_results): scaled
  benefits and delay, the yearly cash-flow rows, NPV, total cost of
  ownership, ROI and the annual payback year.
 */
module Scenario {
  import opened Wrappers
  import opened Sums
  import opened Realization

  /** Timeline settings: months of delay and ramp-up, years evaluated, yearly discount rate. */
  datatype Timeline = Timeline(delayMonths: int, rampMonths: int, evaluationYears: int, discountRate: real)

  /** The solution's costs: a yearly platform subscription and one-time services. */
  datatype Costs = Costs(platformCost: real, servicesCost: real)

  /** A named pair of multipliers applied to the baseline benefits and delay. */
  datatype ScenarioDef = ScenarioDef(name: string, benefitsMultiplier: real, delayMultiplier: real)

  /** The three scenarios the engine evaluates. */
  const Scenarios: seq<ScenarioDef> := [
    ScenarioDef("Conservative", 0.7, 1.3),
    ScenarioDef("Expected", 1.0, 1.0),
    ScenarioDef("Optimistic", 1.2, 0.8)
  ]

  /** One row of the yearly cash-flow table. */
  datatype CashFlowYear = CashFlowYear(
    year: nat,
    benefits: real,
    platformCost: real,
    servicesCost: real,
    netCashFlow: real,
    realizationFactor: real)

  /** What a scenario run reports; the payback is None where bva.py shows "N/A". */
  datatype ScenarioResult = ScenarioResult(
    npv: real,
    roi: real,
    paybackYears: Option<nat>,
    implDelay: nat,
    benefitsMultiplier: real,
    cashFlows: seq<CashFlowYear>,
    annualBenefits: real)

  /** Python's int() on a float: truncation toward zero. */
  function Trunc(x: real): (r: int)
    ensures x >= 0.0 ==> r >= 0 && r as real <= x < r as real + 1.0
    ensures x < 0.0 ==> r <= 0 && r as real - 1.0 < x <= r as real
  {
    if x >= 0.0 then x.Floor else -((-x).Floor)
  }

  /** The scenario's delay: the scaled delay truncated to whole months, never negative. */
  function ScenarioDelay(delayMonths: int, multiplier: real): (d: nat)
    ensures delayMonths as real * multiplier < 1.0 ==> d == 0
    ensures delayMonths as real * multiplier >= 0.0 ==>
              d as real <= delayMonths as real * multiplier < d as real + 1.0
  {
    var t := Trunc(delayMonths as real * multiplier);
    if t > 0 then t else 0
  }

  /** The cash-flow row of evaluation year `year` whose mean realization factor is `factor`. */
  function YearRow(year: nat, benefits: real, factor: real, c: Costs): (row: CashFlowYear)
    ensures row.year == year && row.realizationFactor == factor
    ensures row.benefits == benefits * factor
    ensures row.platformCost == c.platformCost
    ensures row.servicesCost == (if year == 1 then c.servicesCost else 0.0)
    ensures row.netCashFlow == row.benefits - row.platformCost - row.servicesCost
  {
    var yearBenefits := benefits * factor;
    var services := if year == 1 then c.servicesCost else 0.0;
    CashFlowYear(year, yearBenefits, c.platformCost, services, yearBenefits - c.platformCost - services, factor)
  }

  /** The realization factors of evaluation years 1..years, each the mean of its twelve months. */
  function YearFactors(delay: int, ramp: int, years: int): (fs: seq<real>)
    ensures |fs| == if years > 0 then years else 0
    decreases years
  {
    if years <= 0 then [] else YearFactors(delay, ramp, years - 1) + [YearRealization(years, delay, ramp)]
  }

  /** Position i of the list holds the factor of evaluation year i + 1, a value in [0, 1]. */
  lemma {:induction false} YearFactorsAt(delay: int, ramp: int, years: int, i: nat)
    requires i < years
    ensures YearFactors(delay, ramp, years)[i] == YearRealization(i + 1, delay, ramp)
    ensures 0.0 <= YearFactors(delay, ramp, years)[i] <= 1.0
  {
    if i < years - 1 {
      YearFactorsAt(delay, ramp, years - 1, i);
    }
  }

  /**
    The yearly cash flows: one row per evaluation year, numbered from 1;
    the benefit of year i + 1 is the annual benefit times `factors[i]`;
    the platform cost is charged every year, the services cost only in
    year 1.
   */
  function CashFlows(benefits: real, factors: seq<real>, c: Costs): (rows: seq<CashFlowYear>)
    ensures |rows| == |factors|
    ensures forall i :: 0 <= i < |rows| ==> rows[i] == YearRow(i + 1, benefits, factors[i], c)
  {
    seq(|factors|, i requires 0 <= i < |factors| => YearRow(i + 1, benefits, factors[i], c))
  }

  /** The net cash flow column. */
  function Nets(rows: seq<CashFlowYear>): (xs: seq<real>)
    ensures |xs| == |rows| && forall i :: 0 <= i < |rows| ==> xs[i] == rows[i].netCashFlow
  {
    seq(|rows|, i requires 0 <= i < |rows| => rows[i].netCashFlow)
  }

  /** The platform-plus-services cost column. */
  function CostColumn(rows: seq<CashFlowYear>): (xs: seq<real>)
    ensures |xs| == |rows| && forall i :: 0 <= i < |rows| ==> xs[i] == rows[i].platformCost + rows[i].servicesCost
  {
    seq(|rows|, i requires 0 <= i < |rows| => rows[i].platformCost + rows[i].servicesCost)
  }

  /** b to the power n. */
  function Pow(b: real, n: nat): (r: real)
    ensures b != 0.0 ==> r != 0.0
    ensures b > 0.0 ==> r > 0.0
  {
    if n == 0 then 1.0 else b * Pow(b, n - 1)
  }

  /** Each year's net cash flow discounted by (1 + rate) to the power of its year number. */
  function Discounted(rows: seq<CashFlowYear>, rate: real): (xs: seq<real>)
    requires 1.0 + rate != 0.0
    ensures |xs| == |rows|
    ensures forall i :: 0 <= i < |rows| ==> xs[i] * Pow(1.0 + rate, rows[i].year) == rows[i].netCashFlow
  {
    seq(|rows|, i requires 0 <= i < |rows| => rows[i].netCashFlow / Pow(1.0 + rate, rows[i].year))
  }

  /** Net present value; discounting starts at year 1, so year 1's services cost is discounted too. */
  function Npv(rows: seq<CashFlowYear>, rate: real): real
    requires 1.0 + rate != 0.0
  {
    Sum(Discounted(rows, rate))
  }

  /** Total cost of ownership: every year's platform and services costs. */
  function Tco(rows: seq<CashFlowYear>): real
  {
    Sum(CostColumn(rows))
  }

  /** ROI as discounted NPV over undiscounted TCO, and 0 when there is no cost. */
  function Roi(npv: real, tco: real): (r: real)
    ensures tco == 0.0 ==> r == 0.0
    ensures tco != 0.0 ==> r * tco == npv
  {
    if tco != 0.0 then npv / tco else 0.0
  }

  /** A larger non-negative delay multiplier never gives a shorter scenario delay. */
  lemma ScenarioDelayMonotone(delayMonths: int, m1: real, m2: real)
    requires 0.0 <= m1 <= m2
    ensures ScenarioDelay(delayMonths, m1) <= ScenarioDelay(delayMonths, m2)
  {
    var x1, x2 := delayMonths as real * m1, delayMonths as real * m2;
    if delayMonths >= 0 {
      ProductMonotone(x1, x2, delayMonths as real, delayMonths as real, m1, m2);
    } else {
      assert x1 <= 0.0 && x2 <= 0.0;
    }
  }

  /** The multiplier 1.0 keeps a non-negative delay as it is. */
  lemma ScenarioDelayUnscaled(delayMonths: int)
    ensures delayMonths >= 0 ==> ScenarioDelay(delayMonths, 1.0) == delayMonths
    ensures delayMonths < 0 ==> ScenarioDelay(delayMonths, 1.0) == 0
  {
  }

  /** Products of ordered non-negative factors are ordered. */
  lemma ProductMonotone(v1: real, v2: real, b1: real, b2: real, f1: real, f2: real)
    requires 0.0 <= b1 <= b2 && 0.0 <= f1 <= f2
    requires v1 == b1 * f1 && v2 == b2 * f2
    ensures v1 <= v2
  {
  }

  /** The cost column adds the platform cost every year and the services cost once. */
  lemma {:induction false} CostPrefixSum(xs: seq<real>, k: nat, platform: real, services: real)
    requires 1 <= k <= |xs|
    requires xs[0] == platform + services
    requires forall i :: 1 <= i < |xs| ==> xs[i] == platform
    ensures PrefixSum(xs, k) == k as real * platform + services
  {
    if k > 1 {
      CostPrefixSum(xs, k - 1, platform, services);
    }
  }

  /** The cost column holds the platform cost in every year, plus the services cost in year 1. */
  lemma CostColumnOfFlows(benefits: real, factors: seq<real>, c: Costs)
    ensures forall i :: 0 <= i < |factors| ==>
              CostColumn(CashFlows(benefits, factors, c))[i] == c.platformCost + (if i == 0 then c.servicesCost else 0.0)
  {
  }

  /** TCO is the platform cost of every evaluated year plus the services cost once, whatever the benefits. */
  lemma TcoClosedForm(benefits: real, factors: seq<real>, c: Costs)
    ensures |factors| >= 1 ==> Tco(CashFlows(benefits, factors, c)) == |factors| as real * c.platformCost + c.servicesCost
    ensures |factors| == 0 ==> Tco(CashFlows(benefits, factors, c)) == 0.0
  {
    CostColumnOfFlows(benefits, factors, c);
    if |factors| >= 1 {
      CostPrefixSum(CostColumn(CashFlows(benefits, factors, c)), |factors|, c.platformCost, c.servicesCost);
    }
  }

  /** TCO depends only on the number of years, so every scenario shares it. */
  lemma TcoSharedByScenarios(b1: real, fs1: seq<real>, b2: real, fs2: seq<real>, c: Costs)
    requires |fs1| == |fs2|
    ensures Tco(CashFlows(b1, fs1, c)) == Tco(CashFlows(b2, fs2, c))
  {
    TcoClosedForm(b1, fs1, c);
    TcoClosedForm(b2, fs2, c);
  }

  /** One to any power is one: a zero discount rate discounts nothing. */
  lemma {:induction false} PowOne(n: nat)
    ensures Pow(1.0, n) == 1.0
  {
    if n > 0 {
      PowOne(n - 1);
    }
  }

  /** At a zero discount rate the NPV is the plain sum of the net cash flows. */
  lemma NpvAtZeroRate(rows: seq<CashFlowYear>)
    ensures Npv(rows, 0.0) == Sum(Nets(rows))
  {
    var ds := Discounted(rows, 0.0);
    forall i | 0 <= i < |rows|
      ensures ds[i] == Nets(rows)[i]
    {
      PowOne(rows[i].year);
      Undiscounted(ds[i], Pow(1.0, rows[i].year), rows[i].netCashFlow);
    }
    PrefixSumAgree(ds, Nets(rows), |rows|);
  }

  /** A value discounted by a factor of one is the value itself. */
  lemma Undiscounted(d: real, f: real, x: real)
    requires f == 1.0 && d * f == x
    ensures d == x
  {
  }

  /** Raising net cash flows year by year raises the NPV at any rate above -100%. */
  lemma NpvMonotone(rows1: seq<CashFlowYear>, rows2: seq<CashFlowYear>, rate: real)
    requires 1.0 + rate > 0.0
    requires |rows1| == |rows2|
    requires forall i :: 0 <= i < |rows1| ==> rows1[i].year == rows2[i].year && rows1[i].netCashFlow <= rows2[i].netCashFlow
    ensures Npv(rows1, rate) <= Npv(rows2, rate)
  {
    var d1, d2 := Discounted(rows1, rate), Discounted(rows2, rate);
    forall i | 0 <= i < |rows1|
      ensures d1[i] <= d2[i]
    {
      DiscountMonotone(d1[i], d2[i], Pow(1.0 + rate, rows1[i].year), rows1[i].netCashFlow, rows2[i].netCashFlow);
    }
    PrefixSumMonotone(d1, d2, |rows1|);
  }

  /** Discounting two ordered values by the same positive factor keeps their order. */
  lemma DiscountMonotone(a: real, b: real, f: real, x: real, y: real)
    requires f > 0.0 && a * f == x && b * f == y && x <= y
    ensures a <= b
  {
  }

  /** A longer delay never raises the realization factor of any year. */
  lemma YearFactorsAntitone(d1: int, d2: int, ramp: int, years: int)
    requires d1 <= d2
    ensures forall i :: 0 <= i < |YearFactors(d2, ramp, years)| ==>
              0.0 <= YearFactors(d2, ramp, years)[i] <= YearFactors(d1, ramp, years)[i]
  {
    forall i | 0 <= i < |YearFactors(d2, ramp, years)|
      ensures 0.0 <= YearFactors(d2, ramp, years)[i] <= YearFactors(d1, ramp, years)[i]
    {
      YearFactorsAt(d1, ramp, years, i);
      YearFactorsAt(d2, ramp, years, i);
      YearRealizationDelayAntitone(i + 1, d1, d2, ramp);
    }
  }

  /** Lower benefits or lower realization factors never raise the net cash flow of any year. */
  lemma CashFlowsMonotone(b1: real, fs1: seq<real>, b2: real, fs2: seq<real>, c: Costs)
    requires 0.0 <= b1 <= b2 && |fs1| == |fs2|
    requires forall i :: 0 <= i < |fs1| ==> 0.0 <= fs1[i] <= fs2[i]
    ensures forall i :: 0 <= i < |fs1| ==>
              CashFlows(b1, fs1, c)[i].year == CashFlows(b2, fs2, c)[i].year
              && CashFlows(b1, fs1, c)[i].netCashFlow <= CashFlows(b2, fs2, c)[i].netCashFlow
  {
    forall i | 0 <= i < |fs1|
      ensures CashFlows(b1, fs1, c)[i].netCashFlow <= CashFlows(b2, fs2, c)[i].netCashFlow
    {
      YearRowMonotone(i + 1, b1, b2, fs1[i], fs2[i], c);
    }
  }

  /** Lower benefits or a lower factor never raise a yearly row's net. */
  lemma YearRowMonotone(year: nat, b1: real, b2: real, f1: real, f2: real, c: Costs)
    requires 0.0 <= b1 <= b2 && 0.0 <= f1 <= f2
    ensures YearRow(year, b1, f1, c).netCashFlow <= YearRow(year, b2, f2, c).netCashFlow
  {
    ProductMonotone(YearRow(year, b1, f1, c).benefits, YearRow(year, b2, f2, c).benefits, b1, b2, f1, f2);
  }

  /** Appending the next month's factor extends the factor list by one month. */
  lemma MonthFactorsSnoc(first: int, k: nat, delay: int, ramp: int)
    ensures MonthFactors(first, k, delay, ramp) + [RealizationFactor(first + k, delay, ramp)]
            == MonthFactors(first, k + 1, delay, ramp)
  {
  }

  /** Appending the next year's row extends the cash flows by one year. */
  lemma CashFlowsSnoc(benefits: real, factors: seq<real>, f: real, c: Costs)
    ensures CashFlows(benefits, factors, c) + [YearRow(|factors| + 1, benefits, f, c)] == CashFlows(benefits, factors + [f], c)
  {
  }

  /** The twelve monthly factors of evaluation year `year`, collected month by month. */
  method MonthlyFactorsOfYear(year: int, delay: int, ramp: int) returns (monthlyFactors: seq<real>)
    ensures monthlyFactors == MonthFactors((year - 1) * 12 + 1, 12, delay, ramp)
  {
    var startMonth := (year - 1) * 12 + 1;
    var endMonth := year * 12;
    monthlyFactors := [];
    var month := startMonth;
    while month <= endMonth
      invariant startMonth <= month <= endMonth + 1
      invariant monthlyFactors == MonthFactors(startMonth, month - startMonth, delay, ramp)
    {
      MonthFactorsSnoc(startMonth, month - startMonth, delay, ramp);
      monthlyFactors := monthlyFactors + [RealizationFactor(month, delay, ramp)];
      month := month + 1;
    }
  }

  /** The mean of a year's monthly factors is its yearly realization factor. */
  lemma MeanOfYear(year: int, delay: int, ramp: int)
    ensures Mean(MonthFactors((year - 1) * 12 + 1, 12, delay, ramp)) == YearRealization(year, delay, ramp)
  {
    MeanOfMonths((year - 1) * 12 + 1, 12, year * 12, delay, ramp);
  }

  /** The mean of the factors of months first..last is their sum over their count. */
  lemma MeanOfMonths(first: int, count: nat, last: int, delay: int, ramp: int)
    requires count > 0 && last == first + count - 1
    ensures Mean(MonthFactors(first, count, delay, ramp)) == FactorSum(first, last, delay, ramp) / count as real
  {
    MonthFactorsSum(first, count, last, delay, ramp);
  }

  /** What calculate_scenario_results returns for these inputs. */
  ghost predicate IsScenarioResult(res: ScenarioResult, baseBenefits: real, benefitsMult: real, delayMult: real, t: Timeline, c: Costs)
    requires 1.0 + t.discountRate != 0.0
  {
    && res.annualBenefits == baseBenefits * benefitsMult
    && res.benefitsMultiplier == benefitsMult
    && res.implDelay == ScenarioDelay(t.delayMonths, delayMult)
    && res.cashFlows == CashFlows(res.annualBenefits, YearFactors(res.implDelay, t.rampMonths, t.evaluationYears), c)
    && res.npv == Npv(res.cashFlows, t.discountRate)
    && res.roi == Roi(res.npv, Tco(res.cashFlows))
    && res.paybackYears == FirstBreakEven(0.0, Nets(res.cashFlows))
  }

  /** The yearly rows, built year by year from each year's twelve monthly factors. */
  method BuildCashFlows(benefits: real, delay: int, ramp: int, years: int, c: Costs)
    returns (flows: seq<CashFlowYear>)
    ensures flows == CashFlows(benefits, YearFactors(delay, ramp, years), c)
  {
    flows := [];
    var year := 1;
    while year <= years
      invariant 1 <= year <= if years > 0 then years + 1 else 1
      invariant flows == CashFlows(benefits, YearFactors(delay, ramp, year - 1), c)
    {
      var monthlyFactors := MonthlyFactorsOfYear(year, delay, ramp);
      var avg := Mean(monthlyFactors);
      MeanOfYear(year, delay, ramp);
      var row := YearRow(year, benefits, avg, c);
      CashFlowsSnoc(benefits, YearFactors(delay, ramp, year - 1), avg, c);
      flows := flows + [row];
      year := year + 1;
    }
    if years < 1 {
      assert YearFactors(delay, ramp, years) == [];
    }
  }

  /** The first evaluation year whose cumulative net cash flow is non-negative, if any. */
  method AnnualPayback(flows: seq<CashFlowYear>) returns (payback: Option<nat>)
    requires forall i :: 0 <= i < |flows| ==> flows[i].year == i + 1
    ensures payback == FirstBreakEven(0.0, Nets(flows))
  {
    payback := None;
    var cumulative := 0.0;
    ghost var nets := Nets(flows);
    var i := 0;
    while i < |flows|
      invariant 0 <= i <= |flows|
      invariant payback == None
      invariant cumulative == PrefixSum(nets, i)
      invariant FirstBreakEven(0.0, nets) == FirstBreakEvenFrom(0.0, nets, i + 1)
    {
      cumulative := cumulative + flows[i].netCashFlow;
      if cumulative >= 0.0 {
        payback := Some(flows[i].year);
        break;
      }
      i := i + 1;
    }
  }

  /**
    Runs one scenario: scales the benefits and the delay (the ramp is not
    scaled), builds the yearly rows from the monthly factors, computes NPV,
    TCO and ROI, and finds the first year whose cumulative net cash flow is
    non-negative.
   */
  method CalculateScenarioResults(baseBenefits: real, benefitsMult: real, delayMult: real, t: Timeline, c: Costs)
    returns (res: ScenarioResult)
    requires 1.0 + t.discountRate != 0.0
    ensures IsScenarioResult(res, baseBenefits, benefitsMult, delayMult, t, c)
  {
    var scenarioBenefits := baseBenefits * benefitsMult;
    var scenarioDelay := ScenarioDelay(t.delayMonths, delayMult);
    var flows := BuildCashFlows(scenarioBenefits, scenarioDelay, t.rampMonths, t.evaluationYears, c);
    var npv := Npv(flows, t.discountRate);
    var tco := Tco(flows);
    var roi := Roi(npv, tco);
    var payback := AnnualPayback(flows);
    res := ScenarioResult(npv, roi, payback, scenarioDelay, benefitsMult, flows, scenarioBenefits);
  }
}
