/**
  The month-by-month view of bva.py: the monthly payback search
  (calculate_payback_months) and the cumulative cash-flow series behind
  the monthly chart (get_monthly_cumulative_cash_flow). Both charge the
  one-time services cost at month 0 and then add each month's net flow.
 */
module Monthly {
  import opened Wrappers
  import opened Sums
  import opened Realization

  /** The inputs both monthly computations share. */
  datatype MonthlyPlan = MonthlyPlan(
    annualBenefits: real,
    annualPlatformCost: real,
    servicesCost: real,
    delay: int,
    ramp: int)

  /** A row of the monthly series: month number, that month's net flow, the running total. */
  datatype MonthRow = MonthRow(month: nat, netCashFlow: real, cumulativeNetCashFlow: real)

  /**
    Net cash flow of month `month`: a twelfth of the annual benefit scaled
    by the month's realization factor, less a twelfth of the platform cost.
   */
  function MonthlyNet(p: MonthlyPlan, month: int): (r: real)
  {
    MonthlyBenefit(p.annualBenefits, RealizationFactor(month, p.delay, p.ramp)) - p.annualPlatformCost / 12.0
  }

  /** The benefit of a month whose realization factor is `factor`: that factor's share of a twelfth of the annual benefit. */
  function MonthlyBenefit(annualBenefits: real, factor: real): real
  {
    (annualBenefits / 12.0) * factor
  }

  /**
    Before the delay has passed a month carries only its platform cost;
    once the ramp is over it carries the full twelfth of the benefit; with
    benefits not negative every month lies between the two.
   */
  lemma MonthlyNetBounds(p: MonthlyPlan, month: int)
    ensures month <= p.delay ==> MonthlyNet(p, month) == -(p.annualPlatformCost / 12.0)
    ensures month > p.delay && month > p.delay + p.ramp ==>
              MonthlyNet(p, month) == p.annualBenefits / 12.0 - p.annualPlatformCost / 12.0
    ensures p.annualBenefits >= 0.0 ==>
              -(p.annualPlatformCost / 12.0) <= MonthlyNet(p, month) <= p.annualBenefits / 12.0 - p.annualPlatformCost / 12.0
  {
    var f := RealizationFactor(month, p.delay, p.ramp);
    if p.annualBenefits >= 0.0 {
      ShareBounds(p.annualBenefits / 12.0, f);
    }
  }

  /** A factor in [0, 1] takes between nothing and all of a non-negative amount. */
  lemma ShareBounds(x: real, f: real)
    requires x >= 0.0 && 0.0 <= f <= 1.0
    ensures 0.0 <= x * f <= x
  {
  }

  /** The number of months a loop over months 1..maxMonths visits. */
  function MonthCount(maxMonths: int): nat
  {
    if maxMonths > 0 then maxMonths else 0
  }

  /** The net flows of months 1..count, as a list built month by month. */
  function MonthlyNets(p: MonthlyPlan, count: nat): (xs: seq<real>)
    ensures |xs| == count
  {
    if count == 0 then [] else MonthlyNets(p, count - 1) + [MonthlyNet(p, count)]
  }

  /** Position i of the list holds the net of month i + 1. */
  lemma {:induction false} MonthlyNetsAt(p: MonthlyPlan, count: nat, i: nat)
    requires i < count
    ensures MonthlyNets(p, count)[i] == MonthlyNet(p, i + 1)
  {
    if i < count - 1 {
      MonthlyNetsAt(p, count - 1, i);
    }
  }

  /** Month m of the list (1-based) holds the net of month m. */
  lemma MonthlyNetOfMonth(p: MonthlyPlan, count: nat, month: nat)
    requires 1 <= month <= count
    ensures MonthlyNets(p, count)[month - 1] == MonthlyNet(p, month)
  {
    MonthlyNetsAt(p, count, month - 1);
  }

  /** The running total after month k: minus the services cost, plus the nets of months 1..k. */
  function MonthlyCumulative(p: MonthlyPlan, k: nat): real
  {
    if k == 0 then -p.servicesCost else MonthlyCumulative(p, k - 1) + MonthlyNet(p, k)
  }

  /** The running total is the services cost taken from the prefix sum of any longer list of monthly nets. */
  lemma {:induction false} MonthlyCumulativeIsPrefixSum(p: MonthlyPlan, k: nat, n: nat)
    requires k <= n
    ensures MonthlyCumulative(p, k) == -p.servicesCost + PrefixSum(MonthlyNets(p, n), k)
  {
    if k > 0 {
      MonthlyCumulativeIsPrefixSum(p, k - 1, n);
      MonthlyNetOfMonth(p, n, k);
    }
  }

  /** Benefits that are not negative make the monthly nets non-decreasing, because the factor is. */
  lemma MonthlyNetMonotone(p: MonthlyPlan, m1: int, m2: int)
    requires p.annualBenefits >= 0.0 && m1 <= m2
    ensures MonthlyNet(p, m1) <= MonthlyNet(p, m2)
  {
    var f1, f2 := RealizationFactor(m1, p.delay, p.ramp), RealizationFactor(m2, p.delay, p.ramp);
    RealizationFactorMonotone(m1, m2, p.delay, p.ramp);
    ScaleMonotone(MonthlyNet(p, m1), MonthlyNet(p, m2), p.annualBenefits / 12.0, f1, f2, p.annualPlatformCost / 12.0);
  }

  /** Benefits that are not negative make the whole list of monthly nets non-decreasing. */
  lemma MonthlyNetsNonDecreasing(p: MonthlyPlan, n: nat)
    requires p.annualBenefits >= 0.0
    ensures forall i, j :: 0 <= i <= j < n ==> MonthlyNets(p, n)[i] <= MonthlyNets(p, n)[j]
  {
    forall i, j | 0 <= i <= j < n
      ensures MonthlyNets(p, n)[i] <= MonthlyNets(p, n)[j]
    {
      MonthlyNetsAt(p, n, i);
      MonthlyNetsAt(p, n, j);
      MonthlyNetMonotone(p, i + 1, j + 1);
    }
  }

  /** More yearly benefits and a shorter delay give every month a net at least as large. */
  lemma MonthlyNetDominated(p1: MonthlyPlan, p2: MonthlyPlan, month: int)
    requires 0.0 <= p1.annualBenefits <= p2.annualBenefits && p2.delay <= p1.delay
    requires p1.annualPlatformCost == p2.annualPlatformCost && p1.ramp == p2.ramp
    ensures MonthlyNet(p1, month) <= MonthlyNet(p2, month)
  {
    var f1, f2 := RealizationFactor(month, p1.delay, p1.ramp), RealizationFactor(month, p2.delay, p2.ramp);
    RealizationFactorDelayAntitone(month, p2.delay, p1.delay, p1.ramp);
    ScaleDominated(MonthlyNet(p1, month), MonthlyNet(p2, month), p1.annualBenefits / 12.0, p2.annualBenefits / 12.0, f1, f2, p1.annualPlatformCost / 12.0);
  }

  /** More yearly benefits and a shorter delay give every month of the list a net at least as large. */
  lemma MonthlyNetsDominated(p1: MonthlyPlan, p2: MonthlyPlan, n: nat)
    requires 0.0 <= p1.annualBenefits <= p2.annualBenefits && p2.delay <= p1.delay
    requires p1.annualPlatformCost == p2.annualPlatformCost && p1.ramp == p2.ramp
    ensures forall i :: 0 <= i < n ==> MonthlyNets(p1, n)[i] <= MonthlyNets(p2, n)[i]
  {
    forall i | 0 <= i < n
      ensures MonthlyNets(p1, n)[i] <= MonthlyNets(p2, n)[i]
    {
      MonthlyNetsAt(p1, n, i);
      MonthlyNetsAt(p2, n, i);
      MonthlyNetDominated(p1, p2, i + 1);
    }
  }

  /** A larger non-negative amount at a larger factor, less the same cost, gives a larger net. */
  lemma ScaleDominated(n1: real, n2: real, x1: real, x2: real, f1: real, f2: real, q: real)
    requires 0.0 <= x1 <= x2 && 0.0 <= f1 <= f2
    requires n1 == x1 * f1 - q && n2 == x2 * f2 - q
    ensures n1 <= n2
  {
    assert x1 * f1 <= x2 * f1;
  }

  /** A non-negative amount at a larger factor, less the same cost, gives a larger net. */
  lemma ScaleMonotone(n1: real, n2: real, x: real, f1: real, f2: real, q: real)
    requires x >= 0.0 && f1 <= f2
    requires n1 == x * f1 - q && n2 == x * f2 - q
    ensures n1 <= n2
  {
  }

  /**
    The twelve months of evaluation year `year` add up to the annual
    benefit times the year's realization factor `yr`, less the annual
    platform cost: the monthly and the yearly projections agree at every
    year end.
   */
  lemma {:induction false} YearOfMonths(p: MonthlyPlan, year: nat, n: nat, yr: real)
    requires 1 <= year && year * 12 <= n
    requires yr == YearRealization(year, p.delay, p.ramp)
    ensures PrefixSum(MonthlyNets(p, n), year * 12)
            == PrefixSum(MonthlyNets(p, n), (year - 1) * 12) + p.annualBenefits * yr - p.annualPlatformCost
  {
    YearWindow(p, (year - 1) * 12, year * 12, n, yr);
  }

  /** Twelve consecutive months add the annual benefit times their mean factor `yr`, less the annual platform cost. */
  lemma {:induction false} YearWindow(p: MonthlyPlan, start: nat, end: nat, n: nat, yr: real)
    requires end == start + 12 && end <= n
    requires yr == FactorSum(start + 1, end, p.delay, p.ramp) / 12.0
    ensures PrefixSum(MonthlyNets(p, n), end)
            == PrefixSum(MonthlyNets(p, n), start) + p.annualBenefits * yr - p.annualPlatformCost
  {
    MonthlyWindow(p, start, end, n, yr);
    TwelveTwelfths(start, end, p.annualPlatformCost);
  }

  /** Twelve months of a twelfth of the annual platform cost make the annual platform cost. */
  lemma TwelveTwelfths(start: int, end: int, q: real)
    requires end == start + 12
    ensures (end - start) as real * (q / 12.0) == q
  {
  }

  /**
    The months start + 1 .. end, whose mean factor is `m`, add the annual
    benefit times `m` times the share of the year they cover, less a
    twelfth of the platform cost per month.
   */
  lemma {:induction false} MonthlyWindow(p: MonthlyPlan, start: nat, end: nat, n: nat, m: real)
    requires start <= end <= n
    requires m == FactorSum(start + 1, end, p.delay, p.ramp) / 12.0
    ensures PrefixSum(MonthlyNets(p, n), end)
            == PrefixSum(MonthlyNets(p, n), start) + p.annualBenefits * m - (end - start) as real * (p.annualPlatformCost / 12.0)
  {
    var k := end - start;
    var fs := MonthFactors(start + 1, k, p.delay, p.ramp);
    MonthFactorsSum(start + 1, k, end, p.delay, p.ramp);
    forall i | start <= i < end
      ensures MonthlyNets(p, n)[i] == MonthlyBenefit(p.annualBenefits, fs[i - start]) - p.annualPlatformCost / 12.0
    {
      WindowNet(p, n, start, k, i);
    }
    AffineMonths(MonthlyNets(p, n), fs, m, p, start, end);
  }

  /** A month of a window holds a twelfth of the benefit at its factor, less a twelfth of the platform cost. */
  lemma WindowNet(p: MonthlyPlan, n: nat, start: nat, k: nat, i: nat)
    requires start <= i < start + k <= n
    ensures MonthlyNets(p, n)[i]
            == MonthlyBenefit(p.annualBenefits, MonthFactors(start + 1, k, p.delay, p.ramp)[i - start]) - p.annualPlatformCost / 12.0
  {
    MonthlyNetsAt(p, n, i);
    MonthFactorsAt(start + 1, k, p.delay, p.ramp, i - start, i + 1);
  }

  /** Months whose nets follow the factors `fs` add the benefit times their mean factor `m`, less their platform cost. */
  lemma AffineMonths(nets: seq<real>, fs: seq<real>, m: real, p: MonthlyPlan, start: nat, end: nat)
    requires start <= end <= |nets| && end - start <= |fs| && m == PrefixSum(fs, end - start) / 12.0
    requires forall i :: start <= i < end ==> nets[i] == MonthlyBenefit(p.annualBenefits, fs[i - start]) - p.annualPlatformCost / 12.0
    ensures PrefixSum(nets, end)
            == PrefixSum(nets, start) + p.annualBenefits * m - (end - start) as real * (p.annualPlatformCost / 12.0)
  {
    AffineWindow(nets, start, end, fs, p.annualBenefits / 12.0, p.annualPlatformCost / 12.0);
    TwelfthShare(p.annualBenefits, PrefixSum(fs, end - start), m);
  }

  /** A twelfth of the benefit times the summed factors is the benefit times their mean. */
  lemma TwelfthShare(b: real, t: real, m: real)
    requires m == t / 12.0
    ensures b / 12.0 * t == b * m
  {
  }

  /**
    The first month in 1..maxMonths at which the running total, started
    at minus the services cost, is no longer negative, or None.
   */
  function PaybackMonth(p: MonthlyPlan, maxMonths: int): Option<nat>
  {
    FirstBreakEven(-p.servicesCost, MonthlyNets(p, MonthCount(maxMonths)))
  }

  /**
    calculate_payback_months: the first month in 1..maxMonths at which
    the running total, started at minus the services cost, is no longer
    negative; None ("N/A") when there is none.
   */
  method PaybackMonths(p: MonthlyPlan, maxMonths: int) returns (payback: Option<nat>)
    ensures payback == PaybackMonth(p, maxMonths)
  {
    ghost var nets := MonthlyNets(p, MonthCount(maxMonths));
    var cumulativeCashFlow := 0.0;
    payback := None;
    cumulativeCashFlow := cumulativeCashFlow - p.servicesCost;
    var month := 1;
    while month <= maxMonths
      invariant 1 <= month <= if maxMonths > 0 then maxMonths + 1 else 1
      invariant payback == None
      invariant cumulativeCashFlow == -p.servicesCost + PrefixSum(nets, month - 1)
      invariant FirstBreakEven(-p.servicesCost, nets) == FirstBreakEvenFrom(-p.servicesCost, nets, month)
    {
      var factor := RealizationFactor(month, p.delay, p.ramp);
      var monthlyBenefit := MonthlyBenefit(p.annualBenefits, factor);
      var monthlyPlatformCost := p.annualPlatformCost / 12.0;
      var monthlyNetCashFlow := monthlyBenefit - monthlyPlatformCost;
      MonthlyNetOfMonth(p, MonthCount(maxMonths), month);
      cumulativeCashFlow := cumulativeCashFlow + monthlyNetCashFlow;
      if cumulativeCashFlow >= 0.0 {
        payback := Some(month);
        break;
      }
      month := month + 1;
    }
  }

  /** The monthly series: row 0 carries the services cost, row k the net and running total of month k. */
  function MonthlySeries(p: MonthlyPlan, totalMonths: nat): (rows: seq<MonthRow>)
    ensures |rows| == totalMonths + 1
    ensures forall k :: 0 <= k <= totalMonths ==>
              rows[k] == MonthRow(k, if k == 0 then -p.servicesCost else MonthlyNet(p, k), MonthlyCumulative(p, k))
  {
    seq(totalMonths + 1, k requires 0 <= k => MonthRow(k, if k == 0 then -p.servicesCost else MonthlyNet(p, k), MonthlyCumulative(p, k)))
  }

  /**
    The series starts at minus the services cost and every later running
    total is the previous one plus that month's net.
   */
  lemma MonthlySeriesShape(p: MonthlyPlan, totalMonths: nat)
    ensures MonthlySeries(p, totalMonths)[0].netCashFlow == -p.servicesCost
    ensures MonthlySeries(p, totalMonths)[0].cumulativeNetCashFlow == -p.servicesCost
    ensures forall k :: 1 <= k <= totalMonths ==>
              MonthlySeries(p, totalMonths)[k].cumulativeNetCashFlow
              == MonthlySeries(p, totalMonths)[k - 1].cumulativeNetCashFlow + MonthlySeries(p, totalMonths)[k].netCashFlow
  {
  }

  /**
    get_monthly_cumulative_cash_flow: one row for month 0 and one for each
    month 1..evaluationYears * 12, built month by month.
   */
  method MonthlyCumulativeCashFlow(p: MonthlyPlan, evaluationYears: int) returns (monthlyData: seq<MonthRow>)
    ensures monthlyData == MonthlySeries(p, MonthCount(evaluationYears * 12))
  {
    var totalMonths := evaluationYears * 12;
    monthlyData := [MonthRow(0, -p.servicesCost, -p.servicesCost)];
    var cumulativeCashFlow := -p.servicesCost;
    var month := 1;
    while month <= totalMonths
      invariant 1 <= month <= if totalMonths > 0 then totalMonths + 1 else 1
      invariant monthlyData == MonthlySeries(p, month - 1)
      invariant cumulativeCashFlow == MonthlyCumulative(p, month - 1)
    {
      var factor := RealizationFactor(month, p.delay, p.ramp);
      var monthlyBenefit := MonthlyBenefit(p.annualBenefits, factor);
      var monthlyPlatformCost := p.annualPlatformCost / 12.0;
      var monthlyNetCashFlow := monthlyBenefit - monthlyPlatformCost;
      cumulativeCashFlow := cumulativeCashFlow + monthlyNetCashFlow;
      monthlyData := monthlyData + [MonthRow(month, monthlyNetCashFlow, cumulativeCashFlow)];
      month := month + 1;
    }
  }

  /**
    With the horizon set to the whole series, the payback month is the
    first row after row 0 whose running total is not negative, and there
    is none exactly when every such row is negative.
   */
  lemma PaybackMatchesSeries(p: MonthlyPlan, totalMonths: nat)
    ensures var payback := FirstBreakEven(-p.servicesCost, MonthlyNets(p, totalMonths));
            var rows := MonthlySeries(p, totalMonths);
            && (payback.Some? ==> 1 <= payback.value <= totalMonths
                                  && rows[payback.value].cumulativeNetCashFlow >= 0.0
                                  && forall k :: 1 <= k < payback.value ==> rows[k].cumulativeNetCashFlow < 0.0)
            && (payback.None? <==> forall k :: 1 <= k <= totalMonths ==> rows[k].cumulativeNetCashFlow < 0.0)
  {
    forall k | 0 <= k <= totalMonths
      ensures MonthlySeries(p, totalMonths)[k].cumulativeNetCashFlow
              == -p.servicesCost + PrefixSum(MonthlyNets(p, totalMonths), k)
    {
      MonthlyCumulativeIsPrefixSum(p, k, totalMonths);
    }
  }
}
