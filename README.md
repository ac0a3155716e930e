# Business-value projection engine of bva.py, modelled in Dafny

`bva.py` is a Streamlit calculator. It turns the operating figures of a security or IT operations team into a multi-year business case for a platform purchase. Those figures are:

- alert and incident volumes;
- FTEs, triage times and salaries;
- expected reductions;
- major-incident MTTR (mean time to repair);
- platform and services costs;
- the implementation timeline.

This project models the engine under the user interface. The modules follow the steps of that computation:

- `CostAllocation`: the working-time and cost allocation of `calculate_alert_costs` and `calculate_incident_costs`. The two are one algorithm, modelled once as `AllocateCost`.
- `Benefits`: the baseline benefit formulas, namely:
  - reduction savings on avoided units;
  - triage savings on the cost of the units that remain;
  - major-incident MTTR savings;
  - the plain sum into the total annual benefits;
  - the effective salary and the equivalent-FTE figure.
- `Realization`: `calculate_benefit_realization_factor`. It is 0 during the delay, a linear ramp after it, then 1. The module also holds the mean factor of an evaluation year.
- `Sums`: running sums, means, and the break-even search that the annual and the monthly payback share.
- `Scenario`: `calculate_scenario_results`. It covers:
  - the scaled benefits and delay;
  - the yearly cash-flow rows built from twelve monthly factors per year;
  - NPV, TCO, ROI;
  - the first year whose cumulative net cash flow is non-negative.
  - Its nested loops and its payback loop are methods, each proved against a function.
- `Monthly`: `calculate_payback_months` and `get_monthly_cumulative_cash_flow`. Both are month loops that start at minus the services cost. Each is a method proved against a function.
- `Projection`: the run over the three-scenario table, followed by the pass that adds each scenario's monthly payback. It also holds properties that relate the parts:
  - With non-negative benefits and services cost, the annual payback year is the year of the monthly payback month.
  - Take non-negative base benefits and two scenarios whose multipliers are non-negative and ordered: a benefits multiplier at least as large and a delay multiplier at most as large. That scenario's paybacks are no later. Its NPV is no lower when the discount rate is above −100%. Its ROI is no lower when, in addition, the TCO is positive.

Conventions of the model:

- All amounts are `real`. IEEE rounding is not modelled.
- `np.mean` over the twelve monthly factors is their sum divided by 12.
- The module-level inputs (timeline, costs, calendar, percentages) are explicit parameters, grouped in `Timeline`, `Costs`, `MonthlyPlan`, `WorkCalendar` and `BaselineInputs`.
- The payback labels `"N years"`, `"N months"` and `"N/A"` are `Option<nat>`.
- Python's `int()` on a float truncates toward zero. This is written out as `Scenario.Trunc`.

For the standard calendar of 8 hours a day, 5 days a week, 52 weeks and 25 days off, bva.py:603-604 gives (52 × 5 − 25) × 8 = 1,880 working hours per FTE; `CostAllocation.StandardAlertExample` proves it.

## Model

| member | source | states |
|---|---|---|
| CostAllocation.AnnualWorkingHours | bva.py:603-604 | Defines the working hours of one FTE per year: (weeks × days per week − days off) × hours per day. AllocateCost reports this value as its fourth result. |
| CostAllocation.AllocateCost | bva.py:597-613 | Zero volume or zero FTEs returns all zeros. Otherwise hours per FTE are (weeks × days − days off) × hours per day. When FTE hours are available, the time fraction times the available hours equals the triage hours, so it is not clamped. Handling cost = FTEs × salary × fraction. Cost per unit × volume = handling cost for non-negative volume, and cost per unit is 0 for negative volume. No available hours gives fraction and costs 0. |
| CostAllocation.CostPerUnitClosedForm | bva.py:619-635 | For a positive volume, non-zero FTEs and available FTE hours (FTEs × hours per FTE > 0), cost per unit = (triage minutes / 60) × salary / hours per FTE. The volume condition is needed: at a volume ≤ 0, AllocateCost gives a cost per unit of 0. It does not depend on the FTE count. The incident function is the same algorithm. |
| CostAllocation.AllocationNonNegative | bva.py:600-611 | Non-negative inputs give a non-negative cost per unit, handling cost and time fraction. |
| CostAllocation.StandardAlertExample | bva.py:603-611 | Standard calendar: 1,880 hours per FTE. For 1.2M alerts at 25 minutes with 10 FTEs on 50,000: the time fraction exceeds 1, cost per alert = 25/60 × 50,000 / 1,880, and handling cost = volume × cost per alert. |
| Benefits.ReductionAndTriage | bva.py:649-659 | avoided + remaining = volume. Reduction savings + remaining handling cost = volume × cost per unit. For a non-negative volume and a reduction in [0,100], 0 ≤ avoided ≤ volume. For a triage percentage in [0,100] and a non-negative remaining handling cost, 0 ≤ triage savings ≤ remaining handling cost. A 0% triage saving saves nothing. |
| Benefits.ReductionAndTriageIs | bva.py:649-659 | With r the reduction and t the triage percentage over 100, and cost = volume × cost per unit: avoided = r × volume, remaining = (1 − r) × volume, reduction savings = r × cost, remaining handling cost = (1 − r) × cost, triage savings = t × (1 − r) × cost. The two savings together are (r + t − r × t) × cost: the percentages do not simply add. |
| Benefits.ReductionAndTriageNonNegative | bva.py:649-659 | With in-range inputs, reduction savings, remaining handling cost and triage savings are all non-negative. |
| Benefits.MajorIncidentSavings | bva.py:661-663 | MTTR savings are 0 at 0% improvement. With in-range inputs they lie between 0 and volume × MTTR hours × cost per hour. |
| Benefits.MajorIncidentSavingsIs | bva.py:661-663 | The MTTR savings equal the improvement percentage / 100 × (volume × MTTR hours × cost per hour), the full yearly cost of major-incident downtime. |
| Benefits.ComputeBaseline | bva.py:637-670 | The alert and incident allocations are AllocateCost of each workload under the shared calendar. Their savings are ReductionAndTriage at the allocated cost per unit, and the MTTR savings are MajorIncidentSavings of the major-incident inputs. The per-workload identities hold for alerts and for incidents. Total annual benefits = operational savings + the seven additional amounts, unweighted. With in-range inputs the operational savings are non-negative, so the total is at least the additional amounts. |
| Benefits.AdditionalTotal | bva.py:668-669 | Defines the sum of the seven additional benefit amounts. ComputeBaseline adds them to the total unweighted. |
| Benefits.OperationalSavings | bva.py:782-786 | Defines the savings from time saved: reduction and triage savings of alerts and incidents plus MTTR savings. ComputeBaseline and BaselineEquivalentFtes state their properties. |
| Benefits.EffectiveSalary | bva.py:789-795 | The effective salary is positive iff either salary is. When both salaries are positive it is their mean (equidistant from both). Otherwise it is the positive one, or 0 when neither is positive. |
| Benefits.EquivalentFtes | bva.py:797-799 | When salary > 0, FTEs × salary = savings, and non-negative savings give non-negative FTEs. Otherwise FTEs are 0. |
| Benefits.BaselineEquivalentFtes | bva.py:782-799 | With a positive effective salary, FTEs × salary = operational savings of the baseline. No positive salary gives 0. In-range inputs give a non-negative figure. |
| Realization.RealizationFactor | bva.py:673-682 | The factor is in [0,1]. It is 0 when month ≤ delay and 1 past delay + ramp. The ramp branch is reachable only when ramp > 0, so it never divides by zero. |
| Realization.RealizationFactorOnRamp | bva.py:677-680 | On the ramp the factor × ramp = months since go-live. |
| Realization.RealizationFactorMonotone | bva.py:673-682 | For a fixed delay and ramp the factor never decreases from month to month. |
| Realization.RealizationFactorDelayAntitone | bva.py:673-682 | A longer delay never raises a month's factor. |
| Realization.MonthFactorsSum | bva.py:697-702 | The list of the monthly factors of a run of months sums to their total, which is the numerator of the mean. |
| Realization.YearRealization | bva.py:694-702 | The mean factor of a year's twelve months lies in [0,1]. |
| Realization.YearRealizationDelayAntitone | bva.py:694-702 | A longer delay never raises a year's mean factor. |
| Scenario.Trunc | bva.py:688 | Python's `int()` on a float: for x ≥ 0 the result is in (x − 1, x]; for x < 0 it is in [x, x + 1), with no sign change. |
| Scenario.ScenarioDelay | bva.py:688 | The scaled delay is `max(0, int(delay × multiplier))`. It is 0 when the product is below 1, and otherwise the whole number of months not exceeding the product. |
| Scenario.ScenarioDelayMonotone | bva.py:688 | A larger non-negative delay multiplier never shortens the scaled delay. |
| Scenario.ScenarioDelayUnscaled | bva.py:688 | Multiplier 1.0 keeps a non-negative delay as it is and turns a negative one into 0. |
| Scenario.YearRow | bva.py:703-715 | A row carries its year and its factor. Benefits = annual benefits × factor. Platform cost every year, services cost only in year 1. Net = benefits − platform − services. |
| Scenario.YearFactors | bva.py:693-702 | The factors of evaluation years 1..n, one per year and none when n ≤ 0. YearFactorsAt says what each holds. |
| Scenario.YearFactorsAt | bva.py:693-702 | The factor of evaluation year i + 1 is the mean of its twelve months and lies in [0,1]. |
| Scenario.CashFlows | bva.py:693-715 | One row per year, row i numbered i + 1 and built by YearRow from that year's factor. |
| Scenario.MonthlyFactorsOfYear | bva.py:694-700 | The inner loop collects the factors of months (year − 1) × 12 + 1 .. year × 12, in order. |
| Scenario.MeanOfYear | bva.py:702 | The mean of those twelve factors is the year's realization factor. |
| Scenario.BuildCashFlows | bva.py:692-715 | The nested loops produce exactly CashFlows of the year factors, and none when there are no evaluation years. |
| Scenario.Discounted | bva.py:718 | Each discounted value × (1 + rate)^year = that row's net flow. Discounting starts at year 1, so year 1's services cost is discounted. |
| Scenario.Npv | bva.py:718 | Defines NPV as the sum of the discounted net flows. Discounted, NpvAtZeroRate and NpvMonotone state its properties. |
| Scenario.Tco | bva.py:719 | Defines TCO as the sum of every row's platform and services costs. TcoClosedForm gives its closed form. |
| Scenario.Roi | bva.py:720 | ROI × TCO = NPV when TCO ≠ 0, and ROI is exactly 0 when TCO = 0. |
| Scenario.TcoClosedForm | bva.py:719 | TCO = years × platform cost + services cost, whatever the benefits, and 0 with no years. |
| Scenario.TcoSharedByScenarios | bva.py:719 | Every scenario over the same number of years has the same TCO. |
| Scenario.NpvAtZeroRate | bva.py:718 | At a 0% rate the NPV is the plain sum of the net flows. |
| Scenario.NpvMonotone | bva.py:718 | At a rate above −100%, raising net flows year by year never lowers the NPV. |
| Scenario.YearFactorsAntitone | bva.py:693-702 | A longer delay never raises any year's factor. |
| Scenario.CashFlowsMonotone | bva.py:703-706 | For non-negative benefits and factors, lower benefits or lower factors never raise any year's net flow. |
| Scenario.AnnualPayback | bva.py:723-729 | The loop returns FirstBreakEven of the net flows: the first year whose cumulative net is ≥ 0, with every earlier one < 0, or None ("N/A") exactly when no prefix is ≥ 0. |
| Scenario.CalculateScenarioResults | bva.py:684-738 | The result has benefits = base × multiplier and the multiplier itself. The delay is ScenarioDelay and the ramp is unscaled. The rows are CashFlows of the year factors. NPV, ROI and the annual payback are as above. |
| Sums.FirstBreakEven | bva.py:723-729 | The first period k ≥ 1 with opening + prefix sum ≥ 0, with every earlier period < 0. None iff every period is < 0. |
| Sums.FirstBreakEvenMonotone | bva.py:723-729 | Raising every flow never postpones the break-even period. |
| Monthly.MonthlyNet | bva.py:814-819 | Defines a month's net as a twelfth of the annual benefit at the month's realization factor, less a twelfth of the platform cost. MonthlyNetBounds states its values. |
| Monthly.MonthlyBenefit | bva.py:816 | Defines a month's benefit as (annual benefits / 12) × factor. |
| Monthly.MonthlyNetBounds | bva.py:814-819 | A month before go-live carries only −platform/12. A month after the ramp carries benefits/12 − platform/12. With non-negative benefits every month lies between the two. |
| Monthly.MonthlyNetsAt | bva.py:813-819 | Position i of the month list holds the net of month i + 1. |
| Monthly.MonthlyCumulative | bva.py:807-821 | Defines the running total after month k: −services at month 0, then the previous total plus month k's net. |
| Monthly.MonthlyNets | bva.py:813-819 | The nets of months 1..n, one per month. MonthlyNetsAt says what each holds. |
| Monthly.MonthlyCumulativeIsPrefixSum | bva.py:807-821 | The running total after month k is −services + the sum of the first k monthly nets. |
| Monthly.MonthlyNetMonotone | bva.py:814-819 | For non-negative benefits a later month's net is at least an earlier month's. |
| Monthly.MonthlyNetsNonDecreasing | bva.py:813-819 | With non-negative benefits the monthly nets never decrease. |
| Monthly.MonthlyNetDominated | bva.py:814-819 | For non-negative benefits, under the same platform cost and ramp, larger benefits and a shorter delay never lower a month's net. |
| Monthly.MonthlyNetsDominated | bva.py:813-819 | For non-negative benefits, under the same platform cost and ramp, larger benefits and a shorter delay raise every monthly net or leave it equal. |
| Monthly.YearOfMonths | bva.py:693-706 | Evaluation year y's twelve monthly nets add up to benefits × the year's factor − platform cost, the yearly row's net without services. |
| Monthly.PaybackMonth | bva.py:803-827 | Defines the monthly payback as FirstBreakEven from −services over the nets of months 1..maxMonths, or of no months when maxMonths ≤ 0. PaybackMonths is proved equal to it. |
| Monthly.PaybackMonths | bva.py:803-827 | The loop returns the first month in 1..maxMonths whose running total from −services is ≥ 0. None ("N/A") iff there is none. No months are visited when maxMonths ≤ 0. |
| Monthly.MonthlySeries | bva.py:1320-1343 | The series has total months + 1 rows. Row 0 is (0, −services, −services). Row k holds month k, its net and the running total. |
| Monthly.MonthlySeriesShape | bva.py:1325-1341 | The series starts at −services, and every later running total is the previous one plus that month's net. |
| Monthly.MonthlyCumulativeCashFlow | bva.py:1318-1343 | The loop produces exactly MonthlySeries over evaluation years × 12 months. |
| Monthly.PaybackMatchesSeries | bva.py:803-827 | With the horizon equal to the series, the payback month is the first row ≥ 1 whose running total is ≥ 0. None iff every such row is < 0. |
| Projection.YearOfMonth | bva.py:693-695 | A month in 1.. falls in the year y with (y − 1) × 12 < month ≤ y × 12. No month gives no year. |
| Projection.YearsAgree | bva.py:692-715 | Each year's annual net, with the services cost added back in year 1, equals the sum of its twelve monthly nets. |
| Projection.YearAgrees | bva.py:692-715 | The same for one evaluation year y: the change in the yearly running total at y, plus the services cost when y = 1, equals the change in the monthly running total over months (y − 1) × 12 + 1 .. y × 12. |
| Projection.YearEndsAgree | bva.py:723-729 | With non-negative benefits, each yearly running total is the monthly running total at that year's end. The monthly nets never decrease. |
| Projection.AnnualPaybackFromMonthly | bva.py:723-729 | With non-negative benefits and services cost, the annual payback is the year of the monthly payback, and one exists iff the other does. |
| Projection.ScenarioPaybacksAgree | bva.py:829-843 | The same holds for every scenario run, between its `payback` and its `payback_months`. |
| Projection.RunScenarios | bva.py:742-777 | One report per row of the scenario table `Scenario.Scenarios`, in order. Each has the scenario's name, the projection of CalculateScenarioResults, and the monthly payback over evaluation years × 12 months. |
| Projection.ProjectScenarios | bva.py:766-843 | Over any list of scenario definitions, the two passes give one report per definition, in order, each the report IsReport describes. |
| Projection.ProjectEach | bva.py:766-772 | The first pass gives one projection per definition, in order, each the result of CalculateScenarioResults with that scenario's multipliers. |
| Projection.AddPaybacks | bva.py:830-843 | The second pass joins each projection with its scenario's name and monthly payback, in order. |
| Projection.ScenarioPlan | bva.py:832-840 | Defines a scenario's monthly plan: the base benefits times the benefits multiplier, the delay scaled as ScenarioDelay does, the ramp, and the platform and services costs. ScenarioInputsOrdered states how two scenarios' plans compare. |
| Projection.ScenarioInputsOrdered | bva.py:832-833 | For non-negative base benefits and non-negative multipliers, a benefits multiplier at least as large gives scaled benefits at least as large and non-negative. A delay multiplier at most as large gives a scaled delay at most as large. |
| Projection.MonthlyPayback | bva.py:832-842 | Defines a scenario's `payback_months`: PaybackMonth over its plan with an evaluation-years × 12 horizon. RunScenarios reports it, and ScenarioPaybacksAgree and MonthlyPaybacksOrdered state its properties. |
| Projection.AddMonthlyPayback | bva.py:829-843 | Adds to a scenario's projection the payback month computed from the scaled benefits and delay, the platform and services costs and an evaluation-years × 12 horizon. |
| Projection.NpvOrdered | bva.py:718 | For non-negative benefits, larger benefits and a shorter delay never lower the NPV at a rate above −100%. |
| Projection.AnnualPaybackOrdered | bva.py:723-729 | For non-negative benefits, larger benefits and a shorter delay never postpone the annual payback. |
| Projection.MonthlyPaybackOrdered | bva.py:813-827 | For non-negative benefits, under the same platform cost, services cost and ramp, larger benefits and a shorter delay never postpone the monthly payback. |
| Projection.RoiFollowsNpv | bva.py:720 | With the same positive TCO, a larger NPV gives a larger ROI. |
| Projection.ScenarioMetricsOrdered | bva.py:742-764 | Take non-negative base benefits, a discount rate above −100% (1 + rate > 0) and non-negative multipliers. A scenario with a benefits multiplier at least as large and a delay multiplier at most as large has an NPV at least as large. It has the same TCO. When that TCO is positive, its ROI is at least as large. |
| Projection.ScenarioPaybacksOrdered | bva.py:723-729 | For non-negative base benefits and non-negative multipliers, a scenario with a benefits multiplier at least as large and a delay multiplier at most as large has an annual payback no later. |
| Projection.MonthlyPaybacksOrdered | bva.py:829-843 | For non-negative base benefits and non-negative multipliers, a scenario with a benefits multiplier at least as large and a delay multiplier at most as large has a monthly payback no later. |
| Projection.ScenarioTableOrdered | bva.py:742-764 | In the scenario table `Scenario.Scenarios` (Conservative 0.7/1.3, Expected 1.0/1.0, Optimistic 1.2/0.8), each scenario's multipliers are non-negative and dominate the previous one's. The three ordering lemmas above therefore apply to neighbouring rows. |

## Left out

- The Streamlit sidebar, session state and rendering are not modelled; every input they supply is a parameter. This includes the second use of the monthly series for the Expected-scenario chart.
- CSV/JSON export and import are not modelled. Neither are the charts, the PDF report or the stakeholder narrative. These are presentation and foreign libraries.
- The industry templates are static default data for the form. The colour, description and icon that the scenario loop copies into each result are display fields. Neither is modelled.
- IEEE-754 floating point: all arithmetic is exact over `real`.
- The payback strings ("N years", "N months", "N/A") are `Option<nat>` values, not text.
- Scenario.CalculateScenarioResults requires 1 + discount rate ≠ 0. At a −100% rate the source raises ZeroDivisionError. The rate slider only offers 0-20%.
- The same requirement applies to Projection.RunScenarios, because it runs Scenario.CalculateScenarioResults.
- Monthly.PaybackMonths takes its horizon explicitly. The default of 60 months is not modelled because the only caller passes evaluation years × 12.
- The `scenario_name` argument of calculate_scenario_results is not modelled because the function never uses it.
- Projection.AnnualPaybackFromMonthly: the agreement is proved only for non-negative benefits and services cost. The input form does not enforce either, and without them the agreement is false. For example, take services −100, platform 1,200, benefits 0, delay 0 and one year. The monthly payback is month 1, because 100 − 100 = 0. The annual payback is None, because 0 − 1,200 + 100 < 0.
- Projection.ScenarioPaybacksAgree: the same hypotheses and the same gap.
