/** The benefit-realization curve of bva.py (calculate_benefit_realization_factor). */
module Realization {
  import opened Sums

  /**
    Fraction of the full benefit realized in absolute month `month`:
    nothing up to and including month `delay`, a linear ramp over the next
    `ramp` months, then everything. When `ramp <= 0` the ramp branch cannot
    be entered, so the division never sees a zero divisor.
   */
  function RealizationFactor(month: int, delay: int, ramp: int): (r: real)
    ensures 0.0 <= r <= 1.0
    ensures month <= delay ==> r == 0.0
    ensures month > delay && month > delay + ramp ==> r == 1.0
    ensures delay < month <= delay + ramp ==> 0 < ramp
  {
    if month <= delay then 0.0
    else if month <= delay + ramp then (month - delay) as real / ramp as real
    else 1.0
  }

  /** On the ramp the factor is the elapsed share (month - delay) / ramp of the ramp. */
  lemma RealizationFactorOnRamp(month: int, delay: int, ramp: int)
    requires delay < month <= delay + ramp
    ensures RealizationFactor(month, delay, ramp) * ramp as real == (month - delay) as real
  {
  }

  /** Dividing by the same positive number keeps the order. */
  lemma DivideMonotone(a: real, b: real, c: real)
    requires a <= b && c > 0.0
    ensures a / c <= b / c
  {
  }

  /** For a fixed delay and ramp the factor never decreases from one month to a later one. */
  lemma RealizationFactorMonotone(m1: int, m2: int, delay: int, ramp: int)
    requires m1 <= m2
    ensures RealizationFactor(m1, delay, ramp) <= RealizationFactor(m2, delay, ramp)
  {
    if delay < m1 && m2 <= delay + ramp {
      DivideMonotone((m1 - delay) as real, (m2 - delay) as real, ramp as real);
    }
  }

  /** A longer implementation delay never raises the factor of a given month. */
  lemma RealizationFactorDelayAntitone(month: int, d1: int, d2: int, ramp: int)
    requires d1 <= d2
    ensures RealizationFactor(month, d2, ramp) <= RealizationFactor(month, d1, ramp)
  {
    if d2 < month <= d2 + ramp && d1 < month <= d1 + ramp {
      DivideMonotone((month - d2) as real, (month - d1) as real, ramp as real);
    }
  }

  /** The factors of `count` consecutive months starting at month `first`, as a list. */
  function MonthFactors(first: int, count: nat, delay: int, ramp: int): (fs: seq<real>)
    ensures |fs| == count
    ensures forall i :: 0 <= i < count ==> fs[i] == RealizationFactor(first + i, delay, ramp)
  {
    seq(count, i => RealizationFactor(first + i, delay, ramp))
  }

  /** Position j of the factor list of months first.. holds the factor of month first + j. */
  lemma MonthFactorsAt(first: int, count: nat, delay: int, ramp: int, j: nat, month: int)
    requires j < count && month == first + j
    ensures MonthFactors(first, count, delay, ramp)[j] == RealizationFactor(month, delay, ramp)
  {
  }

  /** The sum of the factors of months first..last (0 when the range is empty). */
  function FactorSum(first: int, last: int, delay: int, ramp: int): (s: real)
    ensures 0.0 <= s
    ensures first <= last ==> s <= (last - first + 1) as real
    decreases last - first
  {
    if last < first then 0.0
    else FactorSum(first, last - 1, delay, ramp) + RealizationFactor(last, delay, ramp)
  }

  /** The list of the factors of months first..last sums to FactorSum. */
  lemma {:induction false} MonthFactorsSum(first: int, count: nat, last: int, delay: int, ramp: int)
    requires last == first + count - 1
    ensures PrefixSum(MonthFactors(first, count, delay, ramp), count) == FactorSum(first, last, delay, ramp)
  {
    if count > 0 {
      var fs, gs := MonthFactors(first, count, delay, ramp), MonthFactors(first, count - 1, delay, ramp);
      PrefixSumAgree(fs, gs, count - 1);
      MonthFactorsSum(first, count - 1, last - 1, delay, ramp);
      MonthFactorsAt(first, count, delay, ramp, count - 1, last);
    }
  }

  /**
    The realization factor of evaluation year `year`: the mean of the
    factors of its twelve months (year - 1) * 12 + 1 .. year * 12.
   */
  function YearRealization(year: int, delay: int, ramp: int): (r: real)
    ensures 0.0 <= r <= 1.0
  {
    FactorSum((year - 1) * 12 + 1, year * 12, delay, ramp) / 12.0
  }

  /** A longer delay never raises the summed factors of a run of months. */
  lemma {:induction false} FactorSumDelayAntitone(first: int, last: int, d1: int, d2: int, ramp: int)
    requires d1 <= d2
    ensures FactorSum(first, last, d2, ramp) <= FactorSum(first, last, d1, ramp)
    decreases last - first
  {
    if first <= last {
      FactorSumDelayAntitone(first, last - 1, d1, d2, ramp);
      RealizationFactorDelayAntitone(last, d1, d2, ramp);
    }
  }

  /** A longer delay never raises a year's mean factor. */
  lemma YearRealizationDelayAntitone(year: int, d1: int, d2: int, ramp: int)
    requires d1 <= d2
    ensures YearRealization(year, d2, ramp) <= YearRealization(year, d1, ramp)
  {
    FactorSumDelayAntitone((year - 1) * 12 + 1, year * 12, d1, d2, ramp);
  }
}
