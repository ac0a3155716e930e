/**
  Running sums and the break-even search shared by the annual and the
  monthly payback computations of bva.py.
 */
module Sums {
  import opened Wrappers

  /** Sum of the first `k` elements of `xs`. */
  function PrefixSum(xs: seq<real>, k: nat): real
    requires k <= |xs|
    decreases k
  {
    if k == 0 then 0.0 else PrefixSum(xs, k - 1) + xs[k - 1]
  }

  /** Sum of all elements (Python's `sum` over a list). */
  function Sum(xs: seq<real>): real
  {
    PrefixSum(xs, |xs|)
  }

  /** Arithmetic mean of a non-empty list (what `np.mean` computes). */
  function Mean(xs: seq<real>): real
    requires |xs| > 0
  {
    Sum(xs) / |xs| as real
  }

  /** Adding only non-negative elements never lowers a running sum. */
  lemma {:induction false} PrefixSumNonDecreasing(xs: seq<real>, a: nat, b: nat)
    requires a <= b <= |xs|
    requires forall i :: a <= i < b ==> xs[i] >= 0.0
    ensures PrefixSum(xs, a) <= PrefixSum(xs, b)
  {
    if a < b {
      PrefixSumNonDecreasing(xs, a, b - 1);
    }
  }

  /** Elementwise-smaller lists have smaller running sums. */
  lemma {:induction false} PrefixSumMonotone(xs: seq<real>, ys: seq<real>, k: nat)
    requires k <= |xs| == |ys|
    requires forall i :: 0 <= i < |xs| ==> xs[i] <= ys[i]
    ensures PrefixSum(xs, k) <= PrefixSum(ys, k)
  {
    if k > 0 {
      PrefixSumMonotone(xs, ys, k - 1);
    }
  }

  /** The running sum at `k` only looks at the first `k` elements. */
  lemma {:induction false} PrefixSumAgree(xs: seq<real>, ys: seq<real>, k: nat)
    requires k <= |xs| && k <= |ys|
    requires forall i :: 0 <= i < k ==> xs[i] == ys[i]
    ensures PrefixSum(xs, k) == PrefixSum(ys, k)
  {
    if k > 0 {
      PrefixSumAgree(xs, ys, k - 1);
    }
  }

  /**
    The first position k >= `from` (1-based, at most |flows|) at which
    `opening` plus the running sum of `flows` reaches zero or more.
   */
  function FirstBreakEvenFrom(opening: real, flows: seq<real>, from: nat): (r: Option<nat>)
    requires 1 <= from
    decreases |flows| + 1 - from
    ensures r.Some? ==> from <= r.value <= |flows| && opening + PrefixSum(flows, r.value) >= 0.0
    ensures r.Some? ==> forall j :: from <= j < r.value ==> opening + PrefixSum(flows, j) < 0.0
    ensures r.None? <==> forall j :: from <= j <= |flows| ==> opening + PrefixSum(flows, j) < 0.0
  {
    if from > |flows| then None
    else if opening + PrefixSum(flows, from) >= 0.0 then Some(from)
    else FirstBreakEvenFrom(opening, flows, from + 1)
  }

  /**
    Payback: the first period k in 1..|flows| whose cumulative value
    `opening + flows[0] + ... + flows[k-1]` is non-negative, or None.
   */
  function FirstBreakEven(opening: real, flows: seq<real>): (r: Option<nat>)
    ensures r.Some? ==> 1 <= r.value <= |flows| && opening + PrefixSum(flows, r.value) >= 0.0
    ensures r.Some? ==> forall j :: 1 <= j < r.value ==> opening + PrefixSum(flows, j) < 0.0
    ensures r.None? <==> forall j :: 1 <= j <= |flows| ==> opening + PrefixSum(flows, j) < 0.0
  {
    FirstBreakEvenFrom(opening, flows, 1)
  }

  /** The break-even period is pinned down by the cumulative values alone. */
  lemma FirstBreakEvenIs(opening: real, flows: seq<real>, k: nat)
    requires 1 <= k <= |flows| && opening + PrefixSum(flows, k) >= 0.0
    requires forall j :: 1 <= j < k ==> opening + PrefixSum(flows, j) < 0.0
    ensures FirstBreakEven(opening, flows) == Some(k)
  {
  }

  /** Break-even `x` comes no later than break-even `y`: whenever `y` exists, `x` exists and is at most `y`. */
  predicate NoLaterThan(x: Option<nat>, y: Option<nat>)
  {
    y.Some? ==> x.Some? && x.value <= y.value
  }

  /** Raising every flow can only bring the break-even period forward. */
  lemma FirstBreakEvenMonotone(opening: real, xs: seq<real>, ys: seq<real>)
    requires |xs| == |ys|
    requires forall i :: 0 <= i < |xs| ==> xs[i] <= ys[i]
    ensures FirstBreakEven(opening, xs).Some? ==>
              FirstBreakEven(opening, ys).Some? && FirstBreakEven(opening, ys).value <= FirstBreakEven(opening, xs).value
  {
    var rx := FirstBreakEven(opening, xs);
    if rx.Some? {
      var k := rx.value;
      PrefixSumMonotone(xs, ys, k);
      assert opening + PrefixSum(ys, k) >= 0.0;
    }
  }

  /**
    If the elements at positions start .. end - 1 are each x * f - q for
    the matching element f of `fs`, they add x times the running sum of
    `fs` less q for each element to the running sum.
   */
  lemma {:induction false} AffineWindow(xs: seq<real>, start: nat, end: nat, fs: seq<real>, x: real, q: real)
    requires start <= end <= |xs| && end - start <= |fs|
    requires forall i :: start <= i < end ==> xs[i] == x * fs[i - start] - q
    ensures PrefixSum(xs, end) == PrefixSum(xs, start) + x * PrefixSum(fs, end - start) - (end - start) as real * q
    decreases end - start
  {
    if start < end {
      AffineWindow(xs, start, end - 1, fs, x, q);
      AffineStep(PrefixSum(xs, end - 1) - PrefixSum(xs, start), xs[end - 1], x, PrefixSum(fs, end - 1 - start), fs[end - 1 - start], q, end - start);
    }
  }

  /** One more element x * f - q extends a window sum x * s - (k - 1) * q to x * (s + f) - k * q. */
  lemma AffineStep(previous: real, next: real, x: real, s: real, f: real, q: real, k: nat)
    requires k > 0
    requires previous == x * s - (k - 1) as real * q
    requires next == x * f - q
    ensures previous + next == x * (s + f) - k as real * q
  {
  }

  /**
    When the flows never decrease and the opening balance is not positive,
    the cumulative value stays non-negative from the break-even period on.
   */
  lemma StaysBrokenEven(opening: real, xs: seq<real>, k: nat)
    requires opening <= 0.0
    requires forall i, j :: 0 <= i <= j < |xs| ==> xs[i] <= xs[j]
    requires FirstBreakEven(opening, xs).Some? && FirstBreakEven(opening, xs).value <= k <= |xs|
    ensures opening + PrefixSum(xs, k) >= 0.0
  {
    var m := FirstBreakEven(opening, xs).value;
    if m > 1 {
      assert opening + PrefixSum(xs, m - 1) < 0.0;
    }
    assert xs[m - 1] >= 0.0;
    PrefixSumNonDecreasing(xs, m, k);
  }
}
