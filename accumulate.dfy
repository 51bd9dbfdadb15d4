/**
  `itertools.accumulate(deltas, operator.add)`: the running totals of a
  sequence of integers, and what they are when every delta is positive.
 */
module RunningSum {

  /** The sum of a sequence, taken from the left. */
  function Sum(s: seq<int>): int {
    if s == [] then 0 else Sum(s[..|s| - 1]) + s[|s| - 1]
  }

  /**
    The totals `accumulate` yields once the running total has reached
    `total` and `rest` is still to come: the current total, then one more
    total per remaining element.
   */
  function AccumulateFrom(total: int, rest: seq<int>): (r: seq<int>)
    ensures |r| == |rest| + 1 && r[0] == total
    decreases |rest|
  {
    [total] + (if rest == [] then [] else AccumulateFrom(total + rest[0], rest[1..]))
  }

  /**
    `list(accumulate(d, add))`: empty for an empty input, otherwise the first
    element followed by the running totals.
   */
  function Accumulate(d: seq<int>): (r: seq<int>)
    ensures |r| == |d|
    ensures d != [] ==> r[0] == d[0]
  {
    if d == [] then [] else AccumulateFrom(d[0], d[1..])
  }

  /** Each total after the first adds the next element to the one before. */
  lemma {:induction false} AccumulateFromStep(total: int, rest: seq<int>, k: nat)
    requires k < |rest|
    ensures AccumulateFrom(total, rest)[k + 1] == AccumulateFrom(total, rest)[k] + rest[k]
    decreases |rest|
  {
    var next := AccumulateFrom(total + rest[0], rest[1..]);
    assert AccumulateFrom(total, rest) == [total] + next;
    if k > 0 {
      AccumulateFromStep(total + rest[0], rest[1..], k - 1);
    }
  }

  /**
    One total per element; the first total is the first element, and each
    later total is the previous one plus the corresponding element.
   */
  lemma AccumulateSteps(d: seq<int>)
    ensures |Accumulate(d)| == |d|
    ensures d != [] ==> Accumulate(d)[0] == d[0]
    ensures forall i :: 0 <= i < |d| - 1 ==> Accumulate(d)[i + 1] == Accumulate(d)[i] + d[i + 1]
  {
    if d != [] {
      forall i | 0 <= i < |d| - 1
        ensures Accumulate(d)[i + 1] == Accumulate(d)[i] + d[i + 1]
      {
        AccumulateFromStep(d[0], d[1..], i);
      }
    }
  }

  /** The `i`-th total is the sum of the first `i + 1` elements. */
  lemma {:induction false} AccumulateIsPrefixSum(d: seq<int>, i: nat)
    requires i < |d|
    ensures |Accumulate(d)| == |d|
    ensures Accumulate(d)[i] == Sum(d[..i + 1])
  {
    AccumulateSteps(d);
    if i == 0 {
      assert d[..1][..0] == [];
    } else {
      AccumulateIsPrefixSum(d, i - 1);
      assert d[..i + 1][..i] == d[..i];
    }
  }

  /** Every element lies in `[1, hi]`. */
  predicate DeltasWithin(d: seq<int>, hi: int) {
    forall i :: 0 <= i < |d| ==> 1 <= d[i] <= hi
  }

  /** With every delta in `[1, hi]`, the `i`-th total lies in `[i + 1, (i + 1) * hi]`. */
  lemma {:induction false} AccumulateBounds(d: seq<int>, hi: int, i: nat)
    requires DeltasWithin(d, hi) && i < |d|
    ensures |Accumulate(d)| == |d|
    ensures i + 1 <= Accumulate(d)[i] <= (i + 1) * hi
  {
    AccumulateSteps(d);
    if i > 0 {
      AccumulateBounds(d, hi, i - 1);
    }
  }

  /** Every element is at least 1. */
  predicate DeltasPositive(d: seq<int>) {
    forall i :: 0 <= i < |d| ==> 1 <= d[i]
  }

  /** With every delta at least 1, totals `j - i` places apart differ by at least `j - i`. */
  lemma {:induction false} AccumulateGap(d: seq<int>, i: nat, j: nat)
    requires DeltasPositive(d) && i <= j < |d|
    ensures |Accumulate(d)| == |d|
    ensures Accumulate(d)[j] >= Accumulate(d)[i] + (j - i)
    decreases j - i
  {
    AccumulateSteps(d);
    if i < j {
      AccumulateGap(d, i, j - 1);
    }
  }

  /** With every delta at least 1, the totals strictly increase. */
  lemma AccumulateStrictlyIncreasing(d: seq<int>)
    requires DeltasPositive(d)
    ensures |Accumulate(d)| == |d|
    ensures forall i, j :: 0 <= i < j < |d| ==> Accumulate(d)[i] < Accumulate(d)[j]
  {
    AccumulateSteps(d);
    forall i, j | 0 <= i < j < |d|
      ensures Accumulate(d)[i] < Accumulate(d)[j]
    {
      AccumulateGap(d, i, j);
    }
  }
}
