/**
 * Real-valued helpers shared by the frame combiner and the statistics
 * engine: sums, the population mean and variance, an ascending sort, and the
 * odd/even median rule. Samples are modelled as `real`; the source's f32
 * rounding is not modelled.
 */
module Numeric {

  /** Sum of the samples, accumulated left to right as the source's loops do. */
  function Sum(s: seq<real>): real
  {
    if |s| == 0 then 0.0 else Sum(s[..|s| - 1]) + s[|s| - 1]
  }

  /** Arithmetic mean: the sum divided by the sample count. */
  function Mean(s: seq<real>): real
    requires |s| > 0
  {
    Sum(s) / (|s| as real)
  }

  /** Sum of the squared deviations of the samples from `m`. */
  function SquaredDeviations(s: seq<real>, m: real): real
  {
    if |s| == 0 then 0.0
    else SquaredDeviations(s[..|s| - 1], m) + (s[|s| - 1] - m) * (s[|s| - 1] - m)
  }

  /** Population variance: the denominator is the sample count, not count - 1. */
  function PopVariance(s: seq<real>): real
    requires |s| > 0
  {
    SquaredDeviations(s, Mean(s)) / (|s| as real)
  }

  /**
   * `sqrt` is an exact square root on the non-negative reals. That the root
   * of 0 is 0 follows from the first conjunct; it is spelled out because the
   * solver does not derive it from a product.
   */
  ghost predicate IsSqrt(sqrt: real -> real)
  {
    (forall x :: 0.0 <= x ==> 0.0 <= sqrt(x) && sqrt(x) * sqrt(x) == x) && sqrt(0.0) == 0.0
  }

  /** Population standard deviation, for a given square root. */
  function StdDev(s: seq<real>, sqrt: real -> real): real
    requires |s| > 0
  {
    sqrt(PopVariance(s))
  }

  lemma {:induction false} SumBounds(s: seq<real>, lo: real, hi: real)
    requires forall i | 0 <= i < |s| :: lo <= s[i] <= hi
    ensures (|s| as real) * lo <= Sum(s) <= (|s| as real) * hi
  {
    if |s| > 0 {
      SumBounds(s[..|s| - 1], lo, hi);
    }
  }

  /** The mean lies between any common lower and upper bound of the samples. */
  lemma MeanBounds(s: seq<real>, lo: real, hi: real)
    requires |s| > 0
    requires forall i | 0 <= i < |s| :: lo <= s[i] <= hi
    ensures lo <= Mean(s) <= hi
  {
    SumBounds(s, lo, hi);
    var n := |s| as real;
    assert n * lo <= Sum(s) <= n * hi;
    assert Sum(s) / n >= lo by { assert Sum(s) >= n * lo; }
    assert Sum(s) / n <= hi by { assert Sum(s) <= n * hi; }
  }

  /** n copies of one value sum to n times that value. */
  lemma {:induction false} SumOfConstant(s: seq<real>, v: real)
    requires forall i | 0 <= i < |s| :: s[i] == v
    ensures Sum(s) == (|s| as real) * v
  {
    if |s| > 0 {
      SumOfConstant(s[..|s| - 1], v);
    }
  }

  /** The mean of identical samples is exactly that sample. */
  lemma MeanOfConstant(s: seq<real>, v: real)
    requires |s| > 0
    requires forall i | 0 <= i < |s| :: s[i] == v
    ensures Mean(s) == v
  {
    SumOfConstant(s, v);
  }

  lemma {:induction false} SquaredDeviationsNonNegative(s: seq<real>, m: real)
    ensures SquaredDeviations(s, m) >= 0.0
  {
    if |s| > 0 {
      SquaredDeviationsNonNegative(s[..|s| - 1], m);
      var d := s[|s| - 1] - m;
      assert d * d >= 0.0;
    }
  }

  /** The population standard deviation is non-negative and squares to the variance. */
  lemma StdDevSquared(s: seq<real>, sqrt: real -> real)
    requires |s| > 0
    requires IsSqrt(sqrt)
    ensures 0.0 <= PopVariance(s)
    ensures 0.0 <= StdDev(s, sqrt) && StdDev(s, sqrt) * StdDev(s, sqrt) == PopVariance(s)
  {
    SquaredDeviationsNonNegative(s, Mean(s));
  }

  /** Identical samples have no spread. */
  lemma {:induction false} SquaredDeviationsOfConstant(s: seq<real>, v: real)
    requires forall i | 0 <= i < |s| :: s[i] == v
    ensures SquaredDeviations(s, v) == 0.0
  {
    if |s| > 0 {
      SquaredDeviationsOfConstant(s[..|s| - 1], v);
    }
  }

  /** Squaring is strictly monotone on the non-negative reals. */
  lemma SquareLess(a: real, b: real)
    requires 0.0 <= a && 0.0 <= b && a * a < b * b
    ensures a < b
  {
    assert (b - a) * (b + a) == b * b - a * a;
  }

  predicate Sorted(s: seq<real>)
  {
    forall i, j | 0 <= i < j < |s| :: s[i] <= s[j]
  }

  /** A lower bound of every sample is a lower bound of every permutation of them. */
  lemma LowerBoundKept(lo: real, u: seq<real>, t: seq<real>)
    requires forall k | 0 <= k < |u| :: lo <= u[k]
    requires multiset(t) == multiset(u)
    ensures forall k | 0 <= k < |t| :: lo <= t[k]
  {
    forall k | 0 <= k < |t|
      ensures lo <= t[k]
    {
      assert t[k] in multiset(u);
    }
  }

  /** A sample no larger than the head of an ascending sequence can go in front of it. */
  lemma PrependLeast(x: real, t: seq<real>)
    requires Sorted(t) && (|t| > 0 ==> x <= t[0])
    ensures Sorted([x] + t)
  {
  }

  lemma InsertBehindHead(v: real, s: seq<real>, tail: seq<real>)
    requires Sorted(s) && |s| > 0 && s[0] < v
    requires Sorted(tail) && multiset(tail) == multiset(s[1..]) + multiset{v}
    ensures Sorted([s[0]] + tail)
    ensures multiset([s[0]] + tail) == multiset(s) + multiset{v}
  {
    assert s == [s[0]] + s[1..];
    LowerBoundKept(s[0], s[1..] + [v], tail);
    PrependLeast(s[0], tail);
  }

  /** Inserts `v` into an ascending sequence. */
  function Insert(v: real, s: seq<real>): (r: seq<real>)
    requires Sorted(s)
    ensures Sorted(r)
    ensures multiset(r) == multiset(s) + multiset{v}
  {
    if |s| == 0 then [v]
    else if v <= s[0] then
      PrependLeast(v, s);
      [v] + s
    else
      var tail := Insert(v, s[1..]);
      InsertBehindHead(v, s, tail);
      [s[0]] + tail
  }

  /**
   * Ascending sort (insertion sort). It stands for the source's library sort,
   * whose only promise used here is: sorted, and a permutation of the input.
   */
  function SortAscending(s: seq<real>): (r: seq<real>)
    ensures Sorted(r)
    ensures multiset(r) == multiset(s)
    ensures |r| == |s|
  {
    if |s| == 0 then []
    else
      assert s == [s[0]] + s[1..];
      Insert(s[0], SortAscending(s[1..]))
  }

  /**
   * Sorts a sample buffer ascending in place, by insertion: the prefix
   * `a[..i]` is kept ascending while `a[i]` is moved into it. The buffer ends
   * up ascending and holding the same samples.
   */
  method SortInPlace(a: array<real>)
    modifies a
    ensures Sorted(a[..])
    ensures multiset(a[..]) == multiset(old(a[..]))
  {
    var i := 0;
    while i < a.Length
      invariant 0 <= i <= a.Length
      invariant forall p, q | 0 <= p < q < i :: a[p] <= a[q]
      invariant multiset(a[..]) == multiset(old(a[..]))
    {
      InsertIntoPrefix(a, i);
      i := i + 1;
    }
  }

  /** Swaps `a[i]` leftwards until its left neighbour is no larger, so `a[..i + 1]` becomes ascending. */
  method InsertIntoPrefix(a: array<real>, i: nat)
    requires i < a.Length
    requires forall p, q | 0 <= p < q < i :: a[p] <= a[q]
    modifies a
    ensures forall p, q | 0 <= p < q <= i :: a[p] <= a[q]
    ensures multiset(a[..]) == multiset(old(a[..]))
  {
    var j := i;
    assert AscendingAround(a[..], i, j);
    while j > 0 && a[j - 1] > a[j]
      invariant 0 <= j <= i
      invariant AscendingAround(a[..], i, j)
      invariant multiset(a[..]) == multiset(old(a[..]))
      decreases j
    {
      ghost var before := a[..];
      a[j - 1], a[j] := a[j], a[j - 1];
      assert a[..] == before[j - 1 := before[j]][j := before[j - 1]];
      SwapLeft(before, i, j);
      j := j - 1;
    }
    InsertionDone(a[..], i, j);
  }

  /**
   * `s[..i + 1]` is ascending except that the sample at `j` may be smaller
   * than those before it; its neighbours are in order with each other.
   */
  ghost predicate AscendingAround(s: seq<real>, i: nat, j: nat)
  {
    && j <= i < |s|
    && (forall p, q | 0 <= p < q <= i && q != j :: s[p] <= s[q])
    && (0 < j < i ==> s[j - 1] <= s[j + 1])
  }

  /** Swapping an out-of-order sample with its left neighbour moves the gap one step left. */
  lemma SwapLeft(s: seq<real>, i: nat, j: nat)
    requires AscendingAround(s, i, j) && 0 < j && s[j - 1] > s[j]
    ensures AscendingAround(s[j - 1 := s[j]][j := s[j - 1]], i, j - 1)
    ensures multiset(s[j - 1 := s[j]][j := s[j - 1]]) == multiset(s)
  {
    var t := s[j - 1 := s[j]][j := s[j - 1]];
    forall p, q | 0 <= p < q <= i && q != j - 1
      ensures t[p] <= t[q]
    {
      if q == j {
        assert t[q] == s[j - 1];
        if p < j - 1 {
          assert s[p] <= s[j - 1];
        }
      } else if p == j - 1 {
        assert t[p] == s[j] && s[j] < s[j - 1] && s[j - 1] <= s[q];
      } else if p == j {
        assert t[p] == s[j - 1] && s[j - 1] <= s[q];
      }
    }
  }

  /** Once the sample at `j` is no smaller than its left neighbour, `s[..i + 1]` is ascending. */
  lemma InsertionDone(s: seq<real>, i: nat, j: nat)
    requires AscendingAround(s, i, j)
    requires j == 0 || s[j - 1] <= s[j]
    ensures forall p, q | 0 <= p < q <= i :: s[p] <= s[q]
  {
    forall p, q | 0 <= p < q <= i
      ensures s[p] <= s[q]
    {
      if q == j && p < j - 1 {
        assert s[p] <= s[j - 1];
      }
    }
  }

  /** The first element of an ascending sequence is its least. */
  lemma HeadIsLeast(a: seq<real>, v: real)
    requires Sorted(a) && v in multiset(a)
    ensures |a| > 0 && a[0] <= v
  {
    var i :| 0 <= i < |a| && a[i] == v;
  }

  lemma TailMultiset(a: seq<real>)
    requires |a| > 0
    ensures multiset(a[1..]) == multiset(a) - multiset{a[0]}
  {
    assert a == [a[0]] + a[1..];
  }

  /** Two ascending sequences holding the same samples are equal. */
  lemma {:induction false} SortedUnique(a: seq<real>, b: seq<real>)
    requires Sorted(a) && Sorted(b)
    requires multiset(a) == multiset(b)
    ensures a == b
  {
    if |a| == 0 {
      assert |multiset(b)| == 0;
    } else {
      SameHead(a, b);
      var a', b' := a[1..], b[1..];
      assert multiset(a') == multiset(b') by {
        TailMultiset(a);
        TailMultiset(b);
      }
      SortedUnique(a', b');
      assert a == [a[0]] + a' && b == [b[0]] + b';
    }
  }

  lemma SameHead(a: seq<real>, b: seq<real>)
    requires Sorted(a) && Sorted(b)
    requires multiset(a) == multiset(b)
    requires |a| > 0
    ensures |b| > 0 && a[0] == b[0]
  {
    assert a[0] in multiset(a);
    HeadIsLeast(b, a[0]);
    assert b[0] in multiset(b);
    HeadIsLeast(a, b[0]);
  }

  /**
   * The median rule on an ascending sequence: the middle sample for an odd
   * count, the mean of the two middle samples for an even count.
   */
  function MiddleOfSorted(sorted: seq<real>): real
    requires |sorted| > 0
  {
    if |sorted| % 2 == 0 then
      var mid := |sorted| / 2;
      (sorted[mid - 1] + sorted[mid]) / 2.0
    else
      sorted[|sorted| / 2]
  }

  /** The median of the samples: the median rule applied to a sorted copy. */
  function MedianOf(s: seq<real>): real
    requires |s| > 0
  {
    MiddleOfSorted(SortAscending(s))
  }

  /**
   * The median as the source computes it: the samples are copied into a
   * buffer, the buffer is sorted in place and the middle is taken; with no
   * samples the result is 0. Any ascending arrangement of the samples is the
   * one `MedianOf` sorts to.
   */
  method MedianBySorting(values: seq<real>) returns (median: real)
    ensures |values| > 0 ==> median == MedianOf(values)
    ensures |values| == 0 ==> median == 0.0
  {
    var buffer := new real[|values|](i requires 0 <= i < |values| => values[i]);
    assert buffer[..] == values;
    SortInPlace(buffer);
    if buffer.Length == 0 {
      median := 0.0;
    } else {
      SortedUnique(buffer[..], SortAscending(values));
      median := MiddleOfSorted(buffer[..]);
    }
  }

  /** Sorting a sequence that is already ascending changes nothing, so its median is its middle. */
  lemma MedianOfSorted(s: seq<real>)
    requires |s| > 0 && Sorted(s)
    ensures SortAscending(s) == s
    ensures MedianOf(s) == MiddleOfSorted(s)
  {
    SortedUnique(SortAscending(s), s);
  }

  lemma MedianOfOne(a: real)
    ensures MedianOf([a]) == a
  {
    assert SortAscending([a]) == [a] by { SortedUnique(SortAscending([a]), [a]); }
  }

  lemma MedianOfTwo(a: real, b: real)
    ensures MedianOf([a, b]) == (a + b) / 2.0
  {
    var r := SortAscending([a, b]);
    if a <= b {
      assert r == [a, b] by {
        SortedUnique(r, [a, b]);
      }
    } else {
      assert r == [b, a] by {
        assert multiset([a, b]) == multiset([b, a]);
        SortedUnique(r, [b, a]);
      }
    }
  }

  /** The median does not depend on the order in which the samples come. */
  lemma MedianIgnoresOrder(a: seq<real>, b: seq<real>)
    requires |a| > 0
    requires multiset(a) == multiset(b)
    ensures |b| > 0 && MedianOf(a) == MedianOf(b)
  {
    assert |b| == |a| by { assert |multiset(a)| == |multiset(b)|; }
    SortedUnique(SortAscending(a), SortAscending(b));
  }

  /** The median lies between any common lower and upper bound of the samples. */
  lemma MedianBounds(s: seq<real>, lo: real, hi: real)
    requires |s| > 0
    requires forall i | 0 <= i < |s| :: lo <= s[i] <= hi
    ensures lo <= MedianOf(s) <= hi
  {
    var r := SortAscending(s);
    forall k | 0 <= k < |r|
      ensures lo <= r[k] <= hi
    {
      assert r[k] in multiset(s);
    }
  }
}
