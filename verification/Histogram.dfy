/** A histogram with one bucket per power of two, and what its percentile is worth. */
module Histogram {
  import opened Words

  /** `63 - leading_zeros` of a positive word. */
  function BucketOf(v: nat): (k: nat)
    requires 0 < v <= U64_MAX
    ensures k < 64 && Pow2(k) <= v < Pow2(k + 1)
  {
    WordBitLen(v);
    BitLen(v) - 1
  }

  /** The bucket is the one power-of-two range that holds the value. */
  lemma {:induction false} BucketUnique(v: nat, k: nat)
    requires 0 < v <= U64_MAX
    ensures Pow2(k) <= v < Pow2(k + 1) <==> k == BucketOf(v)
  {
    var j := BucketOf(v);
    if j < k { Pow2Monotone(j + 1, k); }
    if k < j { Pow2Monotone(k + 1, j); }
  }

  // ---- Recorded values ------------------------------------------------------------------------------

  ghost function CountBelow(values: seq<nat>, bound: nat): nat {
    if values == [] then 0
    else CountBelow(values[..|values| - 1], bound) + (if values[|values| - 1] < bound then 1 else 0)
  }

  ghost function Sum(values: seq<nat>): nat {
    if values == [] then 0 else Sum(values[..|values| - 1]) + values[|values| - 1]
  }

  ghost function Max(values: seq<nat>): nat {
    if values == [] then 0
    else
      var front := Max(values[..|values| - 1]);
      if values[|values| - 1] > front then values[|values| - 1] else front
  }

  lemma {:induction false} CountAppend(values: seq<nat>, v: nat)
    ensures forall bound :: CountBelow(values + [v], bound) == CountBelow(values, bound) + (if v < bound then 1 else 0)
    ensures Sum(values + [v]) == Sum(values) + v
    ensures Max(values + [v]) == if v > Max(values) then v else Max(values)
  {
    assert (values + [v])[..|values|] == values;
  }

  lemma {:induction false} CountConcat(a: seq<nat>, b: seq<nat>)
    ensures forall bound :: CountBelow(a + b, bound) == CountBelow(a, bound) + CountBelow(b, bound)
    ensures Sum(a + b) == Sum(a) + Sum(b)
    ensures Max(a + b) == if Max(b) > Max(a) then Max(b) else Max(a)
  {
    if b == [] {
      assert a + b == a;
    } else {
      var front, last := b[..|b| - 1], b[|b| - 1];
      CountConcat(a, front);
      CountAppend(a + front, last);
      assert a + b == a + front + [last];
      assert b == front + [last];
      CountAppend(front, last);
    }
  }

  lemma {:induction false} CountMonotone(values: seq<nat>, low: nat, high: nat)
    requires low <= high
    ensures CountBelow(values, low) <= CountBelow(values, high) <= |values|
  {
    if values != [] { CountMonotone(values[..|values| - 1], low, high); }
  }

  lemma {:induction false} CountAll(values: seq<nat>, bound: nat)
    requires forall i | 0 <= i < |values| :: values[i] < bound
    ensures CountBelow(values, bound) == |values|
  {
    if values != [] { CountAll(values[..|values| - 1], bound); }
  }

  /** `x` is the `t`-th smallest recorded value: fewer than `t` are below it, at least `t` are not above it. */
  ghost predicate HasRank(values: seq<nat>, t: nat, x: nat) {
    CountBelow(values, x) < t <= CountBelow(values, x + 1)
  }

  /** `r` is at least `x` and less than twice it, or both are zero. */
  ghost predicate Approximates(r: nat, x: nat) {
    x <= r < 2 * x || x == r == 0
  }

  /** Every value of rank `t` is approximated by `r`, and there is one. */
  ghost predicate ApproximatesRank(values: seq<nat>, t: nat, r: nat) {
    && (exists x :: HasRank(values, t, x))
    && (forall x | HasRank(values, t, x) :: Approximates(r, x))
  }

  ghost function InBucket(values: seq<nat>, k: nat): int {
    CountBelow(values, Pow2(k + 1)) - CountBelow(values, Pow2(k))
  }

  /** One more value counts in its own bucket only. */
  lemma {:induction false} BucketCounts(values: seq<nat>, v: nat)
    requires 0 < v <= U64_MAX
    ensures forall k: nat :: InBucket(values + [v], k) == InBucket(values, k) + (if k == BucketOf(v) then 1 else 0)
  {
    CountAppend(values, v);
    forall k: nat
      ensures InBucket(values + [v], k) == InBucket(values, k) + (if k == BucketOf(v) then 1 else 0)
    {
      BucketUnique(v, k);
      Pow2Monotone(k, k + 1);
    }
  }

  /** A zero counts in no bucket. */
  lemma {:induction false} ZeroCounts(values: seq<nat>)
    ensures forall k: nat :: InBucket(values + [0], k) == InBucket(values, k)
  {
    CountAppend(values, 0);
  }

  // ---- The histogram -----------------------------------------------------------------------------------

  class Log2Hist {
    var zeros: nat
    var buckets: array<nat>
    var sum: nat
    var max: nat

    /** The counters are those of `values`. */
    ghost predicate Describes(values: seq<nat>)
      reads this, buckets
    {
      && Words64(values) && buckets.Length == 64
      && zeros == CountBelow(values, 1)
      && (forall k | 0 <= k < 64 :: buckets[k] == InBucket(values, k))
      && sum == Sum(values) && max == Max(values)
    }

    constructor ()
      ensures Describes([]) && fresh(buckets)
    {
      zeros, sum, max := 0, 0, 0;
      buckets := new nat[64](i => 0);
    }

    method Record(v: nat, ghost values: seq<nat>)
      requires Describes(values) && v <= U64_MAX
      modifies this`zeros, this`sum, this`max, buckets
      ensures Describes(values + [v]) && buckets == old(buckets)
    {
      CountAppend(values, v);
      sum := sum + v;
      if v > max {
        max := v;
      }
      if v == 0 {
        ZeroCounts(values);
        zeros := zeros + 1;
        return;
      }
      var k := BucketOf(v);
      BucketCounts(values, v);
      buckets[k] := buckets[k] + 1;
    }

    method Merge(other: Log2Hist, ghost values: seq<nat>, ghost others: seq<nat>)
      requires Describes(values) && other.Describes(others) && other.buckets != buckets && other != this
      modifies this`zeros, this`sum, this`max, buckets
      ensures Describes(values + others) && buckets == old(buckets)
    {
      CountConcat(values, others);
      zeros := zeros + other.zeros;
      for i := 0 to 64
        invariant zeros == old(zeros) + other.zeros && sum == old(sum) && max == old(max)
        invariant forall k | 0 <= k < i :: buckets[k] == old(buckets[k]) + other.buckets[k]
        invariant forall k | i <= k < 64 :: buckets[k] == old(buckets[k])
      {
        buckets[i] := buckets[i] + other.buckets[i];
      }
      sum := sum + other.sum;
      if other.max > max {
        max := other.max;
      }
    }

    method Count(ghost values: seq<nat>) returns (n: nat)
      requires Describes(values)
      ensures n == |values|
    {
      n := zeros;
      for k := 0 to 64
        invariant n == CountBelow(values, Pow2(k))
      {
        n := n + buckets[k];
      }
      Pow2SixtyFour();
      CountAll(values, Pow2(64));
    }

    /**
     * The bound of the bucket of the value that the fraction `p` of all values reaches; while the largest
     * word is not recorded it approximates that value.
     */
    method Percentile(p: real, ghost values: seq<nat>) returns (r: nat)
      requires Describes(values) && p >= 0.0
      ensures values == [] ==> r == 0
      ensures values != [] && 0.0 < p <= 1.0 ==>
        forall x: nat | HasRank(values, Target(p, |values|), x) :: r == UpperBound(x)
      ensures values != [] && 0.0 < p <= 1.0 && max < U64_MAX ==> ApproximatesRank(values, Target(p, |values|), r)
      ensures values != [] && p == 0.0 ==> r == 0
      ensures values != [] && p > 1.0 ==> r == Max(values)
    {
      var n := Count(values);
      if n == 0 {
        return 0;
      }
      TargetIsLeast(p, n, n);
      TargetIsLeast(p, n, 0);
      r := PercentileOfRank(Target(p, n), values);
    }

    /**
     * The upper bound of the bucket in which the `target`-th smallest value lies; zero for an empty
     * histogram, the maximum for a target past the end.
     */
    method PercentileOfRank(target: nat, ghost values: seq<nat>) returns (r: nat)
      requires Describes(values)
      ensures values == [] ==> r == 0
      ensures values != [] && target <= |values| ==>
        forall x: nat | HasRank(values, target, x) :: r == UpperBound(x)
      ensures 1 <= target <= |values| && max < U64_MAX ==> ApproximatesRank(values, target, r)
      ensures values != [] && target == 0 ==> r == 0
      ensures values != [] && target > |values| ==> r == Max(values)
    {
      if 1 <= target <= |values| && max < U64_MAX { RankApproximated(values, target); }
      var n := Count(values);
      if n == 0 {
        return 0;
      }
      var acc := zeros;
      if acc >= target {
        CountMonotone(values, 1, 1);
        forall x: nat | HasRank(values, target, x)
          ensures x == 0
        {
          if x > 0 { CountMonotone(values, 1, x); }
        }
        return 0;
      }
      for k := 0 to 64
        invariant acc == CountBelow(values, Pow2(k)) && acc < target
      {
        acc := acc + buckets[k];
        if acc >= target {
          CountMonotone(values, Pow2(k + 1), Pow2(k + 1));
          forall x: nat | HasRank(values, target, x)
            ensures x > 0 && x <= U64_MAX && BucketOf(x) == k
          {
            RankInBucket(values, target, x, k);
          }
          return BucketBound(k);
        }
      }
      Pow2SixtyFour();
      CountAll(values, Pow2(64));
      r := max;
    }
  }

  /** `ceil(p * n)`. */
  function Target(p: real, n: nat): (t: nat)
    requires p >= 0.0
  {
    -((-(p * n as real)).Floor)
  }

  /** The rank of a fraction is the least number of values that makes it up. */
  lemma {:induction false} TargetIsLeast(p: real, n: nat, t: nat)
    requires p >= 0.0
    ensures Target(p, n) <= t <==> p * n as real <= t as real
    ensures 0.0 < p <= 1.0 && n > 0 ==> 1 <= Target(p, n) <= n
  {
    var x := p * n as real;
    assert Target(p, n) as real - 1.0 < x <= Target(p, n) as real;
    if 0.0 < p <= 1.0 && n > 0 { assert 0.0 < x <= n as real; }
  }

  /** `(1 << k) * 2 - 1`, saturating. */
  function BucketBound(k: nat): nat
    requires k < 64
  {
    (if Pow2(k) * 2 > U64_MAX then U64_MAX else Pow2(k) * 2) - 1
  }

  /** What the percentile returns when the value of the asked rank is `x`. */
  function UpperBound(x: nat): nat {
    if x == 0 then 0 else if x > U64_MAX then 0 else BucketBound(BucketOf(x))
  }

  lemma {:induction false} RankInBucket(values: seq<nat>, t: nat, x: nat, k: nat)
    requires Words64(values) && HasRank(values, t, x) && k < 64
    requires CountBelow(values, Pow2(k)) < t <= CountBelow(values, Pow2(k + 1))
    ensures 0 < x <= U64_MAX && BucketOf(x) == k
  {
    Pow2SixtyFour();
    Pow2Monotone(k + 1, 64);
    if x >= Pow2(k + 1) { CountMonotone(values, Pow2(k + 1), x); }
    if x < Pow2(k) { CountMonotone(values, x + 1, Pow2(k)); }
    BucketUnique(x, k);
  }

  /**
   * The percentile is at least the true value and less than twice it, or both are zero, if and only
   * if the true value is not the largest word.
   */
  lemma {:induction false} PercentileBound(x: nat)
    requires x <= U64_MAX
    ensures Approximates(UpperBound(x), x) <==> x < U64_MAX
  {
    if x > 0 {
      var k := BucketOf(x);
      Pow2SixtyFour();
      if k < 63 {
        Pow2Monotone(k + 1, 63);
        assert Pow2(64) == 2 * Pow2(63);
      }
    }
  }

  /** Some value has every rank from one to the number of values. */
  lemma {:induction false} EveryRankIsTaken(values: seq<nat>, t: nat, bound: nat) returns (x: nat)
    requires 1 <= t <= CountBelow(values, bound)
    ensures x < bound && HasRank(values, t, x)
  {
    CountZero(values);
    if t <= CountBelow(values, bound - 1) {
      x := EveryRankIsTaken(values, t, bound - 1);
    } else {
      x := bound - 1;
    }
  }

  lemma {:induction false} CountZero(values: seq<nat>)
    ensures CountBelow(values, 0) == 0
  {
    if values != [] { CountZero(values[..|values| - 1]); }
  }

  /** All values lie below a bound exactly when the maximum does. */
  lemma {:induction false} CountReachesMax(values: seq<nat>, bound: nat)
    requires values != []
    ensures CountBelow(values, bound) == |values| <==> Max(values) < bound
  {
    var last := |values| - 1;
    CountMonotone(values[..last], bound, bound);
    if last > 0 {
      CountReachesMax(values[..last], bound);
    } else {
      assert values[..last] == [];
    }
  }

  lemma {:induction false} RankBelowMax(values: seq<nat>, t: nat, x: nat)
    requires HasRank(values, t, x)
    ensures values != [] && t <= |values| && x <= Max(values)
  {
    CountMonotone(values, x + 1, x + 1);
    CountMonotone(values, x, x);
    if x > Max(values) { CountReachesMax(values, x); }
  }

  lemma {:induction false} RankApproximated(values: seq<nat>, t: nat)
    requires 1 <= t <= |values| && Max(values) < U64_MAX
    ensures exists x :: HasRank(values, t, x)
    ensures forall x | HasRank(values, t, x) :: Approximates(UpperBound(x), x)
  {
    CountReachesMax(values, U64_MAX);
    var y := EveryRankIsTaken(values, t, U64_MAX);
    forall x | HasRank(values, t, x)
      ensures Approximates(UpperBound(x), x)
    {
      RankBelowMax(values, t, x);
      PercentileBound(x);
    }
  }

  /** What the percentile returns for every rank of these values. */
  ghost predicate PercentilesApproximate(values: seq<nat>) {
    forall t: nat, x: nat | HasRank(values, t, x) :: Approximates(UpperBound(x), x)
  }

  /** The percentile of every rank approximates its value, if and only if the largest word was not recorded. */
  lemma {:induction false} PercentilesIff(values: seq<nat>)
    requires Words64(values)
    ensures PercentilesApproximate(values) <==> Max(values) < U64_MAX
  {
    if Max(values) < U64_MAX {
      forall t: nat, x: nat | HasRank(values, t, x)
        ensures Approximates(UpperBound(x), x)
      {
        RankBelowMax(values, t, x);
        PercentileBound(x);
      }
    } else {
      CountAll(values, U64_MAX + 1);
      CountReachesMax(values, U64_MAX);
      CountMonotone(values, U64_MAX, U64_MAX);
      assert HasRank(values, |values|, U64_MAX);
      PercentileBound(U64_MAX);
    }
  }
}
