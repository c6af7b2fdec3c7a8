/** weightedPercentile (benchmarks/client.zig), with the f64 weights as reals. */
module Percentile {
  datatype Sample = Sample(ns: nat, weight: real)

  predicate Sorted(s: seq<Sample>) {
    forall i, j | 0 <= i <= j < |s| :: s[i].ns <= s[j].ns
  }

  predicate Weighted(s: seq<Sample>) {
    forall i | 0 <= i < |s| :: s[i].weight >= 0.0
  }

  /** The weight of the first `k` samples. */
  function Cumulative(s: seq<Sample>, k: nat): real
    requires k <= |s|
  {
    if k == 0 then 0.0 else Cumulative(s, k - 1) + s[k - 1].weight
  }

  function Total(s: seq<Sample>): real { Cumulative(s, |s|) }

  function Share(total: real, percent: nat): real { total * percent as real / 100.0 }

  function Target(s: seq<Sample>, percent: nat): real { Share(Total(s), percent) }

  /** The first sample from `k` on whose cumulative weight reaches `target`, else the last. */
  function First(s: seq<Sample>, target: real, k: nat): (j: nat)
    requires k < |s|
    ensures k <= j < |s|
    decreases |s| - k
  {
    if Cumulative(s, k + 1) >= target || k + 1 == |s| then k else First(s, target, k + 1)
  }

  function Percentile(s: seq<Sample>, percent: nat): nat {
    if s == [] then 0 else s[First(s, Target(s, percent), 0)].ns
  }

  method WeightedPercentile(sorted: seq<Sample>, percent: nat) returns (ns: nat)
    ensures ns == Percentile(sorted, percent)
  {
    if |sorted| == 0 {
      return 0;
    }
    var total := 0.0;
    for i := 0 to |sorted|
      invariant total == Cumulative(sorted, i)
    {
      total := total + sorted[i].weight;
    }
    var target := total * percent as real / 100.0;
    assert target == Target(sorted, percent);
    var cumulative := 0.0;
    for i := 0 to |sorted|
      invariant cumulative == Cumulative(sorted, i)
      invariant i < |sorted| ==> First(sorted, target, 0) == First(sorted, target, i)
      invariant i == |sorted| ==> First(sorted, target, 0) == i - 1
    {
      cumulative := cumulative + sorted[i].weight;
      if cumulative >= target {
        return sorted[i].ns;
      }
    }
    return sorted[|sorted| - 1].ns;
  }

  // ------------------------------------------------------------ what First looks for

  lemma {:induction false} CumulativeGrows(s: seq<Sample>, i: nat, j: nat)
    requires Weighted(s) && i <= j <= |s|
    ensures Cumulative(s, i) <= Cumulative(s, j)
  {
    if i < j {
      CumulativeGrows(s, i, j - 1);
    }
  }

  lemma {:induction false} FirstIsLeast(s: seq<Sample>, target: real, k: nat)
    requires k < |s| && Cumulative(s, |s|) >= target
    ensures Cumulative(s, First(s, target, k) + 1) >= target
    ensures forall i | k < i <= First(s, target, k) :: Cumulative(s, i) < target
    decreases |s| - k
  {
    if Cumulative(s, k + 1) < target {
      FirstIsLeast(s, target, k + 1);
    }
  }

  lemma TargetReached(s: seq<Sample>, percent: nat)
    requires Weighted(s) && percent <= 100
    ensures 0.0 <= Target(s, percent) <= Total(s)
  {
    CumulativeGrows(s, 0, |s|);
    ScaleMonotone(Total(s), 0.0, percent as real);
    ScaleMonotone(Total(s), percent as real, 100.0);
    Hundredth(Total(s) * percent as real, Total(s));
  }

  lemma Hundredth(x: real, t: real)
    requires t * 0.0 <= x <= t * 100.0
    ensures 0.0 <= x / 100.0 <= t
  {
  }

  lemma ScaleMonotone(t: real, a: real, b: real)
    requires t >= 0.0 && a <= b
    ensures t * a <= t * b
  {
  }

  // --------------------------------------------------- an order-free characterisation

  /** The weight of the samples up to `v`, wherever they are. */
  function WeightUpTo(s: seq<Sample>, v: nat, k: nat): real
    requires k <= |s|
  {
    if k == 0 then 0.0
    else WeightUpTo(s, v, k - 1) + if s[k - 1].ns <= v then s[k - 1].weight else 0.0
  }

  /** In a sorted list the samples up to `v` are a prefix. */
  lemma {:induction false} UpToIsPrefix(s: seq<Sample>, v: nat, m: nat, k: nat)
    requires m <= k <= |s|
    requires forall i | 0 <= i < m :: s[i].ns <= v
    requires forall i | m <= i < k :: s[i].ns > v
    ensures WeightUpTo(s, v, k) == Cumulative(s, m)
    decreases k
  {
    if k > 0 {
      if m == k {
        UpToIsPrefix(s, v, k - 1, k - 1);
      } else {
        UpToIsPrefix(s, v, m, k - 1);
      }
    }
  }

  lemma UpToCut(s: seq<Sample>, v: nat, k: nat) returns (m: nat)
    requires Sorted(s) && k <= |s|
    ensures m <= k && (forall i | 0 <= i < m :: s[i].ns <= v) && (forall i | m <= i < k :: s[i].ns > v)
  {
    if k == 0 || s[k - 1].ns <= v {
      m := k;
    } else {
      m := UpToCut(s, v, k - 1);
    }
  }

  /** The result is the least sample value at which the samples up to it weigh at least
      `percent` percent of the whole. */
  lemma LeastReaching(s: seq<Sample>, percent: nat, i: nat)
    requires Sorted(s) && Weighted(s) && percent <= 100 && i < |s|
    ensures var r := Percentile(s, percent);
            && (exists j :: 0 <= j < |s| && s[j].ns == r)
            && WeightUpTo(s, r, |s|) >= Target(s, percent)
            && (s[i].ns < r ==> WeightUpTo(s, s[i].ns, |s|) < Target(s, percent))
  {
    var target := Target(s, percent);
    TargetReached(s, percent);
    FirstIsLeast(s, target, 0);
    var j := First(s, target, 0);
    var m := UpToCut(s, s[j].ns, |s|);
    UpToIsPrefix(s, s[j].ns, m, |s|);
    CumulativeGrows(s, j + 1, m);
    if s[i].ns < s[j].ns {
      var c := UpToCut(s, s[i].ns, |s|);
      UpToIsPrefix(s, s[i].ns, c, |s|);
      assert c <= j;
      CumulativeGrows(s, c, j);
      CumulativeGrows(s, i + 1, c);
    }
  }

  lemma {:induction false} FirstMonotone(s: seq<Sample>, t: real, u: real, k: nat)
    requires k < |s| && t <= u
    ensures First(s, t, k) <= First(s, u, k)
    decreases |s| - k
  {
    if Cumulative(s, k + 1) < t && k + 1 < |s| {
      FirstMonotone(s, t, u, k + 1);
    }
  }

  /** Higher percentiles are not smaller. */
  lemma Monotone(s: seq<Sample>, p: nat, q: nat)
    requires Sorted(s) && Weighted(s) && p <= q
    ensures Percentile(s, p) <= Percentile(s, q)
  {
    if s != [] {
      CumulativeGrows(s, 0, |s|);
      ScaleMonotone(Total(s), p as real, q as real);
      FirstMonotone(s, Target(s, p), Target(s, q), 0);
    }
  }

  // --------------------------------------------------------------------- nearest rank

  /** Samples with whole weights. */
  datatype Counted = Counted(ns: nat, count: nat)

  function AsSamples(cs: seq<Counted>): (s: seq<Sample>)
    ensures |s| == |cs|
    ensures forall i | 0 <= i < |cs| :: s[i] == Sample(cs[i].ns, cs[i].count as real)
  {
    seq(|cs|, i requires 0 <= i < |cs| => Sample(cs[i].ns, cs[i].count as real))
  }

  function Repeat(ns: nat, n: nat): (r: seq<nat>)
    ensures |r| == n && forall i | 0 <= i < n :: r[i] == ns
  {
    if n == 0 then [] else Repeat(ns, n - 1) + [ns]
  }

  /** Each of the first `k` values as often as it was counted. */
  function Expanded(cs: seq<Counted>, k: nat): seq<nat>
    requires k <= |cs|
  {
    if k == 0 then [] else Expanded(cs, k - 1) + Repeat(cs[k - 1].ns, cs[k - 1].count)
  }

  /** The one-based nearest rank: `percent` percent of `n`, rounded up. */
  function Rank(percent: nat, n: nat): nat { (percent * n + 99) / 100 }

  lemma {:induction false} ExpandedLength(cs: seq<Counted>, k: nat)
    requires k <= |cs|
    ensures |Expanded(cs, k)| as real == Cumulative(AsSamples(cs), k)
  {
    if k > 0 {
      ExpandedLength(cs, k - 1);
    }
  }

  lemma {:induction false} ExpandedPrefix(cs: seq<Counted>, i: nat, k: nat)
    requires i <= k <= |cs|
    ensures Expanded(cs, i) <= Expanded(cs, k)
  {
    if i < k {
      ExpandedPrefix(cs, i, k - 1);
    }
  }

  /** A whole number reaches `percent` percent of `n` exactly when it reaches the rank. */
  lemma RankReached(percent: nat, n: nat, c: nat)
    ensures c as real >= Share(n as real, percent) <==> c >= Rank(percent, n)
  {
    var x := percent * n;
    assert x as real == n as real * percent as real;
    assert c as real >= x as real / 100.0 <==> 100 * c >= x;
  }

  lemma ExpandedAt(cs: seq<Counted>, j: nat, rank: nat)
    requires j < |cs| && |Expanded(cs, j)| < rank <= |Expanded(cs, j + 1)|
    ensures rank <= |Expanded(cs, |cs|)| && Expanded(cs, |cs|)[rank - 1] == cs[j].ns
  {
    ExpandedPrefix(cs, j + 1, |cs|);
    assert Expanded(cs, j + 1)[rank - 1] == Repeat(cs[j].ns, cs[j].count)[rank - 1 - |Expanded(cs, j)|];
  }

  /** The sample found is the one the rank falls into. */
  lemma RankFallsInto(cs: seq<Counted>, percent: nat)
    requires 1 <= percent <= 100 && |Expanded(cs, |cs|)| > 0
    ensures cs != [] && var j := First(AsSamples(cs), Target(AsSamples(cs), percent), 0);
            |Expanded(cs, j)| < Rank(percent, |Expanded(cs, |cs|)|) <= |Expanded(cs, j + 1)|
  {
    var s, n := AsSamples(cs), |Expanded(cs, |cs|)|;
    ExpandedLength(cs, |cs|);
    TargetReached(s, percent);
    var target := Target(s, percent);
    FirstIsLeast(s, target, 0);
    var j := First(s, target, 0);
    ExpandedLength(cs, j);
    ExpandedLength(cs, j + 1);
    RankBetween(percent, n, target, |Expanded(cs, j)|, |Expanded(cs, j + 1)|);
  }

  lemma RankBetween(percent: nat, n: nat, target: real, a: nat, b: nat)
    requires percent >= 1 && n > 0 && target == Share(n as real, percent)
    requires (a as real) < target <= b as real || (a == 0 && target <= b as real)
    ensures a < Rank(percent, n) <= b
  {
    RankReached(percent, n, a);
    RankReached(percent, n, b);
    assert percent * n >= 1;
  }

  /** For whole weights the result is the nearest-rank percentile of the list in which every
      sample stands as often as it weighs. */
  lemma IsNearestRank(cs: seq<Counted>, percent: nat)
    requires 1 <= percent <= 100 && |Expanded(cs, |cs|)| > 0
    ensures 1 <= Rank(percent, |Expanded(cs, |cs|)|) <= |Expanded(cs, |cs|)|
    ensures Percentile(AsSamples(cs), percent) == Expanded(cs, |cs|)[Rank(percent, |Expanded(cs, |cs|)|) - 1]
  {
    var s := AsSamples(cs);
    RankBounds(percent, |Expanded(cs, |cs|)|);
    RankFallsInto(cs, percent);
    ExpandedAt(cs, First(s, Target(s, percent), 0), Rank(percent, |Expanded(cs, |cs|)|));
  }

  lemma RankBounds(percent: nat, n: nat)
    requires 1 <= percent <= 100 && n > 0
    ensures 1 <= Rank(percent, n) <= n
  {
    assert percent * n >= 1;
    assert percent * n <= 100 * n;
  }
}
