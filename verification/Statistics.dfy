/** The latency statistics of an evaluation report, over exact reals: interpolated percentiles,
    median, interquartile range and the bootstrap interval. */
module Statistics {
  import opened Wrappers
  import opened Reals
  import opened Sorting

  // ---------- Rounding ----------

  /** The nearest integer, ties to even. */
  function Nearest(y: real): int {
    var down := y.Floor;
    var rest := y - down as real;
    if rest < 0.5 then down else if rest > 0.5 then down + 1 else if down % 2 == 0 then down else down + 1
  }

  /** `round(x, digits)` with `scale` = 10**digits: to nearest, ties to even. */
  function Round(x: real, scale: int): real requires scale > 0 {
    Nearest(x * scale as real) as real / scale as real
  }

  /** Rounding moves a number by at most half a unit of the last place. */
  lemma RoundNear(x: real, scale: int)
    requires scale > 0
    ensures -0.5 <= scale as real * (Round(x, scale) - x) <= 0.5
  {
    var c := scale as real;
    RoundMultiple(x, scale);
    assert -0.5 <= Nearest(x * c) as real - x * c <= 0.5;
    hide Round, Nearest;
    Distribute(c, Round(x, scale), x);
  }

  lemma RoundMonotone(x: real, y: real, scale: int)
    requires scale > 0 && x <= y
    ensures Round(x, scale) <= Round(y, scale)
  {
    hide Round, Nearest;
    Cancel(scale as real, x, y);
    RoundSteps(x * scale as real, y * scale as real);
    RoundMultiple(x, scale);
    RoundMultiple(y, scale);
    Cancel(scale as real, Round(x, scale), Round(y, scale));
  }

  lemma RoundMultiple(x: real, scale: int)
    requires scale > 0
    ensures scale as real * Round(x, scale) == Nearest(x * scale as real) as real
  {
    hide Nearest;
    DivideBack(Nearest(x * scale as real) as real, scale as real);
  }

  lemma RoundSteps(x: real, y: real)
    requires x <= y
    ensures Nearest(x) <= Nearest(y)
  {}

  // ---------- Percentiles ----------

  function Part(share: real, whole: real): real { share * whole }

  lemma PartMonotone(a: real, b: real, whole: real)
    requires whole >= 0.0 && a <= b
    ensures Part(a, whole) <= Part(b, whole)
  {
    Monotone(whole, a, b);
  }

  lemma PartEnds(whole: real)
    ensures Part(0.0, whole) == 0.0 && Part(1.0, whole) == whole && Part(0.5, whole) == whole / 2.0
  {}

  lemma PartBounds(share: real, whole: real)
    requires 0.0 <= share <= 1.0 && whole >= 0.0
    ensures 0.0 <= Part(share, whole) <= whole
  {
    hide Part;
    PartEnds(whole);
    PartMonotone(0.0, share, whole);
    PartMonotone(share, 1.0, whole);
  }

  function Upper(n: int, lower: int): int { if lower + 1 < n - 1 then lower + 1 else n - 1 }

  /** Linear interpolation at a fractional rank of an ascending list. */
  function Interpolate(v: seq<real>, rank: real): real
    requires v != [] && 0.0 <= rank <= (|v| - 1) as real
  {
    var lower := rank.Floor;
    v[lower] + Part(rank - lower as real, v[Upper(|v|, lower)] - v[lower])
  }

  function Rank(n: int, percentile: real): (r: real)
    requires n >= 1 && 0.0 <= percentile <= 100.0
    ensures 0.0 <= r <= (n - 1) as real
  {
    PartBounds(percentile / 100.0, (n - 1) as real);
    Part(percentile / 100.0, (n - 1) as real)
  }

  /** `_safe_percentile` */
  function Percentile(values: seq<real>, percentile: real): real
    requires 0.0 <= percentile <= 100.0
  {
    if values == [] then 0.0
    else
      Interpolate(SortReals(values), Rank(|values|, percentile))
  }

  lemma InterpolateBounds(v: seq<real>, rank: real)
    requires v != [] && Sorted(v) && 0.0 <= rank <= (|v| - 1) as real
    ensures v[rank.Floor] <= Interpolate(v, rank) <= v[|v| - 1]
    ensures rank.Floor + 1 < |v| ==> Interpolate(v, rank) <= v[rank.Floor + 1]
  {
    hide Part;
    var lower := rank.Floor;
    PartBounds(rank - lower as real, v[Upper(|v|, lower)] - v[lower]);
  }

  lemma InterpolateMonotone(v: seq<real>, a: real, b: real)
    requires v != [] && Sorted(v) && 0.0 <= a <= b <= (|v| - 1) as real
    ensures Interpolate(v, a) <= Interpolate(v, b)
  {
    hide Part;
    InterpolateBounds(v, a);
    InterpolateBounds(v, b);
    var i, j := a.Floor, b.Floor;
    if i == j {
      PartMonotone(a - i as real, b - i as real, v[Upper(|v|, i)] - v[i]);
    } else {
      assert v[i + 1] <= v[j];
    }
  }

  lemma RankMonotone(n: int, p: real, q: real)
    requires n >= 1 && 0.0 <= p <= q <= 100.0
    ensures Rank(n, p) <= Rank(n, q)
  {
    hide Part;
    PartMonotone(p / 100.0, q / 100.0, (n - 1) as real);
  }

  /** Percentiles rise with the percentile asked for. */
  lemma PercentileMonotone(values: seq<real>, p: real, q: real)
    requires 0.0 <= p <= q <= 100.0
    ensures Percentile(values, p) <= Percentile(values, q)
  {
    if values != [] {
      hide Interpolate, Rank, SortReals;
      RankMonotone(|values|, p, q);
      InterpolateMonotone(SortReals(values), Rank(|values|, p), Rank(|values|, q));
    }
  }

  /** The values themselves bound every percentile, and their order is irrelevant. */
  lemma PercentileBounds(values: seq<real>, p: real, lo: real, hi: real)
    requires values != [] && 0.0 <= p <= 100.0 && Within(values, lo, hi)
    ensures lo <= Percentile(values, p) <= hi
  {
    hide Interpolate, Rank, SortReals;
    InterpolateBounds(SortReals(values), Rank(|values|, p));
    SortedWithin(values, lo, hi);
  }

  lemma PercentileIgnoresOrder(a: seq<real>, b: seq<real>, p: real)
    requires multiset(a) == multiset(b) && 0.0 <= p <= 100.0
    ensures Percentile(a, p) == Percentile(b, p)
  {
    SortIgnoresOrder(a, b);
  }

  /** `statistics.median` of an ascending list. */
  function Median(v: seq<real>): real requires v != [] {
    var m := |v| / 2;
    if |v| % 2 == 1 then v[m] else (v[m - 1] + v[m]) / 2.0
  }

  lemma MiddleRank(n: int)
    requires n >= 1
    ensures Rank(n, 50.0) == (n - 1) as real / 2.0
  {
    hide Part;
    PartEnds((n - 1) as real);
  }

  lemma Halves(n: int)
    requires n >= 1
    ensures n % 2 == 1 ==> (n - 1) as real / 2.0 == (n / 2) as real
    ensures n % 2 == 0 ==> (n - 1) as real / 2.0 == (n / 2 - 1) as real + 0.5
  {}

  lemma InterpolateMiddle(v: seq<real>)
    requires v != []
    ensures Interpolate(v, (|v| - 1) as real / 2.0) == Median(v)
  {
    hide Part;
    Halves(|v|);
    var rank := (|v| - 1) as real / 2.0;
    var lower := rank.Floor;
    if |v| % 2 == 1 {
      assert lower == |v| / 2 && rank - lower as real == 0.0;
    } else {
      assert lower == |v| / 2 - 1 && rank - lower as real == 0.5;
    }
    PartEnds(v[Upper(|v|, lower)] - v[lower]);
  }

  /** The 50th percentile is the median. */
  lemma MedianIsPercentile50(values: seq<real>)
    requires values != []
    ensures Percentile(values, 50.0) == Median(SortReals(values))
  {
    hide Interpolate, Rank, SortReals, Median;
    MiddleRank(|values|);
    InterpolateMiddle(SortReals(values));
  }

  // ---------- Sums and means ----------

  function Sum(s: seq<real>): real { if s == [] then 0.0 else s[0] + Sum(s[1..]) }

  function Mean(s: seq<real>): real requires s != [] { Sum(s) / |s| as real }

  lemma PartNext(x: real, n: real)
    ensures Part(x, 0.0) == 0.0 && Part(x, n + 1.0) == Part(x, n) + x
  {
    Distribute(x, n, 1.0);
  }

  lemma {:induction false} SumBounds(s: seq<real>, lo: real, hi: real)
    requires Within(s, lo, hi)
    ensures Part(lo, |s| as real) <= Sum(s) <= Part(hi, |s| as real)
  {
    hide Part;
    var n := if s == [] then 0 else |s| - 1;
    PartNext(lo, n as real);
    PartNext(hi, n as real);
    if s != [] {
      assert forall x :: x in s[1..] ==> x in s;
      SumBounds(s[1..], lo, hi);
      assert s[0] in s;
    }
  }

  lemma QuotientBetween(total: real, m: real, lo: real, hi: real)
    requires m > 0.0 && Part(lo, m) <= total <= Part(hi, m)
    ensures lo <= total / m <= hi
  {
    var q := total / m;
    DivideBack(total, m);
    assert m * q == total;
    Cancel(m, lo, q);
    Cancel(m, q, hi);
  }

  lemma MeanBounds(s: seq<real>, lo: real, hi: real)
    requires s != [] && Within(s, lo, hi)
    ensures lo <= Mean(s) <= hi
  {
    hide Sum, Part;
    SumBounds(s, lo, hi);
    QuotientBetween(Sum(s), |s| as real, lo, hi);
  }

  lemma {:induction false} SumInsert(key: real -> real, x: real, s: seq<real>)
    ensures Sum(Insert(key, x, s)) == x + Sum(s)
  {
    if s == [] || key(x) <= key(s[0]) {
      assert ([x] + s)[1..] == s;
    } else {
      SumInsert(key, x, s[1..]);
      assert ([s[0]] + Insert(key, x, s[1..]))[1..] == Insert(key, x, s[1..]);
    }
  }

  lemma {:induction false} SumSort(key: real -> real, s: seq<real>)
    ensures Sum(Sort(key, s)) == Sum(s)
  {
    if s != [] {
      SumSort(key, s[1..]);
      SumInsert(key, s[0], Sort(key, s[1..]));
    }
  }

  /** Sorting first does not change the mean. */
  lemma MeanOfSorted(s: seq<real>)
    requires s != []
    ensures Mean(SortReals(s)) == Mean(s)
  {
    SumSort((x: real) => x, s);
    SortedIsUnique(SortReals(s), Sort((x: real) => x, s));
  }

  // ---------- The bootstrap ----------

  /** The draws of `rng.randrange(n)`: one list of n indices for each resample. */
  predicate ValidDraws(n: nat, draws: seq<seq<nat>>) {
    forall b :: 0 <= b < |draws| ==> |draws[b]| == n && forall i :: 0 <= i < n ==> draws[b][i] < n
  }

  /** Draws are made only when there are two values or more. */
  predicate Usable(n: nat, draws: seq<seq<nat>>) { n >= 2 ==> draws != [] && ValidDraws(n, draws) }

  function Resample(vals: seq<real>, draw: seq<nat>): (s: seq<real>)
    requires forall i :: 0 <= i < |draw| ==> draw[i] < |vals|
    ensures |s| == |draw| && forall x :: x in s ==> x in vals
  {
    seq(|draw|, i requires 0 <= i < |draw| => vals[draw[i]])
  }

  function BootMeans(vals: seq<real>, draws: seq<seq<nat>>): (means: seq<real>)
    requires vals != [] && ValidDraws(|vals|, draws)
    ensures |means| == |draws|
  {
    seq(|draws|, b requires 0 <= b < |draws| => Mean(Resample(vals, draws[b])))
  }

  datatype Ends = Ends(low: real, high: real)

  /** The 2.5% and 97.5% order statistics of the resampled means. */
  function BootstrapEnds(vals: seq<real>, draws: seq<seq<nat>>): Ends
    requires vals != [] && draws != [] && ValidDraws(|vals|, draws)
  {
    var sorted := SortReals(BootMeans(vals, draws));
    Ends(sorted[(25 * |draws|) / 1000], sorted[(975 * |draws|) / 1000])
  }

  predicate Within(s: seq<real>, lo: real, hi: real) { forall x :: x in s ==> lo <= x <= hi }

  lemma SortedWithin(s: seq<real>, lo: real, hi: real)
    requires Within(s, lo, hi)
    ensures forall i :: 0 <= i < |s| ==> lo <= SortReals(s)[i] <= hi
  {
    hide SortReals;
    forall i | 0 <= i < |s| ensures lo <= SortReals(s)[i] <= hi { SortedElements(s, i); }
  }

  /** For every random stream the two ends are ordered and lie within the values. */
  lemma BootstrapBounds(vals: seq<real>, draws: seq<seq<nat>>, lo: real, hi: real)
    requires vals != [] && draws != [] && ValidDraws(|vals|, draws) && Within(vals, lo, hi)
    ensures lo <= BootstrapEnds(vals, draws).low <= BootstrapEnds(vals, draws).high <= hi
  {
    hide Mean, Resample, SortReals;
    var means := BootMeans(vals, draws);
    forall b | 0 <= b < |draws| ensures lo <= means[b] <= hi {
      MeanBounds(Resample(vals, draws[b]), lo, hi);
    }
    SortedWithin(means, lo, hi);
  }

  /** The bootstrap loop. */
  method Bootstrap(vals: seq<real>, draws: seq<seq<nat>>) returns (ends: Ends)
    requires |vals| >= 2 && draws != [] && ValidDraws(|vals|, draws)
    ensures ends == BootstrapEnds(vals, draws)
  {
    hide Mean, Resample, SortReals;
    var bootMeans: seq<real> := [];
    for b := 0 to |draws|
      invariant bootMeans == BootMeans(vals, draws)[..b]
    {
      bootMeans := bootMeans + [Mean(Resample(vals, draws[b]))];
    }
    assert bootMeans == BootMeans(vals, draws);
    var sorted := SortReals(bootMeans);
    ends := Ends(sorted[(25 * |draws|) / 1000], sorted[(975 * |draws|) / 1000]);
  }

  function RoundEnds(ends: Ends): Ends { Ends(Round(ends.low, 100), Round(ends.high, 100)) }

  function Spread(q1: real, q3: real): real { Round(q3 - q1, 100) }

  datatype MttdStats = MttdStats(mean: real, median: real, iqr: real, p95: real, interval: Option<Ends>)

  /** The statistics in terms of the values in any order. */
  function StatsOf(values: seq<real>, draws: seq<seq<nat>>): MttdStats
    requires values != [] && Usable(|values|, draws)
  {
    var interval :=
      if |values| < 2 then None
      else
        var ends := BootstrapEnds(SortReals(values), draws);
        Some(RoundEnds(ends));
    MttdStats(Round(Mean(values), 100), Round(Percentile(values, 50.0), 100),
      Spread(Percentile(values, 25.0), Percentile(values, 75.0)), Round(Percentile(values, 95.0), 100), interval)
  }

  /** The interquartile range is nonnegative, the median is at most the 95th percentile, and every
      reported delay lies within the rounded extremes of the values. */
  lemma StatsInOrder(values: seq<real>, draws: seq<seq<nat>>, lo: real, hi: real)
    requires values != [] && Usable(|values|, draws) && Within(values, lo, hi)
    ensures
      var stats := StatsOf(values, draws);
      && stats.iqr >= 0.0
      && Round(lo, 100) <= stats.mean <= Round(hi, 100)
      && Round(lo, 100) <= stats.median <= stats.p95 <= Round(hi, 100)
  {
    hide Mean, Percentile, Round, BootstrapEnds;
    PercentileMonotone(values, 25.0, 75.0);
    PercentileMonotone(values, 50.0, 95.0);
    MeanBounds(values, lo, hi);
    PercentileBounds(values, 50.0, lo, hi);
    PercentileBounds(values, 95.0, lo, hi);
    RoundInOrder(lo, Mean(values), Mean(values), hi);
    RoundInOrder(lo, Percentile(values, 50.0), Percentile(values, 95.0), hi);
    RoundNonnegative(Percentile(values, 75.0) - Percentile(values, 25.0));
  }

  lemma IntervalInOrder(values: seq<real>, draws: seq<seq<nat>>, lo: real, hi: real)
    requires values != [] && Usable(|values|, draws) && Within(values, lo, hi)
    ensures
      var interval := StatsOf(values, draws).interval;
      && (interval.Some? <==> |values| >= 2)
      && (interval.Some? ==> Round(lo, 100) <= interval.value.low <= interval.value.high <= Round(hi, 100))
  {
    hide Mean, Percentile, Round, BootstrapEnds, SortReals;
    if |values| >= 2 {
      var vals := SortReals(values);
      SortedWithin(values, lo, hi);
      BootstrapBounds(vals, draws, lo, hi);
      var ends := BootstrapEnds(vals, draws);
      RoundInOrder(lo, ends.low, ends.high, hi);
    }
  }

  /** Every statistic is a function of the multiset of values. */
  lemma StatsIgnoreOrder(a: seq<real>, b: seq<real>, draws: seq<seq<nat>>)
    requires a != [] && multiset(a) == multiset(b) && Usable(|a|, draws)
    ensures |a| == |b| && StatsOf(a, draws) == StatsOf(b, draws)
  {
    hide Mean, Percentile, Round, Spread, BootstrapEnds, SortReals;
    SameLength(a, b);
    SortIgnoresOrder(a, b);
    MeanOfSorted(a);
    MeanOfSorted(b);
    PercentileIgnoresOrder(a, b, 25.0);
    PercentileIgnoresOrder(a, b, 50.0);
    PercentileIgnoresOrder(a, b, 75.0);
    PercentileIgnoresOrder(a, b, 95.0);
  }

  /** `_compute_mttd_stats` */
  method ComputeMttdStats(values: seq<real>, draws: seq<seq<nat>>) returns (stats: Option<MttdStats>)
    requires Usable(|values|, draws)
    ensures stats == if values == [] then None else Some(StatsOf(values, draws))
  {
    if values == [] { return None; }
    hide Mean, SortReals, Percentile, Median, Round, Spread, BootstrapEnds;
    var vals := SortReals(values);
    MeanOfSorted(values);
    MedianIsPercentile50(values);
    PercentileIgnoresOrder(vals, values, 25.0);
    PercentileIgnoresOrder(vals, values, 75.0);
    PercentileIgnoresOrder(vals, values, 95.0);
    var interval := None;
    if |vals| >= 2 {
      var ends := Bootstrap(vals, draws);
      interval := Some(RoundEnds(ends));
    }
    var q1, q3 := Percentile(vals, 25.0), Percentile(vals, 75.0);
    stats := Some(MttdStats(Round(Mean(vals), 100), Round(Median(vals), 100), Spread(q1, q3),
      Round(Percentile(vals, 95.0), 100), interval));
  }

  lemma RoundInOrder(a: real, b: real, c: real, d: real)
    requires a <= b <= c <= d
    ensures Round(a, 100) <= Round(b, 100) <= Round(c, 100) <= Round(d, 100)
  {
    hide Round;
    RoundMonotone(a, b, 100);
    RoundMonotone(b, c, 100);
    RoundMonotone(c, d, 100);
  }

  lemma RoundNonnegative(x: real)
    requires x >= 0.0
    ensures Round(x, 100) >= 0.0
  {
    RoundMonotone(0.0, x, 100);
  }
}
