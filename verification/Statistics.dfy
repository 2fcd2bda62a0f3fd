/** Nearest-rank percentiles, as `_percentile` and `_nearest_rank_p95` compute them, against counting. */
module Statistics {
  import opened Basics

  ghost predicate Ordered(s: seq<real>) {
    forall j, k :: 0 <= j <= k < |s| ==> s[j] <= s[k]
  }

  function Insert(x: real, s: seq<real>): (r: seq<real>)
    ensures |r| == |s| + 1
  {
    if s == [] || x <= s[0] then [x] + s else [s[0]] + Insert(x, s[1..])
  }

  /** `sorted(values)`. */
  function Sort(values: seq<real>): (s: seq<real>)
    ensures |s| == |values|
    decreases |values|
  {
    if values == [] then [] else Insert(values[0], Sort(values[1..]))
  }

  lemma {:induction false} InsertOrdered(x: real, s: seq<real>)
    requires Ordered(s)
    ensures Ordered(Insert(x, s))
    ensures Insert(x, s)[0] == if s == [] || x <= s[0] then x else s[0]
  {
    if s != [] && x > s[0] {
      InsertOrdered(x, s[1..]);
      OrderedCons(s[0], Insert(x, s[1..]));
    } else {
      OrderedCons(x, s);
    }
  }

  lemma OrderedCons(x: real, s: seq<real>)
    requires Ordered(s) && (s != [] ==> x <= s[0])
    ensures Ordered([x] + s)
  {
    var r := [x] + s;
    forall j, k | 0 <= j <= k < |r| ensures r[j] <= r[k] {
      assert k > 0 ==> s[0] <= s[k - 1];
    }
  }

  lemma {:induction false} SortOrdered(values: seq<real>)
    ensures Ordered(Sort(values))
  {
    if values != [] {
      SortOrdered(values[1..]);
      InsertOrdered(values[0], Sort(values[1..]));
    }
  }

  /** How many of the values are within a limit. */
  function CountWithin(values: seq<real>, limit: real): (n: nat)
    ensures n <= |values|
  {
    if values == [] then 0 else (if values[0] <= limit then 1 else 0) + CountWithin(values[1..], limit)
  }

  lemma {:induction false} InsertCount(x: real, s: seq<real>, limit: real)
    ensures CountWithin(Insert(x, s), limit) == (if x <= limit then 1 else 0) + CountWithin(s, limit)
  {
    if s == [] || x <= s[0] {
      assert ([x] + s)[1..] == s;
    } else {
      assert ([s[0]] + Insert(x, s[1..]))[1..] == Insert(x, s[1..]);
      InsertCount(x, s[1..], limit);
    }
  }

  lemma {:induction false} SortCount(values: seq<real>, limit: real)
    ensures CountWithin(Sort(values), limit) == CountWithin(values, limit)
  {
    if values != [] {
      SortCount(values[1..], limit);
      InsertCount(values[0], Sort(values[1..]), limit);
    }
  }

  /** The value of a rank is within a limit exactly when at least that many values are. */
  lemma {:induction false} RankWithin(s: seq<real>, rank: nat, limit: real)
    requires Ordered(s) && 1 <= rank <= |s|
    ensures s[rank - 1] <= limit <==> CountWithin(s, limit) >= rank
  {
    if s[0] > limit {
      NoneWithin(s, limit);
    } else if rank > 1 {
      RankWithin(s[1..], rank - 1, limit);
    }
  }

  lemma {:induction false} NoneWithin(s: seq<real>, limit: real)
    requires Ordered(s) && (s != [] ==> s[0] > limit)
    ensures CountWithin(s, limit) == 0
  {
    if s != [] {
      NoneWithin(s[1..], limit);
    }
  }

  // ----- the 95th percentile of the voice-chain benchmark -----

  /** ceil(0.95 * n), at least one. */
  function Rank95(n: nat): (rank: nat)
    ensures rank == Max(1, CeilDiv(19 * n, 20))
    ensures n >= 1 ==> rank <= n
  {
    Max(1, (19 * n + 19) / 20)
  }

  function NearestRankP95(values: seq<real>): real
    requires values != []
  {
    Sort(values)[Rank95(|values|) - 1]
  }

  /** A metric's p95 is within its threshold exactly when at least 95% of the samples, rounded up, are. */
  lemma P95WithinIff(values: seq<real>, limit: real)
    requires values != []
    ensures NearestRankP95(values) <= limit <==> CountWithin(values, limit) >= CeilDiv(19 * |values|, 20)
  {
    SortOrdered(values);
    SortCount(values, limit);
    RankWithin(Sort(values), Rank95(|values|), limit);
  }

  // ----- the percentiles of the vision soak -----

  function CeilReal(x: real): (n: int)
    ensures (n - 1) as real < x <= n as real
  {
    -((-x).Floor)
  }

  function FractionOf(percentile: real, n: real): real {
    percentile * n
  }

  function PercentileRank(n: nat, percentile: real): (rank: nat)
    requires n >= 1
    ensures 1 <= rank <= n
  {
    Max(0, Min(n - 1, CeilReal(FractionOf(percentile, n as real)) - 1)) + 1
  }

  function Percentile(ordered: seq<real>, percentile: real): real {
    if ordered == [] then 0.0 else ordered[PercentileRank(|ordered|, percentile) - 1]
  }

  /** For any fraction, in or out of range: the percentile is within a limit exactly when as many values as its rank are;
      for a fraction in range that is the fraction of the values, rounded up. */
  lemma PercentileWithinIff(values: seq<real>, percentile: real, limit: real)
    requires values != []
    ensures Percentile(Sort(values), percentile) <= limit
       <==> CountWithin(values, limit) >= PercentileRank(|values|, percentile)
    ensures percentile <= 0.0 ==> PercentileRank(|values|, percentile) == 1
    ensures percentile >= 1.0 ==> PercentileRank(|values|, percentile) == |values|
    ensures 0.0 < percentile <= 1.0 ==>
      PercentileRank(|values|, percentile) == CeilReal(percentile * |values| as real)
  {
    SortOrdered(values);
    SortCount(values, limit);
    RankWithin(Sort(values), PercentileRank(|values|, percentile), limit);
    if 0.0 < percentile <= 1.0 {
      FractionInRange(percentile, |values| as real);
    }
    FractionBeyond(percentile, |values| as real);
  }

  lemma FractionBeyond(percentile: real, n: real)
    requires n >= 1.0
    ensures percentile <= 0.0 ==> FractionOf(percentile, n) <= 0.0
    ensures percentile >= 1.0 ==> FractionOf(percentile, n) >= n
  {
    if percentile <= 0.0 {
      assert -percentile * n >= 0.0;
    } else if percentile >= 1.0 {
      assert (percentile - 1.0) * n >= 0.0;
    }
  }

  lemma FractionInRange(percentile: real, n: real)
    requires n >= 1.0 && 0.0 < percentile <= 1.0
    ensures 0.0 < FractionOf(percentile, n) <= n
  {
    assert (1.0 - percentile) * n >= 0.0;
  }
}
