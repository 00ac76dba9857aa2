/**
 Nearest-rank percentiles of a list of durations.
 */
module Percentiles {
  import opened Sorting

  function CountLe(s: seq<int>, v: int): nat {
    if s == [] then 0 else (if s[0] <= v then 1 else 0) + CountLe(s[1..], v)
  }

  /** At least `percentile` hundredths of the samples are no larger than v. */
  predicate Covers(s: seq<int>, v: int, percentile: nat) { CountLe(s, v) * 100 >= percentile * |s| }

  lemma {:induction false} InsertCounts(x: int, s: seq<int>, v: int)
    ensures CountLe(Insert(x, s, IntLe), v) == CountLe(s, v) + (if x <= v then 1 else 0)
  {
    if s != [] && !IntLe(x, s[0]) {
      InsertCounts(x, s[1..], v);
      assert Insert(x, s, IntLe)[1..] == Insert(x, s[1..], IntLe);
    } else {
      assert ([x] + s)[1..] == s;
    }
  }

  lemma {:induction false} SortCounts(s: seq<int>, v: int)
    ensures CountLe(Sort(s, IntLe), v) == CountLe(s, v)
  {
    if s != [] {
      SortCounts(s[1..], v);
      InsertCounts(s[0], Sort(s[1..], IntLe), v);
    }
  }

  /** On an ordered list the samples up to a value are a prefix. */
  lemma {:induction false} PrefixCounts(s: seq<int>, k: nat, v: int)
    requires Ordered(s, IntLe) && k <= |s|
    ensures (forall i | 0 <= i < k :: s[i] <= v) ==> CountLe(s, v) >= k
    ensures (forall i | k <= i < |s| :: s[i] > v) ==> CountLe(s, v) <= k
  {
    if s != [] {
      var rest := s[1..];
      assert forall i | 0 <= i < |rest| :: rest[i] == s[i + 1];
      assert Ordered(rest, IntLe);
      if k == 0 {
        PrefixCounts(rest, 0, v);
      } else {
        PrefixCounts(rest, k - 1, v);
        if forall i | 0 <= i < k :: s[i] <= v {
          assert forall i | 0 <= i < k - 1 :: rest[i] <= v;
        }
        if forall i | k <= i < |s| :: s[i] > v {
          assert forall i | k - 1 <= i < |rest| :: rest[i] > v;
        }
      }
    }
  }

  /** The percentile's share of the samples, rounded up, and at least one. */
  function Rank(n: nat, percentile: nat): nat {
    var share := (percentile * n + 99) / 100;
    if share < 1 then 1 else share
  }

  lemma RankRoundsUp(n: nat, percentile: nat)
    requires n > 0 && percentile <= 100
    ensures 1 <= Rank(n, percentile) <= n && Rank(n, percentile) * 100 >= percentile * n
    ensures percentile > 0 ==> percentile * n > (Rank(n, percentile) - 1) * 100
    ensures percentile == 0 ==> Rank(n, percentile) == 1
  {
    assert percentile > 0 ==> percentile * n >= 1;
    assert percentile * n <= 100 * n;
  }

  method NearestRank(values: seq<int>, percentile: nat) returns (v: int)
    requires values != [] && percentile <= 100
    ensures v == values[Rank(|values|, percentile) - 1]
    ensures Ordered(values, IntLe) ==> IsPercentile(values, v, percentile)
  {
    RankRoundsUp(|values|, percentile);
    var index := (percentile * |values| + 99) / 100;
    if index < 1 {
      index := 1;
    }
    v := values[index - 1];
    if Ordered(values, IntLe) {
      RankIsLeastCovering(values, percentile);
    }
  }

  /** A sample that covers the share, while no smaller sample does. */
  predicate IsPercentile(s: seq<int>, v: int, percentile: nat) {
    && v in s && Covers(s, v, percentile)
    && forall u | u in s && u < v :: !Covers(s, u, percentile)
  }

  lemma RankIsLeastCovering(s: seq<int>, percentile: nat)
    requires s != [] && percentile <= 100 && Ordered(s, IntLe)
    ensures 1 <= Rank(|s|, percentile) <= |s| && IsPercentile(s, s[Rank(|s|, percentile) - 1], percentile)
  {
    RankRoundsUp(|s|, percentile);
    var k := Rank(|s|, percentile);
    var v := s[k - 1];
    assert forall i | 0 <= i < k - 1 :: IntLe(s[i], s[k - 1]);
    PrefixCounts(s, k, v);
    forall u | u in s && u < v
      ensures !Covers(s, u, percentile)
    {
      assert forall i | k <= i < |s| :: IntLe(s[k - 1], s[i]);
      PrefixCounts(s, k - 1, u);
    }
  }

  /** The percentile of a list is that of its sorted copy, so its order does not matter. */
  lemma PercentileOfSorted(s: seq<int>, v: int, percentile: nat)
    requires IsPercentile(Sort(s, IntLe), v, percentile)
    ensures IsPercentile(s, v, percentile)
  {
    var t := Sort(s, IntLe);
    SortSorts(s, IntLe);
    SortCounts(s, v);
    assert v in multiset(t);
    forall u | u in s && u < v
      ensures !Covers(s, u, percentile)
    {
      assert u in multiset(s);
      assert u in t;
      SortCounts(s, u);
    }
  }

  method MedianAndTail(values: seq<int>) returns (p50: int, p95: int)
    requires values != []
    ensures IsPercentile(values, p50, 50) && IsPercentile(values, p95, 95) && p50 <= p95
  {
    SortSorts(values, IntLe);
    var sorted := Sort(values, IntLe);
    p50 := NearestRank(sorted, 50);
    p95 := NearestRank(sorted, 95);
    PercentileOfSorted(values, p50, 50);
    PercentileOfSorted(values, p95, 95);
  }
}
