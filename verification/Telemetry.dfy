/** Histograms of fixed memory with doubling buckets (fbot/core/telemetry.py). */
module Telemetry {
  import opened Common
  import opened Rounding

  const BUCKETS: nat := 25

  /** The upper edge of bucket `i`, in nanoseconds. */
  function Edge(i: nat): int {
    if i == 0 then 1_000 else 2 * Edge(i - 1)
  }

  lemma {:induction false} EdgesGrow(i: nat, j: nat)
    requires i <= j
    ensures 0 < Edge(i) <= Edge(j)
    decreases j
  {
    if i < j {
      EdgesGrow(i, j - 1);
    } else if i > 0 {
      EdgesGrow(i - 1, i - 1);
    }
  }

  /** The bucket of a value: the first whose edge it does not exceed, or the open last one. */
  predicate InBucket(v: int, k: nat) {
    k <= BUCKETS && (k < BUCKETS ==> v <= Edge(k)) && (k > 0 ==> v > Edge(k - 1))
  }

  lemma BucketIsUnique(v: int, k: nat, m: nat)
    requires InBucket(v, k) && InBucket(v, m)
    ensures k == m
  {
    if k < m {
      EdgesGrow(k, m - 1);
    } else if m < k {
      EdgesGrow(m, k - 1);
    }
  }

  // ---- counting observations

  function AtMost(seen: seq<int>, b: int): nat {
    if seen == [] then 0
    else AtMost(seen[..|seen| - 1], b) + if seen[|seen| - 1] <= b then 1 else 0
  }

  function Below(seen: seq<int>, b: int): nat {
    AtMost(seen, b - 1)
  }

  /** Observations in one of the first `k` buckets. */
  function InFirst(seen: seq<int>, k: nat): nat {
    if k == 0 then 0 else if k <= BUCKETS then AtMost(seen, Edge(k - 1)) else |seen|
  }

  lemma {:induction false} AtMostGrows(seen: seq<int>, b: int, c: int)
    requires b <= c
    ensures AtMost(seen, b) <= AtMost(seen, c) <= |seen|
  {
    if seen != [] {
      AtMostGrows(seen[..|seen| - 1], b, c);
    }
  }

  function Sum(xs: seq<int>): int {
    if xs == [] then 0 else Sum(xs[..|xs| - 1]) + xs[|xs| - 1]
  }

  /** The largest observation, or 0. */
  function Largest(seen: seq<int>): int {
    if seen == [] then 0
    else
      var before := Largest(seen[..|seen| - 1]);
      if seen[|seen| - 1] > before then seen[|seen| - 1] else before
  }

  lemma {:induction false} LargestBounds(seen: seq<int>)
    ensures forall v <- seen :: v <= Largest(seen)
  {
    if seen != [] {
      LargestBounds(seen[..|seen| - 1]);
      assert seen == seen[..|seen| - 1] + [seen[|seen| - 1]];
    }
  }

  // ---- quantiles

  /** The observation of rank q: fewer than that share lie below it, at least that share up to it. */
  predicate IsQuantile(seen: seq<int>, q: real, x: int) {
    x in seen && Below(seen, x) as real < Times(q, |seen| as real) <= AtMost(seen, x) as real
  }

  /** The first bucket up to which the counts reach the target. */
  predicate FirstReaching(seen: seq<int>, target: real, k: nat) {
    k <= BUCKETS && InFirst(seen, k + 1) as real >= target && InFirst(seen, k) as real < target
  }

  /** That bucket is the one the quantile lies in. */
  lemma QuantileBucket(seen: seq<int>, q: real, x: int, k: nat)
    requires IsQuantile(seen, q, x) && FirstReaching(seen, Times(q, |seen| as real), k)
    ensures InBucket(x, k)
  {
    if k < BUCKETS && x > Edge(k) {
      AtMostGrows(seen, Edge(k), x - 1);
    }
    if k > 0 && x <= Edge(k - 1) {
      AtMostGrows(seen, x, Edge(k - 1));
    }
  }

  /** What the histogram answers. */
  ghost predicate IsAnswer(seen: seq<int>, q: real, r: int) {
    exists k: nat :: FirstReaching(seen, Times(q, |seen| as real), k) && r == Answer(seen, k)
  }

  function Answer(seen: seq<int>, k: nat): int {
    if k < BUCKETS then Edge(k) else Largest(seen)
  }

  /** The answer is never below the true quantile, and less than twice it unless the quantile lies
      in the first bucket or beyond the last edge; there it is the largest observation. */
  lemma AnswerIsClose(seen: seq<int>, q: real, x: int, r: int)
    requires IsQuantile(seen, q, x) && IsAnswer(seen, q, r)
    ensures x <= r
    ensures Edge(0) < x <= Edge(BUCKETS - 1) ==> r < 2 * x
    ensures x <= Edge(0) ==> r == Edge(0)
    ensures x > Edge(BUCKETS - 1) ==> r == Largest(seen)
  {
    var k: nat :| FirstReaching(seen, Times(q, |seen| as real), k) && r == Answer(seen, k);
    QuantileBucket(seen, q, x, k);
    LargestBounds(seen);
    if k > 0 {
      EdgesGrow(0, k - 1);
    }
    if k < BUCKETS {
      EdgesGrow(k, BUCKETS - 1);
    }
  }

  // ---- every share has a quantile

  lemma {:induction false} SomeUpTo(seen: seq<int>, b: int) returns (y: int)
    requires AtMost(seen, b) > 0
    ensures y in seen && y <= b && AtMost(seen, y) == AtMost(seen, b)
    decreases |seen|
  {
    var n := |seen| - 1;
    if seen[n] > b {
      y := SomeUpTo(seen[..n], b);
    } else if AtMost(seen[..n], b) == 0 {
      y := seen[n];
      AtMostGrows(seen[..n], y, b);
    } else {
      var z := SomeUpTo(seen[..n], b);
      y := if z > seen[n] then z else seen[n];
      AtMostGrows(seen[..n], z, y);
      AtMostGrows(seen[..n], y, b);
    }
  }

  lemma {:induction false} CountedIsAbove(seen: seq<int>, y: int)
    requires y in seen
    ensures AtMost(seen, y - 1) < AtMost(seen, y)
  {
    var n := |seen| - 1;
    AtMostGrows(seen[..n], y - 1, y);
    if seen[n] != y {
      CountedIsAbove(seen[..n], y);
    }
  }

  lemma {:induction false} DescendToQuantile(seen: seq<int>, q: real, x: int) returns (y: int)
    requires x in seen && 0.0 < Times(q, |seen| as real) <= AtMost(seen, x) as real
    ensures IsQuantile(seen, q, y)
    decreases AtMost(seen, x)
  {
    if Below(seen, x) as real < Times(q, |seen| as real) {
      y := x;
    } else {
      CountedIsAbove(seen, x);
      var z := SomeUpTo(seen, x - 1);
      y := DescendToQuantile(seen, q, z);
    }
  }

  lemma {:induction false} AllAtMost(seen: seq<int>, b: int)
    requires forall v <- seen :: v <= b
    ensures AtMost(seen, b) == |seen|
  {
    if seen != [] {
      var before := seen[..|seen| - 1];
      assert seen[|seen| - 1] in seen;
      forall v | v in before ensures v <= b {
        assert v in seen;
      }
      AllAtMost(before, b);
    }
  }

  /** Whenever something was observed, every share from above 0 up to all has a quantile. */
  lemma QuantileExists(seen: seq<int>, q: real) returns (x: int)
    requires seen != [] && 0.0 < q <= 1.0
    ensures IsQuantile(seen, q, x)
  {
    SignOfShare(q, |seen| as real);
    LargestBounds(seen);
    AllAtMost(seen, Largest(seen));
    var top := SomeUpTo(seen, Largest(seen));
    x := DescendToQuantile(seen, q, top);
  }

  // ---- the histogram

  class Histogram {
    const counts: array<nat>
    var count: nat
    var totalNs: int
    var maxNs: int
    ghost var seen: seq<int>

    /** The counters are what the observations so far make them. */
    ghost predicate Valid()
      reads this, counts
    {
      && counts.Length == BUCKETS + 1 && count == |seen| && totalNs == Sum(seen) && maxNs == Largest(seen)
      && forall k :: 0 <= k <= BUCKETS ==> counts[k] == InFirst(seen, k + 1) - InFirst(seen, k)
    }

    constructor ()
      ensures Valid() && seen == [] && fresh(counts)
    {
      counts := new nat[BUCKETS + 1](_ => 0);
      count, totalNs, maxNs, seen := 0, 0, 0, [];
    }

    /** Binary search over the edges. */
    static method Bucket(v: int) returns (k: nat)
      ensures InBucket(v, k)
    {
      var lo, hi := 0, BUCKETS;
      while lo < hi
        invariant 0 <= lo <= hi <= BUCKETS
        invariant (hi < BUCKETS ==> v <= Edge(hi)) && (lo > 0 ==> v > Edge(lo - 1))
      {
        var mid := (lo + hi) / 2;
        if v <= Edge(mid) {
          hi := mid;
        } else {
          lo := mid + 1;
        }
      }
      k := lo;
    }

    method Observe(v: int)
      requires Valid()
      modifies this, counts
      ensures Valid() && seen == old(seen) + [v]
    {
      count := count + 1;
      totalNs := totalNs + v;
      if v > maxNs {
        maxNs := v;
      }
      var k := Bucket(v);
      counts[k] := counts[k] + 1;
      seen := seen + [v];
      assert seen[..|seen| - 1] == old(seen);
      forall m | 0 <= m <= BUCKETS ensures counts[m] == InFirst(seen, m + 1) - InFirst(seen, m) {
        ObservedIn(old(seen), v, k, m);
      }
    }

    /** Adds the counts up to the target; one past the last bucket if they never reach it. */
    method Reach(target: real) returns (k: nat)
      requires Valid()
      ensures k <= BUCKETS ==> InFirst(seen, k + 1) as real >= target && (k > 0 ==> (InFirst(seen, k) as real) < target)
      ensures k > BUCKETS ==> k == BUCKETS + 1 && (|seen| as real) < target
    {
      var total: nat := 0;
      k := 0;
      while k < counts.Length
        invariant k <= counts.Length && total == InFirst(seen, k) && (k > 0 ==> (total as real) < target)
      {
        InFirstGrows(seen, k);
        total := total + counts[k];
        if total as real >= target {
          return;
        }
        k := k + 1;
      }
    }

    method Reading(target: real) returns (r: int)
      requires Valid() && seen != []
      ensures 0.0 < target <= |seen| as real ==> exists k: nat :: FirstReaching(seen, target, k) && r == Answer(seen, k)
      ensures target <= 0.0 ==> r == Edge(0)
      ensures target > |seen| as real ==> r == Largest(seen)
    {
      var k := Reach(target);
      if k <= BUCKETS {
        InFirstGrows(seen, k);
        assert target > 0.0 ==> FirstReaching(seen, target, k);
      }
      AtMostGrows(seen, Edge(0), Edge(0));
      r := if k < BUCKETS then Edge(k) else maxNs;
    }

    method QuantileNs(q: real) returns (r: Option<int>)
      requires Valid()
      ensures r.None? <==> seen == []
      ensures seen != [] && 0.0 < q <= 1.0 ==> IsAnswer(seen, q, r.value)
      ensures seen != [] && q <= 0.0 ==> r == Some(Edge(0))
      ensures seen != [] && q > 1.0 ==> r == Some(Largest(seen))
    {
      if count == 0 {
        return None;
      }
      SignOfShare(q, count as real);
      var reading := Reading(Times(q, count as real));
      return Some(reading);
    }
  }

  lemma SignOfShare(q: real, n: real)
    requires n > 0.0
    ensures q > 0.0 <==> Times(q, n) > 0.0
    ensures q > 1.0 <==> Times(q, n) > n
  {
    assert Times(q, n) - n == (q - 1.0) * n;
  }

  lemma InFirstGrows(seen: seq<int>, k: nat)
    requires k <= BUCKETS
    ensures InFirst(seen, k) <= InFirst(seen, k + 1) <= |seen|
  {
    EdgesGrow(0, k);
    if k > 0 {
      EdgesGrow(k - 1, k);
      AtMostGrows(seen, Edge(k - 1), Edge(k));
    } else {
      AtMostGrows(seen, 0, Edge(0));
    }
  }

  /** An observation adds to its own bucket only. */
  lemma ObservedIn(seen: seq<int>, v: int, k: nat, m: nat)
    requires InBucket(v, k) && m <= BUCKETS
    ensures InFirst(seen + [v], m + 1) - InFirst(seen + [v], m)
      == InFirst(seen, m + 1) - InFirst(seen, m) + if m == k then 1 else 0
  {
    assert (seen + [v])[..|seen|] == seen;
    if m < k {
      EdgesGrow(m, k - 1);
      if m > 0 {
        EdgesGrow(m - 1, k - 1);
      }
    } else if m > k {
      EdgesGrow(k, m - 1);
      if m < BUCKETS {
        EdgesGrow(k, m);
      }
    }
  }

  /** The buckets share the observations out: their counts add up to the number observed. */
  lemma {:induction false} CountsAddUp(h: Histogram, k: nat)
    requires h.Valid() && k <= BUCKETS + 1
    ensures Sum(h.counts[..k]) == InFirst(h.seen, k)
    ensures k == BUCKETS + 1 ==> Sum(h.counts[..]) == h.count
  {
    if k > 0 {
      CountsAddUp(h, k - 1);
      assert h.counts[..k][..k - 1] == h.counts[..k - 1];
    }
    if k == BUCKETS + 1 {
      assert h.counts[..k] == h.counts[..];
    }
  }
}
