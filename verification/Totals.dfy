/** Sums over the values of a map. */
module Totals {
  import opened Common
  import opened Rounding

  ghost function Total(m: map<string, real>): real
    decreases |m|
  {
    if m == map[] then 0.0
    else
      var k :| k in m;
      m[k] + Total(m - {k})
  }

  /** The order of the summands does not matter. */
  lemma {:induction false} TotalWithout(m: map<string, real>, k: string)
    requires k in m
    ensures Total(m) == m[k] + Total(m - {k})
    decreases |m|
  {
    var j :| j in m && Total(m) == m[j] + Total(m - {j});
    if j != k {
      TotalWithout(m - {j}, k);
      TotalWithout(m - {k}, j);
      assert m - {j} - {k} == m - {k} - {j};
    }
  }

  lemma TotalWith(m: map<string, real>, k: string, v: real)
    ensures Total(m[k := v]) == v + Total(m - {k})
    ensures k !in m ==> Total(m[k := v]) == v + Total(m)
  {
    TotalWithout(m[k := v], k);
    assert m[k := v] - {k} == m - {k};
    assert k !in m ==> m - {k} == m;
  }

  /** Fewer and smaller values that are not negative. */
  lemma {:induction false} TotalShrinks(a: map<string, real>, b: map<string, real>)
    requires a.Keys <= b.Keys && (forall k <- b :: b[k] >= 0.0) && (forall k <- a :: a[k] <= b[k])
    ensures Total(a) <= Total(b)
    decreases |b|
  {
    if b != map[] {
      var k :| k in b;
      TotalWithout(b, k);
      assert (a - {k}).Keys == a.Keys - {k} && (b - {k}).Keys == b.Keys - {k};
      TotalShrinks(a - {k}, b - {k});
      if k in a {
        TotalWithout(a, k);
      } else {
        assert a - {k} == a;
      }
    }
  }

  lemma TotalNotNegative(m: map<string, real>)
    requires forall k <- m :: m[k] >= 0.0
    ensures Total(m) >= 0.0
  {
    TotalShrinks(map[], m);
  }

  /** `n` times the same value. */
  ghost function Repeated(v: real, n: nat): real {
    if n == 0 then 0.0 else v + Repeated(v, n - 1)
  }

  lemma {:induction false} RepeatedIsProduct(v: real, n: nat)
    ensures Repeated(v, n) == Times(v, n as real)
  {
    if n > 0 {
      RepeatedIsProduct(v, n - 1);
      assert Times(v, (n - 1) as real) + v == Times(v, n as real);
    }
  }

  lemma {:induction false} TotalBounded(m: map<string, real>, most: real, n: nat)
    requires |m| == n && forall k <- m :: m[k] <= most
    ensures Total(m) <= Repeated(most, n)
    decreases n
  {
    if m != map[] {
      var k :| k in m;
      TotalWithout(m, k);
      assert (m - {k}).Keys == m.Keys - {k};
      TotalBounded(m - {k}, most, n - 1);
    }
  }

  lemma {:induction false} TotalOfEqual(m: map<string, real>, v: real, n: nat)
    requires |m| == n && forall k <- m :: m[k] == v
    ensures Total(m) == Repeated(v, n)
    decreases n
  {
    if m != map[] {
      var k :| k in m;
      TotalWithout(m, k);
      assert (m - {k}).Keys == m.Keys - {k};
      TotalOfEqual(m - {k}, v, n - 1);
    }
  }

  lemma {:induction false} RepeatedMore(v: real, m: nat, n: nat)
    requires v >= 0.0 && m <= n
    ensures Repeated(v, m) <= Repeated(v, n)
    decreases n - m
  {
    if m < n {
      RepeatedMore(v, m + 1, n);
    }
  }

  lemma {:induction false} RepeatedAdds(v: real, m: nat, n: nat)
    ensures Repeated(v, m) + Repeated(v, n) == Repeated(v, m + n)
    decreases n
  {
    if n > 0 {
      RepeatedAdds(v, m, n - 1);
    }
  }

  lemma TwoTotals(a: map<string, real>, b: map<string, real>, most: real, slots: nat)
    requires most >= 0.0 && |a| + |b| <= slots
    requires (forall k <- a :: a[k] <= most) && (forall k <- b :: 0.0 <= b[k] <= most)
    ensures Total(a) <= Total(a) + Total(b) <= Repeated(most, slots)
  {
    TotalBounded(a, most, |a|);
    TotalBounded(b, most, |b|);
    RepeatedAdds(most, |a|, |b|);
    RepeatedMore(most, |a| + |b|, slots);
    TotalNotNegative(b);
  }
}
