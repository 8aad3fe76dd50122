/** Facts about products and quotients of reals, kept apart from the code that uses them. */
module Products {
  import opened Rounding

  lemma TimesAdds(a: real, b: real, p: real)
    ensures Times(a + b, p) == Times(a, p) + Times(b, p)
  {
  }

  lemma SignOfProduct(a: real, c: real)
    ensures (a >= 0.0 && c >= 0.0) || (a <= 0.0 && c <= 0.0) ==> Times(a, c) >= 0.0
    ensures (a >= 0.0 && c <= 0.0) || (a <= 0.0 && c >= 0.0) ==> Times(a, c) <= 0.0
  {
  }

  lemma StrictProduct(a: real, b: real, c: real)
    requires a < b && c > 0.0
    ensures Times(a, c) < Times(b, c)
  {
    assert (b - a) * c > 0.0;
  }

  lemma QuotientTimes(v: real, q: real)
    requires q != 0.0
    ensures Times(v / q, q) == v
  {
  }

  lemma TimesCommutes(a: real, b: real)
    ensures Times(a, b) == Times(b, a)
  {
  }

  lemma QuotientBetween(v: real, q: real, lo: real, hi: real)
    requires q > 0.0 && Times(q, lo) <= v <= Times(q, hi)
    ensures lo <= v / q <= hi
  {
    var r := v / q;
    QuotientTimes(v, q);
    TimesCommutes(q, lo);
    TimesCommutes(q, hi);
    if r < lo {
      StrictProduct(r, lo, q);
    }
    if r > hi {
      StrictProduct(hi, r, q);
    }
  }
}
