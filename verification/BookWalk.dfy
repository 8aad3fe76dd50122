/** Filling a quantity from the levels of one side of a book (fbot/execution/sim.py). */
module BookWalk {
  import opened Common
  import opened Products
  import opened Rounding

  datatype Level = Level(price: real, avail: real)

  predicate Stocked(levels: seq<Level>) {
    forall i :: 0 <= i < |levels| ==> levels[i].avail >= 0.0
  }

  // ---- allocations

  function Sum(x: seq<real>): real {
    if x == [] then 0.0 else x[0] + Sum(x[1..])
  }

  function Value(levels: seq<Level>, x: seq<real>): real
    requires |x| == |levels|
  {
    if levels == [] then 0.0 else Times(x[0], levels[0].price) + Value(levels[1..], x[1..])
  }

  /** An allocation takes from each level no more than it offers. */
  predicate Feasible(levels: seq<Level>, x: seq<real>) {
    |x| == |levels| && forall i :: 0 <= i < |x| ==> 0.0 <= x[i] <= levels[i].avail
  }

  function Depth(levels: seq<Level>): real {
    if levels == [] then 0.0 else levels[0].avail + Depth(levels[1..])
  }

  /** Level by level, as much as is there and still wanted. */
  function Greedy(levels: seq<Level>, qty: real): (g: seq<real>)
    ensures |g| == |levels|
  {
    if levels == [] then []
    else
      var take := Min(levels[0].avail, qty);
      [take] + Greedy(levels[1..], qty - take)
  }

  /** The average price paid and the quantity filled. */
  function Walk(levels: seq<Level>, qty: real): (Option<real>, real) {
    var g := Greedy(levels, qty);
    if Sum(g) <= 0.0 then (None, 0.0) else (Some(Value(levels, g) / Sum(g)), Sum(g))
  }

  lemma {:induction false} NothingWanted(levels: seq<Level>)
    requires Stocked(levels)
    ensures Sum(Greedy(levels, 0.0)) == 0.0 && Value(levels, Greedy(levels, 0.0)) == 0.0
  {
    if levels != [] {
      NothingWanted(levels[1..]);
    }
  }

  method WalkBook(levels: seq<Level>, qty: real) returns (price: Option<real>, got: real)
    requires Stocked(levels)
    ensures (price, got) == Walk(levels, qty)
  {
    ghost var g := Greedy(levels, qty);
    var filled, cost := 0.0, 0.0;
    var i := 0;
    assert levels[0..] == levels;
    while i < |levels|
      invariant 0 <= i <= |levels|
      invariant filled + Sum(Greedy(levels[i..], qty - filled)) == Sum(g)
      invariant cost + Value(levels[i..], Greedy(levels[i..], qty - filled)) == Value(levels, g)
    {
      var (p, avail) := (levels[i].price, levels[i].avail);
      var take := if avail < qty - filled then avail else qty - filled;
      GreedyUnfold(levels, i, qty - filled);
      filled := filled + take;
      cost := cost + Times(take, p);
      i := i + 1;
      if filled >= qty {
        break;
      }
    }
    if filled >= qty && i > 0 {
      NothingWanted(levels[i..]);
    }
    if filled <= 0.0 {
      return None, 0.0;
    }
    return Some(cost / filled), filled;
  }

  lemma GreedyUnfold(levels: seq<Level>, i: nat, want: real)
    requires i < |levels|
    ensures var take := Min(levels[i].avail, want);
      var rest := Greedy(levels[i + 1..], want - take);
      && Sum(Greedy(levels[i..], want)) == take + Sum(rest)
      && Value(levels[i..], Greedy(levels[i..], want)) == Times(take, levels[i].price) + Value(levels[i + 1..], rest)
  {
    assert levels[i..][1..] == levels[i + 1..] && levels[i..][0] == levels[i];
    var take := Min(levels[i].avail, want);
    var g := Greedy(levels[i..], want);
    assert g[1..] == Greedy(levels[i + 1..], want - take);
  }

  // ---- how much

  lemma {:induction false} DepthIsNonNegative(levels: seq<Level>)
    requires Stocked(levels)
    ensures Depth(levels) >= 0.0
  {
    if levels != [] {
      DepthIsNonNegative(levels[1..]);
    }
  }

  /** The walk fills the wanted quantity or everything there is, whichever is less. */
  lemma {:induction false} FillsWhatItCan(levels: seq<Level>, qty: real)
    requires Stocked(levels) && qty >= 0.0
    ensures Sum(Greedy(levels, qty)) == Min(qty, Depth(levels))
    ensures Feasible(levels, Greedy(levels, qty))
    ensures Walk(levels, qty).1 == Min(qty, Depth(levels))
  {
    DepthIsNonNegative(levels);
    if levels != [] {
      var take := Min(levels[0].avail, qty);
      FillsWhatItCan(levels[1..], qty - take);
      DepthIsNonNegative(levels[1..]);
      var g := Greedy(levels, qty);
      assert g[1..] == Greedy(levels[1..], qty - take);
      forall i | 0 <= i < |g| ensures 0.0 <= g[i] <= levels[i].avail {
        assert i > 0 ==> g[i] == g[1..][i - 1] && levels[i] == levels[1..][i - 1];
      }
    }
  }

  // ---- at what price

  /** Whether a price is better than another for the taker: lower to buy, higher to sell. */
  predicate Better(buy: bool, a: real, b: real) {
    if buy then a < b else a > b
  }

  /** Best price first. */
  predicate Ordered(buy: bool, levels: seq<Level>) {
    forall i, j :: 0 <= i <= j < |levels| ==> !Better(buy, levels[j].price, levels[i].price)
  }

  /** The price of the last level the walk reaches. */
  function Marginal(levels: seq<Level>, qty: real): real
    requires levels != []
  {
    if |levels| == 1 || qty <= levels[0].avail then levels[0].price
    else Marginal(levels[1..], qty - levels[0].avail)
  }

  /** Levels better than the marginal one are emptied, worse ones untouched. */
  lemma {:induction false} GreedyShape(buy: bool, levels: seq<Level>, qty: real)
    requires Stocked(levels) && Ordered(buy, levels) && levels != [] && qty >= 0.0
    ensures !Better(buy, Marginal(levels, qty), levels[0].price)
    ensures var g, p := Greedy(levels, qty), Marginal(levels, qty);
      forall i :: 0 <= i < |levels| ==>
        && (Better(buy, levels[i].price, p) ==> g[i] == levels[i].avail)
        && (Better(buy, p, levels[i].price) ==> g[i] == 0.0)
    decreases |levels|
  {
    var g, p, rest := Greedy(levels, qty), Marginal(levels, qty), levels[1..];
    var take := Min(levels[0].avail, qty);
    assert g[1..] == Greedy(rest, qty - take);
    if qty <= levels[0].avail {
      Untouched(rest);
      forall i | 0 <= i < |levels|
        ensures !Better(buy, levels[i].price, p) && (Better(buy, p, levels[i].price) ==> g[i] == 0.0)
      {
        assert i > 0 ==> g[i] == g[1..][i - 1];
      }
    } else if rest != [] {
      GreedyShape(buy, rest, qty - take);
      assert !Better(buy, levels[1].price, levels[0].price) && rest[0] == levels[1];
      forall i | 0 <= i < |levels|
        ensures Better(buy, levels[i].price, p) ==> g[i] == levels[i].avail
        ensures Better(buy, p, levels[i].price) ==> g[i] == 0.0
      {
        assert i > 0 ==> g[i] == g[1..][i - 1] && levels[i] == rest[i - 1];
      }
    }
  }

  lemma {:induction false} Untouched(levels: seq<Level>)
    requires Stocked(levels)
    ensures forall i :: 0 <= i < |levels| ==> Greedy(levels, 0.0)[i] == 0.0
  {
    if levels != [] {
      Untouched(levels[1..]);
      var g := Greedy(levels, 0.0);
      assert forall i :: 1 <= i < |levels| ==> g[i] == Greedy(levels[1..], 0.0)[i - 1];
    }
  }

  function Signed(buy: bool, v: real): real {
    if buy then v else -v
  }

  lemma PointGain(buy: bool, g: real, x: real, avail: real, price: real, p: real)
    requires 0.0 <= x <= avail
    requires (Better(buy, price, p) ==> g == avail) && (Better(buy, p, price) ==> g == 0.0)
    ensures Signed(buy, Times(g, price) - Times(x, price)) <= Signed(buy, Times(g, p) - Times(x, p))
  {
    var d, e := g - x, price - p;
    assert Times(g, price) - Times(x, price) == Times(g, p) - Times(x, p) + Times(d, e);
    if e != 0.0 {
      SignOfProduct(d, e);
    }
  }

  /** Pointwise gains add up. */
  lemma {:induction false} GainsAddUp(buy: bool, levels: seq<Level>, g: seq<real>, x: seq<real>, p: real)
    requires |g| == |levels| && Feasible(levels, x)
    requires forall i :: 0 <= i < |levels| ==>
      && (Better(buy, levels[i].price, p) ==> g[i] == levels[i].avail)
      && (Better(buy, p, levels[i].price) ==> g[i] == 0.0)
    ensures Signed(buy, Value(levels, g) - Value(levels, x)) <= Signed(buy, Times(Sum(g), p) - Times(Sum(x), p))
    decreases |levels|
  {
    if levels != [] {
      PointGain(buy, g[0], x[0], levels[0].avail, levels[0].price, p);
      GainsAddUp(buy, levels[1..], g[1..], x[1..], p);
      TimesAdds(g[0], Sum(g[1..]), p);
      TimesAdds(x[0], Sum(x[1..]), p);
      FirstAndRest(levels, g);
      FirstAndRest(levels, x);
    }
  }

  lemma FirstAndRest(levels: seq<Level>, x: seq<real>)
    requires |x| == |levels| > 0
    ensures Sum(x) == x[0] + Sum(x[1..])
    ensures Value(levels, x) == Times(x[0], levels[0].price) + Value(levels[1..], x[1..])
  {
  }

  lemma GreedyIsOptimal(buy: bool, levels: seq<Level>, qty: real, x: seq<real>)
    requires Stocked(levels) && Ordered(buy, levels) && qty >= 0.0
    requires Feasible(levels, x) && Sum(x) == Sum(Greedy(levels, qty))
    ensures Signed(buy, Value(levels, Greedy(levels, qty)) - Value(levels, x)) <= 0.0
  {
    if levels != [] {
      var g := Greedy(levels, qty);
      GreedyShape(buy, levels, qty);
      GainsAddUp(buy, levels, g, x, Marginal(levels, qty));
    }
  }

  /** No allocation of the quantity the walk fills costs a buyer less, or brings a seller more. */
  lemma WalkIsOptimal(buy: bool, levels: seq<Level>, qty: real, x: seq<real>)
    requires Stocked(levels) && Ordered(buy, levels) && qty >= 0.0 && Walk(levels, qty).0.Some?
    requires Feasible(levels, x) && Sum(x) == Walk(levels, qty).1
    ensures var paid := Times(Walk(levels, qty).0.value, Walk(levels, qty).1);
      if buy then paid <= Value(levels, x) else paid >= Value(levels, x)
  {
    GreedyIsOptimal(buy, levels, qty, x);
    var g := Greedy(levels, qty);
    QuotientTimes(Value(levels, g), Sum(g));
  }

  lemma PointBetween(buy: bool, g: real, price: real, best: real, worst: real)
    requires g >= 0.0 && (g != 0.0 ==> !Better(buy, price, best) && !Better(buy, worst, price))
    ensures Signed(buy, Times(g, best)) <= Signed(buy, Times(g, price)) <= Signed(buy, Times(g, worst))
  {
    SignOfProduct(g, price - best);
    SignOfProduct(g, price - worst);
    assert Times(g, price - best) == Times(g, price) - Times(g, best);
    assert Times(g, price - worst) == Times(g, price) - Times(g, worst);
  }

  /** What is filled is worth at least its quantity at one price and at most at the other. */
  lemma {:induction false} ValueBetween(buy: bool, levels: seq<Level>, g: seq<real>, best: real, worst: real)
    requires Feasible(levels, g)
    requires forall i :: 0 <= i < |levels| && g[i] != 0.0 ==>
      !Better(buy, levels[i].price, best) && !Better(buy, worst, levels[i].price)
    ensures Signed(buy, Times(Sum(g), best)) <= Signed(buy, Value(levels, g)) <= Signed(buy, Times(Sum(g), worst))
    decreases |levels|
  {
    if levels == [] {
      assert Times(0.0, best) == 0.0 && Times(0.0, worst) == 0.0;
    } else {
      ValueBetween(buy, levels[1..], g[1..], best, worst);
      PointBetween(buy, g[0], levels[0].price, best, worst);
      TimesAdds(g[0], Sum(g[1..]), best);
      TimesAdds(g[0], Sum(g[1..]), worst);
      FirstAndRest(levels, g);
    }
  }

  /** The average price lies between the best and the worst level touched. */
  lemma AverageBetween(buy: bool, levels: seq<Level>, qty: real)
    requires Stocked(levels) && Ordered(buy, levels) && qty >= 0.0 && Walk(levels, qty).0.Some?
    ensures levels != []
    ensures var avg, best, worst := Walk(levels, qty).0.value, levels[0].price, Marginal(levels, qty);
      !Better(buy, avg, best) && !Better(buy, worst, avg)
  {
    var g := Greedy(levels, qty);
    var best, worst := levels[0].price, Marginal(levels, qty);
    FillsWhatItCan(levels, qty);
    GreedyShape(buy, levels, qty);
    ValueBetween(buy, levels, g, best, worst);
    if buy {
      QuotientBetween(Value(levels, g), Sum(g), best, worst);
    } else {
      QuotientBetween(Value(levels, g), Sum(g), worst, best);
    }
  }

  // ---- keeping a side ordered

  /** How many levels are not worse than a price. */
  function Place(buy: bool, sorted: seq<Level>, price: real): (k: nat)
    ensures k <= |sorted|
    ensures k > 0 ==> !Better(buy, price, sorted[k - 1].price)
    ensures forall i :: k <= i < |sorted| ==> Better(buy, price, sorted[i].price)
    decreases |sorted|
  {
    if sorted == [] || !Better(buy, price, sorted[|sorted| - 1].price) then |sorted|
    else Place(buy, sorted[..|sorted| - 1], price)
  }

  function Insert(buy: bool, sorted: seq<Level>, v: Level): (r: seq<Level>)
    ensures multiset(r) == multiset(sorted) + multiset{v}
  {
    var k := Place(buy, sorted, v.price);
    assert sorted == sorted[..k] + sorted[k..];
    sorted[..k] + [v] + sorted[k..]
  }

  lemma InsertOrdered(buy: bool, sorted: seq<Level>, v: Level)
    requires Ordered(buy, sorted)
    ensures Ordered(buy, Insert(buy, sorted, v))
  {
    var k, r := Place(buy, sorted, v.price), Insert(buy, sorted, v);
    forall i | 0 <= i < |r| ensures r[i] == if i < k then sorted[i] else if i == k then v else sorted[i - 1] {
    }
    forall i, j | 0 <= i <= j < |r| ensures !Better(buy, r[j].price, r[i].price) {
      if i < k && j == k {
        assert !Better(buy, sorted[k - 1].price, sorted[i].price);
      }
    }
  }

  /** Python's stable sort: each level goes behind those that are not worse. */
  function Sorted(buy: bool, levels: seq<Level>): (r: seq<Level>)
    ensures Ordered(buy, r) && multiset(r) == multiset(levels)
    decreases |levels|
  {
    if levels == [] then []
    else
      var n := |levels| - 1;
      var before := Sorted(buy, levels[..n]);
      assert levels == levels[..n] + [levels[n]];
      InsertOrdered(buy, before, levels[n]);
      Insert(buy, before, levels[n])
  }
}
