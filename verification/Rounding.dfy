/** Rounding to exchange filters (fbot/core/rounding.py). Decimals are exact reals.
    The source raises ValueError for a non-positive unit; here that is a precondition. */
module Rounding {
  import opened Common

  datatype Role = SL | TP
  datatype Direction = Down | Up

  /** n whole units; named so that "is a multiple of" has a term to quantify over. */
  function Units(n: int, unit: real): real {
    n as real * unit
  }

  ghost predicate IsMultiple(x: real, unit: real) {
    exists n: int :: Units(n, unit) == x
  }

  /** Decimal's `//` truncates toward zero. */
  function Trunc(x: real): int {
    if x >= 0.0 then x.Floor else -((-x).Floor)
  }

  function Ceiling(x: real): int {
    -((-x).Floor)
  }

  /** A product given a name, so that the solver treats equal products as equal terms. */
  function Times(a: real, b: real): real {
    a * b
  }

  function FloorStep(qty: real, step: real): real
    requires step > 0.0
  {
    Units(Trunc(qty / step), step)
  }

  function RoundTick(px: real, tick: real, direction: Direction): real
    requires tick > 0.0
  {
    Units(if direction == Down then (px / tick).Floor else Ceiling(px / tick), tick)
  }

  /** A protective trigger is rounded away from the market. */
  function TriggerPrice(px: real, tick: real, side: Side, role: Role): real
    requires tick > 0.0
  {
    var below := (side == Long) == (role == SL);
    RoundTick(px, tick, if below then Down else Up)
  }

  lemma UnitsMonotone(m: int, n: int, unit: real)
    requires unit > 0.0 && m <= n
    ensures Units(m, unit) <= Units(n, unit)
  {
    assert (n - m) as real * unit >= 0.0;
  }

  lemma DivBound(x: real, unit: real, n: int)
    requires unit > 0.0
    ensures n as real <= x / unit <==> Units(n, unit) <= x
  {
    var q := x / unit;
    assert q * unit == x;
    var d := q - n as real;
    assert d * unit == x - Units(n, unit) by {
      assert d * unit == q * unit - n as real * unit;
    }
    if d >= 0.0 {
      assert d * unit >= 0.0;
    } else {
      assert (-d) * unit > 0.0;
    }
  }

  /** Rounding down gives the greatest multiple that does not exceed the price. */
  lemma RoundDownIsGreatest(px: real, tick: real, other: real)
    requires tick > 0.0
    ensures IsMultiple(RoundTick(px, tick, Down), tick)
    ensures px - tick < RoundTick(px, tick, Down) <= px
    ensures IsMultiple(other, tick) && other <= px ==> other <= RoundTick(px, tick, Down)
  {
    var n := (px / tick).Floor;
    DivBound(px, tick, n);
    DivBound(px, tick, n + 1);
    assert Units(n + 1, tick) == Units(n, tick) + tick;
    if IsMultiple(other, tick) && other <= px {
      var m: int :| Units(m, tick) == other;
      DivBound(px, tick, m);
      UnitsMonotone(m, n, tick);
    }
  }

  lemma NegDiv(x: real, unit: real)
    requires unit > 0.0
    ensures (-x) / unit == -(x / unit)
  {
    var q, r := x / unit, (-x) / unit;
    assert q * unit == x && r * unit == -x;
    assert (q + r) * unit == 0.0;
  }

  /** Rounding up gives the least multiple that is not below the price. */
  lemma RoundUpIsLeast(px: real, tick: real, other: real)
    requires tick > 0.0
    ensures IsMultiple(RoundTick(px, tick, Up), tick)
    ensures px <= RoundTick(px, tick, Up) < px + tick
    ensures IsMultiple(other, tick) && px <= other ==> RoundTick(px, tick, Up) <= other
  {
    NegDiv(px, tick);
    RoundDownIsGreatest(-px, tick, -other);
    assert RoundTick(px, tick, Up) == -RoundTick(-px, tick, Down);
    assert IsMultiple(RoundTick(px, tick, Up), tick);
    if IsMultiple(other, tick) && px <= other {
      var m: int :| Units(m, tick) == other;
      assert Units(-m, tick) == -other;
    }
  }

  /** A non-negative quantity is cut to the greatest step multiple within it. */
  lemma FloorStepIsGreatest(qty: real, step: real, other: real)
    requires step > 0.0 && qty >= 0.0
    ensures IsMultiple(FloorStep(qty, step), step)
    ensures 0.0 <= FloorStep(qty, step) <= qty < FloorStep(qty, step) + step
    ensures IsMultiple(other, step) && other <= qty ==> other <= FloorStep(qty, step)
  {
    assert qty / step >= 0.0;
    assert FloorStep(qty, step) == RoundTick(qty, step, Down);
    RoundDownIsGreatest(qty, step, other);
    assert Units(0, step) == 0.0;
    RoundDownIsGreatest(qty, step, 0.0);
  }

  /** A fraction of a quantity, cut to the step grid, still fits in the quantity. */
  lemma FloorStepFraction(qty: real, f: real, step: real)
    requires step > 0.0 && qty >= 0.0 && 0.0 <= f <= 1.0
    ensures IsMultiple(FloorStep(Times(qty, f), step), step)
    ensures 0.0 <= FloorStep(Times(qty, f), step) <= qty
  {
    Fraction(qty, f);
    FloorStepIsGreatest(Times(qty, f), step, 0.0);
  }

  lemma Fraction(q: real, f: real)
    requires q >= 0.0 && 0.0 <= f <= 1.0
    ensures 0.0 <= Times(q, f) <= q
  {
  }

  /** A unit is on its own grid. */
  lemma OneUnit(unit: real)
    requires unit > 0.0
    ensures unit / unit == 1.0
    ensures FloorStep(unit, unit) == unit
    ensures RoundTick(unit, unit, Down) == unit
  {
  }

  /** A protective trigger lies on the tick grid, on the far side of the wanted price and less
      than one tick away from it; and any grid price on that far side is at least as far. */
  lemma TriggerAwayFromMarket(px: real, tick: real, side: Side, role: Role, other: real)
    requires tick > 0.0
    ensures IsMultiple(TriggerPrice(px, tick, side, role), tick)
    ensures (side == Long) == (role == SL) ==>
      px - tick < TriggerPrice(px, tick, side, role) <= px
      && (IsMultiple(other, tick) && other <= px ==> other <= TriggerPrice(px, tick, side, role))
    ensures (side == Long) != (role == SL) ==>
      px <= TriggerPrice(px, tick, side, role) < px + tick
      && (IsMultiple(other, tick) && px <= other ==> TriggerPrice(px, tick, side, role) <= other)
  {
    RoundDownIsGreatest(px, tick, other);
    RoundUpIsLeast(px, tick, other);
  }
}
