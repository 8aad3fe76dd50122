/** The bar builder of one symbol (fbot/core/market.py), proved to compute the functions of `Bars`. */
module Market {
  import opened Common
  import opened Bars

  class SymbolMarket {
    const barMs: int
    var lastPrice: Option<real>
    var lastQty: Option<real>
    var lastTradeMs: Option<int>
    var bar: Option<Bar>
    ghost var trades: seq<Trade>   // every trade seen

    ghost predicate Valid()
      reads this
    {
      barMs > 0 && bar == Build(trades, barMs).1
    }

    constructor (barMs: int)
      requires barMs > 0
      ensures Valid() && trades == [] && this.barMs == barMs
    {
      this.barMs := barMs;
      lastPrice, lastQty, lastTradeMs, bar := None, None, None, None;
      trades := [];
    }

    /** The bars returned over the object's life are the closed bars of all its trades. */
    method OnAggTrade(t: Trade) returns (out: seq<Bar>)
      requires Valid()
      modifies this
      ensures Valid() && trades == old(trades) + [t]
      ensures lastPrice == Some(t.price) && lastQty == Some(t.qty) && lastTradeMs == Some(t.time)
      ensures Closed(trades, barMs) == Closed(old(trades), barMs) + out
    {
      lastPrice, lastQty, lastTradeMs := Some(t.price), Some(t.qty), Some(t.time);
      var bq := if t.buyerIsMaker then 0.0 else t.qty;
      var start := t.time / barMs * barMs;
      BuildAppend(trades, t, barMs);
      trades := trades + [t];
      out := [];
      if bar.None? || start != bar.value.start {
        if bar.Some? {
          out := [bar.value];
        }
        bar := Some(Bar(start, t.price, t.price, t.price, t.price, t.qty, 1, bq));
      } else {
        var b := bar.value;
        if t.price > b.high {
          b := b.(high := t.price);
        }
        if t.price < b.low {
          b := b.(low := t.price);
        }
        bar := Some(b.(close := t.price, volume := b.volume + t.qty, trades := b.trades + 1,
                       buyVolume := b.buyVolume + bq));
      }
    }
  }
}
