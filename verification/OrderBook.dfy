/** The tracked orders as an object (fbot/core/order_state.py), proved to compute the functions of
    `OrderTracker`. */
module OrderBooks {
  import opened Common
  import opened Rounding
  import opened OrderTracker

  class OrderBook {
    var orders: Orders

    constructor ()
      ensures orders == map[]
    {
      orders := map[];
    }

    method Receive(e: Event) returns (o: Order)
      modifies this
      ensures orders == OrderTracker.Receive(old(orders), e)
      ensures e.clientId in orders && o == orders[e.clientId]
    {
      o := if e.clientId in orders then orders[e.clientId] else FRESH;
      var wanted := if e.status.Some? then e.status.value else o.status;
      if e.fill.Some? {
        var f := e.fill.value;
        if f.tradeId.Some? && f.tradeId.value in o.trades {
          o := o.(dupTrades := o.dupTrades + 1);
          orders := orders[e.clientId := o];
          return;
        }
        if f.tradeId.Some? {
          o := o.(trades := o.trades + {f.tradeId.value});
        }
        if f.cum.Some? && f.cum.value < o.totals.filled {
          orders := orders[e.clientId := o];
          return;
        }
        o := o.(totals := Totals(o.totals.filled + f.qty, o.totals.cost + Times(f.qty, f.price),
                                 o.totals.commission + f.commission, o.totals.pnl + f.pnl));
      }
      if Rank(wanted) >= Rank(o.status) {
        o := o.(status := wanted);
      }
      if e.tMs.Some? {
        o := o.(lastTMs := e.tMs);
      }
      orders := orders[e.clientId := o];
    }
  }
}
