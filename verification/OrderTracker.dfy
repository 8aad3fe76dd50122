/** Order state from the user data stream (fbot/core/order_state.py): repeated trades are counted
    once, partial fills add up, stale events do not take anything back. */
module OrderTracker {
  import opened Common
  import opened Products
  import opened Rounding

  datatype Status = New | Unknown | PartiallyFilled | Filled | Canceled | Expired | ExpiredInMatch | Rejected

  function Rank(s: Status): nat {
    match s
    case New => 0
    case Unknown => 1
    case PartiallyFilled => 1
    case Filled => 2
    case Canceled => 2
    case Expired => 2
    case ExpiredInMatch => 2
    case Rejected => 2
  }

  datatype Totals = Totals(filled: real, cost: real, commission: real, pnl: real)

  datatype Order = Order(status: Status, totals: Totals, trades: set<int>, dupTrades: nat, lastTMs: Option<int>)

  const FRESH := Order(New, Totals(0.0, 0.0, 0.0, 0.0), {}, 0, None)

  datatype Fill = Fill(tradeId: Option<int>, qty: real, price: real, cum: Option<real>, commission: real, pnl: real)

  /** A status the source does not know is None. */
  datatype Event = Event(clientId: string, status: Option<Status>, fill: Option<Fill>, tMs: Option<int>)

  function AddFill(t: Totals, f: Fill): Totals {
    Totals(t.filled + f.qty, t.cost + Times(f.qty, f.price), t.commission + f.commission, t.pnl + f.pnl)
  }

  predicate Repeated(o: Order, f: Fill) {
    f.tradeId.Some? && f.tradeId.value in o.trades
  }

  predicate Stale(o: Order, f: Fill) {
    f.cum.Some? && f.cum.value < o.totals.filled
  }

  function Noted(o: Order, f: Fill): Order {
    if f.tradeId.Some? then o.(trades := o.trades + {f.tradeId.value}) else o
  }

  function Advance(o: Order, e: Event): Order {
    var wanted := e.status.GetOr(o.status);
    o.(status := if Rank(wanted) >= Rank(o.status) then wanted else o.status,
       lastTMs := if e.tMs.Some? then e.tMs else o.lastTMs)
  }

  function Apply(o: Order, e: Event): Order {
    if e.fill.None? then Advance(o, e)
    else
      var f := e.fill.value;
      if Repeated(o, f) then o.(dupTrades := o.dupTrades + 1)
      else if Stale(o, f) then Noted(o, f)
      else Advance(Noted(o, f).(totals := AddFill(o.totals, f)), e)
  }

  function ApplyAll(o: Order, events: seq<Event>): Order {
    if events == [] then o else Apply(ApplyAll(o, events[..|events| - 1]), events[|events| - 1])
  }

  // ---- every trade counts once

  /** Equal but for the count of repetitions. */
  predicate Same(a: Order, b: Order) {
    a.status == b.status && a.totals == b.totals && a.trades == b.trades && a.lastTMs == b.lastTMs
  }

  predicate Carries(e: Event, trade: int) {
    e.fill.Some? && e.fill.value.tradeId == Some(trade)
  }

  predicate Seen(events: seq<Event>, trade: int) {
    exists k :: 0 <= k < |events| && Carries(events[k], trade)
  }

  predicate Repeats(events: seq<Event>, e: Event) {
    e.fill.Some? && e.fill.value.tradeId.Some? && Seen(events, e.fill.value.tradeId.value)
  }

  /** The stream without the fills whose trade was already reported. */
  function Deduped(events: seq<Event>): seq<Event> {
    if events == [] then []
    else
      var before, e := events[..|events| - 1], events[|events| - 1];
      if Repeats(before, e) then Deduped(before) else Deduped(before) + [e]
  }

  lemma {:induction false} TradesAreSeen(o: Order, events: seq<Event>, trade: int)
    ensures trade in ApplyAll(o, events).trades <==> trade in o.trades || Seen(events, trade)
  {
    if events != [] {
      var n := |events| - 1;
      TradesAreSeen(o, events[..n], trade);
      assert Seen(events, trade) <==> Seen(events[..n], trade) || Carries(events[n], trade) by {
        assert forall k :: 0 <= k < n ==> events[..n][k] == events[k];
      }
    }
  }

  lemma SameApply(a: Order, b: Order, e: Event)
    requires Same(a, b)
    ensures Same(Apply(a, e), Apply(b, e))
  {
  }

  /** Repeated trades, wherever they come after their first report, change nothing. */
  lemma {:induction false} RepetitionsChangeNothing(events: seq<Event>)
    ensures Same(ApplyAll(FRESH, events), ApplyAll(FRESH, Deduped(events)))
  {
    if events != [] {
      var before, e := events[..|events| - 1], events[|events| - 1];
      RepetitionsChangeNothing(before);
      var a, b := ApplyAll(FRESH, before), ApplyAll(FRESH, Deduped(before));
      if Repeats(before, e) {
        TradesAreSeen(FRESH, before, e.fill.value.tradeId.value);
      } else {
        SameApply(a, b, e);
        assert (Deduped(before) + [e])[..|Deduped(before)|] == Deduped(before);
      }
    }
  }

  /** The filled quantity once the fill was applied to a fresh trade. */
  function FilledAfter(o: Order, f: Fill): real {
    if Stale(o, f) then o.totals.filled else o.totals.filled + f.qty
  }

  /** Sending a fill twice leaves the totals alone exactly when it names its trade, or its cumulative
      quantity is below what is filled then, or it carries no amounts. */
  lemma TwiceIsOnceIff(o: Order, e: Event)
    requires e.fill.Some? && !Repeated(o, e.fill.value)
    ensures var f, once := e.fill.value, Apply(o, e);
      (Apply(once, e).totals == once.totals <==>
        f.tradeId.Some? || (f.cum.Some? && f.cum.value < FilledAfter(o, f))
        || (f.qty == 0.0 && Times(f.qty, f.price) == 0.0 && f.commission == 0.0 && f.pnl == 0.0))
  {
  }

  // ---- what the totals are

  /** Every fill's cumulative quantity is the sum so far: the exchange's stream in its own order. */
  predicate InOrder(events: seq<Event>) {
    events != [] ==>
      var before, e := events[..|events| - 1], events[|events| - 1];
      && InOrder(before) && !Repeats(before, e)
      && (e.fill.Some? ==> e.fill.value.qty >= 0.0 && e.fill.value.cum == Some(LastCum(before) + e.fill.value.qty))
  }

  function LastCum(events: seq<Event>): real {
    if events == [] then 0.0
    else
      var e := events[|events| - 1];
      if e.fill.Some? && e.fill.value.cum.Some? then e.fill.value.cum.value else LastCum(events[..|events| - 1])
  }

  /** Over a stream in order, with any repetitions of its trades put in after them, the filled
      quantity is the last cumulative one. */
  lemma FilledIsLastCum(events: seq<Event>)
    requires InOrder(Deduped(events))
    ensures ApplyAll(FRESH, events).totals.filled == LastCum(Deduped(events))
  {
    RepetitionsChangeNothing(events);
    InOrderSums(Deduped(events));
  }

  lemma {:induction false} InOrderSums(events: seq<Event>)
    requires InOrder(events)
    ensures ApplyAll(FRESH, events).totals.filled == LastCum(events)
  {
    if events != [] {
      var before, e := events[..|events| - 1], events[|events| - 1];
      InOrderSums(before);
      if e.fill.Some? && e.fill.value.tradeId.Some? {
        TradesAreSeen(FRESH, before, e.fill.value.tradeId.value);
      }
    }
  }

  /** Quantities are not negative and prices within bounds. */
  predicate PricedWithin(events: seq<Event>, lo: real, hi: real) {
    forall k :: 0 <= k < |events| && events[k].fill.Some? ==>
      events[k].fill.value.qty >= 0.0 && lo <= events[k].fill.value.price <= hi
  }

  lemma {:induction false} CostWithin(events: seq<Event>, lo: real, hi: real)
    requires PricedWithin(events, lo, hi)
    ensures var t := ApplyAll(FRESH, events).totals;
      t.filled >= 0.0 && Times(t.filled, lo) <= t.cost <= Times(t.filled, hi)
  {
    if events == [] {
      assert Times(0.0, lo) == 0.0 && Times(0.0, hi) == 0.0;
    } else {
      var before, e := events[..|events| - 1], events[|events| - 1];
      assert forall k :: 0 <= k < |before| ==> before[k] == events[k];
      CostWithin(before, lo, hi);
      if e.fill.Some? {
        AddedWithin(ApplyAll(FRESH, before).totals, e.fill.value, lo, hi);
      }
    }
  }

  lemma AddedWithin(t: Totals, f: Fill, lo: real, hi: real)
    requires t.filled >= 0.0 && Times(t.filled, lo) <= t.cost <= Times(t.filled, hi)
    requires f.qty >= 0.0 && lo <= f.price <= hi
    ensures var u := AddFill(t, f); Times(u.filled, lo) <= u.cost <= Times(u.filled, hi)
  {
    SignOfProduct(f.qty, f.price - lo);
    SignOfProduct(f.qty, hi - f.price);
    assert Times(f.qty, f.price - lo) == Times(f.qty, f.price) - Times(f.qty, lo);
    assert Times(f.qty, hi - f.price) == Times(f.qty, hi) - Times(f.qty, f.price);
    TimesAdds(t.filled, f.qty, lo);
    TimesAdds(t.filled, f.qty, hi);
  }

  function AvgPrice(o: Order): Option<real> {
    if o.totals.filled > 0.0 then Some(o.totals.cost / o.totals.filled) else None
  }

  /** For any stream, the average price lies between the lowest and the highest fill price. */
  lemma AverageWithin(events: seq<Event>, lo: real, hi: real)
    requires PricedWithin(events, lo, hi)
    ensures var avg := AvgPrice(ApplyAll(FRESH, events)); avg.Some? ==> lo <= avg.value <= hi
  {
    CostWithin(events, lo, hi);
    var t := ApplyAll(FRESH, events).totals;
    if t.filled > 0.0 {
      QuotientBetween(t.cost, t.filled, lo, hi);
    }
  }

  // ---- the status

  /** The rank of the status never falls; in particular a terminal order stays terminal. */
  lemma {:induction false} StatusNeverFalls(o: Order, events: seq<Event>)
    ensures Rank(ApplyAll(o, events).status) >= Rank(o.status)
  {
    if events != [] {
      StatusNeverFalls(o, events[..|events| - 1]);
    }
  }

  /** But only terminal-ness is final: one terminal status gives way to another exactly when a message
      names it, unless the message is a fill already reported or already exceeded. */
  lemma TerminalMayChangeIff(o: Order, e: Event)
    requires Rank(o.status) == 2
    ensures Apply(o, e).status != o.status <==>
      && (e.fill.Some? ==> !Repeated(o, e.fill.value) && !Stale(o, e.fill.value))
      && e.status.Some? && Rank(e.status.value) == 2 && e.status.value != o.status
  {
  }

  // ---- the book of orders

  type Orders = map<string, Order>

  function Lookup(orders: Orders, id: string): Order {
    if id in orders then orders[id] else FRESH
  }

  function Receive(orders: Orders, e: Event): Orders {
    orders[e.clientId := Apply(Lookup(orders, e.clientId), e)]
  }

  function ReceiveAll(orders: Orders, events: seq<Event>): Orders {
    if events == [] then orders else Receive(ReceiveAll(orders, events[..|events| - 1]), events[|events| - 1])
  }

  function Of(events: seq<Event>, id: string): seq<Event> {
    if events == [] then []
    else Of(events[..|events| - 1], id) + if events[|events| - 1].clientId == id then [events[|events| - 1]] else []
  }

  /** Every order is what its own events make it, whatever they are mixed with. */
  lemma {:induction false} OrdersAreIndependent(events: seq<Event>, id: string)
    ensures Lookup(ReceiveAll(map[], events), id) == ApplyAll(FRESH, Of(events, id))
    ensures id in ReceiveAll(map[], events) <==> Of(events, id) != []
  {
    if events != [] {
      var before, e := events[..|events| - 1], events[|events| - 1];
      OrdersAreIndependent(before, id);
      var own := Of(before, id);
      if e.clientId == id {
        assert (own + [e])[..|own|] == own;
      } else {
        assert own + [] == own;
      }
    }
  }
}
