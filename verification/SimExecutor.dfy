/** The fill simulator as an object (fbot/execution/sim.py), proved to take the steps of `Simulator`. */
module SimExecutors {
  import opened Common
  import opened BookWalk
  import opened Simulator
  import Ids

  class SimExecutor {
    const cfg: Config
    var books: map<string, Book>
    var top: map<string, (real, real)>
    var pendingOrders: seq<Waiting>
    var pendingCtrl: seq<Control>
    var algos: map<string, Algo>
    var triggered: seq<Shot>
    var positions: map<string, real>

    ghost function View(): Sim
      reads this
    {
      Sim(Market(books, top), pendingOrders, pendingCtrl, algos, triggered, positions)
    }

    /** Books are sorted and stocked, and no order wants less than nothing. */
    ghost predicate Valid()
      reads this
    {
      MarketRight(View().market) && Queued(pendingOrders)
    }

    constructor (cfg: Config)
      ensures Valid() && View() == EMPTY && this.cfg == cfg
    {
      this.cfg := cfg;
      books, top, pendingOrders, pendingCtrl, algos := map[], map[], [], [], map[];
      triggered, positions := [], map[];
    }

    /** Keeps bids from the highest and asks from the lowest. */
    method OnDepth(symbol: string, bids: seq<Level>, asks: seq<Level>)
      requires Valid() && Stocked(bids) && Stocked(asks)
      modifies this
      ensures Valid() && View() == Act(cfg, old(View()), Action.OnDepth(symbol, bids, asks)).0
    {
      StockedSorted(bids, asks);
      books := books[symbol := Book(Sorted(false, bids), Sorted(true, asks))];
    }

    method OnBook(symbol: string, bid: real, ask: real)
      requires Valid()
      modifies this
      ensures Valid() && View() == Act(cfg, old(View()), Action.OnBook(symbol, bid, ask)).0
    {
      top := top[symbol := (bid, ask)];
    }

    /** Every protective order of the symbol that the mark hits is triggered; `ids` lists the active
        orders as they are visited, sorted in the source. */
    method OnMark(symbol: string, mark: real, now: int, ids: seq<string>, delays: seq<int>) returns (out: seq<Out>)
      requires Valid() && forall id <- algos :: id in ids
      modifies this
      ensures Valid() && (View(), out) == Act(cfg, old(View()), Action.OnMark(symbol, mark, now, ids, delays))
    {
      out := [];
      ghost var start := View();
      for k := 0 to |ids|
        invariant (View(), out) == MarkAll(start, symbol, mark, now, ids[..k], delays)
        invariant books == start.market.books && top == start.market.top && pendingOrders == start.orders
      {
        assert ids[..k + 1][..k] == ids[..k];
        if ids[k] in algos && algos[ids[k]].symbol == symbol && Hit(algos[ids[k]], mark) {
          triggered := triggered + [Shot(algos[ids[k]], now + DelayAt(delays, k))];
          algos := algos - {ids[k]};
          out := out + [AlgoTriggered(ids[k], now)];
        }
      }
      assert ids[..|ids|] == ids;
    }

    method SetPosition(posId: string, qty: real)
      requires Valid()
      modifies this
      ensures Valid() && View() == Act(cfg, old(View()), Action.SetPosition(posId, qty)).0
    {
      positions := positions[posId := qty];
    }

    method Submit(request: Request, now: int, delayNs: int)
      requires Valid() && (request.Place? ==> request.order.qty >= 0.0)
      modifies this
      ensures Valid() && View() == Act(cfg, old(View()), Action.Submit(request, now, delayNs)).0
    {
      var ready := now + delayNs;
      match request
      case Place(o) => pendingOrders := pendingOrders + [Waiting(o, ready, o.qty, None)];
      case PlaceAlgo(_) => pendingCtrl := pendingCtrl + [Control(request, ready)];
      case CancelAlgo(_) => pendingCtrl := pendingCtrl + [Control(request, ready)];
      case CancelOrder(_) => pendingCtrl := pendingCtrl + [Control(request, ready)];
    }

    method DropOrders(id: string)
      modifies this`pendingOrders
      ensures pendingOrders == Without(old(pendingOrders), id)
    {
      var left := [];
      for k := 0 to |pendingOrders|
        invariant pendingOrders == old(pendingOrders) && left == Without(pendingOrders[..k], id)
      {
        assert pendingOrders[..k + 1][..k] == pendingOrders[..k];
        if pendingOrders[k].order.id != id {
          left := left + [pendingOrders[k]];
        }
      }
      assert pendingOrders[..|pendingOrders|] == pendingOrders;
      pendingOrders := left;
    }

    method ProcessCtrl(now: int) returns (out: seq<Out>)
      modifies this
      ensures (View(), out) == ObeyAll(old(View()), old(pendingCtrl), now)
    {
      out := [];
      var pending, keep: seq<Control> := pendingCtrl, [];
      ghost var start := View();
      for k := 0 to |pending|
        invariant pendingCtrl == pending
        invariant (View().(controls := keep), out) == ObeyAll(start, pending[..k], now)
      {
        assert pending[..k + 1][..k] == pending[..k] && out + [] == out;
        var p := pending[k];
        if p.readyNs > now {
          keep := keep + [p];
        } else {
          match p.request
          case PlaceAlgo(a) =>
            algos := algos[a.id := a];
            out := out + [AlgoAck(a.id, p.readyNs)];
          case CancelAlgo(id) => algos := algos - {id};
          case CancelOrder(id) => DropOrders(id);
          case Place(_) =>
        }
      }
      assert pending[..|pending|] == pending;
      pendingCtrl := keep;
    }

    /** One hit order that is due. */
    method FireShot(shot: Shot, now: int) returns (keep: seq<Shot>, out: seq<Out>)
      requires MarketRight(View().market) && shot.readyNs <= now
      ensures (keep, out) == Shoot(View().market, positions, shot, now)
    {
      var a := shot.algo;
      var p := Ids.PosIdOf(a.id);
      if p !in positions || positions[p] <= 0.0 {
        return [], [];
      }
      if a.symbol !in books {
        return [shot], [];
      }
      var price, filled := WalkBook(books[a.symbol].Side(a.buy), positions[p]);
      if price.None? {
        return [shot], [];
      }
      return [], [AlgoFill(a.id, price.value, filled, a.stop, filled < positions[p], now, shot.readyNs)];
    }

    method ProcessTriggered(now: int) returns (out: seq<Out>)
      requires MarketRight(View().market)
      modifies this
      ensures var (keep, outs) := ShootAll(old(View()).market, old(positions), old(triggered), now);
        View() == old(View()).(triggered := keep) && out == outs
    {
      out := [];
      var keep: seq<Shot> := [];
      for k := 0 to |triggered|
        invariant View() == old(View())
        invariant (keep, out) == ShootAll(View().market, positions, triggered[..k], now)
      {
        assert triggered[..k + 1][..k] == triggered[..k] && out + [] == out;
        var p := triggered[k];
        if p.readyNs > now {
          keep := keep + [p];
        } else {
          var kept, more := FireShot(p, now);
          keep, out := keep + kept, out + more;
        }
      }
      assert triggered[..|triggered|] == triggered;
      triggered := keep;
    }

    method LimitFill(o: Order, remaining: real, lucky: bool) returns (price: Option<real>, got: real)
      requires o.limit.Some?
      ensures (price, got) == Simulator.LimitFill(View().market, o, remaining, lucky)
    {
      var best: Option<real> := None;
      if o.symbol in top {
        best := Some(if o.buy then top[o.symbol].1 else top[o.symbol].0);
      } else if o.symbol in books {
        var side := books[o.symbol].Side(o.buy);
        best := if side != [] then Some(side[0].price) else None;
      }
      if best.None? {
        return None, 0.0;
      }
      var crossed := if o.buy then best.value < o.limit.value else best.value > o.limit.value;
      var touched := best.value == o.limit.value;
      if !crossed && !(touched && lucky) {
        return None, 0.0;
      }
      return o.limit, remaining;
    }

    method Offer(o: Order, remaining: real, lucky: bool) returns (price: Option<real>, got: real)
      requires MarketRight(View().market)
      ensures (price, got) == Offered(View().market, o, remaining, lucky)
    {
      price, got := None, 0.0;
      if o.limit.Some? {
        price, got := LimitFill(o, remaining, lucky);
      } else if o.symbol in books {
        price, got := WalkBook(books[o.symbol].Side(o.buy), remaining);
      }
    }

    /** One ready order: its fill, then its time-out. */
    method Attempt(p: Waiting, now: int, lucky: bool) returns (keep: seq<Waiting>, out: seq<Out>)
      requires MarketRight(View().market) && p.readyNs <= now
      ensures (keep, out) == Visit(cfg, View().market, p, now, lucky)
    {
      var firstNs := p.firstNs.GetOr(now);
      var remaining := p.remaining;
      keep, out := [], [];
      var price, got := Offer(p.order, remaining, lucky);
      if price.Some? && got > 0.0 {
        remaining := remaining - got;
        out := [Fill(p.order.id, price.value, got, remaining > 0.0, p.order.reduceOnly, now, p.readyNs)];
      }
      assert out + [] == out;
      if remaining > 0.0 {
        if cfg.partialTimeoutMs.Some? && now - firstNs >= cfg.partialTimeoutMs.value * MS {
          out := out + [Expired(p.order.id, remaining, now)];
        } else {
          keep := [Waiting(p.order, p.readyNs, remaining, Some(firstNs))];
        }
      }
    }

    method ProcessOrders(now: int, draws: seq<bool>) returns (out: seq<Out>)
      requires MarketRight(View().market)
      modifies this
      ensures var (keep, outs) := VisitAll(cfg, old(View()).market, old(pendingOrders), now, draws);
        View() == old(View()).(orders := keep) && out == outs
    {
      out := [];
      var keep: seq<Waiting> := [];
      for k := 0 to |pendingOrders|
        invariant View() == old(View())
        invariant (keep, out) == VisitAll(cfg, View().market, pendingOrders[..k], now, draws)
      {
        assert pendingOrders[..k + 1][..k] == pendingOrders[..k] && out + [] == out;
        var p := pendingOrders[k];
        if p.readyNs > now {
          keep := keep + [p];
        } else {
          var kept, more := Attempt(p, now, Lucky(draws, k));
          keep, out := keep + kept, out + more;
        }
      }
      assert pendingOrders[..|pendingOrders|] == pendingOrders;
      pendingOrders := keep;
    }

    method Poll(now: int, draws: seq<bool>) returns (out: seq<Out>)
      requires Valid()
      modifies this
      ensures Valid() && (View(), out) == Act(cfg, old(View()), Action.Poll(now, draws))
    {
      ObeyAllKeeps(View(), pendingCtrl, now, "");
      ActKeeps(cfg, View(), Action.Poll(now, draws), "");
      var acks := ProcessCtrl(now);
      var closed := ProcessTriggered(now);
      var fills := ProcessOrders(now, draws);
      out := acks + closed + fills;
    }
  }
}
