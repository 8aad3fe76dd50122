/** The fill simulator's order queue (fbot/execution/sim.py). Latency and the luck of a touched
    limit order are drawn by a seeded generator there; here they are inputs, so the results hold
    for every draw. */
module Simulator {
  import opened Common
  import opened Rounding
  import opened BookWalk
  import Ids

  datatype Config = Config(latencyMs: nat, partialTimeoutMs: Option<int>)

  /** A market order has no limit. */
  datatype Order = Order(id: string, symbol: string, buy: bool, limit: Option<real>, qty: real, reduceOnly: bool)

  /** A protective order, a stop or a target, on the side that closes its position. */
  datatype Algo = Algo(id: string, symbol: string, stop: bool, buy: bool, trigger: real)

  datatype Request =
    | Place(order: Order)
    | PlaceAlgo(algo: Algo)
    | CancelAlgo(algoId: string)
    | CancelOrder(orderId: string)

  datatype Waiting = Waiting(order: Order, readyNs: int, remaining: real, firstNs: Option<int>)

  datatype Control = Control(request: Request, readyNs: int)

  datatype Book = Book(bids: seq<Level>, asks: seq<Level>) {
    function Side(buy: bool): seq<Level> {
      if buy then asks else bids
    }
  }

  datatype Market = Market(books: map<string, Book>, top: map<string, (real, real)>)

  /** A protective order that was hit and reaches the book at `readyNs`. */
  datatype Shot = Shot(algo: Algo, readyNs: int)

  /** `positions` holds the quantity of each position, which is what its protective orders trade. */
  datatype Sim = Sim(market: Market, orders: seq<Waiting>, controls: seq<Control>, algos: map<string, Algo>,
                     triggered: seq<Shot>, positions: map<string, real>)

  const EMPTY := Sim(Market(map[], map[]), [], [], map[], [], map[])

  datatype Out =
    | AlgoAck(id: string, tNs: int)
    | Fill(id: string, price: real, qty: real, partial: bool, reduceOnly: bool, tNs: int, readyNs: int)
    | Expired(id: string, remaining: real, tNs: int)
    | AlgoTriggered(id: string, tNs: int)
    | AlgoFill(id: string, price: real, qty: real, stop: bool, partial: bool, tNs: int, readyNs: int)

  // ---- one order

  /** The opposite best price, from the ticker if there is one, else from the book. */
  function Opposite(m: Market, o: Order): Option<real> {
    if o.symbol in m.top then Some(if o.buy then m.top[o.symbol].1 else m.top[o.symbol].0)
    else if o.symbol in m.books && m.books[o.symbol].Side(o.buy) != [] then Some(m.books[o.symbol].Side(o.buy)[0].price)
    else None
  }

  /** A limit order fills whole, at its limit, once the market trades through it; a touch is enough
      with luck. */
  function LimitFill(m: Market, o: Order, remaining: real, lucky: bool): (Option<real>, real)
    requires o.limit.Some?
  {
    var best := Opposite(m, o);
    if best.Some? && (Better(o.buy, best.value, o.limit.value) || (best.value == o.limit.value && lucky))
    then (o.limit, remaining)
    else (None, 0.0)
  }

  function Offered(m: Market, o: Order, remaining: real, lucky: bool): (Option<real>, real) {
    if o.limit.Some? then LimitFill(m, o, remaining, lucky)
    else if o.symbol in m.books then Walk(m.books[o.symbol].Side(o.buy), remaining)
    else (None, 0.0)
  }

  /** Fills what the market offers. */
  function Match(m: Market, w: Waiting, now: int, lucky: bool): (Waiting, seq<Out>) {
    var (price, got) := Offered(m, w.order, w.remaining, lucky);
    if price.Some? && got > 0.0 then
      var left := w.remaining - got;
      (w.(remaining := left),
       [Fill(w.order.id, price.value, got, left > 0.0, w.order.reduceOnly, now, w.readyNs)])
    else (w, [])
  }

  predicate Overdue(cfg: Config, w: Waiting, now: int) {
    cfg.partialTimeoutMs.Some? && w.firstNs.Some? && now - w.firstNs.value >= cfg.partialTimeoutMs.value * MS
  }

  /** What remains waits on, or is dropped once its time is up. */
  function Settle(cfg: Config, w: Waiting, now: int): (seq<Waiting>, seq<Out>) {
    if w.remaining <= 0.0 then ([], [])
    else if Overdue(cfg, w, now) then ([], [Expired(w.order.id, w.remaining, now)])
    else ([w], [])
  }

  function Visit(cfg: Config, m: Market, w: Waiting, now: int, lucky: bool): (seq<Waiting>, seq<Out>) {
    if w.readyNs > now then ([w], [])
    else
      var (w1, fills) := Match(m, w.(firstNs := Some(w.firstNs.GetOr(now))), now, lucky);
      var (keep, late) := Settle(cfg, w1, now);
      (keep, fills + late)
  }

  function Lucky(draws: seq<bool>, k: int): bool {
    0 <= k < |draws| && draws[k]
  }

  function VisitAll(cfg: Config, m: Market, ws: seq<Waiting>, now: int, draws: seq<bool>): (seq<Waiting>, seq<Out>)
    decreases |ws|
  {
    if ws == [] then ([], [])
    else
      var n := |ws| - 1;
      var (keep1, out1) := VisitAll(cfg, m, ws[..n], now, draws);
      var (keep2, out2) := Visit(cfg, m, ws[n], now, Lucky(draws, n));
      (keep1 + keep2, out1 + out2)
  }

  // ---- control requests

  function Without(ws: seq<Waiting>, id: string): seq<Waiting>
    decreases |ws|
  {
    if ws == [] then []
    else Without(ws[..|ws| - 1], id) + if ws[|ws| - 1].order.id != id then [ws[|ws| - 1]] else []
  }

  function Obey(s: Sim, c: Control): (Sim, seq<Out>) {
    match c.request
    case PlaceAlgo(a) => (s.(algos := s.algos[a.id := a]), [AlgoAck(a.id, c.readyNs)])
    case CancelAlgo(id) => (s.(algos := s.algos - {id}), [])
    case CancelOrder(id) => (s.(orders := Without(s.orders, id)), [])
    case Place(_) => (s, [])
  }

  /** Takes the requests whose latency is over, in order; `controls` collects the others. */
  function ObeyAll(s: Sim, cs: seq<Control>, now: int): (Sim, seq<Out>)
    decreases |cs|
  {
    if cs == [] then (s.(controls := []), [])
    else
      var (s1, out1) := ObeyAll(s, cs[..|cs| - 1], now);
      var c := cs[|cs| - 1];
      if c.readyNs > now then (s1.(controls := s1.controls + [c]), out1)
      else
        var (s2, out2) := Obey(s1, c);
        (s2, out1 + out2)
  }

  // ---- protective orders

  /** A selling stop and a buying target are hit from above, the others from below. */
  predicate Hit(a: Algo, mark: real) {
    if a.stop != a.buy then mark <= a.trigger else mark >= a.trigger
  }

  function DelayAt(delays: seq<int>, k: int): int {
    if 0 <= k < |delays| then delays[k] else 0
  }

  /** A new mark price, seen by the protective orders in the order `ids` lists them. */
  function MarkAll(s: Sim, symbol: string, mark: real, now: int, ids: seq<string>, delays: seq<int>): (Sim, seq<Out>)
    decreases |ids|
  {
    if ids == [] then (s, [])
    else
      var n := |ids| - 1;
      var (s1, out1) := MarkAll(s, symbol, mark, now, ids[..n], delays);
      if ids[n] in s1.algos && s1.algos[ids[n]].symbol == symbol && Hit(s1.algos[ids[n]], mark) then
        var a := s1.algos[ids[n]];
        (s1.(algos := s1.algos - {ids[n]}, triggered := s1.triggered + [Shot(a, now + DelayAt(delays, n))]),
         out1 + [AlgoTriggered(ids[n], now)])
      else (s1, out1)
  }

  /** One hit order takes the quantity of its position from the book. It stays only while there is
      nothing to take; without a position it is dropped, and so is what a partial fill leaves. */
  function Shoot(m: Market, positions: map<string, real>, shot: Shot, now: int): (seq<Shot>, seq<Out>) {
    var a := shot.algo;
    var p := Ids.PosIdOf(a.id);
    if shot.readyNs > now then ([shot], [])
    else if p !in positions || positions[p] <= 0.0 then ([], [])
    else if a.symbol !in m.books then ([shot], [])
    else
      var (price, got) := Walk(m.books[a.symbol].Side(a.buy), positions[p]);
      if price.None? then ([shot], [])
      else ([], [AlgoFill(a.id, price.value, got, a.stop, got < positions[p], now, shot.readyNs)])
  }

  function ShootAll(m: Market, positions: map<string, real>, shots: seq<Shot>, now: int): (seq<Shot>, seq<Out>)
    decreases |shots|
  {
    if shots == [] then ([], [])
    else
      var n := |shots| - 1;
      var (keep1, out1) := ShootAll(m, positions, shots[..n], now);
      var (keep2, out2) := Shoot(m, positions, shots[n], now);
      (keep1 + keep2, out1 + out2)
  }

  // ---- actions and runs

  datatype Action =
    | OnDepth(symbol: string, bids: seq<Level>, asks: seq<Level>)
    | OnBook(symbol: string, bid: real, ask: real)
    | OnMark(symbol: string, mark: real, now: int, ids: seq<string>, delays: seq<int>)
    | SetPosition(posId: string, qty: real)
    | Submit(request: Request, now: int, delayNs: int)
    | Poll(now: int, draws: seq<bool>)

  function Enqueue(s: Sim, r: Request, ready: int): Sim {
    if r.Place? then s.(orders := s.orders + [Waiting(r.order, ready, r.order.qty, None)])
    else s.(controls := s.controls + [Control(r, ready)])
  }

  function PollAll(cfg: Config, s: Sim, now: int, draws: seq<bool>): (Sim, seq<Out>) {
    var (s1, out1) := ObeyAll(s, s.controls, now);
    var (shots, out2) := ShootAll(s1.market, s1.positions, s1.triggered, now);
    var (keep, out3) := VisitAll(cfg, s1.market, s1.orders, now, draws);
    (s1.(triggered := shots, orders := keep), out1 + out2 + out3)
  }

  function Act(cfg: Config, s: Sim, a: Action): (Sim, seq<Out>) {
    match a
    case OnDepth(symbol, bids, asks) =>
      (s.(market := s.market.(books := s.market.books[symbol := Book(Sorted(false, bids), Sorted(true, asks))])), [])
    case OnBook(symbol, bid, ask) => (s.(market := s.market.(top := s.market.top[symbol := (bid, ask)])), [])
    case OnMark(symbol, mark, now, ids, delays) => MarkAll(s, symbol, mark, now, ids, delays)
    case SetPosition(posId, qty) => (s.(positions := s.positions[posId := qty]), [])
    case Submit(request, now, delay) => (Enqueue(s, request, now + delay), [])
    case Poll(now, draws) => PollAll(cfg, s, now, draws)
  }

  /** Quantities are not negative and the delays are at least the configured latency. */
  predicate Proper(cfg: Config, a: Action) {
    && (a.OnDepth? ==> Stocked(a.bids) && Stocked(a.asks))
    && (a.OnMark? ==> |a.delays| == |a.ids| && forall d <- a.delays :: d >= cfg.latencyMs * MS)
    && (a.Submit? ==> a.delayNs >= cfg.latencyMs * MS && (a.request.Place? ==> a.request.order.qty >= 0.0))
  }

  function Run(cfg: Config, actions: seq<Action>): (Sim, seq<Out>)
    decreases |actions|
  {
    if actions == [] then (EMPTY, [])
    else
      var (s, out1) := Run(cfg, actions[..|actions| - 1]);
      var (t, out2) := Act(cfg, s, actions[|actions| - 1]);
      (t, out1 + out2)
  }

  // ---- the ledger of one order id

  function Pending(ws: seq<Waiting>, id: string): real
    decreases |ws|
  {
    if ws == [] then 0.0
    else Pending(ws[..|ws| - 1], id) + if ws[|ws| - 1].order.id == id then ws[|ws| - 1].remaining else 0.0
  }

  function Amount(o: Out): real {
    match o
    case AlgoAck(_, _) => 0.0
    case Fill(_, _, qty, _, _, _, _) => qty
    case Expired(_, remaining, _) => remaining
    case AlgoTriggered(_, _) => 0.0
    case AlgoFill(_, _, _, _, _, _, _) => 0.0
  }

  /** Filled and expired quantity of an order id. */
  function Reported(outs: seq<Out>, id: string): real
    decreases |outs|
  {
    if outs == [] then 0.0
    else
      var o := outs[|outs| - 1];
      Reported(outs[..|outs| - 1], id) + if o.id == id then Amount(o) else 0.0
  }

  function Submitted(actions: seq<Action>, id: string): real
    decreases |actions|
  {
    if actions == [] then 0.0
    else
      var a := actions[|actions| - 1];
      Submitted(actions[..|actions| - 1], id)
      + if a.Submit? && a.request.Place? && a.request.order.id == id then a.request.order.qty else 0.0
  }

  predicate EverCancelled(actions: seq<Action>, id: string) {
    exists a <- actions :: a.Submit? && a.request == CancelOrder(id)
  }

  lemma {:induction false} PendingConcat(a: seq<Waiting>, b: seq<Waiting>, id: string)
    ensures Pending(a + b, id) == Pending(a, id) + Pending(b, id)
    decreases |b|
  {
    if b == [] {
      assert a + b == a;
    } else {
      assert (a + b)[..|a + b| - 1] == a + b[..|b| - 1];
      PendingConcat(a, b[..|b| - 1], id);
    }
  }

  lemma {:induction false} ReportedConcat(a: seq<Out>, b: seq<Out>, id: string)
    ensures Reported(a + b, id) == Reported(a, id) + Reported(b, id)
    decreases |b|
  {
    if b == [] {
      assert a + b == a;
    } else {
      assert (a + b)[..|a + b| - 1] == a + b[..|b| - 1];
      ReportedConcat(a, b[..|b| - 1], id);
    }
  }

  lemma Single(w: Waiting, o: Out, id: string)
    ensures Pending([w], id) == if w.order.id == id then w.remaining else 0.0
    ensures Reported([o], id) == if o.id == id then Amount(o) else 0.0
  {
    assert [w][..0] == [] && [o][..0] == [];
  }

  // ---- invariant of the state

  predicate MarketRight(m: Market) {
    forall y <- m.books :: var b := m.books[y];
      Stocked(b.bids) && Stocked(b.asks) && Ordered(false, b.bids) && Ordered(true, b.asks)
  }

  predicate Queued(ws: seq<Waiting>) {
    forall k :: 0 <= k < |ws| ==> ws[k].remaining >= 0.0
  }

  /** An order is never offered more than it still wants. */
  lemma OfferWithin(m: Market, o: Order, remaining: real, lucky: bool)
    requires MarketRight(m) && remaining >= 0.0
    ensures 0.0 <= Offered(m, o, remaining, lucky).1 <= remaining
  {
    if o.limit.None? && o.symbol in m.books {
      FillsWhatItCan(m.books[o.symbol].Side(o.buy), remaining);
      DepthIsNonNegative(m.books[o.symbol].Side(o.buy));
    }
  }

  lemma SettleConserves(cfg: Config, w: Waiting, now: int, id: string)
    requires w.remaining >= 0.0
    ensures var (keep, outs) := Settle(cfg, w, now);
      && Pending(keep, id) + Reported(outs, id) == (if w.order.id == id then w.remaining else 0.0)
      && Queued(keep)
  {
    Single(w, Expired(w.order.id, w.remaining, now), id);
  }

  lemma MatchConserves(m: Market, w: Waiting, now: int, lucky: bool, id: string)
    requires MarketRight(m) && w.remaining >= 0.0
    ensures var (v, outs) := Match(m, w, now, lucky);
      && v.order == w.order && v.remaining >= 0.0
      && Reported(outs, id) == (if w.order.id == id then w.remaining - v.remaining else 0.0)
  {
    OfferWithin(m, w.order, w.remaining, lucky);
    var (v, outs) := Match(m, w, now, lucky);
    if outs != [] {
      Single(w, outs[0], id);
    }
  }

  lemma VisitConserves(cfg: Config, m: Market, w: Waiting, now: int, lucky: bool, id: string)
    requires MarketRight(m) && w.remaining >= 0.0
    ensures var (keep, outs) := Visit(cfg, m, w, now, lucky);
      && Pending(keep, id) + Reported(outs, id) == (if w.order.id == id then w.remaining else 0.0)
      && Queued(keep)
  {
    if w.readyNs > now {
      Single(w, AlgoAck("", 0), id);
    } else {
      var w0 := w.(firstNs := Some(w.firstNs.GetOr(now)));
      var (w1, fills) := Match(m, w0, now, lucky);
      var (keep, late) := Settle(cfg, w1, now);
      MatchConserves(m, w0, now, lucky, id);
      SettleConserves(cfg, w1, now, id);
      ReportedConcat(fills, late, id);
    }
  }

  lemma {:induction false} VisitAllConserves(cfg: Config, m: Market, ws: seq<Waiting>, now: int, draws: seq<bool>, id: string)
    requires MarketRight(m) && Queued(ws)
    ensures var (keep, outs) := VisitAll(cfg, m, ws, now, draws);
      Pending(keep, id) + Reported(outs, id) == Pending(ws, id) && Queued(keep)
    decreases |ws|
  {
    if ws != [] {
      var n := |ws| - 1;
      VisitAllConserves(cfg, m, ws[..n], now, draws, id);
      VisitConserves(cfg, m, ws[n], now, Lucky(draws, n), id);
      var (keep1, out1) := VisitAll(cfg, m, ws[..n], now, draws);
      var (keep2, out2) := Visit(cfg, m, ws[n], now, Lucky(draws, n));
      PendingConcat(keep1, keep2, id);
      ReportedConcat(out1, out2, id);
    }
  }

  lemma {:induction false} WithoutPending(ws: seq<Waiting>, gone: string, id: string)
    requires Queued(ws)
    ensures var left := Without(ws, gone);
      && Queued(left) && Pending(ws, id) >= 0.0
      && Pending(left, id) == (if gone == id then 0.0 else Pending(ws, id))
    decreases |ws|
  {
    if ws != [] {
      var n := |ws| - 1;
      var left := Without(ws[..n], gone);
      WithoutPending(ws[..n], gone, id);
      Single(ws[n], AlgoAck("", 0), id);
      PendingConcat(left, [ws[n]], id);
      assert left + [] == left;
    }
  }

  predicate CancelIn(cs: seq<Control>, id: string) {
    exists k :: 0 <= k < |cs| && cs[k].request == CancelOrder(id)
  }

  lemma ObeyKeeps(s: Sim, c: Control, id: string)
    requires Queued(s.orders)
    ensures var (t, outs) := Obey(s, c);
      && Queued(t.orders) && t.market == s.market && t.controls == s.controls && Reported(outs, id) == 0.0
      && 0.0 <= Pending(t.orders, id)
      && Pending(t.orders, id) == (if c.request == CancelOrder(id) then 0.0 else Pending(s.orders, id))
  {
    WithoutPending(s.orders, if c.request.CancelOrder? then c.request.orderId else id, id);
    assert [AlgoAck(id, c.readyNs)][..0] == [];
  }

  lemma CancelInMore(cs: seq<Control>, c: Control, id: string)
    ensures CancelIn(cs + [c], id) <==> CancelIn(cs, id) || c.request == CancelOrder(id)
  {
    assert (cs + [c])[|cs|] == c;
    assert forall k :: 0 <= k < |cs| ==> (cs + [c])[k] == cs[k];
  }

  /** Control requests report no fill and take away only what is cancelled. */
  lemma {:induction false} ObeyAllKeeps(s: Sim, cs: seq<Control>, now: int, id: string)
    requires Queued(s.orders)
    ensures var (t, outs) := ObeyAll(s, cs, now);
      && Queued(t.orders) && t.market == s.market && Reported(outs, id) == 0.0
      && 0.0 <= Pending(t.orders, id) <= Pending(s.orders, id)
      && (!CancelIn(cs, id) ==> Pending(t.orders, id) == Pending(s.orders, id))
      && (CancelIn(t.controls, id) ==> CancelIn(cs, id))
    decreases |cs|
  {
    if cs == [] {
      WithoutPending(s.orders, id, id);
    } else {
      var before, c := cs[..|cs| - 1], cs[|cs| - 1];
      ObeyAllKeeps(s, before, now, id);
      var (t1, out1) := ObeyAll(s, before, now);
      assert cs == before + [c];
      CancelInMore(before, c, id);
      CancelInMore(t1.controls, c, id);
      ObeyKeeps(t1, c, id);
      ReportedConcat(out1, Obey(t1, c).1, id);
    }
  }

  /** Protective orders are no part of that ledger. */
  lemma {:induction false} MarkAllKeeps(s: Sim, symbol: string, mark: real, now: int, ids: seq<string>, delays: seq<int>, id: string)
    ensures var (t, outs) := MarkAll(s, symbol, mark, now, ids, delays);
      && t.orders == s.orders && t.controls == s.controls && t.market == s.market && Reported(outs, id) == 0.0
      && forall k :: 0 <= k < |outs| ==> outs[k].AlgoTriggered?
    decreases |ids|
  {
    if ids != [] {
      var n := |ids| - 1;
      MarkAllKeeps(s, symbol, mark, now, ids[..n], delays, id);
      assert [AlgoTriggered(ids[n], now)][..0] == [];
      ReportedConcat(MarkAll(s, symbol, mark, now, ids[..n], delays).1, [AlgoTriggered(ids[n], now)], id);
    }
  }

  lemma {:induction false} ShootAllReports(m: Market, positions: map<string, real>, shots: seq<Shot>, now: int, id: string)
    ensures var outs := ShootAll(m, positions, shots, now).1;
      Reported(outs, id) == 0.0 && forall k :: 0 <= k < |outs| ==> outs[k].AlgoFill?
    decreases |shots|
  {
    if shots != [] {
      var n := |shots| - 1;
      ShootAllReports(m, positions, shots[..n], now, id);
      var out2 := Shoot(m, positions, shots[n], now).1;
      assert out2 != [] ==> out2[..0] == [];
      ReportedConcat(ShootAll(m, positions, shots[..n], now).1, out2, id);
    }
  }

  /** In every run, for every order id: what was filled, what expired and what still waits never
      exceed what was submitted, and are exactly that if no cancellation was sent. */
  lemma {:induction false} NothingIsLost(cfg: Config, actions: seq<Action>, id: string)
    requires forall k :: 0 <= k < |actions| ==> Proper(cfg, actions[k])
    ensures var (s, outs) := Run(cfg, actions);
      && MarketRight(s.market) && Queued(s.orders)
      && (CancelIn(s.controls, id) ==> EverCancelled(actions, id))
      && Reported(outs, id) + Pending(s.orders, id) <= Submitted(actions, id)
      && (!EverCancelled(actions, id) ==> Reported(outs, id) + Pending(s.orders, id) == Submitted(actions, id))
    decreases |actions|
  {
    if actions != [] {
      var n := |actions| - 1;
      var before, a := actions[..n], actions[n];
      NothingIsLost(cfg, before, id);
      var (s, out1) := Run(cfg, before);
      assert forall x :: x in actions <==> x in before || x == a;
      ActKeeps(cfg, s, a, id);
      ReportedConcat(out1, Act(cfg, s, a).1, id);
    }
  }

  lemma ActKeeps(cfg: Config, s: Sim, a: Action, id: string)
    requires MarketRight(s.market) && Queued(s.orders) && Proper(cfg, a)
    ensures var (t, outs) := Act(cfg, s, a);
      var given := if a.Submit? && a.request.Place? && a.request.order.id == id then a.request.order.qty else 0.0;
      && MarketRight(t.market) && Queued(t.orders)
      && (CancelIn(t.controls, id) ==> CancelIn(s.controls, id) || (a.Submit? && a.request == CancelOrder(id)))
      && Reported(outs, id) + Pending(t.orders, id) <= Pending(s.orders, id) + given
      && (!CancelIn(s.controls, id) ==> Reported(outs, id) + Pending(t.orders, id) == Pending(s.orders, id) + given)
  {
    match a
    case OnDepth(symbol, bids, asks) => StockedSorted(bids, asks);
    case OnBook(_, _, _) =>
    case OnMark(symbol, mark, now, ids, delays) => MarkAllKeeps(s, symbol, mark, now, ids, delays, id);
    case SetPosition(_, _) =>
    case Submit(request, now, delay) =>
      if request.Place? {
        var w := Waiting(request.order, now + delay, request.order.qty, None);
        PendingConcat(s.orders, [w], id);
        Single(w, AlgoAck("", 0), id);
      }
    case Poll(now, draws) =>
      ObeyAllKeeps(s, s.controls, now, id);
      var (s1, out1) := ObeyAll(s, s.controls, now);
      VisitAllConserves(cfg, s1.market, s1.orders, now, draws, id);
      var out2 := ShootAll(s1.market, s1.positions, s1.triggered, now).1;
      ShootAllReports(s1.market, s1.positions, s1.triggered, now, id);
      ReportedConcat(out1, out2, id);
      ReportedConcat(out1 + out2, VisitAll(cfg, s1.market, s1.orders, now, draws).1, id);
  }

  lemma StockedSorted(bids: seq<Level>, asks: seq<Level>)
    requires Stocked(bids) && Stocked(asks)
    ensures Stocked(Sorted(false, bids)) && Stocked(Sorted(true, asks))
  {
    SameStock(bids, Sorted(false, bids));
    SameStock(asks, Sorted(true, asks));
  }

  lemma SameStock(a: seq<Level>, b: seq<Level>)
    requires Stocked(a) && multiset(a) == multiset(b)
    ensures Stocked(b)
  {
    forall i | 0 <= i < |b| ensures b[i].avail >= 0.0 {
      assert b[i] in multiset(a);
    }
  }

  // ---- when and at what price

  /** The order was submitted early enough to be ready at `ready`. */
  predicate SentBy(cfg: Config, actions: seq<Action>, id: string, ready: int) {
    exists k :: 0 <= k < |actions| && actions[k].Submit? && actions[k].request.Place?
      && actions[k].request.order.id == id && actions[k].now + cfg.latencyMs * MS <= ready
  }

  predicate AllSent(cfg: Config, actions: seq<Action>, ws: seq<Waiting>) {
    forall k :: 0 <= k < |ws| ==> SentBy(cfg, actions, ws[k].order.id, ws[k].readyNs)
  }

  predicate FillsInTime(cfg: Config, actions: seq<Action>, outs: seq<Out>) {
    forall k :: 0 <= k < |outs| && outs[k].Fill? ==>
      outs[k].readyNs <= outs[k].tNs && SentBy(cfg, actions, outs[k].id, outs[k].readyNs)
  }

  lemma {:induction false} VisitAllInTime(cfg: Config, m: Market, ws: seq<Waiting>, now: int, draws: seq<bool>, actions: seq<Action>)
    requires AllSent(cfg, actions, ws)
    ensures var (keep, outs) := VisitAll(cfg, m, ws, now, draws);
      AllSent(cfg, actions, keep) && FillsInTime(cfg, actions, outs)
    decreases |ws|
  {
    if ws != [] {
      VisitAllInTime(cfg, m, ws[..|ws| - 1], now, draws, actions);
    }
  }

  lemma {:induction false} WithoutSent(cfg: Config, actions: seq<Action>, ws: seq<Waiting>, gone: string)
    requires AllSent(cfg, actions, ws)
    ensures AllSent(cfg, actions, Without(ws, gone))
    decreases |ws|
  {
    if ws != [] {
      WithoutSent(cfg, actions, ws[..|ws| - 1], gone);
    }
  }

  lemma {:induction false} ObeyAllSent(cfg: Config, actions: seq<Action>, s: Sim, cs: seq<Control>, now: int)
    requires AllSent(cfg, actions, s.orders)
    ensures var (t, outs) := ObeyAll(s, cs, now); AllSent(cfg, actions, t.orders) && FillsInTime(cfg, actions, outs)
    decreases |cs|
  {
    if cs != [] {
      var n := |cs| - 1;
      ObeyAllSent(cfg, actions, s, cs[..n], now);
      if cs[n].request.CancelOrder? {
        WithoutSent(cfg, actions, ObeyAll(s, cs[..n], now).0.orders, cs[n].request.orderId);
      }
    }
  }

  lemma MoreActions(cfg: Config, actions: seq<Action>, a: Action, id: string, ready: int)
    requires SentBy(cfg, actions, id, ready)
    ensures SentBy(cfg, actions + [a], id, ready)
  {
    var k :| 0 <= k < |actions| && actions[k].Submit? && actions[k].request.Place?
      && actions[k].request.order.id == id && actions[k].now + cfg.latencyMs * MS <= ready;
    assert (actions + [a])[k] == actions[k];
  }

  /** In every run nothing fills before the latency of its order has elapsed. */
  lemma {:induction false} NothingFillsEarly(cfg: Config, actions: seq<Action>)
    requires forall k :: 0 <= k < |actions| ==> Proper(cfg, actions[k])
    ensures var (s, outs) := Run(cfg, actions); AllSent(cfg, actions, s.orders) && FillsInTime(cfg, actions, outs)
    decreases |actions|
  {
    if actions != [] {
      var n := |actions| - 1;
      var before, a := actions[..n], actions[n];
      NothingFillsEarly(cfg, before);
      var (s, out1) := Run(cfg, before);
      assert actions == before + [a];
      forall k | 0 <= k < |s.orders| ensures SentBy(cfg, actions, s.orders[k].order.id, s.orders[k].readyNs) {
        MoreActions(cfg, before, a, s.orders[k].order.id, s.orders[k].readyNs);
      }
      forall k | 0 <= k < |out1| && out1[k].Fill? ensures SentBy(cfg, actions, out1[k].id, out1[k].readyNs) {
        MoreActions(cfg, before, a, out1[k].id, out1[k].readyNs);
      }
      ActInTime(cfg, actions, s);
    }
  }

  lemma ActInTime(cfg: Config, actions: seq<Action>, s: Sim)
    requires actions != [] && Proper(cfg, actions[|actions| - 1]) && AllSent(cfg, actions, s.orders)
    ensures var (t, outs) := Act(cfg, s, actions[|actions| - 1]);
      AllSent(cfg, actions, t.orders) && FillsInTime(cfg, actions, outs)
  {
    var a := actions[|actions| - 1];
    if a.OnMark? {
      MarkAllKeeps(s, a.symbol, a.mark, a.now, a.ids, a.delays, "");
    } else if a.Poll? {
      ObeyAllSent(cfg, actions, s, s.controls, a.now);
      var (s1, out1) := ObeyAll(s, s.controls, a.now);
      ShootAllReports(s1.market, s1.positions, s1.triggered, a.now, "");
      VisitAllInTime(cfg, s1.market, s1.orders, a.now, a.draws, actions);
    }
  }

  predicate FairLimit(m: Market, w: Waiting, price: real, qty: real)
    requires w.order.limit.Some?
  {
    var best := Opposite(m, w.order);
    price == w.order.limit.value && qty == w.remaining && best.Some? && !Better(w.order.buy, price, best.value)
  }

  predicate FairMarket(m: Market, w: Waiting, price: real, qty: real) {
    && w.order.symbol in m.books
    && var side := m.books[w.order.symbol].Side(w.order.buy);
      && side != [] && qty == Min(w.remaining, Depth(side))
      && !Better(w.order.buy, price, side[0].price) && !Better(w.order.buy, Marginal(side, w.remaining), price)
  }

  /** A fill is never on worse terms than the order allows: a limit order fills at its limit, and
      only when the opposite side has reached it; a market order gets the smaller of what it wants
      and what the book holds, at an average between the best and the last level it reaches. */
  lemma FillsAreFair(m: Market, w: Waiting, now: int, lucky: bool)
    requires MarketRight(m) && w.remaining >= 0.0 && Match(m, w, now, lucky).1 != []
    ensures var f := Match(m, w, now, lucky).1[0];
      && f.Fill? && 0.0 < f.qty <= w.remaining && (f.partial <==> f.qty < w.remaining)
      && (if w.order.limit.Some? then FairLimit(m, w, f.price, f.qty) else FairMarket(m, w, f.price, f.qty))
  {
    OfferWithin(m, w.order, w.remaining, lucky);
    if w.order.limit.None? {
      var side := m.books[w.order.symbol].Side(w.order.buy);
      FillsWhatItCan(side, w.remaining);
      AverageBetween(w.order.buy, side, w.remaining);
    }
  }

  /** After a poll every ready order that is left has been tried, and not for longer than the timeout. */
  lemma {:induction false} PollLeavesNoOverdue(cfg: Config, m: Market, ws: seq<Waiting>, now: int, draws: seq<bool>)
    ensures forall w <- VisitAll(cfg, m, ws, now, draws).0 ::
      w.readyNs <= now ==> w.remaining > 0.0 && w.firstNs.Some? && !Overdue(cfg, w, now)
    decreases |ws|
  {
    if ws != [] {
      PollLeavesNoOverdue(cfg, m, ws[..|ws| - 1], now, draws);
    }
  }
}
