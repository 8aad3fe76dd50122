/** What the fill simulator does with protective orders (fbot/execution/sim.py): acknowledged, hit by
    the mark, and then filled from the book. */
module ProtectiveFills {
  import opened Common
  import opened BookWalk
  import opened Simulator
  import Ids

  // ---- hits

  predicate HitNow(s: Sim, id: string, symbol: string, mark: real) {
    id in s.algos && s.algos[id].symbol == symbol && Hit(s.algos[id], mark)
  }

  /** A mark triggers exactly the visited orders of its symbol that it hits. */
  lemma {:induction false} MarkTriggersIff(s: Sim, symbol: string, mark: real, now: int, ids: seq<string>, delays: seq<int>)
    ensures var (t, outs) := MarkAll(s, symbol, mark, now, ids, delays);
      && (forall id :: id in t.algos <==> id in s.algos && !(id in ids && HitNow(s, id, symbol, mark)))
      && (forall id <- t.algos :: t.algos[id] == s.algos[id])
      && (forall id :: AlgoTriggered(id, now) in outs <==> id in ids && HitNow(s, id, symbol, mark))
    decreases |ids|
  {
    if ids != [] {
      var n := |ids| - 1;
      MarkTriggersIff(s, symbol, mark, now, ids[..n], delays);
      assert forall id :: id in ids <==> id in ids[..n] || id == ids[n];
    }
  }

  // ---- how often

  datatype Kind = Acked | Triggered | Closed

  predicate IsOf(o: Out, kind: Kind, id: string) {
    match kind
    case Acked => o.AlgoAck? && o.id == id
    case Triggered => o.AlgoTriggered? && o.id == id
    case Closed => o.AlgoFill? && o.id == id
  }

  function Count(outs: seq<Out>, kind: Kind, id: string): nat {
    if outs == [] then 0 else Count(outs[..|outs| - 1], kind, id) + if IsOf(outs[|outs| - 1], kind, id) then 1 else 0
  }

  function Shots(shots: seq<Shot>, id: string): nat {
    if shots == [] then 0 else Shots(shots[..|shots| - 1], id) + if shots[|shots| - 1].algo.id == id then 1 else 0
  }

  function Active(s: Sim, id: string): nat {
    if id in s.algos then 1 else 0
  }

  predicate Keyed(s: Sim) {
    forall id <- s.algos :: s.algos[id].id == id
  }

  lemma {:induction false} CountConcat(a: seq<Out>, b: seq<Out>, kind: Kind, id: string)
    ensures Count(a + b, kind, id) == Count(a, kind, id) + Count(b, kind, id)
    decreases |b|
  {
    if b == [] {
      assert a + b == a;
    } else {
      assert (a + b)[..|a + b| - 1] == a + b[..|b| - 1];
      CountConcat(a, b[..|b| - 1], kind, id);
    }
  }

  lemma CountsAdd(a: seq<Out>, b: seq<Out>, id: string)
    ensures forall kind :: Count(a + b, kind, id) == Count(a, kind, id) + Count(b, kind, id)
  {
    forall kind: Kind ensures Count(a + b, kind, id) == Count(a, kind, id) + Count(b, kind, id) {
      CountConcat(a, b, kind, id);
    }
  }

  lemma {:induction false} ShotsConcat(a: seq<Shot>, b: seq<Shot>, id: string)
    ensures Shots(a + b, id) == Shots(a, id) + Shots(b, id)
    decreases |b|
  {
    if b == [] {
      assert a + b == a;
    } else {
      assert (a + b)[..|a + b| - 1] == a + b[..|b| - 1];
      ShotsConcat(a, b[..|b| - 1], id);
    }
  }

  lemma CountOne(o: Out, kind: Kind, id: string)
    ensures Count([o], kind, id) == if IsOf(o, kind, id) then 1 else 0
  {
    assert [o][..0] == [];
  }

  lemma {:induction false} CountNone(outs: seq<Out>, kind: Kind, id: string)
    requires forall o <- outs :: !IsOf(o, kind, id)
    ensures Count(outs, kind, id) == 0
  {
    if outs != [] {
      CountNone(outs[..|outs| - 1], kind, id);
    }
  }

  /** A trigger moves an order from the active ones to the hit ones. */
  lemma {:induction false} MarkCounts(s: Sim, symbol: string, mark: real, now: int, ids: seq<string>, delays: seq<int>, id: string)
    requires Keyed(s)
    ensures var (t, outs) := MarkAll(s, symbol, mark, now, ids, delays);
      && Keyed(t) && Active(t, id) + Count(outs, Triggered, id) == Active(s, id)
      && Shots(t.triggered, id) == Shots(s.triggered, id) + Count(outs, Triggered, id)
      && Count(outs, Acked, id) == 0 == Count(outs, Closed, id)
    decreases |ids|
  {
    if ids != [] {
      var n := |ids| - 1;
      MarkCounts(s, symbol, mark, now, ids[..n], delays, id);
      var (s1, out1) := MarkAll(s, symbol, mark, now, ids[..n], delays);
      if HitNow(s1, ids[n], symbol, mark) {
        var o, shot := AlgoTriggered(ids[n], now), Shot(s1.algos[ids[n]], now + DelayAt(delays, n));
        CountAppended(out1, o, id);
        ShotsConcat(s1.triggered, [shot], id);
        assert [shot][..0] == [];
      }
    }
  }

  lemma CountAppended(outs: seq<Out>, o: Out, id: string)
    ensures forall kind :: Count(outs + [o], kind, id) == Count(outs, kind, id) + if IsOf(o, kind, id) then 1 else 0
  {
    forall kind: Kind ensures Count(outs + [o], kind, id) == Count(outs, kind, id) + if IsOf(o, kind, id) then 1 else 0 {
      CountConcat(outs, [o], kind, id);
      CountOne(o, kind, id);
    }
  }

  lemma ObeyCount(s: Sim, c: Control, id: string)
    requires Keyed(s)
    ensures var (t, outs) := Obey(s, c);
      && Keyed(t) && Active(t, id) <= Active(s, id) + Count(outs, Acked, id)
      && t.triggered == s.triggered && t.positions == s.positions
      && Count(outs, Triggered, id) == 0 == Count(outs, Closed, id)
  {
    if c.request.PlaceAlgo? {
      CountAppended([], AlgoAck(c.request.algo.id, c.readyNs), id);
      assert [] + [AlgoAck(c.request.algo.id, c.readyNs)] == [AlgoAck(c.request.algo.id, c.readyNs)];
    }
  }

  lemma {:induction false} ObeyCounts(s: Sim, cs: seq<Control>, now: int, id: string)
    requires Keyed(s)
    ensures var (t, outs) := ObeyAll(s, cs, now);
      && Keyed(t) && Active(t, id) <= Active(s, id) + Count(outs, Acked, id)
      && t.triggered == s.triggered && t.positions == s.positions
      && Count(outs, Triggered, id) == 0 == Count(outs, Closed, id)
    decreases |cs|
  {
    if cs != [] {
      var before, c := cs[..|cs| - 1], cs[|cs| - 1];
      ObeyCounts(s, before, now, id);
      var (s1, out1) := ObeyAll(s, before, now);
      ObeyCount(s1, c, id);
      CountsAdd(out1, Obey(s1, c).1, id);
    }
  }

  lemma ShootCount(m: Market, positions: map<string, real>, shot: Shot, now: int, id: string)
    ensures var (keep, outs) := Shoot(m, positions, shot, now);
      && Count(outs, Closed, id) + Shots(keep, id) <= Shots([shot], id)
      && Count(outs, Acked, id) == 0 == Count(outs, Triggered, id)
  {
    var outs := Shoot(m, positions, shot, now).1;
    assert [shot][..0] == [];
    if outs != [] {
      CountAppended([], outs[0], id);
      assert outs == [] + [outs[0]];
    }
  }

  lemma {:induction false} ShootCounts(m: Market, positions: map<string, real>, shots: seq<Shot>, now: int, id: string)
    ensures var (keep, outs) := ShootAll(m, positions, shots, now);
      && Count(outs, Closed, id) + Shots(keep, id) <= Shots(shots, id)
      && Count(outs, Acked, id) == 0 == Count(outs, Triggered, id)
    decreases |shots|
  {
    if shots != [] {
      var before, shot := shots[..|shots| - 1], shots[|shots| - 1];
      ShootCounts(m, positions, before, now, id);
      ShootCount(m, positions, shot, now, id);
      var (keep1, out1) := ShootAll(m, positions, before, now);
      var (keep2, out2) := Shoot(m, positions, shot, now);
      ShotsConcat(keep1, keep2, id);
      ShotsConcat(before, [shot], id);
      assert shots == before + [shot];
      CountsAdd(out1, out2, id);
    }
  }

  lemma {:induction false} VisitsAreOrders(cfg: Config, m: Market, ws: seq<Waiting>, now: int, draws: seq<bool>)
    ensures var outs := VisitAll(cfg, m, ws, now, draws).1;
      forall o <- outs :: o.Fill? || o.Expired?
    decreases |ws|
  {
    if ws != [] {
      VisitsAreOrders(cfg, m, ws[..|ws| - 1], now, draws);
    }
  }

  lemma OrdersDoNotCount(outs: seq<Out>, id: string)
    requires forall o <- outs :: o.Fill? || o.Expired?
    ensures forall kind :: Count(outs, kind, id) == 0
  {
    forall kind: Kind ensures Count(outs, kind, id) == 0 {
      CountNone(outs, kind, id);
    }
  }

  predicate Balanced(s: Sim, outs: seq<Out>, id: string) {
    && Keyed(s) && Count(outs, Closed, id) + Shots(s.triggered, id) <= Count(outs, Triggered, id)
    && Count(outs, Triggered, id) + Active(s, id) <= Count(outs, Acked, id)
  }

  lemma PollCounts(cfg: Config, s: Sim, now: int, draws: seq<bool>, id: string)
    requires Keyed(s)
    ensures var (t, outs) := PollAll(cfg, s, now, draws);
      && Keyed(t) && Active(t, id) <= Active(s, id) + Count(outs, Acked, id)
      && Count(outs, Closed, id) + Shots(t.triggered, id) <= Shots(s.triggered, id)
      && Count(outs, Triggered, id) == 0
  {
    ObeyCounts(s, s.controls, now, id);
    var (s1, out1) := ObeyAll(s, s.controls, now);
    ShootCounts(s1.market, s1.positions, s1.triggered, now, id);
    var out2 := ShootAll(s1.market, s1.positions, s1.triggered, now).1;
    var out3 := VisitAll(cfg, s1.market, s1.orders, now, draws).1;
    VisitsAreOrders(cfg, s1.market, s1.orders, now, draws);
    OrdersDoNotCount(out3, id);
    CountsAdd(out1, out2, id);
    CountsAdd(out1 + out2, out3, id);
  }

  lemma ActCounts(cfg: Config, s: Sim, before: seq<Out>, a: Action, id: string)
    requires Balanced(s, before, id)
    ensures var (t, outs) := Act(cfg, s, a); Balanced(t, before + outs, id)
  {
    var (t, outs) := Act(cfg, s, a);
    if a.OnMark? {
      MarkCounts(s, a.symbol, a.mark, a.now, a.ids, a.delays, id);
    } else if a.Poll? {
      PollCounts(cfg, s, a.now, a.draws, id);
    }
    CountsAdd(before, outs, id);
  }

  /** In every run, for every id: it is filled at most once for each time it was triggered, and
      triggered at most once for each time it was acknowledged. */
  lemma {:induction false} OneFillPerTrigger(cfg: Config, actions: seq<Action>, id: string)
    ensures var (s, outs) := Run(cfg, actions); Balanced(s, outs, id)
    decreases |actions|
  {
    if actions != [] {
      var n := |actions| - 1;
      OneFillPerTrigger(cfg, actions[..n], id);
      var (s, before) := Run(cfg, actions[..n]);
      ActCounts(cfg, s, before, actions[n], id);
    }
  }

  // ---- when

  /** The id was triggered at least the latency before `ready`. */
  predicate TriggeredBy(cfg: Config, outs: seq<Out>, id: string, ready: int) {
    exists k :: 0 <= k < |outs| && outs[k].AlgoTriggered? && outs[k].id == id && outs[k].tNs + cfg.latencyMs * MS <= ready
  }

  predicate FillTimely(cfg: Config, before: seq<Out>, o: Out) {
    o.AlgoFill? ==> o.readyNs <= o.tNs && TriggeredBy(cfg, before, o.id, o.readyNs)
  }

  ghost predicate Timely(cfg: Config, outs: seq<Out>, shots: seq<Shot>) {
    && (forall x <- shots :: TriggeredBy(cfg, outs, x.algo.id, x.readyNs))
    && (forall o <- outs :: FillTimely(cfg, outs, o))
  }

  lemma LaterOuts(cfg: Config, a: seq<Out>, b: seq<Out>)
    ensures forall id, ready :: TriggeredBy(cfg, a, id, ready) ==> TriggeredBy(cfg, a + b, id, ready)
    ensures forall id, ready :: TriggeredBy(cfg, b, id, ready) ==> TriggeredBy(cfg, a + b, id, ready)
  {
    forall id, ready | TriggeredBy(cfg, a, id, ready) ensures TriggeredBy(cfg, a + b, id, ready) {
      var k :| 0 <= k < |a| && a[k].AlgoTriggered? && a[k].id == id && a[k].tNs + cfg.latencyMs * MS <= ready;
      assert (a + b)[k] == a[k];
    }
    forall id, ready | TriggeredBy(cfg, b, id, ready) ensures TriggeredBy(cfg, a + b, id, ready) {
      var k :| 0 <= k < |b| && b[k].AlgoTriggered? && b[k].id == id && b[k].tNs + cfg.latencyMs * MS <= ready;
      assert (a + b)[|a| + k] == b[k];
    }
  }

  lemma {:induction false} MarkTimely(cfg: Config, s: Sim, symbol: string, mark: real, now: int, ids: seq<string>, delays: seq<int>)
    requires Keyed(s) && |delays| >= |ids| && forall d <- delays :: d >= cfg.latencyMs * MS
    ensures var (t, outs) := MarkAll(s, symbol, mark, now, ids, delays);
      && Keyed(t) && (forall x <- t.triggered :: x in s.triggered || TriggeredBy(cfg, outs, x.algo.id, x.readyNs))
      && (forall o <- outs :: o.AlgoTriggered?)
    decreases |ids|
  {
    if ids != [] {
      var n := |ids| - 1;
      MarkTimely(cfg, s, symbol, mark, now, ids[..n], delays);
      var (s1, out1) := MarkAll(s, symbol, mark, now, ids[..n], delays);
      if HitNow(s1, ids[n], symbol, mark) {
        var o := AlgoTriggered(ids[n], now);
        LaterOuts(cfg, out1, [o]);
        assert delays[n] in delays;
        assert (out1 + [o])[|out1|] == o;
        assert TriggeredBy(cfg, out1 + [o], ids[n], now + DelayAt(delays, n));
      }
    }
  }

  lemma {:induction false} ShootTimely(cfg: Config, m: Market, positions: map<string, real>, shots: seq<Shot>, now: int, before: seq<Out>)
    requires forall x <- shots :: TriggeredBy(cfg, before, x.algo.id, x.readyNs)
    ensures var (keep, outs) := ShootAll(m, positions, shots, now);
      && (forall x <- keep :: TriggeredBy(cfg, before, x.algo.id, x.readyNs))
      && (forall o <- outs :: FillTimely(cfg, before, o))
    decreases |shots|
  {
    if shots != [] {
      var n := |shots| - 1;
      assert forall x :: x in shots <==> x in shots[..n] || x == shots[n];
      ShootTimely(cfg, m, positions, shots[..n], now, before);
    }
  }

  lemma {:induction false} ObeyGivesAcks(s: Sim, cs: seq<Control>, now: int)
    requires Keyed(s)
    ensures var (t, outs) := ObeyAll(s, cs, now);
      Keyed(t) && t.triggered == s.triggered && forall o <- outs :: o.AlgoAck?
    decreases |cs|
  {
    if cs != [] {
      ObeyGivesAcks(s, cs[..|cs| - 1], now);
    }
  }

  lemma TimelyMore(cfg: Config, before: seq<Out>, outs: seq<Out>, shots: seq<Shot>, keep: seq<Shot>)
    requires Timely(cfg, before, shots) && (forall x <- keep :: TriggeredBy(cfg, before, x.algo.id, x.readyNs))
    requires forall o <- outs :: FillTimely(cfg, before, o)
    ensures Timely(cfg, before + outs, keep)
  {
    LaterOuts(cfg, before, outs);
    forall o | o in before + outs ensures FillTimely(cfg, before + outs, o) {
      assert o in outs ==> FillTimely(cfg, before, o);
    }
  }

  lemma OfThree(cfg: Config, before: seq<Out>, a: seq<Out>, b: seq<Out>, c: seq<Out>)
    requires (forall o <- a :: o.AlgoAck?) && (forall o <- c :: o.Fill? || o.Expired?)
    requires forall o <- b :: FillTimely(cfg, before, o)
    ensures forall o <- a + b + c :: FillTimely(cfg, before, o)
  {
  }

  lemma PollTimely(cfg: Config, s: Sim, before: seq<Out>, now: int, draws: seq<bool>)
    requires Keyed(s) && Timely(cfg, before, s.triggered)
    ensures var (t, outs) := PollAll(cfg, s, now, draws); Keyed(t) && Timely(cfg, before + outs, t.triggered)
  {
    ObeyGivesAcks(s, s.controls, now);
    var (s1, out1) := ObeyAll(s, s.controls, now);
    var (keep, out2) := ShootAll(s1.market, s1.positions, s1.triggered, now);
    var out3 := VisitAll(cfg, s1.market, s1.orders, now, draws).1;
    ShootTimely(cfg, s1.market, s1.positions, s1.triggered, now, before);
    VisitsAreOrders(cfg, s1.market, s1.orders, now, draws);
    OfThree(cfg, before, out1, out2, out3);
    TimelyMore(cfg, before, out1 + out2 + out3, s.triggered, keep);
  }

  /** In every run a protective order is filled only once the latency since its trigger is over. */
  lemma {:induction false} NoEarlyProtection(cfg: Config, actions: seq<Action>)
    requires forall k :: 0 <= k < |actions| ==> Proper(cfg, actions[k])
    ensures var (s, outs) := Run(cfg, actions); Keyed(s) && Timely(cfg, outs, s.triggered)
    decreases |actions|
  {
    if actions != [] {
      var n := |actions| - 1;
      NoEarlyProtection(cfg, actions[..n]);
      var (s, before) := Run(cfg, actions[..n]);
      ActTimely(cfg, s, before, actions[n]);
    }
  }

  lemma ActTimely(cfg: Config, s: Sim, before: seq<Out>, a: Action)
    requires Keyed(s) && Timely(cfg, before, s.triggered) && Proper(cfg, a)
    ensures var (t, outs) := Act(cfg, s, a); Keyed(t) && Timely(cfg, before + outs, t.triggered)
  {
    if a.OnMark? {
      MarkTimely(cfg, s, a.symbol, a.mark, a.now, a.ids, a.delays);
      LaterOuts(cfg, before, Act(cfg, s, a).1);
    } else if a.Poll? {
      PollTimely(cfg, s, before, a.now, a.draws);
    } else {
      assert before + Act(cfg, s, a).1 == before;
    }
  }

  // ---- how much

  /** A hit order waits exactly until it is due and, with a position, until there is something to take;
      then it takes the smaller of the position and the book, between the best and the last level it
      reaches. The rest of a partial fill is not taken later. */
  lemma ProtectionTakes(m: Market, positions: map<string, real>, shot: Shot, now: int)
    requires MarketRight(m)
    ensures var (keep, outs) := Shoot(m, positions, shot, now);
      var p, side := Ids.PosIdOf(shot.algo.id), if shot.algo.symbol in m.books then m.books[shot.algo.symbol].Side(shot.algo.buy) else [];
      var held := if p in positions then positions[p] else 0.0;
      && (keep == [shot] <==> shot.readyNs > now || (held > 0.0 && Depth(side) <= 0.0)) && (keep == [shot] || keep == [])
      && (outs != [] <==> keep == [] && held > 0.0)
      && (outs != [] ==>
            && |outs| == 1 && outs[0].AlgoFill? && outs[0].id == shot.algo.id
            && outs[0].qty == Min(held, Depth(side)) && (outs[0].partial <==> Depth(side) < held)
            && side != [] && !Better(shot.algo.buy, outs[0].price, side[0].price)
            && !Better(shot.algo.buy, Marginal(side, held), outs[0].price))
  {
    var p := Ids.PosIdOf(shot.algo.id);
    if p in positions && positions[p] > 0.0 && shot.algo.symbol in m.books {
      var side := m.books[shot.algo.symbol].Side(shot.algo.buy);
      FillsWhatItCan(side, positions[p]);
      if Walk(side, positions[p]).0.Some? {
        AverageBetween(shot.algo.buy, side, positions[p]);
      }
    }
  }
}
