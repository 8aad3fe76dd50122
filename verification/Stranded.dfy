/** What follows the trigger of a protection (fbot/core/position.py:161-181): no command is ever sent
    again, so whatever the fills leave stays open without a stop. */
module Stranded {
  import opened Common
  import opened Position
  import opened ExitDiscipline
  import Ids
  import BookWalk
  import ProtectiveFills
  import Simulator

  /** Nothing protects the position and no rule looks at it any more. */
  predicate Spent(p: Pos) {
    p.active == {} && (p.state == Closed || p.state == Closing || (p.state == Frozen && p.prevState == Some(Closing)))
  }

  lemma TriggerSpends(cfg: Config, p: Pos, id: Ids.OrderId)
    requires Inv(p) && cfg.Complete()
    ensures Spent(Step(cfg, p, AlgoTriggered(id)).0)
  {
  }

  lemma StepStaysSpent(cfg: Config, p: Pos, e: Event)
    requires Inv(p) && Spent(p) && cfg.Complete() && Later(e)
    ensures Spent(Step(cfg, p, e).0) && Step(cfg, p, e).1 == []
  {
  }

  lemma {:induction false} RunStaysSpent(cfg: Config, p: Pos, events: seq<Event>)
    requires Inv(p) && Spent(p) && cfg.Complete()
    requires forall e <- events :: Later(e)
    ensures var (q, cmds) := Run(cfg, p, events);
      Spent(q) && cmds == [] && q.qty == Max(0.0, p.qty - Filled(events))
    decreases |events|
  {
    RunEffect(cfg, p, events);
    if events != [] {
      StepEffect(cfg, p, events[0]);
      StepStaysSpent(cfg, p, events[0]);
      RunStaysSpent(cfg, Step(cfg, p, events[0]).0, events[1..]);
    }
  }

  lemma {:induction false} RunConcat(cfg: Config, p: Pos, a: seq<Event>, b: seq<Event>)
    requires Open(p) && cfg.Complete()
    requires (forall e <- a :: Later(e)) && (forall e <- b :: Later(e))
    ensures var (q, c) := Run(cfg, p, a); var (r, d) := Run(cfg, q, b);
      Run(cfg, p, a + b) == (r, c + d)
    decreases |a|
  {
    if a == [] {
      assert a + b == b && [] + Run(cfg, p, b).1 == Run(cfg, p, b).1;
    } else {
      assert (a + b)[1..] == a[1..] + b;
      StepKeepsEntry(cfg, p, a[0]);
      var (p1, c1) := Step(cfg, p, a[0]);
      RunConcat(cfg, p1, a[1..], b);
      var (q, c2) := Run(cfg, p1, a[1..]);
      var d := Run(cfg, q, b).1;
      assert c1 + (c2 + d) == (c1 + c2) + d;
    }
  }

  lemma {:induction false} FilledConcat(a: seq<Event>, b: seq<Event>)
    ensures Filled(a + b) == Filled(a) + Filled(b)
    decreases |a|
  {
    if a == [] {
      assert a + b == b;
    } else {
      assert (a + b)[1..] == a[1..] + b;
      FilledConcat(a[1..], b);
    }
  }

  predicate AllLater(events: seq<Event>) {
    forall e <- events :: Later(e)
  }

  /** The events of a life up to a trigger. */
  function Until(before: seq<Event>, id: Ids.OrderId): seq<Event> {
    before + [AlgoTriggered(id)]
  }

  /** A run up to a trigger ends spent. */
  lemma RunSpends(cfg: Config, p: Pos, before: seq<Event>, id: Ids.OrderId)
    requires Inv(p) && cfg.Complete() && AllLater(before)
    ensures AllLater(Until(before, id)) && Inv(Run(cfg, p, Until(before, id)).0) && Spent(Run(cfg, p, Until(before, id)).0)
  {
    RunEffect(cfg, p, before);
    RunEffect(cfg, p, Until(before, id));
    RunConcat(cfg, p, before, [AlgoTriggered(id)]);
    var q := Run(cfg, p, before).0;
    TriggerSpends(cfg, q, id);
    assert Run(cfg, q, [AlgoTriggered(id)]).0 == Step(cfg, q, AlgoTriggered(id)).0;
  }

  /** From `q` on nothing was sent, `r` has no protection, and the quantity fell by what was filled. */
  predicate Quiet(q: Pos, sent: seq<Command>, r: Pos, all: seq<Command>, filled: real) {
    all == sent && r.active == {} && filled >= 0.0 && r.qty == Max(0.0, q.qty - filled)
  }

  lemma {:induction false} FillsAddUp(events: seq<Event>)
    requires AllLater(events)
    ensures Filled(events) >= 0.0
    decreases |events|
  {
    if events != [] {
      assert Later(events[0]);
      FillsAddUp(events[1..]);
    }
  }

  /** What a run does once it is spent. */
  lemma RunAfter(cfg: Config, p: Pos, until: seq<Event>, after: seq<Event>)
    requires Open(p) && cfg.Complete() && AllLater(until) && AllLater(after)
    requires Inv(Run(cfg, p, until).0) && Spent(Run(cfg, p, until).0)
    ensures var (q, cmds) := Run(cfg, p, until); var (r, all) := Run(cfg, p, until + after);
      Quiet(q, cmds, r, all, Filled(after))
  {
    var (q, cmds) := Run(cfg, p, until);
    RunConcat(cfg, p, until, after);
    RunStaysSpent(cfg, q, after);
    FillsAddUp(after);
    assert cmds + [] == cmds;
  }

  lemma LifeIsRun(cfg: Config, p: Pos, fill: Event, events: seq<Event>)
    requires ValidEntry(p, fill) && cfg.Complete() && AllLater(events)
    ensures var (p0, c0) := Step(cfg, p, fill);
      Open(p0) && Life(cfg, p, fill, events) == (Run(cfg, p0, events).0, c0 + Run(cfg, p0, events).1)
  {
  }

  lemma LifeAfter(cfg: Config, p: Pos, fill: Event, until: seq<Event>, after: seq<Event>)
    requires ValidEntry(p, fill) && cfg.Complete() && AllLater(until) && AllLater(after)
    requires var p0 := Step(cfg, p, fill).0; Open(p0) && Inv(Run(cfg, p0, until).0) && Spent(Run(cfg, p0, until).0)
    ensures var (q, cmds) := Life(cfg, p, fill, until); var (r, all) := Life(cfg, p, fill, until + after);
      Quiet(q, cmds, r, all, Filled(after))
  {
    LifeIsRun(cfg, p, fill, until);
    LifeIsRun(cfg, p, fill, until + after);
    RunAfter(cfg, Step(cfg, p, fill).0, until, after);
  }

  lemma LifeQuiet(cfg: Config, p: Pos, fill: Event, before: seq<Event>, id: Ids.OrderId, after: seq<Event>)
    requires ValidEntry(p, fill) && cfg.Complete() && AllLater(before) && AllLater(after)
    ensures var (q, cmds) := Life(cfg, p, fill, Until(before, id)); var (r, all) := Life(cfg, p, fill, Until(before, id) + after);
      Quiet(q, cmds, r, all, Filled(after))
  {
    EntryInv(cfg, p, fill);
    RunSpends(cfg, Step(cfg, p, fill).0, before, id);
    LifeAfter(cfg, p, fill, Until(before, id), after);
  }

  lemma LifeQty(cfg: Config, p: Pos, fill: Event, before: seq<Event>, id: Ids.OrderId)
    requires ValidEntry(p, fill) && cfg.Complete() && AllLater(before)
    ensures Life(cfg, p, fill, Until(before, id)).0.qty == Max(0.0, fill.qty - Filled(before))
  {
    ExitDiscipline.ExitDiscipline(cfg, p, fill, Until(before, id));
    FilledConcat(before, [AlgoTriggered(id)]);
  }

  lemma QuietMeans(q: Pos, sent: seq<Command>, r: Pos, all: seq<Command>, entered: real, filled: real, later: real)
    requires Quiet(q, sent, r, all, later) && q.qty == Max(0.0, entered - filled)
    ensures all == sent && r.active == {}
    ensures (r.qty > 0.0 <==> later < q.qty) && (r.qty > 0.0 <==> filled + later < entered)
  {
  }

  /** Over every life: once a protection was triggered no command is ever sent again and no protection
      is left; and quantity remains open, then without a stop, exactly when the fills of the whole life
      sum to less than was entered. */
  lemma StrandedIff(cfg: Config, p: Pos, fill: Event, before: seq<Event>, id: Ids.OrderId, after: seq<Event>)
    requires ValidEntry(p, fill) && cfg.Complete() && AllLater(before) && AllLater(after)
    ensures var (q, cmds) := Life(cfg, p, fill, Until(before, id)); var (r, all) := Life(cfg, p, fill, Until(before, id) + after);
      && all == cmds && r.active == {}
      && (r.qty > 0.0 <==> Filled(after) < q.qty) && (r.qty > 0.0 <==> Filled(before) + Filled(after) < fill.qty)
  {
    LifeQuiet(cfg, p, fill, before, id, after);
    LifeQty(cfg, p, fill, before, id);
    var (q, cmds) := Life(cfg, p, fill, Until(before, id));
    var (r, all) := Life(cfg, p, fill, Until(before, id) + after);
    QuietMeans(q, cmds, r, all, fill.qty, Filled(before), Filled(after));
  }

  predicate NoFills(events: seq<Event>) {
    forall e <- events :: !e.ExitFill?
  }

  lemma {:induction false} NothingFilled(events: seq<Event>)
    requires NoFills(events)
    ensures Filled(events) == 0.0
    decreases |events|
  {
    if events != [] {
      assert events[0] in events;
      NothingFilled(events[1..]);
    }
  }

  /** What the simulator reports of a triggered protection, as the position receives it; the paper
      trader passes no client id on (fbot/paper/trader.py:177), which makes no difference. */
  function AsFill(out: Simulator.Out, clientId: Option<Ids.OrderId>): Event
    requires out.AlgoFill?
  {
    ExitFill(out.qty, Some(Other(if out.stop then "sl" else "tp")), clientId)
  }

  function SideOf(m: Simulator.Market, a: Simulator.Algo): seq<BookWalk.Level> {
    if a.symbol in m.books then m.books[a.symbol].Side(a.buy) else []
  }

  /** The order that was hit is the position's protection `id`, and the simulator knows its quantity. */
  predicate Fires(shot: Simulator.Shot, id: Ids.OrderId, q: Pos, positions: map<string, real>) {
    && id.posId == q.who.posId && shot.algo.id == Ids.Render(id)
    && q.who.posId in positions && positions[q.who.posId] == q.qty
  }

  /** So a protection that fires into a book thinner than the position strands the difference for good:
      exactly then some of it is still open, unprotected, however the life goes on without further fills. */
  lemma ThinBookStrandsIff(cfg: Config, p: Pos, fill: Event, before: seq<Event>, id: Ids.OrderId, rest: seq<Event>,
                           m: Simulator.Market, positions: map<string, real>, shot: Simulator.Shot, now: int,
                           clientId: Option<Ids.OrderId>)
    requires ValidEntry(p, fill) && cfg.Complete() && AllLater(before) && AllLater(rest) && NoFills(rest)
    requires Simulator.MarketRight(m) && Fires(shot, id, Life(cfg, p, fill, Until(before, id)).0, positions)
    requires Simulator.Shoot(m, positions, shot, now).1 != []
    ensures var outs := Simulator.Shoot(m, positions, shot, now).1;
      && |outs| == 1 && outs[0].AlgoFill? && Later(AsFill(outs[0], clientId))
      && var q := Life(cfg, p, fill, Until(before, id)).0;
         var r := Life(cfg, p, fill, Until(before, id) + ([AsFill(outs[0], clientId)] + rest)).0;
         r.active == {} && (r.qty > 0.0 <==> BookWalk.Depth(SideOf(m, shot.algo)) < q.qty)
  {
    LifeKeepsId(cfg, p, fill, Until(before, id));
    Ids.RenderPosition(id);
    ProtectiveFills.ProtectionTakes(m, positions, shot, now);
    var f := AsFill(Simulator.Shoot(m, positions, shot, now).1[0], clientId);
    NothingFilled(rest);
    FilledConcat([f], rest);
    assert [f][1..] == [] && Filled([f]) == f.fillQty;
    StrandedIff(cfg, p, fill, before, id, [f] + rest);
  }

  lemma LifeKeepsId(cfg: Config, p: Pos, fill: Event, events: seq<Event>)
    requires ValidEntry(p, fill) && cfg.Complete() && AllLater(events)
    ensures Life(cfg, p, fill, events).0.who == p.who && Ids.SEP !in p.who.posId
  {
  }
}
