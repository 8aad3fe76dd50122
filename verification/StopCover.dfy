/** How much of a position its live stop would sell. The first stop closes the position whatever it
    holds; every later one names a quantity, cut to whole steps (fbot/core/position.py:145-153, 249-263). */
module StopCover {
  import opened Common
  import opened Rounding
  import opened Ids
  import opened Position
  import opened ProtectionLedger
  import opened ExitDiscipline

  predicate Places(c: Command, id: OrderId) {
    c.PlaceAlgo? && c.algoId == id
  }

  /** The command that last placed the id. */
  function Placement(sent: seq<Command>, id: OrderId): (c: Option<Command>)
    ensures c.Some? ==> c.value in sent && Places(c.value, id)
  {
    if sent == [] then None
    else if Places(sent[|sent| - 1], id) then Some(sent[|sent| - 1])
    else Placement(sent[..|sent| - 1], id)
  }

  predicate Covers(c: Command, amount: real)
    requires c.PlaceAlgo?
  {
    c.closePosition || (c.algoQty.Some? && c.algoQty.value >= amount)
  }

  /** The current stop was placed at the position's stop price, for at least all whole steps of what
      is still open. */
  predicate Backed(p: Pos, sent: seq<Command>)
    requires Gridded(p)
  {
    var c := Placement(sent, p.SlId());
    && c.Some? && c.value.PlaceAlgo? && c.value.typ == StopMarket && c.value.trigger == p.stop.price
    && Covers(c.value, ExitQty(p))
  }

  lemma {:induction false} PlacementConcat(a: seq<Command>, b: seq<Command>, id: OrderId)
    ensures Placement(a + b, id) == if Placement(b, id).Some? then Placement(b, id) else Placement(a, id)
    decreases |b|
  {
    if b == [] {
      assert a + b == a;
    } else {
      assert (a + b)[..|a + b| - 1] == a + b[..|b| - 1];
      PlacementConcat(a, b[..|b| - 1], id);
    }
  }

  lemma {:induction false} NotPlaced(cmds: seq<Command>, id: OrderId)
    requires forall c <- cmds :: !Places(c, id)
    ensures Placement(cmds, id) == None
  {
    if cmds != [] {
      NotPlaced(cmds[..|cmds| - 1], id);
    }
  }

  lemma FloorMonotone(a: real, b: real, step: real)
    requires step > 0.0 && 0.0 <= a <= b
    ensures FloorStep(a, step) <= FloorStep(b, step)
  {
    FloorStepIsGreatest(a, step, 0.0);
    FloorStepIsGreatest(b, step, FloorStep(a, step));
  }

  /** A tick keeps the stop, or places the next one for the whole steps of what is open and then cancels
      the old one. */
  lemma TickStop(cfg: Config, p: Pos, e: Event)
    requires Open(p) && cfg.Complete() && e.Tick?
    ensures var (q, cmds) := Step(cfg, p, e);
      if q.stop.version == p.stop.version
      then q.stop.price == p.stop.price && forall c <- cmds :: c.PlaceOrder?
      else
        && q.stop.version == p.stop.version + 1 && |cmds| in {2, 3} && (|cmds| == 3 ==> cmds[0].PlaceOrder?)
        && cmds[|cmds| - 2] == PlaceAlgo(StopMarket, q.stop.price, false, q.SlId(), Some(ExitQty(p)))
        && cmds[|cmds| - 1] == CancelAlgo(p.SlId())
  {
    if p.state == Managed && e.mode == Full && !Degraded(cfg, p, e.regime) && !Crossed(p, e.mark) {
      var p0 := p.(stop := p.stop.(crossedNs := None));
      var net := NetPct(cfg, p0, e.mark);
      if !HeldTooLong(cfg, p0, e.at, net) {
        var (p1, partial) := TakePartial(cfg, p0, e.at, e.mark, net);
        assert p1.stop == p0.stop && p1.who == p.who && p1.qty == p.qty;
        assert |partial| <= 1 && forall c <- partial :: c.PlaceOrder?;
        var (p2, replace) := Ratchet(cfg, p1, e.at, e.mark, net);
        assert Step(cfg, p, e) == (p2, partial + replace);
        if replace == [] {
          assert partial + replace == partial;
        } else {
          assert |replace| == 2;
          assert (partial + replace)[|partial|] == replace[0];
          assert (partial + replace)[|partial| + 1] == replace[1];
        }
      }
    }
  }

  /** A stop that is not replaced stays backed while the quantity only falls. */
  lemma KeptBacked(p: Pos, q: Pos, sent: seq<Command>, cmds: seq<Command>)
    requires Gridded(p) && q.who == p.who && q.stop.version == p.stop.version && q.stop.price == p.stop.price
    requires Backed(p, sent) && 0.0 <= q.qty <= p.qty && forall c <- cmds :: !Places(c, p.SlId())
    ensures Backed(q, sent + cmds)
  {
    NotPlaced(cmds, p.SlId());
    PlacementConcat(sent, cmds, p.SlId());
    FloorMonotone(q.qty, p.qty, p.StepSize());
  }

  lemma ReplacedBacked(p: Pos, q: Pos, sent: seq<Command>, cmds: seq<Command>)
    requires Gridded(p) && q.who == p.who && q.qty == p.qty && |cmds| >= 2
    requires cmds[|cmds| - 2] == PlaceAlgo(StopMarket, q.stop.price, false, q.SlId(), Some(ExitQty(p)))
    requires cmds[|cmds| - 1] == CancelAlgo(p.SlId())
    ensures Backed(q, sent + cmds) && Placement(sent + cmds, q.SlId()) == Some(cmds[|cmds| - 2])
  {
    var n := |cmds|;
    assert cmds[..n - 1][n - 2] == cmds[n - 2];
    PlacementConcat(sent, cmds, q.SlId());
  }

  lemma QuietStop(cfg: Config, p: Pos, e: Event)
    requires Inv(p) && cfg.Complete() && Later(e) && !e.Tick?
    ensures var (q, cmds) := Step(cfg, p, e); q.stop == p.stop && q.who == p.who && forall c <- cmds :: c.CancelAlgo?
  {
  }

  lemma StepBacked(cfg: Config, p: Pos, e: Event, sent: seq<Command>)
    requires Inv(p) && cfg.Complete() && Later(e) && Backed(p, sent)
    ensures var (q, cmds) := Step(cfg, p, e); Inv(q) && Backed(q, sent + cmds) && q.qty <= p.qty
  {
    StepEffect(cfg, p, e);
    StepKeepsEntry(cfg, p, e);
    var (q, cmds) := Step(cfg, p, e);
    if e.Tick? {
      TickStop(cfg, p, e);
      TickQty(cfg, p, e);
      if q.stop.version == p.stop.version {
        KeptBacked(p, q, sent, cmds);
      } else {
        ReplacedBacked(p, q, sent, cmds);
      }
    } else {
      QuietStop(cfg, p, e);
      KeptBacked(p, q, sent, cmds);
    }
  }

  lemma Regrouped(a: seq<Command>, b: seq<Command>, c: seq<Command>)
    ensures (a + b) + c == a + (b + c)
  {
  }

  lemma {:induction false} RunBacked(cfg: Config, p: Pos, events: seq<Event>, sent: seq<Command>)
    requires Inv(p) && cfg.Complete() && Backed(p, sent)
    requires forall e <- events :: Later(e)
    ensures var (q, cmds) := Run(cfg, p, events); Inv(q) && Backed(q, sent + cmds)
    decreases |events|
  {
    if events == [] {
      assert sent + [] == sent;
    } else {
      StepBacked(cfg, p, events[0], sent);
      var (q, c1) := Step(cfg, p, events[0]);
      RunBacked(cfg, q, events[1..], sent + c1);
      Regrouped(sent, c1, Run(cfg, q, events[1..]).1);
    }
  }

  lemma EntryBacked(cfg: Config, p: Pos, fill: Event)
    requires ValidEntry(p, fill) && cfg.Complete()
    ensures var (q, cmds) := Step(cfg, p, fill); Inv(q) && Backed(q, cmds)
  {
    EntryInv(cfg, p, fill);
    var (q, cmds) := Step(cfg, p, fill);
    assert cmds[..1] == [cmds[0]] && Places(cmds[0], q.SlId()) && !Places(cmds[1], q.SlId());
    assert Placement(cmds, q.SlId()) == Placement(cmds[..1], q.SlId()) == Some(cmds[0]);
  }

  /** Over every life: the current stop was placed at the stop price and would sell at least all whole
      steps of what is open; so all of it whenever the open quantity is a whole number of steps. */
  lemma StopCoversSteps(cfg: Config, p: Pos, fill: Event, events: seq<Event>)
    requires ValidEntry(p, fill) && cfg.Complete()
    requires forall e <- events :: Later(e)
    ensures var (r, sent) := Life(cfg, p, fill, events);
      && Gridded(r) && Backed(r, sent)
      && (IsMultiple(r.qty, r.StepSize()) ==> Covers(Placement(sent, r.SlId()).value, r.qty))
  {
    EntryBacked(cfg, p, fill);
    var (q, cmds) := Step(cfg, p, fill);
    RunBacked(cfg, q, events, cmds);
    WholeIsFloor(Run(cfg, q, events).0);
  }

  lemma WholeIsFloor(p: Pos)
    requires Gridded(p) && p.qty >= 0.0
    ensures IsMultiple(p.qty, p.StepSize()) <==> ExitQty(p) == p.qty
  {
    FloorStepIsGreatest(p.qty, p.StepSize(), p.qty);
  }

  /** When a tick replaces the stop, the new one covers everything exactly if the open quantity is a
      whole number of steps. */
  lemma ReplacementCoversIff(cfg: Config, p: Pos, e: Event, sent: seq<Command>)
    requires Inv(p) && cfg.Complete() && Later(e) && e.Tick? && Step(cfg, p, e).0.stop.version != p.stop.version
    ensures var (q, cmds) := Step(cfg, p, e);
      && Placement(sent + cmds, q.SlId()).Some?
      && (Covers(Placement(sent + cmds, q.SlId()).value, q.qty) <==> IsMultiple(q.qty, q.StepSize()))
  {
    StepKeepsEntry(cfg, p, e);
    TickStop(cfg, p, e);
    TickQty(cfg, p, e);
    var (q, cmds) := Step(cfg, p, e);
    ReplacedBacked(p, q, sent, cmds);
    WholeIsFloor(p);
    FloorStepIsGreatest(p.qty, p.StepSize(), p.qty);
  }

  // ---- at every prefix of the commands

  /** A live stop of the position would sell at least the amount. */
  ghost predicate HasCover(live: set<OrderId>, sent: seq<Command>, posId: string, amount: real) {
    exists id <- live :: id.AlgoId? && id.role == SL && id.posId == posId
      && Placement(sent, id).Some? && Covers(Placement(sent, id).value, amount)
  }

  /** Before the old stop is cancelled it still stands behind all whole steps of what is open. */
  lemma OldStopCovers(p: Pos, q: Pos, sent: seq<Command>, cmds: seq<Command>)
    requires Gridded(p) && q.who == p.who && 0.0 <= q.qty <= p.qty && Backed(p, sent) && p.SlId() in p.active
    requires forall c <- cmds :: !Places(c, p.SlId()) && !c.CancelAlgo?
    ensures HasCover(AfterAll(p.active, cmds), sent + cmds, p.who.posId, ExitQty(q))
  {
    PlacingKeeps(p.active, cmds, p.SlId());
    NotPlaced(cmds, p.SlId());
    PlacementConcat(sent, cmds, p.SlId());
    FloorMonotone(q.qty, p.qty, p.StepSize());
  }

  lemma TickPrefix(cfg: Config, p: Pos, e: Event, k: nat)
    requires Open(p) && cfg.Complete() && Later(e) && e.Tick? && k < |Step(cfg, p, e).1|
    ensures forall c <- Step(cfg, p, e).1[..k] :: !Places(c, p.SlId()) && !c.CancelAlgo?
  {
    TickStop(cfg, p, e);
    StepKeepsEntry(cfg, p, e);
  }

  lemma StepCovered(cfg: Config, p: Pos, e: Event, sent: seq<Command>, k: nat)
    requires Inv(p) && cfg.Complete() && Later(e) && StopLive(p) && Backed(p, sent) && !e.AlgoTriggered?
    requires p.qty > 0.0 && Step(cfg, p, e).0.qty > 0.0 && k <= |Step(cfg, p, e).1|
    ensures var (q, cmds) := Step(cfg, p, e);
      Gridded(q) && HasCover(AfterAll(p.active, cmds[..k]), sent + cmds[..k], p.who.posId, ExitQty(q))
  {
    var (q, cmds) := Step(cfg, p, e);
    StepBacked(cfg, p, e, sent);
    StepStopLive(cfg, p, e);
    StepLedger(cfg, p, e);
    StepKeepsEntry(cfg, p, e);
    if k == |cmds| {
      assert cmds[..k] == cmds && q.SlId() in q.active;
    } else if e.Tick? {
      TickPrefix(cfg, p, e, k);
      OldStopCovers(p, q, sent, cmds[..k]);
    }
  }

  /** No thin window either: through any events without a trigger, at every prefix of the command stream
      a live stop of the position would sell at least all whole steps of what is open. */
  lemma NeverUndercovered(cfg: Config, p: Pos, fill: Event, events: seq<Event>, e: Event, k: nat)
    requires ValidEntry(p, fill) && cfg.Complete()
    requires forall d <- events + [e] :: Later(d) && !d.AlgoTriggered?
    requires var r := Life(cfg, p, fill, events).0;
      Open(r) && r.qty > 0.0 && Step(cfg, r, e).0.qty > 0.0 && k <= |Step(cfg, r, e).1|
    ensures var (r, sent) := Life(cfg, p, fill, events); var (q, cmds) := Step(cfg, r, e);
      Gridded(q) && HasCover(AfterAll(r.active, cmds[..k]), sent + cmds[..k], p.who.posId, ExitQty(q))
  {
    assert e in events + [e];
    assert forall d <- events :: d in events + [e];
    var (q, cmds) := Step(cfg, p, fill);
    EntryBacked(cfg, p, fill);
    EntryLedger(cfg, p, fill);
    RunBacked(cfg, q, events, cmds);
    RunStopLive(cfg, q, events);
    StepCovered(cfg, Run(cfg, q, events).0, e, cmds + Run(cfg, q, events).1, k);
  }
}
