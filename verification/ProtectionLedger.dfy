/** The exchange's view of a position's protective orders, folded from the commands that were sent
    and the triggers that fired, against the position's own `active` set. */
module ProtectionLedger {
  import opened Common
  import opened Rounding
  import opened Ids
  import opened Position

  /** A placed protective order is live until it is cancelled or triggers. */
  function After(live: set<OrderId>, c: Command): set<OrderId> {
    match c
    case PlaceAlgo(_, _, _, id, _) => live + {id}
    case CancelAlgo(id) => live - {id}
    case PlaceOrder(_, _) => live
  }

  function AfterAll(live: set<OrderId>, cmds: seq<Command>): set<OrderId>
    decreases |cmds|
  {
    if cmds == [] then live else AfterAll(After(live, cmds[0]), cmds[1..])
  }

  function Fired(live: set<OrderId>, e: Event): set<OrderId> {
    if e.AlgoTriggered? then live - {e.id} else live
  }

  /** The ledger after a run that starts in p: each event's trigger first, then the reply to it. */
  function Ledger(cfg: Config, p: Pos, live: set<OrderId>, events: seq<Event>): set<OrderId>
    requires Open(p) && cfg.Complete()
    requires forall e <- events :: Later(e)
    decreases |events|
  {
    if events == [] then live
    else
      StepKeepsEntry(cfg, p, events[0]);
      var (q, cmds) := Step(cfg, p, events[0]);
      Ledger(cfg, q, AfterAll(Fired(live, events[0]), cmds), events[1..])
  }

  lemma {:induction false} AfterConcat(live: set<OrderId>, a: seq<Command>, b: seq<Command>)
    ensures AfterAll(live, a + b) == AfterAll(AfterAll(live, a), b)
    decreases |a|
  {
    if a == [] {
      assert a + b == b;
    } else {
      assert (a + b)[0] == a[0] && (a + b)[1..] == a[1..] + b;
      AfterConcat(After(live, a[0]), a[1..], b);
    }
  }

  /** Only the current stop and the target can be active. */
  predicate OwnOnly(p: Pos) {
    p.active <= {p.SlId(), p.TpId()} && p.SlId() != p.TpId()
  }

  lemma CancelActiveClears(p: Pos)
    requires OwnOnly(p)
    ensures AfterAll(p.active, CancelActive(p)) == {}
  {
    var c := CancelActive(p);
    if |c| >= 1 {
      assert AfterAll(p.active, c) == AfterAll(After(p.active, c[0]), c[1..]);
    }
    if |c| == 2 {
      assert c[1..] == [c[1]];
    }
  }

  /** A tick either leaves the protections alone, or places the next stop and then cancels the old one. */
  lemma TickAlgos(cfg: Config, p: Pos, now: int, mark: real, regime: Option<string>, mode: Mode)
    requires Open(p) && cfg.Complete()
    ensures var (q, cmds) := OnTick(cfg, p, now, mark, regime, mode);
      || (q.active == p.active && q.stop.version == p.stop.version && |cmds| <= 1 && forall c <- cmds :: c.PlaceOrder?)
      || (&& |cmds| in {2, 3} && (|cmds| == 3 ==> cmds[0].PlaceOrder?)
          && q.stop.version == p.stop.version + 1
          && q.active == p.active + {q.SlId()} - {p.SlId()}
          && var k := |cmds| - 2;
             && cmds[k].PlaceAlgo? && cmds[k].algoId == q.SlId()
             && cmds[k + 1] == CancelAlgo(p.SlId()))
  {
    if p.state == Managed && mode == Full && !Degraded(cfg, p, regime) && !Crossed(p, mark) {
      var p0 := p.(stop := p.stop.(crossedNs := None));
      var net := NetPct(cfg, p0, mark);
      if !HeldTooLong(cfg, p0, now, net) {
        var (p1, partial) := TakePartial(cfg, p0, now, mark, net);
        assert p1.stop == p0.stop && p1.who == p.who && p1.active == p.active && p1.entry == p.entry;
        assert |partial| <= 1 && forall c <- partial :: c.PlaceOrder?;
        var (p2, replace) := Ratchet(cfg, p1, now, mark, net);
        assert OnTick(cfg, p, now, mark, regime, mode) == (p2, partial + replace);
        if replace == [] {
          assert partial + replace == partial;
        } else {
          assert |replace| == 2;
          assert (partial + replace)[|partial|] == replace[0];
          assert (partial + replace)[|partial| + 1] == replace[1];
        }
      }
    }
  }

  /** Exit orders leave the ledger alone; a placement followed by a cancellation swaps one id. */
  lemma {:induction false} SwapLedger(live: set<OrderId>, cmds: seq<Command>)
    requires |cmds| in {2, 3} && (|cmds| == 3 ==> cmds[0].PlaceOrder?)
    requires cmds[|cmds| - 2].PlaceAlgo? && cmds[|cmds| - 1].CancelAlgo?
    ensures AfterAll(live, cmds) == live + {cmds[|cmds| - 2].algoId} - {cmds[|cmds| - 1].cancelled}
  {
    if |cmds| == 3 {
      SwapLedger(live, cmds[1..]);
    } else {
      assert cmds[1..] == [cmds[1]];
      assert AfterAll(After(live, cmds[0]), [cmds[1]]) == After(After(live, cmds[0]), cmds[1]);
    }
  }

  lemma TickLedger(cfg: Config, p: Pos, e: Event)
    requires Open(p) && cfg.Complete() && e.Tick? && OwnOnly(p)
    ensures var (q, cmds) := Step(cfg, p, e); OwnOnly(q) && AfterAll(p.active, cmds) == q.active
  {
    TickAlgos(cfg, p, e.at, e.mark, e.regime, e.mode);
    TickKeepsEntry(cfg, p, e.at, e.mark, e.regime, e.mode);
    var (q, cmds) := OnTick(cfg, p, e.at, e.mark, e.regime, e.mode);
    if q.stop.version == p.stop.version {
      assert |cmds| <= 1;
      if cmds != [] {
        assert cmds[1..] == [];
      }
    } else {
      SwapLedger(p.active, cmds);
    }
  }

  lemma StepLedger(cfg: Config, p: Pos, e: Event)
    requires Open(p) && cfg.Complete() && Later(e) && OwnOnly(p)
    ensures var (q, cmds) := Step(cfg, p, e); OwnOnly(q) && AfterAll(Fired(p.active, e), cmds) == q.active
  {
    match e
    case Tick(_, _, _, _) =>
      TickLedger(cfg, p, e);
    case AlgoTriggered(id) =>
      CancelActiveClears(p.(active := p.active - {id}));
    case ExitFill(_, _, _) =>
      CancelActiveClears(p);
    case _ =>
  }

  lemma EntryLedger(cfg: Config, p: Pos, fill: Event)
    requires ValidEntry(p, fill) && cfg.Complete()
    ensures var (q, cmds) := Step(cfg, p, fill);
      Open(q) && OwnOnly(q) && AfterAll({}, cmds) == q.active == {q.SlId(), q.TpId()}
  {
    var (q, cmds) := Step(cfg, p, fill);
    assert After({}, cmds[0]) == {q.SlId()};
    assert cmds[1..] == [cmds[1]];
    assert After({q.SlId()}, cmds[1]) == {q.SlId(), q.TpId()};
    assert AfterAll({q.SlId()}, [cmds[1]]) == {q.SlId(), q.TpId()};
  }

  lemma {:induction false} RunLedger(cfg: Config, p: Pos, events: seq<Event>)
    requires Open(p) && cfg.Complete() && OwnOnly(p)
    requires forall e <- events :: Later(e)
    ensures OwnOnly(Run(cfg, p, events).0)
    ensures Ledger(cfg, p, p.active, events) == Run(cfg, p, events).0.active
    decreases |events|
  {
    if events != [] {
      StepLedger(cfg, p, events[0]);
      StepKeepsEntry(cfg, p, events[0]);
      RunLedger(cfg, Step(cfg, p, events[0]).0, events[1..]);
    }
  }

  /** Over the whole life of a position, in any interleaving, the protections placed less those
      cancelled or triggered are exactly the ones it holds active. */
  lemma LedgerIsActive(cfg: Config, p: Pos, fill: Event, events: seq<Event>)
    requires ValidEntry(p, fill) && cfg.Complete()
    requires forall e <- events :: Later(e)
    ensures var (q, cmds) := Step(cfg, p, fill);
      Open(q) && Ledger(cfg, q, AfterAll({}, cmds), events) == Life(cfg, p, fill, events).0.active
  {
    EntryLedger(cfg, p, fill);
    RunLedger(cfg, Step(cfg, p, fill).0, events);
  }

  // ---- a stop is live until it triggers or the position is flat

  predicate StopLive(p: Pos) {
    OwnOnly(p) && (p.qty > 0.0 ==> p.SlId() in p.active)
  }

  predicate HasStop(live: set<OrderId>, posId: string) {
    exists id <- live :: id.AlgoId? && id.role == SL && id.posId == posId
  }

  lemma StepStopLive(cfg: Config, p: Pos, e: Event)
    requires Open(p) && cfg.Complete() && Later(e) && StopLive(p) && !e.AlgoTriggered?
    ensures StopLive(Step(cfg, p, e).0)
    ensures Step(cfg, p, e).0.qty <= p.qty || Step(cfg, p, e).0.qty == 0.0
  {
    StepLedger(cfg, p, e);
    if e.Tick? {
      TickAlgos(cfg, p, e.at, e.mark, e.regime, e.mode);
      TickQty(cfg, p, e);
      TickKeepsEntry(cfg, p, e.at, e.mark, e.regime, e.mode);
    }
  }

  lemma TickQty(cfg: Config, p: Pos, e: Event)
    requires Open(p) && cfg.Complete() && e.Tick?
    ensures Step(cfg, p, e).0.qty == p.qty
  {
    if p.state == Managed && e.mode == Full && !Degraded(cfg, p, e.regime) && !Crossed(p, e.mark) {
      var p0 := p.(stop := p.stop.(crossedNs := None));
      var net := NetPct(cfg, p0, e.mark);
      if !HeldTooLong(cfg, p0, e.at, net) {
        var p1 := TakePartial(cfg, p0, e.at, e.mark, net).0;
        assert p1.qty == p.qty;
      }
    }
  }

  /** Within the reply to one event, after every prefix of the commands, a stop is live as long as
      the position keeps a quantity: the new stop is placed before the old one is cancelled. */
  lemma StepNeverUncovered(cfg: Config, p: Pos, e: Event, k: nat)
    requires Open(p) && cfg.Complete() && Later(e) && StopLive(p) && !e.AlgoTriggered?
    requires p.qty > 0.0 && Step(cfg, p, e).0.qty > 0.0
    requires k <= |Step(cfg, p, e).1|
    ensures HasStop(AfterAll(p.active, Step(cfg, p, e).1[..k]), p.who.posId)
  {
    var (q, cmds) := Step(cfg, p, e);
    assert p.SlId() in p.active;
    if e.Tick? {
      TickAlgos(cfg, p, e.at, e.mark, e.regime, e.mode);
      StepLedger(cfg, p, e);
      TickKeepsEntry(cfg, p, e.at, e.mark, e.regime, e.mode);
      StepStopLive(cfg, p, e);
      if k == |cmds| {
        assert cmds[..k] == cmds;
        assert q.SlId() in q.active;
      } else {
        assert forall i :: 0 <= i < k ==> cmds[..k][i] == cmds[i] && !cmds[i].CancelAlgo?;
        PlacingKeeps(p.active, cmds[..k], p.SlId());
      }
    } else {
      assert cmds == [];
    }
  }

  lemma {:induction false} PlacingKeeps(live: set<OrderId>, cmds: seq<Command>, id: OrderId)
    requires id in live && forall c <- cmds :: !c.CancelAlgo?
    ensures id in AfterAll(live, cmds)
    decreases |cmds|
  {
    if cmds != [] {
      PlacingKeeps(After(live, cmds[0]), cmds[1..], id);
    }
  }

  lemma {:induction false} RunStopLive(cfg: Config, p: Pos, events: seq<Event>)
    requires Open(p) && cfg.Complete() && StopLive(p)
    requires forall e <- events :: Later(e) && !e.AlgoTriggered?
    ensures StopLive(Run(cfg, p, events).0)
    decreases |events|
  {
    if events != [] {
      StepStopLive(cfg, p, events[0]);
      StepKeepsEntry(cfg, p, events[0]);
      RunStopLive(cfg, Step(cfg, p, events[0]).0, events[1..]);
    }
  }

  /** No unprotected window: from the entry fill on, through any events without a trigger, at every
      prefix of the command stream a stop of this position is live while its quantity is positive. */
  lemma NeverUncovered(cfg: Config, p: Pos, fill: Event, events: seq<Event>, e: Event, k: nat)
    requires ValidEntry(p, fill) && cfg.Complete()
    requires forall d <- events + [e] :: Later(d) && !d.AlgoTriggered?
    requires var r := Life(cfg, p, fill, events).0;
      Open(r) && r.qty > 0.0 && Step(cfg, r, e).0.qty > 0.0 && k <= |Step(cfg, r, e).1|
    ensures var r := Life(cfg, p, fill, events).0;
      HasStop(AfterAll(r.active, Step(cfg, r, e).1[..k]), p.who.posId)
  {
    var q := Step(cfg, p, fill).0;
    EntryLedger(cfg, p, fill);
    assert e in events + [e];
    assert forall d <- events :: d in events + [e];
    RunStopLive(cfg, q, events);
    StepNeverUncovered(cfg, Run(cfg, q, events).0, e, k);
  }
}
