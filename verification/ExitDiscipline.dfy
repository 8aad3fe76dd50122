/** Exit orders and quantities over the whole life of a position. */
module ExitDiscipline {
  import opened Common
  import opened Rounding
  import opened Ids
  import opened Position
  import opened ProtectionLedger

  predicate IsFullExit(c: Command) {
    c.PlaceOrder? && c.orderId.ExitId? && c.orderId.tag != TP1
  }

  predicate IsPartial(c: Command) {
    c.PlaceOrder? && c.orderId.ExitId? && c.orderId.tag == TP1
  }

  function FullExits(cmds: seq<Command>): nat {
    if cmds == [] then 0 else (if IsFullExit(cmds[0]) then 1 else 0) + FullExits(cmds[1..])
  }

  function Partials(cmds: seq<Command>): nat {
    if cmds == [] then 0 else (if IsPartial(cmds[0]) then 1 else 0) + Partials(cmds[1..])
  }

  lemma {:induction false} CountsConcat(a: seq<Command>, b: seq<Command>)
    ensures FullExits(a + b) == FullExits(a) + FullExits(b)
    ensures Partials(a + b) == Partials(a) + Partials(b)
  {
    if a == [] {
      assert a + b == b;
    } else {
      assert (a + b)[0] == a[0] && (a + b)[1..] == a[1..] + b;
      CountsConcat(a[1..], b);
    }
  }

  /** A position may still send a full exit only while it is being protected or managed. */
  predicate MayExit(p: Pos) {
    p.Phase() == Protecting || p.Phase() == Managed
  }

  /** What holds in every state after the entry fill. */
  predicate Inv(p: Pos) {
    && Open(p) && OwnOnly(p)
    && (p.state == Closed <==> p.qty == 0.0) && p.qty >= 0.0
    && (p.state == Closed ==> p.active == {})
    && (MayExit(p) ==> p.exits.inFlight.None?)
    && (p.state == Frozen ==> p.prevState.Some? && p.prevState != Some(Frozen) && p.prevState != Some(Closed))
  }

  /** What one event may do to exits and quantity. `full` and `partial` count the exit orders it sends. */
  predicate Effect(p: Pos, e: Event, q: Pos, cmds: seq<Command>) {
    && q.qty == (if e.ExitFill? then Max(0.0, p.qty - e.fillQty) else p.qty)
    && (MayExit(q) ==> MayExit(p) && FullExits(cmds) == 0)
    && (FullExits(cmds) > 0 ==> MayExit(p) && FullExits(cmds) == 1)
    && (p.exits.tp1Done ==> q.exits.tp1Done && Partials(cmds) == 0)
    && (q.exits.tp1Done && !p.exits.tp1Done ==> Partials(cmds) == 1)
    && (q.exits.tp1Done == p.exits.tp1Done ==> Partials(cmds) == 0)
    && (p.state == Closed ==> q.state == Closed && cmds == [])
  }

  lemma Counts1(c: Command)
    ensures FullExits([c]) == (if IsFullExit(c) then 1 else 0)
    ensures Partials([c]) == (if IsPartial(c) then 1 else 0)
  {
  }

  lemma CloseEffect(cfg: Config, p: Pos, reason: Reason, now: int)
    requires Inv(p) && p.state == Managed
    ensures var (q, cmds) := Close(cfg, p, reason, now);
      && Inv(q) && q.qty == p.qty && q.exits.tp1Done == p.exits.tp1Done && Partials(cmds) == 0
      && (MayExit(q) ==> FullExits(cmds) == 0) && FullExits(cmds) <= 1
  {
    var (q, cmds) := Close(cfg, p, reason, now);
    if cmds != [] {
      Counts1(cmds[0]);
    }
  }

  lemma PartialEffect(cfg: Config, p: Pos, now: int, mark: real, net: real)
    requires Inv(p) && p.state == Managed && cfg.Complete()
    ensures var (q, cmds) := TakePartial(cfg, p, now, mark, net);
      && Inv(q) && q.state == Managed && q.qty == p.qty && q.stop == p.stop && FullExits(cmds) == 0
      && (if p.exits.tp1Done || !q.exits.tp1Done then Partials(cmds) == 0 && q.exits.tp1Done == p.exits.tp1Done
          else Partials(cmds) == 1)
  {
    var (q, cmds) := TakePartial(cfg, p, now, mark, net);
    if cmds != [] {
      Counts1(cmds[0]);
    }
  }

  lemma RatchetEffect(cfg: Config, p: Pos, now: int, mark: real, net: real)
    requires Inv(p) && p.state == Managed && cfg.Complete()
    ensures var (q, cmds) := Ratchet(cfg, p, now, mark, net);
      && Inv(q) && q.state == Managed && q.qty == p.qty && q.exits == p.exits
      && FullExits(cmds) == 0 && Partials(cmds) == 0
  {
    var (q, cmds) := Ratchet(cfg, p, now, mark, net);
    if cmds != [] {
      assert cmds == [cmds[0]] + [cmds[1]];
      CountsConcat([cmds[0]], [cmds[1]]);
    }
  }

  lemma ZoneEffect(cfg: Config, p: Pos, e: Event)
    requires Inv(p) && p.state == Managed && cfg.Complete() && e.Tick?
    ensures var (q, cmds) := TickInProfitZone(cfg, p, e.at, e.mark); Inv(q) && Effect(p, e, q, cmds)
  {
    var net := NetPct(cfg, p, e.mark);
    CloseEffect(cfg, p, HoldTimeout, e.at);
    if !HeldTooLong(cfg, p, e.at, net) {
      var (p1, partial) := TakePartial(cfg, p, e.at, e.mark, net);
      PartialEffect(cfg, p, e.at, e.mark, net);
      RatchetEffect(cfg, p1, e.at, e.mark, net);
      CountsConcat(partial, Ratchet(cfg, p1, e.at, e.mark, net).1);
    }
  }

  lemma TickEffect(cfg: Config, p: Pos, e: Event)
    requires Inv(p) && cfg.Complete() && Later(e) && e.Tick?
    ensures var (q, cmds) := Step(cfg, p, e); Inv(q) && Effect(p, e, q, cmds)
  {
    if e.mode == Halted {
    } else if p.state == Protecting {
      var (q, cmds) := TickProtecting(cfg, p, e.at);
      if cmds != [] {
        Counts1(cmds[0]);
      }
    } else if p.state != Managed || e.mode == ProtectionOnly {
    } else if Degraded(cfg, p, e.regime) {
      CloseEffect(cfg, p, Degradation, e.at);
    } else if Crossed(p, e.mark) {
      CloseEffect(cfg, p, BackupStop, e.at);
    } else {
      ZoneEffect(cfg, p.(stop := p.stop.(crossedNs := None)), e);
    }
  }

  lemma CancelsAreQuiet(p: Pos)
    ensures FullExits(CancelActive(p)) == 0 && Partials(CancelActive(p)) == 0
  {
    NoExitOrders(CancelActive(p));
  }

  lemma FillEffect(cfg: Config, p: Pos, e: Event)
    requires Inv(p) && cfg.Complete() && Later(e) && e.ExitFill?
    requires var q := Step(cfg, p, e).0; Open(q) && OwnOnly(q)
    ensures var (q, cmds) := Step(cfg, p, e); Inv(q) && Effect(p, e, q, cmds)
  {
    CancelsAreQuiet(p);
    assert FullExits([]) == 0 && Partials([]) == 0;
  }

  lemma TriggerEffect(cfg: Config, p: Pos, e: Event)
    requires Inv(p) && cfg.Complete() && e.AlgoTriggered?
    requires var q := Step(cfg, p, e).0; Open(q) && OwnOnly(q)
    ensures var (q, cmds) := Step(cfg, p, e); Inv(q) && Effect(p, e, q, cmds)
  {
    CancelsAreQuiet(p.(active := p.active - {e.id}));
  }

  /** Acknowledgements, terminal notices, freezing and funding send nothing. */
  lemma QuietEffect(cfg: Config, p: Pos, e: Event)
    requires Inv(p) && cfg.Complete() && Later(e) && !e.Tick? && !e.ExitFill? && !e.AlgoTriggered?
    requires var q := Step(cfg, p, e).0; Open(q) && OwnOnly(q)
    ensures var (q, cmds) := Step(cfg, p, e); Inv(q) && Effect(p, e, q, cmds)
  {
    assert FullExits([]) == 0 && Partials([]) == 0;
  }

  lemma StepEffect(cfg: Config, p: Pos, e: Event)
    requires Inv(p) && cfg.Complete() && Later(e)
    ensures var (q, cmds) := Step(cfg, p, e); Inv(q) && Effect(p, e, q, cmds)
  {
    if e.Tick? {
      TickEffect(cfg, p, e);
    } else {
      StepKeepsEntry(cfg, p, e);
      StepLedger(cfg, p, e);
      if e.ExitFill? {
        FillEffect(cfg, p, e);
      } else if e.AlgoTriggered? {
        TriggerEffect(cfg, p, e);
      } else {
        QuietEffect(cfg, p, e);
      }
    }
  }

  lemma {:induction false} NoExitOrders(cmds: seq<Command>)
    ensures (forall c <- cmds :: !c.PlaceOrder?) ==> FullExits(cmds) == 0 && Partials(cmds) == 0
  {
    if cmds != [] {
      NoExitOrders(cmds[1..]);
    }
  }

  lemma EntryInv(cfg: Config, p: Pos, fill: Event)
    requires ValidEntry(p, fill) && cfg.Complete()
    ensures var (q, cmds) := Step(cfg, p, fill);
      && Inv(q) && q.state == Protecting && q.qty == q.entry.qty == fill.qty && !q.exits.tp1Done
      && FullExits(cmds) == 0 && Partials(cmds) == 0
  {
    EntryLedger(cfg, p, fill);
    NoExitOrders(Step(cfg, p, fill).1);
  }

  function Filled(events: seq<Event>): real {
    if events == [] then 0.0 else (if events[0].ExitFill? then events[0].fillQty else 0.0) + Filled(events[1..])
  }

  /** What a whole run did: `filled` was filled, `full` and `partial` exits were sent. */
  predicate Totals(p: Pos, filled: real, q: Pos, full: nat, partial: nat) {
    && q.qty == Max(0.0, p.qty - filled) && filled >= 0.0
    && full <= (if MayExit(p) then 1 else 0)
    && (MayExit(q) ==> MayExit(p) && full == 0)
    && (p.exits.tp1Done ==> q.exits.tp1Done)
    && partial == (if q.exits.tp1Done && !p.exits.tp1Done then 1 else 0)
    && (p.state == Closed ==> q.state == Closed)
  }

  lemma TotalsCompose(p: Pos, f1: real, q: Pos, a1: nat, b1: nat, f2: real, r: Pos, a2: nat, b2: nat)
    requires Inv(q) && Inv(r) && p.qty >= 0.0
    requires Totals(p, f1, q, a1, b1) && Totals(q, f2, r, a2, b2)
    requires a1 > 0 ==> !MayExit(q)
    ensures Totals(p, f1 + f2, r, a1 + a2, b1 + b2)
  {
  }

  lemma {:induction false} RunEffect(cfg: Config, p: Pos, events: seq<Event>)
    requires Inv(p) && cfg.Complete()
    requires forall e <- events :: Later(e)
    ensures var (q, cmds) := Run(cfg, p, events);
      && Inv(q) && Totals(p, Filled(events), q, FullExits(cmds), Partials(cmds))
      && (p.state == Closed ==> cmds == [])
    decreases |events|
  {
    if events != [] {
      var e := events[0];
      StepEffect(cfg, p, e);
      var (q, cmds) := Step(cfg, p, e);
      RunEffect(cfg, q, events[1..]);
      var (r, rest) := Run(cfg, q, events[1..]);
      CountsConcat(cmds, rest);
      var f := if e.ExitFill? then e.fillQty else 0.0;
      assert Totals(p, f, q, FullExits(cmds), Partials(cmds));
      TotalsCompose(p, f, q, FullExits(cmds), Partials(cmds),
                    Filled(events[1..]), r, FullExits(rest), Partials(rest));
    }
  }

  /** Exit discipline: over the whole life at most one full exit and at most one partial are sent;
      the quantity is the entry quantity less what was filled, floored at zero; the position is
      closed exactly when that is zero, and then holds no protections. */
  lemma ExitDiscipline(cfg: Config, p: Pos, fill: Event, events: seq<Event>)
    requires ValidEntry(p, fill) && cfg.Complete()
    requires forall e <- events :: Later(e)
    ensures var (q, cmds) := Life(cfg, p, fill, events);
      && FullExits(cmds) <= 1 && Partials(cmds) <= 1
      && q.qty == Max(0.0, fill.qty - Filled(events))
      && (q.state == Closed <==> q.qty == 0.0)
      && (q.state == Closed ==> q.active == {})
  {
    EntryInv(cfg, p, fill);
    var (q, cmds) := Step(cfg, p, fill);
    RunEffect(cfg, q, events);
    assert Totals(q, Filled(events), Run(cfg, q, events).0, FullExits(Run(cfg, q, events).1), Partials(Run(cfg, q, events).1));
    var (r, rest) := Run(cfg, q, events);
    TotalsMean(q, cmds, r, rest, Filled(events));
  }

  lemma TotalsMean(q: Pos, cmds: seq<Command>, r: Pos, rest: seq<Command>, filled: real)
    requires Inv(r) && Totals(q, filled, r, FullExits(rest), Partials(rest))
    requires FullExits(cmds) == 0 && Partials(cmds) == 0
    ensures FullExits(cmds + rest) <= 1 && Partials(cmds + rest) <= 1 && r.qty == Max(0.0, q.qty - filled)
    ensures (r.state == Closed <==> r.qty == 0.0) && (r.state == Closed ==> r.active == {})
  {
    CountsConcat(cmds, rest);
  }

  /** Closed is absorbing and silent. */
  lemma ClosedIsFinal(cfg: Config, p: Pos, events: seq<Event>)
    requires Inv(p) && cfg.Complete() && p.state == Closed
    requires forall e <- events :: Later(e)
    ensures Run(cfg, p, events).0.state == Closed && Run(cfg, p, events).1 == []
  {
    RunEffect(cfg, p, events);
  }

  /** The in-flight lock never stands in the way of the protection timeout: a protecting position
      whose deadline passed sends exactly one emergency exit at the next tick that is not halted. */
  lemma TimeoutAlwaysExits(cfg: Config, p: Pos, e: Event)
    requires Inv(p) && cfg.Complete() && e.Tick? && p.state == Protecting
    ensures var (q, cmds) := Step(cfg, p, e);
      (q.state == Emergency && |cmds| == 1 && FullExits(cmds) == 1)
      <==> (e.mode != Halted && p.entry.protectSentNs.Some? && e.at - p.entry.protectSentNs.value > cfg.tProtectMs * MS)
  {
    var (q, cmds) := Step(cfg, p, e);
    if cmds != [] {
      Counts1(cmds[0]);
    }
  }

  predicate Overdue(cfg: Config, p: Pos, e: Event)
    requires e.Tick?
  {
    e.mode != Halted && p.entry.protectSentNs.Some? && e.at - p.entry.protectSentNs.value > cfg.tProtectMs * MS
  }

  /** Some whole number of steps within the open quantity is at least `least`. */
  ghost predicate StepsReach(p: Pos, least: real) {
    exists n: int :: least <= Units(n, p.StepSize()) <= p.qty
  }

  lemma ExitQtyReachesIff(p: Pos, least: real)
    requires Gridded(p) && p.qty >= 0.0
    ensures ExitQty(p) >= least <==> StepsReach(p, least)
  {
    FloorStepIsGreatest(p.qty, p.StepSize(), 0.0);
    var k: int :| Units(k, p.StepSize()) == ExitQty(p);
    if StepsReach(p, least) {
      var n: int :| least <= Units(n, p.StepSize()) <= p.qty;
      FloorStepIsGreatest(p.qty, p.StepSize(), Units(n, p.StepSize()));
    }
  }

  lemma ExitQtyZeroIff(p: Pos)
    requires Gridded(p) && p.qty >= 0.0
    ensures ExitQty(p) == 0.0 <==> p.qty < p.StepSize()
  {
    assert Units(1, p.StepSize()) == p.StepSize();
    FloorStepIsGreatest(p.qty, p.StepSize(), p.StepSize());
    var k: int :| Units(k, p.StepSize()) == ExitQty(p);
    NoStepsBelowOne(k, p.StepSize());
  }

  lemma NoStepsBelowOne(k: int, step: real)
    requires step > 0.0 && 0.0 <= Units(k, step)
    ensures k == 0 || Units(k, step) >= step
    ensures Units(0, step) == 0.0
  {
    if k >= 1 {
      assert (k - 1) as real * step >= 0.0;
    }
    assert k <= -1 ==> (-k) as real * step >= step;
  }

  /** The emergency exit is sent without asking the exchange filter: it meets the minimum quantity exactly
      when some whole number of steps within the position does, and asks for nothing at all exactly
      when the position is smaller than a step. */
  lemma EmergencyFitsIff(cfg: Config, p: Pos, e: Event)
    requires Inv(p) && cfg.Complete() && e.Tick? && p.state == Protecting && Overdue(cfg, p, e)
    ensures var cmds := Step(cfg, p, e).1;
      && |cmds| == 1 && cmds[0].PlaceOrder?
      && (cmds[0].qty >= p.who.filters.minQty <==> StepsReach(p, p.who.filters.minQty))
      && (cmds[0].qty == 0.0 <==> p.qty < p.StepSize())
  {
    ExitQtyReachesIff(p, p.who.filters.minQty);
    ExitQtyZeroIff(p);
  }

  /** A rule asks for the whole position: its regime degraded, the mark stayed beyond the stop too
      long, or it was held too long without a net gain. */
  predicate WantsOut(cfg: Config, p: Pos, e: Event)
    requires e.Tick? && Priced(p) && p.state == Managed
  {
    && e.mode == Full
    && if Degraded(cfg, p, e.regime) then true
       else if Crossed(p, e.mark) then p.stop.crossedNs.Some? && e.at - p.stop.crossedNs.value > cfg.tBackupMs * MS
       else HeldTooLong(cfg, p, e.at, NetPct(cfg, p, e.mark))
  }

  /** A tick sells a managed position exactly when a rule asks for it and the exchange takes the
      quantity; no earlier exit order stands in the way. Only a live system acts on prices. */
  lemma ManagedExitsIff(cfg: Config, p: Pos, e: Event)
    requires Inv(p) && cfg.Complete() && Later(e) && e.Tick? && p.state == Managed
    ensures var (q, cmds) := Step(cfg, p, e); var sells := WantsOut(cfg, p, e) && ExitQty(p) >= p.who.filters.minQty;
      && (FullExits(cmds) == 1 <==> sells) && (q.state == Closing <==> sells)
      && (sells ==> cmds == [PlaceOrder(ExitQty(p), ExitId(p.who.posId, X, p.exits.count + 1))])
  {
    if e.mode == Full {
      if Degraded(cfg, p, e.regime) {
        CloseSells(cfg, p, Degradation, e.at);
      } else if Crossed(p, e.mark) {
        CloseSells(cfg, p, BackupStop, e.at);
      } else {
        var p0 := p.(stop := p.stop.(crossedNs := None));
        if HeldTooLong(cfg, p0, e.at, NetPct(cfg, p0, e.mark)) {
          CloseSells(cfg, p0, HoldTimeout, e.at);
        } else {
          ZoneStays(cfg, p0, e);
        }
      }
    }
  }

  lemma CloseSells(cfg: Config, p: Pos, reason: Reason, now: int)
    requires Inv(p) && p.state == Managed
    ensures var (q, cmds) := Close(cfg, p, reason, now);
      if ExitQty(p) >= p.who.filters.minQty then
        q.state == Closing && FullExits(cmds) == 1 && cmds == [PlaceOrder(ExitQty(p), ExitId(p.who.posId, X, p.exits.count + 1))]
      else q.state == Managed && cmds == []
  {
    var (q, cmds) := Close(cfg, p, reason, now);
    if cmds != [] {
      Counts1(cmds[0]);
    }
  }

  lemma ZoneStays(cfg: Config, p: Pos, e: Event)
    requires Inv(p) && p.state == Managed && cfg.Complete() && e.Tick?
    requires !HeldTooLong(cfg, p, e.at, NetPct(cfg, p, e.mark))
    ensures var (q, cmds) := TickInProfitZone(cfg, p, e.at, e.mark); q.state == Managed && FullExits(cmds) == 0
  {
    var net := NetPct(cfg, p, e.mark);
    var (p1, partial) := TakePartial(cfg, p, e.at, e.mark, net);
    PartialEffect(cfg, p, e.at, e.mark, net);
    RatchetEffect(cfg, p1, e.at, e.mark, net);
    CountsConcat(partial, Ratchet(cfg, p1, e.at, e.mark, net).1);
  }

  // ---- quantities of exit orders

  predicate SaneFraction(cfg: Config) {
    cfg.tp1Frac.Some? ==> 0.0 <= cfg.tp1Frac.value <= 1.0
  }

  ghost predicate WithinPosition(p: Pos, c: Command) {
    c.PlaceOrder? ==> IsMultiple(c.qty, p.StepSize()) && 0.0 <= c.qty <= p.qty
  }

  lemma ExitQtyWithin(p: Pos)
    requires Gridded(p) && p.qty >= 0.0
    ensures IsMultiple(ExitQty(p), p.StepSize()) && 0.0 <= ExitQty(p) <= p.qty
  {
    FloorStepIsGreatest(p.qty, p.StepSize(), 0.0);
  }

  lemma PartialQtyFits(cfg: Config, p: Pos)
    requires Gridded(p) && cfg.tp1Frac.Some? && SaneFraction(cfg) && p.qty >= 0.0
    ensures IsMultiple(PartialQty(cfg, p), p.StepSize()) && 0.0 <= PartialQty(cfg, p) <= p.qty
  {
    var qty, frac, step := p.qty, cfg.tp1Frac.value, p.StepSize();
    FloorStepFraction(qty, frac, step);
  }

  lemma PartialQtyWithin(cfg: Config, p: Pos, now: int, mark: real, net: real)
    requires Gridded(p) && cfg.Complete() && SaneFraction(cfg) && p.qty >= 0.0
    ensures forall c <- TakePartial(cfg, p, now, mark, net).1 :: WithinPosition(p, c)
  {
    var cmds := TakePartial(cfg, p, now, mark, net).1;
    if cmds != [] {
      PartialQtyFits(cfg, p);
      assert cmds[0].qty == PartialQty(cfg, p);
    }
  }

  /** Every exit order is a whole number of steps and no larger than the open quantity. */
  lemma ExitOrdersFit(cfg: Config, p: Pos, e: Event)
    requires Inv(p) && cfg.Complete() && Later(e) && SaneFraction(cfg)
    ensures forall c <- Step(cfg, p, e).1 :: WithinPosition(p, c)
  {
    ExitQtyWithin(p);
    if e.Tick? && p.state == Managed && e.mode == Full && !Degraded(cfg, p, e.regime) && !Crossed(p, e.mark) {
      var p0 := p.(stop := p.stop.(crossedNs := None));
      var net := NetPct(cfg, p0, e.mark);
      if !HeldTooLong(cfg, p0, e.at, net) {
        var (p1, partial) := TakePartial(cfg, p0, e.at, e.mark, net);
        PartialQtyWithin(cfg, p0, e.at, e.mark, net);
        assert forall c <- partial :: WithinPosition(p0, c);
        var replace := Ratchet(cfg, p1, e.at, e.mark, net).1;
        assert forall c <- replace :: !c.PlaceOrder?;
      }
    }
  }

  // ---- ids

  function Placed(cmds: seq<Command>): seq<OrderId> {
    if cmds == [] then []
    else (match cmds[0]
          case PlaceAlgo(_, _, _, id, _) => [id]
          case PlaceOrder(_, id) => [id]
          case CancelAlgo(_) => []) + Placed(cmds[1..])
  }

  predicate Distinct(ids: seq<OrderId>) {
    forall i, j :: 0 <= i < j < |ids| ==> ids[i] != ids[j]
  }

  /** An id first used somewhere between p and q: a stop version or an exit number in between. */
  predicate Between(p: Pos, q: Pos, id: OrderId) {
    && id.posId == p.who.posId
    && ((id.AlgoId? && id.role == SL && p.stop.version < id.version <= q.stop.version)
        || (id.ExitId? && p.exits.count < id.seqNo <= q.exits.count))
  }

  predicate FreshIds(p: Pos, q: Pos, cmds: seq<Command>) {
    && Distinct(Placed(cmds)) && (forall id <- Placed(cmds) :: Between(p, q, id))
    && q.who == p.who && p.stop.version <= q.stop.version && p.exits.count <= q.exits.count
  }

  lemma {:induction false} PlacedConcat(a: seq<Command>, b: seq<Command>)
    ensures Placed(a + b) == Placed(a) + Placed(b)
  {
    if a == [] {
      assert a + b == b;
    } else {
      assert (a + b)[0] == a[0] && (a + b)[1..] == a[1..] + b;
      PlacedConcat(a[1..], b);
    }
  }

  lemma FreshCompose(p: Pos, q: Pos, r: Pos, a: seq<Command>, b: seq<Command>)
    requires FreshIds(p, q, a) && FreshIds(q, r, b)
    ensures FreshIds(p, r, a + b)
  {
    PlacedConcat(a, b);
    var s, t := Placed(a), Placed(b);
    forall i, j | 0 <= i < j < |s + t| ensures (s + t)[i] != (s + t)[j] {
      if i < |s| <= j {
        assert Between(p, q, s[i]) && Between(q, r, t[j - |s|]);
      }
    }
    forall id | id in s + t ensures Between(p, r, id) {
      assert id in s || id in t;
    }
  }

  lemma PartialFresh(cfg: Config, p: Pos, now: int, mark: real, net: real)
    requires Gridded(p) && cfg.Complete()
    ensures var (q, cmds) := TakePartial(cfg, p, now, mark, net); FreshIds(p, q, cmds)
  {
  }

  lemma RatchetFresh(cfg: Config, p: Pos, now: int, mark: real, net: real)
    requires Gridded(p) && cfg.Complete()
    ensures var (q, cmds) := Ratchet(cfg, p, now, mark, net); FreshIds(p, q, cmds)
  {
    var cmds := Ratchet(cfg, p, now, mark, net).1;
    if cmds != [] {
      assert cmds == [cmds[0]] + [cmds[1]];
      PlacedConcat([cmds[0]], [cmds[1]]);
    }
  }

  lemma CloseFresh(cfg: Config, p: Pos, reason: Reason, now: int)
    requires Gridded(p)
    ensures var (q, cmds) := Close(cfg, p, reason, now); FreshIds(p, q, cmds)
  {
  }

  lemma ZoneFresh(cfg: Config, p: Pos, now: int, mark: real)
    requires Gridded(p) && cfg.Complete() && p.entry.price > 0.0
    ensures var (q, cmds) := TickInProfitZone(cfg, p, now, mark); FreshIds(p, q, cmds)
  {
    var net := NetPct(cfg, p, mark);
    CloseFresh(cfg, p, HoldTimeout, now);
    if !HeldTooLong(cfg, p, now, net) {
      var (p1, partial) := TakePartial(cfg, p, now, mark, net);
      PartialFresh(cfg, p, now, mark, net);
      var (p2, replace) := Ratchet(cfg, p1, now, mark, net);
      RatchetFresh(cfg, p1, now, mark, net);
      FreshCompose(p, p1, p2, partial, replace);
    }
  }

  lemma TickFresh(cfg: Config, p: Pos, e: Event)
    requires Inv(p) && cfg.Complete() && Later(e) && e.Tick?
    ensures var (q, cmds) := Step(cfg, p, e); FreshIds(p, q, cmds)
  {
    if p.state == Managed && e.mode == Full {
      if Degraded(cfg, p, e.regime) {
        CloseFresh(cfg, p, Degradation, e.at);
      } else if Crossed(p, e.mark) {
        CloseFresh(cfg, p, BackupStop, e.at);
      } else {
        ZoneFresh(cfg, p.(stop := p.stop.(crossedNs := None)), e.at, e.mark);
      }
    }
  }

  lemma NothingFresh(p: Pos, q: Pos, cmds: seq<Command>)
    requires forall c <- cmds :: c.CancelAlgo?
    requires q.who == p.who && p.stop.version <= q.stop.version && p.exits.count <= q.exits.count
    ensures FreshIds(p, q, cmds)
  {
    NothingPlaced(cmds);
  }

  lemma CancelsOnly(p: Pos)
    ensures forall c <- CancelActive(p) :: c.CancelAlgo?
  {
  }

  lemma TriggerFresh(p: Pos, id: OrderId)
    ensures var (q, cmds) := OnAlgoTriggered(p, id); FreshIds(p, q, cmds)
  {
    var (q, cmds) := OnAlgoTriggered(p, id);
    CancelsOnly(p.(active := p.active - {id}));
    NothingFresh(p, q, cmds);
  }

  lemma FillFresh(p: Pos, qty: real, reason: Option<Reason>, clientId: Option<OrderId>)
    ensures var (q, cmds) := OnExitFill(p, qty, reason, clientId); FreshIds(p, q, cmds)
  {
    var (q, cmds) := OnExitFill(p, qty, reason, clientId);
    var freed := if clientId.Some? then OnExitTerminal(p, clientId.value) else p.(exits := p.exits.(inFlight := None));
    CancelsOnly(freed);
    NothingFresh(p, q, cmds);
  }

  lemma SilentFresh(cfg: Config, p: Pos, e: Event)
    requires Priced(p) && cfg.Complete() && Later(e) && !e.Tick? && !e.AlgoTriggered? && !e.ExitFill?
    ensures var (q, cmds) := Step(cfg, p, e); FreshIds(p, q, cmds)
  {
  }

  lemma StepFresh(cfg: Config, p: Pos, e: Event)
    requires Inv(p) && cfg.Complete() && Later(e)
    ensures var (q, cmds) := Step(cfg, p, e); FreshIds(p, q, cmds)
  {
    if e.Tick? {
      TickFresh(cfg, p, e);
    } else if e.AlgoTriggered? {
      TriggerFresh(p, e.id);
    } else if e.ExitFill? {
      FillFresh(p, e.fillQty, e.reason, e.clientId);
    } else {
      SilentFresh(cfg, p, e);
    }
  }

  lemma {:induction false} NothingPlaced(cmds: seq<Command>)
    ensures (forall c <- cmds :: c.CancelAlgo?) ==> Placed(cmds) == []
  {
    if cmds != [] {
      NothingPlaced(cmds[1..]);
    }
  }

  lemma {:induction false} RunFresh(cfg: Config, p: Pos, events: seq<Event>)
    requires Inv(p) && cfg.Complete()
    requires forall e <- events :: Later(e)
    ensures var (q, cmds) := Run(cfg, p, events); FreshIds(p, q, cmds)
    decreases |events|
  {
    if events != [] {
      StepEffect(cfg, p, events[0]);
      StepFresh(cfg, p, events[0]);
      var (q, cmds) := Step(cfg, p, events[0]);
      RunFresh(cfg, q, events[1..]);
      var (r, rest) := Run(cfg, q, events[1..]);
      FreshCompose(p, q, r, cmds, rest);
    }
  }

  lemma EntryIds(cfg: Config, p: Pos, fill: Event)
    requires ValidEntry(p, fill) && cfg.Complete()
    ensures Placed(Step(cfg, p, fill).1) == [AlgoId(p.who.posId, SL, 1), AlgoId(p.who.posId, TP, 1)]
  {
    var cmds := Step(cfg, p, fill).1;
    assert cmds == [cmds[0]] + [cmds[1]];
    PlacedConcat([cmds[0]], [cmds[1]]);
  }

  lemma LifeIds(cfg: Config, p: Pos, fill: Event, events: seq<Event>)
    requires ValidEntry(p, fill) && cfg.Complete()
    requires forall e <- events :: Later(e)
    ensures var ids := Placed(Life(cfg, p, fill, events).1);
      Distinct(ids) && forall id <- ids :: id.posId == p.who.posId
  {
    EntryInv(cfg, p, fill);
    EntryIds(cfg, p, fill);
    var (q, cmds) := Step(cfg, p, fill);
    RunFresh(cfg, q, events);
    var (r, rest) := Run(cfg, q, events);
    PlacedConcat(cmds, rest);
    var first, later := Placed(cmds), Placed(rest);
    assert q.stop.version == 1;
    forall i, j | 0 <= i < j < |first + later| ensures (first + later)[i] != (first + later)[j] {
      if i < 2 <= j {
        assert Between(q, r, later[j - 2]);
      } else if 2 <= i {
        assert later[i - 2] != later[j - 2];
      }
    }
    forall id | id in first + later ensures id.posId == p.who.posId {
      assert id in first || id in later;
    }
  }

  /** All ids a position sends during its life are distinct as texts, and the position id is
      recovered from each of them. */
  lemma IdsDistinct(cfg: Config, p: Pos, fill: Event, events: seq<Event>)
    requires ValidEntry(p, fill) && cfg.Complete()
    requires forall e <- events :: Later(e)
    ensures var ids := Placed(Life(cfg, p, fill, events).1);
      && (forall i, j :: 0 <= i < j < |ids| ==> Render(ids[i]) != Render(ids[j]))
      && (forall id <- ids :: PosIdOf(Render(id)) == p.who.posId)
  {
    LifeIds(cfg, p, fill, events);
    var ids := Placed(Life(cfg, p, fill, events).1);
    forall i, j | 0 <= i < j < |ids| ensures Render(ids[i]) != Render(ids[j]) {
      RenderInjective(ids[i], ids[j]);
    }
    forall id | id in ids ensures PosIdOf(Render(id)) == p.who.posId {
      RenderInjective(id, id);
    }
  }
}
