/** When the profit lock can place a stop that is already hit, over every life of a position. */
module RatchetSafety {
  import opened Common
  import opened Rounding
  import opened Ids
  import opened Position
  import opened StopRatchet
  import opened ExitOverlap

  /** A state some life comes to. */
  ghost predicate Reached(cfg: Config, r: Pos)
    requires cfg.Complete()
  {
    && Open(r)
    && exists p: Pos, fill: Event, events: seq<Event> ::
         ValidEntry(p, fill) && (forall e <- events :: Later(e)) && Life(cfg, p, fill, events).0 == r
  }

  /** No tick of any life places a stop that its own mark has already hit. */
  ghost predicate RatchetSafe(cfg: Config)
    requires cfg.Complete()
  {
    forall r: Pos, e: Event | Reached(cfg, r) && Later(e) && e.Tick? ::
      PlacedSafely(r, Step(cfg, r, e).0, e.mark)
  }

  lemma {:induction false} RunSnoc(cfg: Config, p: Pos, events: seq<Event>, e: Event)
    requires Open(p) && cfg.Complete() && Later(e) && forall d <- events :: Later(d)
    ensures Run(cfg, p, events + [e]).0 == Step(cfg, Run(cfg, p, events).0, e).0
    decreases |events|
  {
    if events == [] {
      assert [] + [e] == [e] && [e][1..] == [];
    } else {
      StepKeepsEntry(cfg, p, events[0]);
      RunSnoc(cfg, Step(cfg, p, events[0]).0, events[1..], e);
      assert (events + [e])[1..] == events[1..] + [e];
    }
  }

  lemma ReachedEntry(cfg: Config, p: Pos, fill: Event)
    requires ValidEntry(p, fill) && cfg.Complete()
    ensures Reached(cfg, Step(cfg, p, fill).0)
  {
    assert Life(cfg, p, fill, []).0 == Step(cfg, p, fill).0;
  }

  lemma ReachedStep(cfg: Config, r: Pos, e: Event)
    requires cfg.Complete() && Reached(cfg, r) && Later(e)
    ensures Reached(cfg, Step(cfg, r, e).0)
  {
    var p: Pos, fill: Event, events: seq<Event> :|
      ValidEntry(p, fill) && (forall d <- events :: Later(d)) && Life(cfg, p, fill, events).0 == r;
    RunSnoc(cfg, Step(cfg, p, fill).0, events, e);
    StepKeepsEntry(cfg, r, e);
    assert forall d <- events + [e] :: Later(d);
    assert Life(cfg, p, fill, events + [e]).0 == Step(cfg, r, e).0;
  }

  // ---- a managed position to start from

  const SL1 := AlgoId("p", SL, 1)
  const TP1ID := AlgoId("p", TP, 1)

  /** A long unit entered at time 0. */
  function Opened(price: real, sl: real, tick: real, regime: Option<string>): Pos
    requires tick > 0.0
  {
    OnEntryFill(New(Who("p", Long, Filters(1.0, 0.0, 0.0, tick))), price, 1.0, sl, price, 0, false, regime).0
  }

  /** The same with both protections confirmed and some funding accrued. */
  function Managed1(price: real, sl: real, tick: real, funding: real, regime: Option<string>): Pos
    requires tick > 0.0
  {
    Opened(price, sl, tick, regime).(acked := {SL1, TP1ID}, state := Managed, fundingPct := funding)
  }

  lemma OpenedReached(cfg: Config, price: real, sl: real, tick: real, regime: Option<string>)
    requires tick > 0.0 && price > 0.0 && cfg.Complete()
    ensures Reached(cfg, Opened(price, sl, tick, regime))
  {
    ReachedEntry(cfg, New(Who("p", Long, Filters(1.0, 0.0, 0.0, tick))),
      EntryFill(price, 1.0, sl, price, 0, false, regime));
  }

  lemma BothAcked(p: Pos)
    requires p.state == Protecting && p.SlId() == SL1 && p.TpId() == TP1ID && p.acked == {}
    ensures OnAlgoAck(OnAlgoAck(p, SL1), TP1ID) == p.(acked := {SL1, TP1ID}, state := Managed)
  {
    assert {} + {SL1} + {TP1ID} == {SL1, TP1ID};
  }

  lemma Managed1Reached(cfg: Config, price: real, sl: real, tick: real, funding: real, regime: Option<string>)
    requires tick > 0.0 && price > 0.0 && cfg.Complete()
    ensures Reached(cfg, Managed1(price, sl, tick, funding, regime))
  {
    var p := Opened(price, sl, tick, regime);
    OpenedReached(cfg, price, sl, tick, regime);
    ReachedStep(cfg, p, AlgoAck(SL1));
    ReachedStep(cfg, OnAlgoAck(p, SL1), AlgoAck(TP1ID));
    BothAcked(p);
    ReachedStep(cfg, OnAlgoAck(OnAlgoAck(p, SL1), TP1ID), Funding(funding));
  }

  /** A stop the lock or the trail wants, tighter and in time. */
  predicate Wanted(cfg: Config, p: Pos, e: Event)
    requires Priced(p) && p.state == Managed && cfg.Complete() && cfg.lockTriggerPct.Some? && e.Tick?
  {
    && e.mode == Full && !Degraded(cfg, p, e.regime) && !Crossed(p, e.mark)
    && !HeldTooLong(cfg, p, e.at, NetPct(cfg, p, e.mark)) && NetPct(cfg, p, e.mark) >= cfg.lockTriggerPct.value
    && DesiredStop(cfg, p, e.mark).Some? && Tighter(p, DesiredStop(cfg, p, e.mark).value)
    && (p.stop.lastReplaceNs.Some? ==> e.at - p.stop.lastReplaceNs.value >= cfg.minReplaceIntervalMs * MS)
  }

  /** The tick then replaces the stop, whatever the partial exit does, and changes nothing else of it. */
  lemma TickReplaces(cfg: Config, p: Pos, e: Event)
    requires Priced(p) && p.state == Managed && cfg.Complete() && cfg.lockTriggerPct.Some? && e.Tick? && Wanted(cfg, p, e)
    ensures var q, d := Step(cfg, p, e).0, DesiredStop(cfg, p, e.mark).value;
      && q.stop == Stop(TriggerPrice(d, p.Tick(), p.who.side, SL), p.stop.version + 1, None, Some(e.at), true)
      && q.who == p.who && q.entry == p.entry && q.state == Managed && q.fundingPct == p.fundingPct
  {
    var p0 := p.(stop := p.stop.(crossedNs := None));
    var net := NetPct(cfg, p, e.mark);
    assert NetPct(cfg, p0, e.mark) == net;
    var p1 := TakePartial(cfg, p0, e.at, e.mark, net).0;
    assert p1.stop == p0.stop && p1.entry == p.entry && p1.who == p.who && p1.fundingPct == p.fundingPct;
    assert DesiredStop(cfg, p1, e.mark) == DesiredStop(cfg, p, e.mark);
  }

  // ---- the unsafe parameters

  /** When a tick is not held too long whatever the limit: at the entry, or before a negative limit ends. */
  function InTime(cfg: Config): int {
    if cfg.maxHoldMs.Some? && cfg.maxHoldMs.value < 0 then cfg.maxHoldMs.value * MS else 0
  }

  /** With an offset at or above the trigger, a position whose net result equals the offset when the
      price is back at the entry gets its stop exactly there. */
  lemma LockUnsafe(cfg: Config)
    requires cfg.lockTriggerPct.Some? && cfg.Complete() && cfg.lockOffsetPct.value >= cfg.lockTriggerPct.value
    ensures !RatchetSafe(cfg)
  {
    var regime := FreshRegime(cfg.degradeMap.Keys);
    var funding := -cfg.lockOffsetPct.value - cfg.takerFeePct - cfg.takerFeePct;
    var p := Managed1(100.0, 0.0, 100.0, funding, regime);
    Managed1Reached(cfg, 100.0, 0.0, 100.0, funding, regime);
    var e := Tick(InTime(cfg), 100.0, None, Full);
    assert p.stop.price == 0.0 by {
      assert 0.0 / 100.0 == 0.0;
    }
    assert CostPct(cfg, p) == -cfg.lockOffsetPct.value;
    assert NetPct(cfg, p, 100.0) == cfg.lockOffsetPct.value;
    assert DesiredStop(cfg, p, 100.0) == Some(100.0) by {
      assert Times(100.0, 1.0) == 100.0;
    }
    TickReplaces(cfg, p, e);
    OneUnit(100.0);
    assert !PlacedSafely(p, Step(cfg, p, e).0, e.mark);
  }

  /** The mark the trail is tried at. */
  function RaisedMark(cfg: Config): real {
    1.0 + Max(cfg.trailStepPct.GetOr(0.0), 0.0)
  }

  /** With a trailing gap that is not positive, a position is locked and its price then rises: the
      trail puts the stop at the mark or beyond. */
  lemma TrailUnsafe(cfg: Config)
    requires cfg.lockTriggerPct.Some? && cfg.Complete() && cfg.lockOffsetPct.value < cfg.lockTriggerPct.value
    requires cfg.trailGapPct.Some? && cfg.trailGapPct.value <= 0.0
    ensures !RatchetSafe(cfg)
  {
    var mark := RaisedMark(cfg);
    var tick := Times(mark, 1.0 - cfg.trailGapPct.value / 100.0);
    RaisedTrail(mark, cfg.trailGapPct.value);
    var regime := FreshRegime(cfg.degradeMap.Keys);
    LocksFirst(cfg, tick, regime);
    ReachedStep(cfg, Lockable(cfg, tick, regime), Tick(0, 1.0, None, Full));
    var q := Step(cfg, Lockable(cfg, tick, regime), Tick(0, 1.0, None, Full)).0;
    TrailedUnsafe(cfg, q, mark, tick);
  }

  /** The tick that trails a locked position up. */
  lemma TrailedUnsafe(cfg: Config, q: Pos, mark: real, tick: real)
    requires cfg.lockTriggerPct.Some? && cfg.Complete() && cfg.trailGapPct.Some?
    requires Reached(cfg, q) && q.state == Managed && q.who.side == Long && q.entry.price == 1.0 && q.Tick() == tick
    requires q.stop.locked && q.stop.price < 1.0 && q.stop.lastReplaceNs == Some(0) && q.entry.regime !in cfg.degradeMap
    requires CostPct(cfg, q) == -Max(cfg.lockTriggerPct.value, 1.0)
    requires mark == RaisedMark(cfg) && tick == Times(mark, 1.0 - cfg.trailGapPct.value / 100.0) && tick >= mark
    ensures !RatchetSafe(cfg)
  {
    var wait := if cfg.minReplaceIntervalMs > 0 then cfg.minReplaceIntervalMs * MS else 0;
    var e := Tick(wait, mark, None, Full);
    GrossRises(mark);
    assert NetPct(cfg, q, mark) >= Max(cfg.lockTriggerPct.value, 1.0);
    assert TrailPrice(cfg.trailGapPct.value, q, mark) == tick;
    assert DesiredStop(cfg, q, mark) == Some(tick);
    TickReplaces(cfg, q, e);
    OneUnit(tick);
    assert !PlacedSafely(q, Step(cfg, q, e).0, mark);
  }

  lemma RaisedTrail(mark: real, gap: real)
    requires mark > 0.0 && gap <= 0.0
    ensures Times(mark, 1.0 - gap / 100.0) >= mark
  {
    var widen := -gap / 100.0;
    assert mark * widen >= 0.0;
    assert Times(mark, 1.0 + widen) == mark + mark * widen;
  }

  lemma GrossRises(mark: real)
    requires mark >= 1.0
    ensures (mark / 1.0 - 1.0) * 100.0 >= 0.0
  {
  }

  /** A unit entered at 1 with its stop below the level of the lock. */
  function Lockable(cfg: Config, tick: real, regime: Option<string>): Pos
    requires tick > 0.0 && cfg.lockTriggerPct.Some? && cfg.lockOffsetPct.Some?
  {
    Managed1(1.0, LockLevel(cfg) - 1.0, tick,
             -Max(cfg.lockTriggerPct.value, 1.0) - cfg.takerFeePct - cfg.takerFeePct, regime)
  }

  function LockLevel(cfg: Config): real
    requires cfg.lockTriggerPct.Some? && cfg.lockOffsetPct.Some?
  {
    1.0 + (cfg.lockOffsetPct.value - Max(cfg.lockTriggerPct.value, 1.0)) / 100.0
  }

  lemma LocksFirst(cfg: Config, tick: real, regime: Option<string>)
    requires tick > 0.0 && cfg.lockTriggerPct.Some? && cfg.Complete() && cfg.lockOffsetPct.value < cfg.lockTriggerPct.value
    requires regime !in cfg.degradeMap
    ensures var p := Lockable(cfg, tick, regime); var q := Step(cfg, p, Tick(0, 1.0, None, Full)).0;
      && Reached(cfg, p) && q.who == p.who && q.entry == p.entry && q.state == Managed && q.fundingPct == p.fundingPct
      && q.stop.locked && q.stop.price < 1.0 && q.stop.lastReplaceNs == Some(0)
  {
    var p, e, level := Lockable(cfg, tick, regime), Tick(0, 1.0, None, Full), LockLevel(cfg);
    Managed1Reached(cfg, 1.0, level - 1.0, tick, p.fundingPct, regime);
    TriggerAwayFromMarket(level - 1.0, tick, Long, SL, 0.0);
    TriggerAwayFromMarket(level, tick, Long, SL, 0.0);
    assert p.stop.price <= level - 1.0 < 0.0;
    assert CostPct(cfg, p) == -Max(cfg.lockTriggerPct.value, 1.0);
    GrossRises(1.0);
    assert NetPct(cfg, p, 1.0) == Max(cfg.lockTriggerPct.value, 1.0);
    assert DesiredStop(cfg, p, 1.0) == Some(level) by {
      UnitTimes(1.0 + (CostPct(cfg, p) + cfg.lockOffsetPct.value) / 100.0);
    }
    TickReplaces(cfg, p, e);
  }

  lemma UnitTimes(x: real)
    ensures Times(1.0, x) == x
  {
  }

  /** No life ever places a stop that is already hit exactly when the lock is off, or its offset is
      below its trigger and the trailing gap is positive. */
  lemma RatchetSafeIff(cfg: Config)
    requires cfg.Complete()
    ensures RatchetSafe(cfg) <==> cfg.lockTriggerPct.None? || SafeParameters(cfg)
  {
    if cfg.lockTriggerPct.None? || SafeParameters(cfg) {
      forall r: Pos, e: Event | Reached(cfg, r) && Later(e) && e.Tick?
        ensures PlacedSafely(r, Step(cfg, r, e).0, e.mark)
      {
        TickPlacesSafely(cfg, r, e);
      }
    } else if cfg.lockOffsetPct.value >= cfg.lockTriggerPct.value {
      LockUnsafe(cfg);
    } else {
      TrailUnsafe(cfg);
    }
  }
}
