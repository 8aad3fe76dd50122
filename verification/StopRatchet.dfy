/** The stop price over whole runs: it stays on the tick grid, never loosens, is placed on the
    protective side of the mark, and once the profit lock engages it secures a gross result. */
module StopRatchet {
  import opened Common
  import opened Rounding
  import opened Position

  ghost predicate OnGrid(p: Pos) {
    IsMultiple(p.stop.price, p.Tick())
  }

  predicate NotLooser(p: Pos, q: Pos) {
    if p.who.side == Long then q.stop.price >= p.stop.price else q.stop.price <= p.stop.price
  }

  /** A stop at `trigger` is not already hit at `mark`. */
  predicate StrictlyProtective(side: Side, trigger: real, mark: real) {
    if side == Long then trigger < mark else trigger > mark
  }

  /** Rounding away from the market cannot undo the improvement, because the old stop is on the grid. */
  lemma ReplacementTightens(p: Pos, desired: real, now: int)
    requires Gridded(p) && OnGrid(p) && Tighter(p, desired)
    ensures var q := ReplaceStop(p, desired, now).0; OnGrid(q) && NotLooser(p, q)
  {
    TriggerAwayFromMarket(desired, p.Tick(), p.who.side, SL, p.stop.price);
  }

  lemma RatchetTightens(cfg: Config, p: Pos, now: int, mark: real, net: real)
    requires Gridded(p) && cfg.Complete() && OnGrid(p)
    ensures var q := Ratchet(cfg, p, now, mark, net).0; OnGrid(q) && NotLooser(p, q) && q.who == p.who
  {
    if cfg.lockTriggerPct.Some? {
      var desired := DesiredStop(cfg, p, mark);
      if desired.Some? && Tighter(p, desired.value) {
        ReplacementTightens(p, desired.value, now);
      }
    }
  }

  lemma TickTightens(cfg: Config, p: Pos, now: int, mark: real, regime: Option<string>, mode: Mode)
    requires Open(p) && cfg.Complete() && OnGrid(p)
    ensures var q := OnTick(cfg, p, now, mark, regime, mode).0; OnGrid(q) && NotLooser(p, q)
  {
    if p.state == Managed && mode == Full && !Degraded(cfg, p, regime) && !Crossed(p, mark) {
      var p0 := p.(stop := p.stop.(crossedNs := None));
      var net := NetPct(cfg, p0, mark);
      if !HeldTooLong(cfg, p0, now, net) {
        var p1 := TakePartial(cfg, p0, now, mark, net).0;
        assert p1.stop == p0.stop && p1.who == p.who;
        RatchetTightens(cfg, p1, now, mark, net);
      }
    }
  }

  lemma StepTightens(cfg: Config, p: Pos, e: Event)
    requires Open(p) && cfg.Complete() && Later(e) && OnGrid(p)
    ensures var q := Step(cfg, p, e).0; OnGrid(q) && NotLooser(p, q)
  {
    if e.Tick? {
      TickTightens(cfg, p, e.at, e.mark, e.regime, e.mode);
    }
  }

  lemma EntryStopOnGrid(cfg: Config, p: Pos, fill: Event)
    requires ValidEntry(p, fill) && cfg.Complete()
    ensures OnGrid(Step(cfg, p, fill).0)
    ensures !Step(cfg, p, fill).0.stop.locked
  {
    TriggerAwayFromMarket(fill.sl, p.Tick(), p.who.side, SL, 0.0);
  }

  /** Between any two moments of a run the stop is on the grid and only ever moves towards profit. */
  lemma {:induction false} StopNeverLoosens(cfg: Config, p: Pos, events: seq<Event>)
    requires Open(p) && cfg.Complete() && OnGrid(p)
    requires forall e <- events :: Later(e)
    ensures var q := Run(cfg, p, events).0; OnGrid(q) && NotLooser(p, q)
    decreases |events|
  {
    if events != [] {
      StepTightens(cfg, p, events[0]);
      StepKeepsEntry(cfg, p, events[0]);
      StopNeverLoosens(cfg, Step(cfg, p, events[0]).0, events[1..]);
    }
  }

  // ---- protective side of the mark

  /** A gain of `pct` percent over `price`, as a bound on the price. */
  lemma PercentAbove(price: real, mark: real, pct: real)
    requires price > 0.0
    ensures (mark / price - 1.0) * 100.0 >= pct <==> mark >= price * (1.0 + pct / 100.0)
    ensures (mark / price - 1.0) * 100.0 > pct <==> mark > price * (1.0 + pct / 100.0)
  {
    var r, s := mark / price, 1.0 + pct / 100.0;
    assert r * price == mark;
    SameOrder(price, r, s);
  }

  lemma PercentBelow(price: real, mark: real, pct: real)
    requires price > 0.0
    ensures -((mark / price - 1.0) * 100.0) >= pct <==> mark <= price * (1.0 - pct / 100.0)
    ensures -((mark / price - 1.0) * 100.0) > pct <==> mark < price * (1.0 - pct / 100.0)
  {
    var r, s := mark / price, 1.0 - pct / 100.0;
    assert r * price == mark;
    SameOrder(price, r, s);
    assert -((r - 1.0) * 100.0) >= pct <==> !(r > s);
    assert -((r - 1.0) * 100.0) > pct <==> !(r >= s);
  }

  lemma SameOrder(price: real, r: real, s: real)
    requires price > 0.0
    ensures r >= s <==> r * price >= price * s
    ensures r > s <==> r * price > price * s
  {
    assert r * price - price * s == (r - s) * price;
    if r > s {
      assert (r - s) * price > 0.0;
    } else {
      assert (s - r) * price >= 0.0;
    }
  }

  predicate PlacedSafely(p: Pos, q: Pos, mark: real) {
    q.stop.version != p.stop.version ==> StrictlyProtective(p.who.side, q.stop.price, mark)
  }

  /** The lock level is on the protective side whenever the offset is below the trigger. */
  lemma LockIsProtective(cfg: Config, p: Pos, mark: real)
    requires cfg.lockTriggerPct.Some? && cfg.lockOffsetPct.Some? && p.entry.price > 0.0
    requires cfg.lockOffsetPct.value < cfg.lockTriggerPct.value
    requires NetPct(cfg, p, mark) >= cfg.lockTriggerPct.value
    ensures StrictlyProtective(p.who.side, LockPrice(cfg, p), mark)
  {
    var pct := CostPct(cfg, p) + cfg.lockOffsetPct.value;
    if p.who.side == Long {
      PercentAbove(p.entry.price, mark, pct);
    } else {
      PercentBelow(p.entry.price, mark, pct);
    }
  }

  lemma TrailIsProtective(gap: real, p: Pos, mark: real)
    requires mark > 0.0
    ensures StrictlyProtective(p.who.side, TrailPrice(gap, p, mark), mark) <==> gap > 0.0
  {
    var d := mark * (gap / 100.0);
    assert mark * (1.0 - gap / 100.0) == mark - d;
    assert mark * (1.0 + gap / 100.0) == mark + d;
    if gap > 0.0 {
      assert d > 0.0;
    } else {
      var g := -gap / 100.0;
      assert g >= 0.0;
      assert mark * g >= 0.0;
      assert d == -(mark * g);
    }
  }

  predicate SafeParameters(cfg: Config)
    requires cfg.lockTriggerPct.Some? && cfg.lockOffsetPct.Some?
  {
    cfg.lockOffsetPct.value < cfg.lockTriggerPct.value && (cfg.trailGapPct.Some? ==> cfg.trailGapPct.value > 0.0)
  }

  lemma RatchetIsProtective(cfg: Config, p: Pos, now: int, mark: real)
    requires Gridded(p) && cfg.Complete() && p.entry.price > 0.0 && mark > 0.0
    requires cfg.lockTriggerPct.Some? ==> SafeParameters(cfg)
    ensures PlacedSafely(p, Ratchet(cfg, p, now, mark, NetPct(cfg, p, mark)).0, mark)
  {
    var net := NetPct(cfg, p, mark);
    if cfg.lockTriggerPct.Some? && net >= cfg.lockTriggerPct.value {
      var desired := DesiredStop(cfg, p, mark);
      if desired.Some? {
        if p.stop.locked {
          TrailIsProtective(cfg.trailGapPct.value, p, mark);
        } else {
          LockIsProtective(cfg, p, mark);
        }
        TriggerAwayFromMarket(desired.value, p.Tick(), p.who.side, SL, 0.0);
      }
    }
  }

  /** With safe parameters every stop a tick places lies strictly on the protective side of the mark
      the tick was given. */
  lemma TickPlacesSafely(cfg: Config, p: Pos, e: Event)
    requires Open(p) && cfg.Complete() && Later(e) && e.Tick?
    requires cfg.lockTriggerPct.Some? ==> SafeParameters(cfg)
    ensures PlacedSafely(p, Step(cfg, p, e).0, e.mark)
  {
    if p.state == Managed && e.mode == Full && !Degraded(cfg, p, e.regime) && !Crossed(p, e.mark) {
      var p0 := p.(stop := p.stop.(crossedNs := None));
      var net := NetPct(cfg, p0, e.mark);
      if !HeldTooLong(cfg, p0, e.at, net) {
        var p1 := TakePartial(cfg, p0, e.at, e.mark, net).0;
        assert p1.stop == p0.stop && p1.who == p.who && p1.entry == p.entry && p1.fundingPct == p.fundingPct;
        assert NetPct(cfg, p1, e.mark) == net;
        RatchetIsProtective(cfg, p1, e.at, e.mark);
      }
    }
  }

  // ---- profit-lock floor

  /** What the lock secures: the cost known when it engaged plus the offset, less one tick in percent. */
  function SecuredPct(cfg: Config, p: Pos): real
    requires cfg.lockOffsetPct.Some? && p.entry.price > 0.0
  {
    CostPct(cfg, p) + cfg.lockOffsetPct.value - 100.0 * p.Tick() / p.entry.price
  }

  lemma GrossMonotone(p: Pos, q: Pos)
    requires p.entry.price > 0.0 && q.who == p.who && q.entry == p.entry && NotLooser(p, q)
    ensures GrossPct(q, q.stop.price) >= GrossPct(p, p.stop.price)
  {
    var e := p.entry.price;
    var r, s := p.stop.price / e, q.stop.price / e;
    assert r * e == p.stop.price && s * e == q.stop.price;
    SameOrder(e, s, r);
    SameOrder(e, r, s);
  }

  /** One tick of price is 100·tick/entry percent. */
  lemma TickInPercent(entry: real, tick: real, pct: real)
    requires entry > 0.0
    ensures entry * (1.0 + pct / 100.0) - tick == entry * (1.0 + (pct - 100.0 * tick / entry) / 100.0)
    ensures entry * (1.0 - pct / 100.0) + tick == entry * (1.0 - (pct - 100.0 * tick / entry) / 100.0)
  {
    var t := tick / entry;
    assert entry * t == tick;
    assert 100.0 * tick / entry == 100.0 * t by {
      assert (100.0 * t) * entry == 100.0 * tick;
    }
    var c := pct / 100.0;
    assert (pct - 100.0 * t) / 100.0 == c - t;
    assert entry * (1.0 + c) - entry * t == entry * (1.0 + (c - t));
    assert entry * (1.0 - c) + entry * t == entry * (1.0 - (c - t));
  }

  lemma GrossAbove(e: real, tick: real, pct: real, stop: real)
    requires e > 0.0 && stop > Times(e, 1.0 + pct / 100.0) - tick
    ensures (stop / e - 1.0) * 100.0 > pct - 100.0 * tick / e
  {
    TickInPercent(e, tick, pct);
    PercentAbove(e, stop, pct - 100.0 * tick / e);
  }

  lemma GrossBelow(e: real, tick: real, pct: real, stop: real)
    requires e > 0.0 && stop < Times(e, 1.0 - pct / 100.0) + tick
    ensures -((stop / e - 1.0) * 100.0) > pct - 100.0 * tick / e
  {
    TickInPercent(e, tick, pct);
    PercentBelow(e, stop, pct - 100.0 * tick / e);
  }

  lemma LockSecures(cfg: Config, p: Pos, now: int)
    requires Gridded(p) && p.entry.price > 0.0 && cfg.lockOffsetPct.Some?
    ensures var q := ReplaceStop(p, LockPrice(cfg, p), now).0;
      GrossPct(q, q.stop.price) > SecuredPct(cfg, p)
  {
    var e, tick := p.entry.price, p.Tick();
    var pct := CostPct(cfg, p) + cfg.lockOffsetPct.value;
    var wanted := LockPrice(cfg, p);
    var stop := TriggerPrice(wanted, tick, p.who.side, SL);
    TriggerAwayFromMarket(wanted, tick, p.who.side, SL, 0.0);
    if p.who.side == Long {
      GrossAbove(e, tick, pct, stop);
    } else {
      GrossBelow(e, tick, pct, stop);
    }
  }

  lemma LockTickSecures(cfg: Config, p: Pos, e: Event)
    requires Open(p) && cfg.Complete() && Later(e) && !p.stop.locked
    requires Step(cfg, p, e).0.stop.locked
    ensures cfg.lockOffsetPct.Some?
    ensures var q := Step(cfg, p, e).0; GrossPct(q, q.stop.price) > SecuredPct(cfg, p)
  {
    assert e.Tick?;
    assert p.state == Managed && e.mode == Full && !Degraded(cfg, p, e.regime) && !Crossed(p, e.mark);
    var p0 := p.(stop := p.stop.(crossedNs := None));
    var net := NetPct(cfg, p0, e.mark);
    assert !HeldTooLong(cfg, p0, e.at, net);
    var p1 := TakePartial(cfg, p0, e.at, e.mark, net).0;
    assert p1.stop == p0.stop && p1.who == p.who && p1.entry == p.entry && p1.fundingPct == p.fundingPct;
    var q := Ratchet(cfg, p1, e.at, e.mark, net).0;
    assert q == Step(cfg, p, e).0;
    assert q == ReplaceStop(p1, LockPrice(cfg, p1), e.at).0;
    LockSecures(cfg, p1, e.at);
  }

  /** Profit-lock floor: from the tick that engages the lock, through any later events, closing at
      the stop price grosses more than the cost at the lock plus the offset, less one tick. */
  lemma ProfitLockFloor(cfg: Config, p: Pos, lock: Event, events: seq<Event>)
    requires Open(p) && cfg.Complete() && OnGrid(p)
    requires Later(lock) && forall e <- events :: Later(e)
    requires !p.stop.locked && Step(cfg, p, lock).0.stop.locked
    ensures Open(Step(cfg, p, lock).0) && cfg.lockOffsetPct.Some?
    ensures var r := Run(cfg, Step(cfg, p, lock).0, events).0;
      GrossPct(r, r.stop.price) > SecuredPct(cfg, p)
  {
    LockTickSecures(cfg, p, lock);
    StepKeepsEntry(cfg, p, lock);
    StepTightens(cfg, p, lock);
    var q := Step(cfg, p, lock).0;
    StopNeverLoosens(cfg, q, events);
    GrossMonotone(q, Run(cfg, q, events).0);
  }
}
