/** The stateful position code (fbot/core/position.py), proved to compute the functions of
    `Position`. */
module PositionManager {
  import opened Common
  import opened Rounding
  import opened Ids
  import opened Position

  class PositionRecord {
    const who: Who
    var entry: Entry
    var state: PosState
    var prevState: Option<PosState>
    var qty: real
    var exitReason: Option<Reason>
    var fundingPct: real
    var stop: Stop
    var exits: Exits
    var acked: set<OrderId>
    var activeAlgos: set<OrderId>

    ghost function View(): Pos
      reads this
    {
      Pos(who, entry, state, prevState, qty, exitReason, fundingPct, stop, exits, acked, activeAlgos)
    }

    constructor (who: Who)
      ensures View() == New(who)
    {
      this.who := who;
      entry := Entry(0.0, 0.0, None, false, None, 0.0, 0, None);
      state, prevState, qty := EntrySent, None, 0.0;
      exitReason, fundingPct := None, 0.0;
      stop := Stop(0.0, 0, None, None, false);
      exits := Exits(0, false, None, None);
      acked, activeAlgos := {}, {};
    }

    function SlId(): OrderId
      reads this
    {
      AlgoId(who.posId, SL, stop.version)
    }

    function TpId(): OrderId
      reads this
    {
      AlgoId(who.posId, TP, entry.tpVersion)
    }
  }

  class Manager {
    const cfg: Config

    constructor (cfg: Config)
      ensures this.cfg == cfg
    {
      this.cfg := cfg;
    }

    method CostPct(pos: PositionRecord) returns (r: real)
      ensures r == Position.CostPct(cfg, pos.View())
    {
      var feeIn := if pos.entry.isMaker then cfg.makerFeePct else cfg.takerFeePct;
      r := feeIn + cfg.takerFeePct + pos.fundingPct;
    }

    method NetUnrealizedPct(pos: PositionRecord, mark: real) returns (r: real)
      requires pos.entry.price > 0.0
      ensures r == NetPct(cfg, pos.View(), mark)
    {
      var gross := (mark / pos.entry.price - 1.0) * 100.0;
      var cost := CostPct(pos);
      r := (if pos.who.side == Long then gross else -gross) - cost;
    }

    /** Cancels in the order of the ids' text: the stop's before the target's. */
    method CancelActive(pos: PositionRecord) returns (cmds: seq<Command>)
      modifies pos
      ensures cmds == Position.CancelActive(old(pos.View()))
      ensures pos.View() == old(pos.View()).(active := {})
    {
      cmds := [];
      if pos.SlId() in pos.activeAlgos {
        cmds := cmds + [CancelAlgo(pos.SlId())];
      }
      if pos.TpId() in pos.activeAlgos {
        cmds := cmds + [CancelAlgo(pos.TpId())];
      }
      pos.activeAlgos := {};
    }

    method OnEntryFill(pos: PositionRecord, price: real, qty: real, sl: real, tp: real, now: int,
                       isMaker: bool, entryState: Option<string>) returns (cmds: seq<Command>)
      requires Gridded(pos.View())
      modifies pos
      ensures (pos.View(), cmds) == Position.OnEntryFill(old(pos.View()), price, qty, sl, tp, now, isMaker, entryState)
    {
      pos.qty := qty;
      pos.entry := Entry(price, qty, Some(now), isMaker, entryState,
                         TriggerPrice(tp, pos.who.filters.tickSize, pos.who.side, TP), 1, Some(now));
      pos.stop := pos.stop.(price := TriggerPrice(sl, pos.who.filters.tickSize, pos.who.side, SL), version := 1);
      pos.state := Protecting;
      pos.activeAlgos := {pos.SlId(), pos.TpId()};
      cmds := [PlaceAlgo(StopMarket, pos.stop.price, true, pos.SlId(), None),
               PlaceAlgo(TakeProfitMarket, pos.entry.tpPrice, true, pos.TpId(), None)];
    }

    method OnAlgoAck(pos: PositionRecord, id: OrderId)
      modifies pos
      ensures pos.View() == Position.OnAlgoAck(old(pos.View()), id)
    {
      pos.acked := pos.acked + {id};
      if pos.state == Protecting && pos.SlId() in pos.acked && pos.TpId() in pos.acked {
        pos.state := Managed;
      }
    }

    method OnAlgoTriggered(pos: PositionRecord, id: OrderId) returns (cmds: seq<Command>)
      modifies pos
      ensures (pos.View(), cmds) == Position.OnAlgoTriggered(old(pos.View()), id)
    {
      pos.activeAlgos := pos.activeAlgos - {id};
      if pos.state == Closed {
        return [];
      }
      pos.state := Closing;
      var why := if id.AlgoId? && id.role == SL then StopHit else TargetHit;
      pos.exitReason := OrElse(pos.exitReason, Some(why));
      cmds := CancelActive(pos);
    }

    method OnExitTerminal(pos: PositionRecord, id: OrderId)
      modifies pos
      ensures pos.View() == Position.OnExitTerminal(old(pos.View()), id)
    {
      if pos.exits.inFlight == Some(id) {
        pos.exits := pos.exits.(inFlight := None, sentNs := None);
      }
    }

    method OnExitFill(pos: PositionRecord, qty: real, reason: Option<Reason>, clientId: Option<OrderId>)
      returns (cmds: seq<Command>)
      modifies pos
      ensures (pos.View(), cmds) == Position.OnExitFill(old(pos.View()), qty, reason, clientId)
    {
      if clientId.Some? {
        OnExitTerminal(pos, clientId.value);
      } else {
        pos.exits := pos.exits.(inFlight := None);
      }
      if qty >= pos.qty {
        pos.qty := 0.0;
        pos.state := Closed;
        pos.exitReason := OrElse(pos.exitReason, reason);
        cmds := CancelActive(pos);
        return;
      }
      pos.qty := pos.qty - qty;
      cmds := [];
    }

    method Freeze(pos: PositionRecord)
      modifies pos
      ensures pos.View() == OnFreeze(old(pos.View()))
    {
      if pos.state != Closed && pos.state != Frozen {
        pos.prevState, pos.state := Some(pos.state), Frozen;
      }
    }

    method Unfreeze(pos: PositionRecord)
      modifies pos
      ensures pos.View() == OnUnfreeze(old(pos.View()))
    {
      if pos.state == Frozen {
        pos.state := pos.prevState.GetOr(Managed);
      }
    }

    /** Whether an exit order is still out; forgets one that has outlived its time. */
    method ExitLocked(pos: PositionRecord, now: int) returns (busy: bool)
      modifies pos
      ensures pos.View() == ReleaseStaleExit(cfg, old(pos.View()), now)
      ensures busy <==> pos.exits.inFlight.Some?
    {
      if pos.exits.inFlight.None? {
        return false;
      }
      if pos.exits.sentNs.Some? && now - pos.exits.sentNs.value >= cfg.exitTtlMs * MS {
        pos.exits := pos.exits.(inFlight := None);
        return false;
      }
      return true;
    }

    method ExitOrder(pos: PositionRecord, tag: ExitTag, now: int) returns (c: Command)
      requires Gridded(pos.View())
      modifies pos
      ensures (pos.View(), [c]) == Position.ExitOrder(old(pos.View()), tag, now)
    {
      var cid := ExitId(pos.who.posId, tag, pos.exits.count + 1);
      pos.exits := pos.exits.(count := pos.exits.count + 1, inFlight := Some(cid), sentNs := Some(now));
      c := PlaceOrder(FloorStep(pos.qty, pos.who.filters.stepSize), cid);
    }

    method Close(pos: PositionRecord, reason: Reason, now: int) returns (cmds: seq<Command>)
      requires Gridded(pos.View())
      modifies pos
      ensures (pos.View(), cmds) == Position.Close(cfg, old(pos.View()), reason, now)
    {
      var busy := ExitLocked(pos, now);
      if busy {
        return [];
      }
      if FloorStep(pos.qty, pos.who.filters.stepSize) < pos.who.filters.minQty {
        pos.exitReason := OrElse(pos.exitReason, Some(BelowFilter(reason)));
        return [];
      }
      pos.state := Closing;
      pos.exitReason := Some(reason);
      var c := ExitOrder(pos, X, now);
      cmds := [c];
    }

    method TakePartial(pos: PositionRecord, now: int, mark: real, net: real) returns (cmds: seq<Command>)
      requires Gridded(pos.View()) && cfg.Complete()
      modifies pos
      ensures (pos.View(), cmds) == Position.TakePartial(cfg, old(pos.View()), now, mark, net)
    {
      cmds := [];
      if cfg.tp1Pct.Some? && !pos.exits.tp1Done && net >= cfg.tp1Pct.value {
        var q := FloorStep(Times(pos.qty, cfg.tp1Frac.value), pos.who.filters.stepSize);
        if q >= pos.who.filters.minQty && q * mark >= pos.who.filters.minNotional {
          var busy := ExitLocked(pos, now);
          if !busy {
            pos.exits := pos.exits.(tp1Done := true, count := pos.exits.count + 1);
            cmds := [PlaceOrder(q, ExitId(pos.who.posId, TP1, pos.exits.count))];
          }
        }
      }
    }

    method DesiredStop(pos: PositionRecord, mark: real) returns (desired: Option<real>)
      requires cfg.lockOffsetPct.Some?
      ensures desired == Position.DesiredStop(cfg, pos.View(), mark)
    {
      desired := None;
      if !pos.stop.locked {
        var cost := CostPct(pos);
        var off := (cost + cfg.lockOffsetPct.value) / 100.0;
        desired := Some(Times(pos.entry.price, if pos.who.side == Long then 1.0 + off else 1.0 - off));
      } else if cfg.trailGapPct.Some? {
        var gap := cfg.trailGapPct.value / 100.0;
        var cand := Times(mark, if pos.who.side == Long then 1.0 - gap else 1.0 + gap);
        var stepPx := Times(pos.entry.price, cfg.trailStepPct.GetOr(0.0)) / 100.0;
        if (pos.who.side == Long && cand >= pos.stop.price + stepPx)
          || (pos.who.side == Short && cand <= pos.stop.price - stepPx) {
          desired := Some(cand);
        }
      }
    }

    method Ratchet(pos: PositionRecord, now: int, mark: real, net: real) returns (cmds: seq<Command>)
      requires Gridded(pos.View()) && cfg.Complete()
      modifies pos
      ensures (pos.View(), cmds) == Position.Ratchet(cfg, old(pos.View()), now, mark, net)
    {
      cmds := [];
      if cfg.lockTriggerPct.None? || net < cfg.lockTriggerPct.value {
        return;
      }
      var desired := DesiredStop(pos, mark);
      var favorable := desired.Some?
        && ((pos.who.side == Long && desired.value > pos.stop.price)
            || (pos.who.side == Short && desired.value < pos.stop.price));
      var intervalOk := pos.stop.lastReplaceNs.None?
        || now - pos.stop.lastReplaceNs.value >= cfg.minReplaceIntervalMs * MS;
      if favorable && intervalOk {
        var trigger := TriggerPrice(desired.value, pos.who.filters.tickSize, pos.who.side, SL);
        var oldId := pos.SlId();
        pos.stop := pos.stop.(version := pos.stop.version + 1, price := trigger, locked := true,
                              lastReplaceNs := Some(now));
        pos.activeAlgos := pos.activeAlgos + {pos.SlId()};
        pos.activeAlgos := pos.activeAlgos - {oldId};
        cmds := [PlaceAlgo(StopMarket, trigger, false, pos.SlId(), Some(FloorStep(pos.qty, pos.who.filters.stepSize))),
                 CancelAlgo(oldId)];
      }
    }

    method OnTick(pos: PositionRecord, now: int, mark: real, regime: Option<string>, mode: Mode)
      returns (cmds: seq<Command>)
      requires Priced(pos.View()) && cfg.Complete()
      modifies pos
      ensures (pos.View(), cmds) == Position.OnTick(cfg, old(pos.View()), now, mark, regime, mode)
    {
      if mode == Halted {
        return [];
      }
      if pos.state == Protecting {
        if pos.entry.protectSentNs.Some? && now - pos.entry.protectSentNs.value > cfg.tProtectMs * MS {
          pos.state := Emergency;
          pos.exitReason := Some(ProtectTimeout);
          var busy := ExitLocked(pos, now);
          if busy {
            return [];
          }
          var c := ExitOrder(pos, EM, now);
          return [c];
        }
        return [];
      }
      if pos.state != Managed || mode == ProtectionOnly {
        return [];
      }
      if pos.entry.regime in cfg.degradeMap && regime in cfg.degradeMap[pos.entry.regime] {
        cmds := Close(pos, Degradation, now);
        return;
      }
      var crossed := if pos.who.side == Long then mark <= pos.stop.price else mark >= pos.stop.price;
      if crossed {
        if pos.stop.crossedNs.None? {
          pos.stop := pos.stop.(crossedNs := Some(now));
        } else if now - pos.stop.crossedNs.value > cfg.tBackupMs * MS {
          cmds := Close(pos, BackupStop, now);
          return;
        }
        return [];
      }
      pos.stop := pos.stop.(crossedNs := None);
      var net := NetUnrealizedPct(pos, mark);
      if cfg.maxHoldMs.Some? && pos.entry.timeNs.Some? && now - pos.entry.timeNs.value > cfg.maxHoldMs.value * MS && net <= 0.0 {
        cmds := Close(pos, HoldTimeout, now);
        return;
      }
      var partial := TakePartial(pos, now, mark, net);
      var replace := Ratchet(pos, now, mark, net);
      cmds := partial + replace;
    }
  }
}
