/** The checks of the risk gate in the source's order (fbot/core/risk.py), collecting every reason and
    cutting the size on the way, proved to give the verdict of `Risk`. */
module RiskGate {
  import opened Common
  import opened Rounding
  import opened Position
  import opened Risk

  method SetupChecks(i: Intent, x: Inputs, cfg: RiskConfig) returns (reasons: seq<RiskReason>)
    ensures reasons == SetupReasons(i, x, cfg)
  {
    reasons := Add([], x.killSwitch, KillSwitch);
    reasons := Add(reasons, !x.reconciled, Reconciliation);
    reasons := Add(reasons, Get(x.warmup, i.symbol).GetOr(0) < cfg.warmupBars, Warmup);
  }

  method StaleChecks(given: seq<RiskReason>, stale: seq<(string, bool)>) returns (reasons: seq<RiskReason>)
    ensures reasons == AddStale(given, stale)
  {
    reasons := given;
    for n := 0 to |stale|
      invariant reasons == AddStale(given, stale[..n])
    {
      assert stale[..n + 1][..n] == stale[..n];
      reasons := Add(reasons, stale[n].1, Stale(stale[n].0));
    }
    assert stale[..|stale|] == stale;
  }

  method CapacityChecks(given: seq<RiskReason>, i: Intent, x: Inputs, cfg: RiskConfig) returns (reasons: seq<RiskReason>)
    ensures reasons == CapacityReasons(given, i, x, cfg)
  {
    reasons := Add(given, Skewed(x, cfg), ClockSkew);
    reasons := Add(reasons, |x.openPositions| + |x.pendingEntries| >= cfg.maxPositions, MaxPositions);
    if Busy(i, x) {
      reasons := Add(reasons, true, SymbolBusy);
    } else {
      reasons := Add(reasons, Leased(i, x), LeaseBusy(x.leaseBusy.GetOr("")));
    }
    reasons := Add(reasons, x.budgetPositions.Some? && x.strategyOpen >= x.budgetPositions.value, StrategyPositions);
  }

  /** A cap leaves the room under it, never less than nothing. */
  method CutToRoom(size: real, room: real, given: seq<RiskReason>, why: RiskReason)
    returns (notional: real, cut: bool, reasons: seq<RiskReason>)
    ensures notional == ClipTo(size, room) && (cut <==> room < size)
    ensures reasons == Add(given, room < size, why)
  {
    notional, cut, reasons := size, false, given;
    if room < notional {
      reasons := Add(reasons, true, why);
      notional, cut := Max(room, 0.0), true;
    }
  }

  method CutToBeta(exposure: real, sign: real, size: real, beta: real, cap: real, given: seq<RiskReason>)
    returns (notional: real, cut: bool, reasons: seq<RiskReason>)
    ensures cut <==> OverBeta(exposure, sign, size, beta, cap)
    ensures notional == if cut then CutNotional(size, BetaRoom(exposure, sign, beta, cap)) else size
    ensures reasons == Add(given, cut, BetaCap)
  {
    notional, cut, reasons := size, false, given;
    var after := exposure + sign * Times(notional, beta);
    if Abs(after) > cap && Abs(after) > Abs(exposure) {
      var room := if beta != 0.0 then (cap - sign * exposure) / beta else 0.0;
      reasons := Add(reasons, true, BetaCap);
      notional, cut := Max(Min(notional, room), 0.0), true;
    }
  }

  method CutForBeta(i: Intent, x: Inputs, cfg: RiskConfig, size: real, given: seq<RiskReason>)
    returns (notional: real, cut: bool, reasons: seq<RiskReason>)
    requires size == AfterGross(i, x, cfg)
    ensures notional == AfterBeta(i, x, cfg) && (cut <==> BetaBinds(i, x, cfg))
    ensures reasons == Add(Add(given, cfg.betaCap.Some? && i.symbol !in x.betas, BetaUnknown), BetaBinds(i, x, cfg), BetaCap)
  {
    notional, cut, reasons := size, false, given;
    if cfg.betaCap.Some? {
      if i.symbol !in x.betas {
        reasons := Add(reasons, true, BetaUnknown);
      } else {
        notional, cut, reasons :=
          CutToBeta(x.betaExposure, Sign(i), notional, x.betas[i.symbol], cfg.betaCap.value, reasons);
      }
    }
  }

  /** Reassigns the size at each limit that binds. */
  method CutSize(i: Intent, x: Inputs, cfg: RiskConfig, given: seq<RiskReason>)
    returns (notional: real, resized: bool, reasons: seq<RiskReason>)
    requires Divisible(i, x, cfg)
    ensures notional == AfterBeta(i, x, cfg)
    ensures resized <==> StrategyBinds(i, x) || GrossBinds(i, x, cfg) || BetaBinds(i, x, cfg)
    ensures reasons == SizeReasons(given, i, x, cfg)
  {
    notional, resized, reasons := i.notional, false, given;
    if x.budgetGross.Some? {
      notional, resized, reasons := CutToRoom(notional, x.budgetGross.value - x.strategyGross, reasons, StrategyGross);
    }
    assert notional == AfterStrategy(i, x) && reasons == Add(given, StrategyBinds(i, x), StrategyGross);
    var cut := false;
    if cfg.grossCap.Some? {
      notional, cut, reasons := CutToRoom(notional, cfg.grossCap.value - x.gross, reasons, GrossCap);
      resized := resized || cut;
    }
    assert notional == AfterGross(i, x, cfg);
    notional, cut, reasons := CutForBeta(i, x, cfg, notional, reasons);
    resized := resized || cut;
    reasons := Add(reasons, Get(x.accountLeverage, i.symbol) != Some(WantedLeverage(i, cfg)), Leverage);
    reasons := Add(reasons, !HasMargin(notional, i, x, cfg), Margin);
  }

  method AssessIntent(i: Intent, x: Inputs, cfg: RiskConfig) returns (v: Verdict)
    requires Divisible(i, x, cfg)
    ensures v == Assess(i, x, cfg)
  {
    var reasons: seq<RiskReason>, notional, resized := [], i.notional, false;
    if !i.reduceOnly {
      reasons := SetupChecks(i, x, cfg);
      reasons := StaleChecks(reasons, x.stale);
      reasons := CapacityChecks(reasons, i, x, cfg);
      notional, resized, reasons := CutSize(i, x, cfg, reasons);
    }
    var fits := MeetsFilters(notional, i, x);
    reasons := Add(reasons, !fits, FiltersFail);
    if !i.reduceOnly {
      var cut: bool;
      notional, cut, reasons := CutForDepth(i, x, cfg, notional, reasons);
      resized := resized || cut;
      reasons := LateChecks(i, x, cfg, reasons);
    }
    var qty := if i.symbol in x.filters then Some(QtyFor(notional, i.price, x.filters[i.symbol])) else None;
    v := if HasHard(reasons) then Verdict(Reject, reasons, None)
         else Verdict(if resized then Resize else Approve, reasons, qty);
  }

  method CutForDepth(i: Intent, x: Inputs, cfg: RiskConfig, size: real, given: seq<RiskReason>)
    returns (notional: real, cut: bool, reasons: seq<RiskReason>)
    requires Divisible(i, x, cfg) && !i.reduceOnly && size == AfterBeta(i, x, cfg)
    ensures notional == FinalSize(i, x, cfg) && (cut <==> DepthBinds(i, x, cfg))
    ensures reasons == DepthReasons(given, i, x, cfg)
  {
    notional, cut := size, false;
    reasons := Add(given, SpreadTooWide(i, x, cfg), Spread);
    if cfg.participationMax.Some? {
      if i.symbol !in x.depth {
        reasons := Add(reasons, true, ParticipationUnknown);
      } else if notional > Times(cfg.participationMax.value, x.depth[i.symbol]) {
        reasons := Add(reasons, true, Participation);
        notional, cut := Times(cfg.participationMax.value, x.depth[i.symbol]), true;
        reasons := Add(reasons, MeetsFilters(size, i, x) && !MeetsFilters(notional, i, x), FiltersFail);
      }
    }
  }

  method LateChecks(i: Intent, x: Inputs, cfg: RiskConfig, given: seq<RiskReason>) returns (reasons: seq<RiskReason>)
    ensures reasons == LateReasons(given, i, x, cfg)
  {
    reasons := Add(given, SlipsTooMuch(i, x, cfg), Slippage);
    reasons := Add(reasons, Cooling(i, x, cfg), if LostLast(i, x) then CooldownLoss else Cooldown);
    reasons := Add(reasons, CoolingAfterStp(i, x, cfg), CooldownStp);
    reasons := Add(reasons, OutOfOrders(x, cfg), OrderBudget);
    if x.banned {
      reasons := Add(reasons, true, Banned);
    } else {
      reasons := Add(reasons, BackingOff(x, cfg), Backoff);
    }
  }
}
