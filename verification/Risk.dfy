/** The risk gate (fbot/core/risk.py): an entry is approved, shrunk to fit the limits, or refused. */
module Risk {
  import opened Common
  import opened Rounding
  import opened Position
  import opened Products

  datatype RiskConfig = RiskConfig(
    maxPositions: int, grossCap: Option<real>, betaCap: Option<real>,
    leverage: map<string, int>, defaultLeverage: int, marginBuffer: real,
    spreadMaxBps: Option<real>, participationMax: Option<real>, slippageMaxBps: Option<real>,
    cooldownMs: Option<int>, cooldownLossMs: Option<int>, cooldownStpMs: Option<int>,
    reserveOrders: int, backoffMs: int, skewMaxMs: Option<int>, warmupBars: int)

  /** `stale` lists the data categories in name order, each with whether it is stale. */
  datatype Inputs = Inputs(
    killSwitch: bool, reconciled: bool, warmup: map<string, int>, stale: seq<(string, bool)>, skewMs: Option<int>,
    openPositions: map<string, string>, pendingEntries: set<string>, gross: real, betaExposure: real,
    betas: map<string, real>, accountLeverage: map<string, int>, available: Option<real>,
    filters: map<string, Filters>, spreadBps: map<string, real>, depth: map<string, real>,
    slippageBps: map<string, real>, lastExitMs: map<string, int>, lastExitWasLoss: map<string, bool>,
    lastStpMs: map<string, int>, ordersLeft10s: Option<int>, ordersLeft1m: Option<int>,
    last429Ms: Option<int>, banned: bool, nowMs: int,
    leaseBusy: Option<string>, budgetPositions: Option<int>, budgetGross: Option<real>,
    strategyOpen: int, strategyGross: real)

  datatype Intent = Intent(symbol: string, side: Side, notional: real, price: real, reduceOnly: bool)

  datatype RiskReason =
    | KillSwitch | Reconciliation | Warmup | Stale(category: string) | ClockSkew | MaxPositions
    | SymbolBusy | LeaseBusy(why: string) | StrategyPositions | StrategyGross | GrossCap
    | BetaUnknown | BetaCap | Leverage | Margin | FiltersFail | Spread
    | ParticipationUnknown | Participation | Slippage | Cooldown | CooldownLoss | CooldownStp
    | OrderBudget | Banned | Backoff

  datatype Kind = Approve | Reject | Resize

  datatype Verdict = Verdict(kind: Kind, reasons: seq<RiskReason>, qty: Option<real>)

  /** Reasons that shrink the order instead of refusing it. */
  predicate Soft(r: RiskReason) {
    r == GrossCap || r == BetaCap || r == Participation || r == StrategyGross
  }

  function Get<T>(m: map<string, T>, k: string): Option<T> {
    if k in m then Some(m[k]) else None
  }

  function WantedLeverage(i: Intent, cfg: RiskConfig): int {
    Get(cfg.leverage, i.symbol).GetOr(cfg.defaultLeverage)
  }

  function Sign(i: Intent): real {
    if i.side == Long then 1.0 else -1.0
  }

  /** What the source divides by. */
  predicate Divisible(i: Intent, x: Inputs, cfg: RiskConfig) {
    && i.price > 0.0 && WantedLeverage(i, cfg) > 0
    && (i.symbol in x.filters ==> x.filters[i.symbol].stepSize > 0.0)
  }

  // ---- the size, cut down limit by limit

  function QtyFor(notional: real, price: real, f: Filters): real
    requires price > 0.0 && f.stepSize > 0.0
  {
    FloorStep(notional / price, f.stepSize)
  }

  function ClipTo(notional: real, room: real): real {
    if room < notional then Max(room, 0.0) else notional
  }

  predicate StrategyBinds(i: Intent, x: Inputs) {
    x.budgetGross.Some? && x.budgetGross.value - x.strategyGross < i.notional
  }

  function AfterStrategy(i: Intent, x: Inputs): real {
    if x.budgetGross.Some? then ClipTo(i.notional, x.budgetGross.value - x.strategyGross) else i.notional
  }

  predicate GrossBinds(i: Intent, x: Inputs, cfg: RiskConfig) {
    cfg.grossCap.Some? && cfg.grossCap.value - x.gross < AfterStrategy(i, x)
  }

  function AfterGross(i: Intent, x: Inputs, cfg: RiskConfig): real {
    if cfg.grossCap.Some? then ClipTo(AfterStrategy(i, x), cfg.grossCap.value - x.gross) else AfterStrategy(i, x)
  }

  function ExposureAfter(exposure: real, sign: real, notional: real, beta: real): real {
    exposure + sign * Times(notional, beta)
  }

  predicate OverBeta(exposure: real, sign: real, notional: real, beta: real, cap: real) {
    var after := ExposureAfter(exposure, sign, notional, beta);
    Abs(after) > cap && Abs(after) > Abs(exposure)
  }

  function BetaRoom(exposure: real, sign: real, beta: real, cap: real): real {
    if beta != 0.0 then (cap - sign * exposure) / beta else 0.0
  }

  function CutNotional(notional: real, room: real): real {
    Max(Min(notional, room), 0.0)
  }

  predicate BetaKnown(i: Intent, x: Inputs, cfg: RiskConfig) {
    cfg.betaCap.Some? && i.symbol in x.betas
  }

  predicate BetaBinds(i: Intent, x: Inputs, cfg: RiskConfig) {
    BetaKnown(i, x, cfg)
    && OverBeta(x.betaExposure, Sign(i), AfterGross(i, x, cfg), x.betas[i.symbol], cfg.betaCap.value)
  }

  function AfterBeta(i: Intent, x: Inputs, cfg: RiskConfig): real {
    if BetaBinds(i, x, cfg)
    then CutNotional(AfterGross(i, x, cfg), BetaRoom(x.betaExposure, Sign(i), x.betas[i.symbol], cfg.betaCap.value))
    else AfterGross(i, x, cfg)
  }

  predicate DepthKnown(i: Intent, x: Inputs, cfg: RiskConfig) {
    cfg.participationMax.Some? && i.symbol in x.depth
  }

  function DepthRoom(i: Intent, x: Inputs, cfg: RiskConfig): real
    requires DepthKnown(i, x, cfg)
  {
    Times(cfg.participationMax.value, x.depth[i.symbol])
  }

  predicate DepthBinds(i: Intent, x: Inputs, cfg: RiskConfig) {
    DepthKnown(i, x, cfg) && AfterBeta(i, x, cfg) > DepthRoom(i, x, cfg)
  }

  /** The size the margin check sees; an exit is not cut. */
  function BeforeDepth(i: Intent, x: Inputs, cfg: RiskConfig): real {
    if i.reduceOnly then i.notional else AfterBeta(i, x, cfg)
  }

  /** The size that is sent. */
  function FinalSize(i: Intent, x: Inputs, cfg: RiskConfig): real {
    if !i.reduceOnly && DepthBinds(i, x, cfg) then DepthRoom(i, x, cfg) else BeforeDepth(i, x, cfg)
  }

  predicate Resized(i: Intent, x: Inputs, cfg: RiskConfig) {
    !i.reduceOnly && (StrategyBinds(i, x) || GrossBinds(i, x, cfg) || BetaBinds(i, x, cfg) || DepthBinds(i, x, cfg))
  }

  predicate MeetsFilters(notional: real, i: Intent, x: Inputs)
    requires i.price > 0.0 && (i.symbol in x.filters ==> x.filters[i.symbol].stepSize > 0.0)
  {
    && i.symbol in x.filters
    && var f := x.filters[i.symbol];
       var q := QtyFor(notional, i.price, f);
       q >= f.minQty && Times(q, i.price) >= f.minNotional
  }

  predicate HasMargin(notional: real, i: Intent, x: Inputs, cfg: RiskConfig)
    requires WantedLeverage(i, cfg) > 0
  {
    x.available.Some?
    && x.available.value >= Times(notional / WantedLeverage(i, cfg) as real, 1.0 + cfg.marginBuffer)
  }

  // ---- the reasons, in the source's order

  predicate HasHard(reasons: seq<RiskReason>) {
    exists r <- reasons :: !Soft(r)
  }

  function Add(reasons: seq<RiskReason>, holds: bool, why: RiskReason): (r: seq<RiskReason>)
    ensures HasHard(r) <==> HasHard(reasons) || (holds && !Soft(why))
  {
    if holds then
      assert forall q :: q in reasons + [why] <==> q in reasons || q == why;
      reasons + [why]
    else reasons
  }

  function AddStale(reasons: seq<RiskReason>, stale: seq<(string, bool)>): (r: seq<RiskReason>)
    ensures HasHard(r) <==> HasHard(reasons) || exists c <- stale :: c.1
  {
    if stale == [] then reasons
    else
      var n := |stale| - 1;
      assert forall c :: c in stale <==> c in stale[..n] || c == stale[n];
      Add(AddStale(reasons, stale[..n]), stale[n].1, Stale(stale[n].0))
  }

  predicate Skewed(x: Inputs, cfg: RiskConfig) {
    cfg.skewMaxMs.Some?
    && (x.skewMs.None? || x.skewMs.value > cfg.skewMaxMs.value || -x.skewMs.value > cfg.skewMaxMs.value)
  }

  predicate Busy(i: Intent, x: Inputs) {
    i.symbol in x.openPositions.Values || i.symbol in x.pendingEntries
  }

  predicate Leased(i: Intent, x: Inputs) {
    !Busy(i, x) && x.leaseBusy.Some? && x.leaseBusy.value != ""
  }

  function SetupReasons(i: Intent, x: Inputs, cfg: RiskConfig): seq<RiskReason> {
    var r := Add(Add([], x.killSwitch, KillSwitch), !x.reconciled, Reconciliation);
    Add(r, Get(x.warmup, i.symbol).GetOr(0) < cfg.warmupBars, Warmup)
  }

  function CapacityReasons(given: seq<RiskReason>, i: Intent, x: Inputs, cfg: RiskConfig): seq<RiskReason> {
    var r := Add(given, Skewed(x, cfg), ClockSkew);
    var r := Add(r, |x.openPositions| + |x.pendingEntries| >= cfg.maxPositions, MaxPositions);
    var r := if Busy(i, x) then Add(r, true, SymbolBusy) else Add(r, Leased(i, x), LeaseBusy(x.leaseBusy.GetOr("")));
    Add(r, x.budgetPositions.Some? && x.strategyOpen >= x.budgetPositions.value, StrategyPositions)
  }

  /** K1 to K7 and the strategy's position limit. */
  function StateReasons(i: Intent, x: Inputs, cfg: RiskConfig): seq<RiskReason> {
    CapacityReasons(AddStale(SetupReasons(i, x, cfg), x.stale), i, x, cfg)
  }

  /** K8 to K11, made while the size is being cut. */
  function SizeReasons(given: seq<RiskReason>, i: Intent, x: Inputs, cfg: RiskConfig): seq<RiskReason>
    requires Divisible(i, x, cfg)
  {
    var r := Add(Add(given, StrategyBinds(i, x), StrategyGross), GrossBinds(i, x, cfg), GrossCap);
    var r := Add(r, cfg.betaCap.Some? && i.symbol !in x.betas, BetaUnknown);
    var r := Add(r, BetaBinds(i, x, cfg), BetaCap);
    var r := Add(r, Get(x.accountLeverage, i.symbol) != Some(WantedLeverage(i, cfg)), Leverage);
    Add(r, !HasMargin(AfterBeta(i, x, cfg), i, x, cfg), Margin)
  }

  predicate LostLast(i: Intent, x: Inputs) {
    i.symbol in x.lastExitWasLoss && x.lastExitWasLoss[i.symbol]
  }

  predicate Cooling(i: Intent, x: Inputs, cfg: RiskConfig) {
    var cd := if LostLast(i, x) && cfg.cooldownLossMs.Some? then cfg.cooldownLossMs else cfg.cooldownMs;
    i.symbol in x.lastExitMs && cd.Some? && x.nowMs - x.lastExitMs[i.symbol] < cd.value
  }

  predicate SpreadTooWide(i: Intent, x: Inputs, cfg: RiskConfig) {
    cfg.spreadMaxBps.Some? && (i.symbol !in x.spreadBps || x.spreadBps[i.symbol] > cfg.spreadMaxBps.value)
  }

  predicate SlipsTooMuch(i: Intent, x: Inputs, cfg: RiskConfig) {
    cfg.slippageMaxBps.Some? && (i.symbol !in x.slippageBps || x.slippageBps[i.symbol] > cfg.slippageMaxBps.value)
  }

  predicate CoolingAfterStp(i: Intent, x: Inputs, cfg: RiskConfig) {
    i.symbol in x.lastStpMs && cfg.cooldownStpMs.Some? && x.nowMs - x.lastStpMs[i.symbol] < cfg.cooldownStpMs.value
  }

  predicate OutOfOrders(x: Inputs, cfg: RiskConfig) {
    x.ordersLeft10s.None? || x.ordersLeft1m.None?
    || x.ordersLeft10s.value < cfg.reserveOrders || x.ordersLeft1m.value < cfg.reserveOrders
  }

  predicate BackingOff(x: Inputs, cfg: RiskConfig) {
    x.last429Ms.Some? && x.nowMs - x.last429Ms.value < cfg.backoffMs
  }

  /** K13 and K14; the filters are checked again after a participation cut. */
  function DepthReasons(given: seq<RiskReason>, i: Intent, x: Inputs, cfg: RiskConfig): seq<RiskReason>
    requires Divisible(i, x, cfg)
  {
    var r := Add(Add(given, SpreadTooWide(i, x, cfg), Spread), cfg.participationMax.Some? && i.symbol !in x.depth, ParticipationUnknown);
    var r := Add(r, DepthBinds(i, x, cfg), Participation);
    Add(r, DepthBinds(i, x, cfg) && MeetsFilters(AfterBeta(i, x, cfg), i, x) && !MeetsFilters(FinalSize(i, x, cfg), i, x),
        FiltersFail)
  }

  /** K15 to K18. */
  function LateReasons(given: seq<RiskReason>, i: Intent, x: Inputs, cfg: RiskConfig): seq<RiskReason> {
    var r := Add(given, SlipsTooMuch(i, x, cfg), Slippage);
    var r := Add(r, Cooling(i, x, cfg), if LostLast(i, x) then CooldownLoss else Cooldown);
    var r := Add(r, CoolingAfterStp(i, x, cfg), CooldownStp);
    var r := Add(r, OutOfOrders(x, cfg), OrderBudget);
    if x.banned then Add(r, true, Banned) else Add(r, BackingOff(x, cfg), Backoff)
  }

  function MarketReasons(given: seq<RiskReason>, i: Intent, x: Inputs, cfg: RiskConfig): seq<RiskReason>
    requires Divisible(i, x, cfg)
  {
    LateReasons(DepthReasons(given, i, x, cfg), i, x, cfg)
  }

  /** Exits are checked against the exchange filters only. */
  function Reasons(i: Intent, x: Inputs, cfg: RiskConfig): seq<RiskReason>
    requires Divisible(i, x, cfg)
  {
    if i.reduceOnly then Add([], !MeetsFilters(i.notional, i, x), FiltersFail)
    else
      var sized := SizeReasons(StateReasons(i, x, cfg), i, x, cfg);
      MarketReasons(Add(sized, !MeetsFilters(AfterBeta(i, x, cfg), i, x), FiltersFail), i, x, cfg)
  }

  function Assess(i: Intent, x: Inputs, cfg: RiskConfig): Verdict
    requires Divisible(i, x, cfg)
  {
    var reasons := Reasons(i, x, cfg);
    if HasHard(reasons) then Verdict(Reject, reasons, None)
    else
      Verdict(if Resized(i, x, cfg) then Resize else Approve, reasons,
              if i.symbol in x.filters then Some(QtyFor(FinalSize(i, x, cfg), i.price, x.filters[i.symbol])) else None)
  }

  // ---- what an accepted entry passed

  predicate StateOpen(i: Intent, x: Inputs, cfg: RiskConfig) {
    && !x.killSwitch && x.reconciled && Get(x.warmup, i.symbol).GetOr(0) >= cfg.warmupBars
    && (forall c <- x.stale :: !c.1) && !Skewed(x, cfg)
    && |x.openPositions| + |x.pendingEntries| < cfg.maxPositions && !Busy(i, x) && !Leased(i, x)
    && (x.budgetPositions.Some? ==> x.strategyOpen < x.budgetPositions.value)
  }

  lemma StateHardIff(i: Intent, x: Inputs, cfg: RiskConfig)
    ensures HasHard(StateReasons(i, x, cfg)) <==> !StateOpen(i, x, cfg)
  {
  }

  predicate SizeOpen(i: Intent, x: Inputs, cfg: RiskConfig)
    requires Divisible(i, x, cfg)
  {
    && (cfg.betaCap.Some? ==> i.symbol in x.betas)
    && Get(x.accountLeverage, i.symbol) == Some(WantedLeverage(i, cfg))
    && HasMargin(AfterBeta(i, x, cfg), i, x, cfg)
  }

  lemma SizeHardIff(given: seq<RiskReason>, i: Intent, x: Inputs, cfg: RiskConfig)
    requires Divisible(i, x, cfg)
    ensures HasHard(SizeReasons(given, i, x, cfg)) <==> HasHard(given) || !SizeOpen(i, x, cfg)
  {
  }

  predicate MarketOpen(i: Intent, x: Inputs, cfg: RiskConfig)
    requires Divisible(i, x, cfg)
  {
    && !SpreadTooWide(i, x, cfg) && (cfg.participationMax.Some? ==> i.symbol in x.depth)
    && !SlipsTooMuch(i, x, cfg) && !Cooling(i, x, cfg) && !CoolingAfterStp(i, x, cfg)
    && !OutOfOrders(x, cfg) && !x.banned && !BackingOff(x, cfg)
  }

  lemma MarketHardIff(given: seq<RiskReason>, i: Intent, x: Inputs, cfg: RiskConfig)
    requires Divisible(i, x, cfg)
    ensures HasHard(MarketReasons(given, i, x, cfg)) <==>
      HasHard(given) || !MarketOpen(i, x, cfg)
      || (DepthBinds(i, x, cfg) && MeetsFilters(AfterBeta(i, x, cfg), i, x) && !MeetsFilters(FinalSize(i, x, cfg), i, x))
  {
  }

  /** An entry is refused exactly when one of its gates is shut or its size, before or after the
      participation cut, fails the exchange filters. The four cuts never refuse. */
  lemma RefusedIff(i: Intent, x: Inputs, cfg: RiskConfig)
    requires Divisible(i, x, cfg) && !i.reduceOnly
    ensures Assess(i, x, cfg).kind == Reject <==>
      || !StateOpen(i, x, cfg) || !SizeOpen(i, x, cfg) || !MarketOpen(i, x, cfg)
      || !MeetsFilters(AfterBeta(i, x, cfg), i, x) || !MeetsFilters(FinalSize(i, x, cfg), i, x)
  {
    var sized := SizeReasons(StateReasons(i, x, cfg), i, x, cfg);
    StateHardIff(i, x, cfg);
    SizeHardIff(StateReasons(i, x, cfg), i, x, cfg);
    MarketHardIff(Add(sized, !MeetsFilters(AfterBeta(i, x, cfg), i, x), FiltersFail), i, x, cfg);
  }

  // ---- every accepted entry meets all limits at once

  lemma QtyWithinNotional(notional: real, price: real, f: Filters)
    requires price > 0.0 && f.stepSize > 0.0
    ensures var q := QtyFor(notional, price, f);
      && IsMultiple(q, f.stepSize)
      && (if notional >= 0.0 then 0.0 <= Times(q, price) <= notional else notional <= Times(q, price) <= 0.0)
  {
    if notional >= 0.0 {
      CutWithin(notional, price, f.stepSize);
    } else {
      var m := -notional;
      CutWithin(m, price, f.stepSize);
      NegDiv(m, price);
      MirroredFloor(m / price, f.stepSize);
      var q := FloorStep(m / price, f.stepSize);
      assert QtyFor(notional, price, f) == -q;
      assert Times(-q, price) == -Times(q, price);
      var n: int :| Units(n, f.stepSize) == q;
      assert Units(-n, f.stepSize) == -q;
    }
  }

  lemma CutWithin(notional: real, price: real, step: real)
    requires price > 0.0 && step > 0.0 && notional >= 0.0
    ensures var q := FloorStep(notional / price, step);
      IsMultiple(q, step) && 0.0 <= Times(q, price) <= notional && notional / price >= 0.0
  {
    var r := notional / price;
    assert Times(r, price) == notional;
    NonNegativeQuotient(notional, price);
    FloorStepIsGreatest(r, step, 0.0);
    Scaled(FloorStep(r, step), r, price);
  }

  lemma NonNegativeQuotient(a: real, b: real)
    requires a >= 0.0 && b > 0.0
    ensures a / b >= 0.0
  {
  }

  lemma Scaled(a: real, b: real, c: real)
    requires 0.0 <= a <= b && c > 0.0
    ensures 0.0 <= Times(a, c) <= Times(b, c)
  {
  }

  /** Truncation is symmetric. */
  lemma MirroredFloor(m: real, step: real)
    requires m >= 0.0 && step > 0.0
    ensures FloorStep(-m, step) == -FloorStep(m, step)
  {
    NegDiv(m, step);
    NonNegativeQuotient(m, step);
    assert Trunc(-(m / step)) == -Trunc(m / step);
  }

  /** Between no order and a full one the exposure stays between the two. */
  lemma ExposureBetween(exposure: real, sign: real, part: real, whole: real, beta: real)
    requires sign == 1.0 || sign == -1.0
    requires 0.0 <= part <= whole || whole <= part <= 0.0
    ensures Abs(ExposureAfter(exposure, sign, part, beta))
      <= Max(Abs(exposure), Abs(ExposureAfter(exposure, sign, whole, beta)))
  {
    var a, b := Times(part, beta), Times(whole, beta);
    assert 0.0 <= a <= b || b <= a <= 0.0 by {
      OrderedProducts(part, whole, beta);
    }
  }

  lemma OrderedProducts(a: real, b: real, c: real)
    ensures 0.0 <= a <= b && c >= 0.0 ==> 0.0 <= Times(a, c) <= Times(b, c)
    ensures 0.0 <= a <= b && c <= 0.0 ==> Times(b, c) <= Times(a, c) <= 0.0
    ensures b <= a <= 0.0 && c >= 0.0 ==> Times(b, c) <= Times(a, c) <= 0.0
    ensures b <= a <= 0.0 && c <= 0.0 ==> 0.0 <= Times(a, c) <= Times(b, c)
  {
    SignOfProduct(a, c);
    SignOfProduct(b - a, c);
    assert Times(b - a, c) == Times(b, c) - Times(a, c);
  }

  lemma RoomTimesBeta(exposure: real, sign: real, beta: real, cap: real)
    requires beta != 0.0
    ensures Times(BetaRoom(exposure, sign, beta, cap), beta) == cap - sign * exposure
  {
  }

  /** For either sign of beta and either side, the cut leaves the exposure within the cap, or where it was. */
  lemma BetaCutBounds(exposure: real, sign: real, notional: real, beta: real, cap: real)
    requires (sign == 1.0 || sign == -1.0) && OverBeta(exposure, sign, notional, beta, cap)
    ensures Abs(ExposureAfter(exposure, sign, CutNotional(notional, BetaRoom(exposure, sign, beta, cap)), beta))
      <= Max(Abs(cap), Abs(exposure))
  {
    var room := BetaRoom(exposure, sign, beta, cap);
    var cut := CutNotional(notional, room);
    assert Times(0.0, beta) == 0.0;
    if cut != 0.0 {
      RoomTimesBeta(exposure, sign, beta, cap);
      if cut == notional {
        OrderedProducts(notional, room, beta);
      }
    }
  }

  lemma AfterBetaBounds(i: Intent, x: Inputs, cfg: RiskConfig)
    ensures var n := AfterBeta(i, x, cfg);
      && n <= Max(i.notional, 0.0)
      && (x.budgetGross.Some? ==> n <= Max(x.budgetGross.value - x.strategyGross, 0.0))
      && (cfg.grossCap.Some? ==> n <= Max(cfg.grossCap.value - x.gross, 0.0))
      && (BetaKnown(i, x, cfg) ==>
            Abs(ExposureAfter(x.betaExposure, Sign(i), n, x.betas[i.symbol]))
            <= Max(Abs(cfg.betaCap.value), Abs(x.betaExposure)))
      && (i.notional >= 0.0 ==> n >= 0.0)
  {
    if BetaBinds(i, x, cfg) {
      BetaCutBounds(x.betaExposure, Sign(i), AfterGross(i, x, cfg), x.betas[i.symbol], cfg.betaCap.value);
    }
  }

  /** All limits at once for an order of value `spent`. */
  predicate WithinLimits(spent: real, i: Intent, x: Inputs, cfg: RiskConfig)
    requires WantedLeverage(i, cfg) > 0
  {
    && spent <= Max(i.notional, 0.0)
    && (x.budgetGross.Some? ==> spent <= Max(x.budgetGross.value - x.strategyGross, 0.0))
    && (cfg.grossCap.Some? ==> spent <= Max(cfg.grossCap.value - x.gross, 0.0))
    && (cfg.betaCap.Some? ==>
          && i.symbol in x.betas
          && Abs(ExposureAfter(x.betaExposure, Sign(i), spent, x.betas[i.symbol])) <= Max(Abs(cfg.betaCap.value), Abs(x.betaExposure)))
    && (cfg.marginBuffer >= -1.0 ==> HasMargin(spent, i, x, cfg))
    && (cfg.participationMax.Some? ==>
          i.symbol in x.depth && spent <= Max(DepthRoom(i, x, cfg), 0.0))
  }

  lemma MarginMonotone(a: real, b: real, i: Intent, x: Inputs, cfg: RiskConfig)
    requires WantedLeverage(i, cfg) > 0 && cfg.marginBuffer >= -1.0 && a <= b && HasMargin(b, i, x, cfg)
    ensures HasMargin(a, i, x, cfg)
  {
    var lev, k := WantedLeverage(i, cfg) as real, 1.0 + cfg.marginBuffer;
    QuotientMonotone(a, b, lev);
    SignOfProduct(b / lev - a / lev, k);
    assert Times(b / lev - a / lev, k) == Times(b / lev, k) - Times(a / lev, k);
  }

  lemma QuotientMonotone(a: real, b: real, c: real)
    requires a <= b && c > 0.0
    ensures a / c <= b / c
  {
    NonNegativeQuotient(b - a, c);
    assert (b - a) / c == b / c - a / c;
  }

  /** What an accepted entry spends keeps every limit. */
  lemma SpentWithin(i: Intent, x: Inputs, cfg: RiskConfig, spent: real)
    requires !i.reduceOnly && Divisible(i, x, cfg) && Assess(i, x, cfg).kind != Reject
    requires 0.0 <= spent <= FinalSize(i, x, cfg)
    ensures WithinLimits(spent, i, x, cfg)
  {
    RefusedIff(i, x, cfg);
    AfterBetaBounds(i, x, cfg);
    var n := AfterBeta(i, x, cfg);
    assert spent <= n;
    if cfg.marginBuffer >= -1.0 {
      MarginMonotone(spent, n, i, x, cfg);
    }
    if cfg.betaCap.Some? {
      ExposureBetween(x.betaExposure, Sign(i), spent, n, x.betas[i.symbol]);
    }
  }

  lemma SizeSpent(notional: real, price: real, f: Filters)
    requires price > 0.0 && f.stepSize > 0.0
    ensures var q := QtyFor(notional, price, f);
      IsMultiple(q, f.stepSize) && (q > 0.0 ==> 0.0 <= Times(q, price) <= notional)
  {
    var q := QtyFor(notional, price, f);
    QtyWithinNotional(notional, price, f);
    if q > 0.0 {
      StrictProduct(0.0, q, price);
    }
  }

  /** Every entry that is not refused has a quantity that is a whole number of steps and meets the
      exchange minimums; one with anything to send keeps every limit after all cuts and roundings
      together. A margin buffer below -1 would make larger orders need less margin. */
  lemma AcceptedMeetsAllLimits(i: Intent, x: Inputs, cfg: RiskConfig)
    requires !i.reduceOnly && Divisible(i, x, cfg) && Assess(i, x, cfg).kind != Reject
    ensures var v := Assess(i, x, cfg);
      && i.symbol in x.filters && v.qty.Some?
      && var f := x.filters[i.symbol];
         && IsMultiple(v.qty.value, f.stepSize)
         && v.qty.value >= f.minQty && Times(v.qty.value, i.price) >= f.minNotional
         && (v.qty.value > 0.0 ==> WithinLimits(Times(v.qty.value, i.price), i, x, cfg))
  {
    RefusedIff(i, x, cfg);
    var n, f := FinalSize(i, x, cfg), x.filters[i.symbol];
    var q := QtyFor(n, i.price, f);
    SizeSpent(n, i.price, f);
    if q > 0.0 {
      SpentWithin(i, x, cfg, Times(q, i.price));
    }
  }

  /** An accepted entry also found every state gate open. */
  lemma AcceptedFindsGatesOpen(i: Intent, x: Inputs, cfg: RiskConfig)
    requires !i.reduceOnly && Divisible(i, x, cfg) && Assess(i, x, cfg).kind != Reject
    ensures |x.openPositions| + |x.pendingEntries| < cfg.maxPositions
    ensures i.symbol !in x.openPositions.Values && i.symbol !in x.pendingEntries
    ensures x.leaseBusy.None? || x.leaseBusy.value == ""
    ensures !x.killSwitch && x.reconciled && i.symbol in x.filters
  {
    RefusedIff(i, x, cfg);
  }

  // ---- when an entry passes unchanged

  /** The requested size itself is within every limit. */
  predicate Fits(i: Intent, x: Inputs, cfg: RiskConfig) {
    && (x.budgetGross.Some? ==> i.notional <= x.budgetGross.value - x.strategyGross)
    && (cfg.grossCap.Some? ==> i.notional <= cfg.grossCap.value - x.gross)
    && (BetaKnown(i, x, cfg) ==>
          !OverBeta(x.betaExposure, Sign(i), i.notional, x.betas[i.symbol], cfg.betaCap.value))
    && (DepthKnown(i, x, cfg) ==> i.notional <= DepthRoom(i, x, cfg))
  }

  lemma UncutIff(i: Intent, x: Inputs, cfg: RiskConfig)
    requires !i.reduceOnly
    ensures !Resized(i, x, cfg) <==> Fits(i, x, cfg)
    ensures Fits(i, x, cfg) ==> FinalSize(i, x, cfg) == BeforeDepth(i, x, cfg) == i.notional
  {
  }

  /** An entry is approved exactly when every gate is open and the size it asked for fits every
      limit and the exchange filters; then it gets that size, rounded down. */
  lemma ApprovedIff(i: Intent, x: Inputs, cfg: RiskConfig)
    requires Divisible(i, x, cfg) && !i.reduceOnly
    ensures Assess(i, x, cfg).kind == Approve <==>
      && StateOpen(i, x, cfg) && MarketOpen(i, x, cfg) && Fits(i, x, cfg)
      && SizeOpen(i, x, cfg) && MeetsFilters(i.notional, i, x)
    ensures Assess(i, x, cfg).kind == Approve ==>
      i.symbol in x.filters
      && Assess(i, x, cfg).qty == Some(QtyFor(i.notional, i.price, x.filters[i.symbol]))
  {
    UncutIff(i, x, cfg);
    RefusedIff(i, x, cfg);
  }

  /** An exit is refused exactly when its size fails the exchange filters, whatever the state. */
  lemma ExitRefusedIff(i: Intent, x: Inputs, cfg: RiskConfig)
    requires Divisible(i, x, cfg) && i.reduceOnly
    ensures Assess(i, x, cfg).kind == Reject <==> !MeetsFilters(i.notional, i, x)
    ensures Assess(i, x, cfg).kind != Resize
  {
  }

  // ---- how much a beta cut leaves

  /** No larger size keeps the exposure within the cap. */
  ghost predicate LargestWithin(cut: real, exposure: real, sign: real, notional: real, beta: real, cap: real) {
    forall m: real :: cut < m <= notional ==> Abs(ExposureAfter(exposure, sign, m, beta)) > cap
  }

  /** The cut leaves the largest size within the cap exactly when beta is positive; or with a negative
      beta the exposure is already at the cap, or beyond it, on the side the order pushes it to; or the
      cap is not positive, or nothing was asked for. Otherwise the cut stops where the exposure first
      comes within the cap, or leaves nothing at all. */
  lemma BetaCutLargestIff(exposure: real, sign: real, notional: real, beta: real, cap: real)
    requires sign == 1.0 || sign == -1.0
    requires OverBeta(exposure, sign, notional, beta, cap)
    ensures var cut := CutNotional(notional, BetaRoom(exposure, sign, beta, cap));
      && (beta < 0.0 && sign * exposure <= cap ==> cut == 0.0)
      && (LargestWithin(cut, exposure, sign, notional, beta, cap) <==>
          beta > 0.0 || sign * exposure <= -cap || cap <= 0.0 || notional < 0.0)
  {
    assert beta != 0.0;
    if beta > 0.0 && notional >= 0.0 {
      PositiveBetaCut(exposure, sign, notional, beta, cap);
    } else if notional >= 0.0 {
      NegativeBetaCut(exposure, sign, notional, beta, cap);
    }
  }

  /** The exposure after an order, seen from the side the order adds to. */
  lemma SeenFromSide(exposure: real, sign: real, m: real, beta: real)
    requires sign == 1.0 || sign == -1.0
    ensures Abs(ExposureAfter(exposure, sign, m, beta)) == Abs(sign * exposure + Times(m, beta))
  {
  }

  lemma PositiveBetaCut(exposure: real, sign: real, notional: real, beta: real, cap: real)
    requires (sign == 1.0 || sign == -1.0) && notional >= 0.0 && beta > 0.0
    ensures LargestWithin(CutNotional(notional, BetaRoom(exposure, sign, beta, cap)), exposure, sign, notional, beta, cap)
  {
    var room := BetaRoom(exposure, sign, beta, cap);
    RoomTimesBeta(exposure, sign, beta, cap);
    forall m: real | CutNotional(notional, room) < m <= notional
      ensures Abs(ExposureAfter(exposure, sign, m, beta)) > cap
    {
      StrictProduct(room, m, beta);
      SeenFromSide(exposure, sign, m, beta);
    }
  }

  lemma FallingProduct(a: real, b: real, beta: real)
    requires a < b && beta < 0.0
    ensures Times(b, beta) < Times(a, beta)
  {
    StrictProduct(a, b, -beta);
    assert Times(a, beta) == -Times(a, -beta) && Times(b, beta) == -Times(b, -beta);
  }

  lemma NegativeBetaCut(exposure: real, sign: real, notional: real, beta: real, cap: real)
    requires (sign == 1.0 || sign == -1.0) && notional >= 0.0 && beta < 0.0
    requires OverBeta(exposure, sign, notional, beta, cap)
    ensures var cut := CutNotional(notional, BetaRoom(exposure, sign, beta, cap));
      && (sign * exposure <= cap ==> cut == 0.0)
      && (LargestWithin(cut, exposure, sign, notional, beta, cap) <==> sign * exposure <= -cap || cap <= 0.0)
  {
    var x, room := sign * exposure, BetaRoom(exposure, sign, beta, cap);
    RoomTimesBeta(exposure, sign, beta, cap);
    assert Times(0.0, beta) == 0.0;
    if x <= cap && room > 0.0 {
      FallingProduct(0.0, room, beta);
    }
    if x <= -cap || cap <= 0.0 {
      forall m: real | CutNotional(notional, room) < m <= notional
        ensures Abs(ExposureAfter(exposure, sign, m, beta)) > cap
      {
        FallingProduct(0.0, m, beta);
        FallingProduct(room, m, beta);
        SeenFromSide(exposure, sign, m, beta);
      }
    } else {
      BandIsCrossed(exposure, sign, notional, beta, cap);
    }
  }

  /** The order that takes the exposure to the far edge of the cap is larger than the cut. */
  lemma BandIsCrossed(exposure: real, sign: real, notional: real, beta: real, cap: real)
    requires (sign == 1.0 || sign == -1.0) && notional >= 0.0 && beta < 0.0
    requires OverBeta(exposure, sign, notional, beta, cap) && sign * exposure > -cap && cap > 0.0
    ensures !LargestWithin(CutNotional(notional, BetaRoom(exposure, sign, beta, cap)), exposure, sign, notional, beta, cap)
  {
    var x, room, edge := sign * exposure, BetaRoom(exposure, sign, beta, cap), BetaRoom(exposure, sign, beta, -cap);
    RoomTimesBeta(exposure, sign, beta, cap);
    RoomTimesBeta(exposure, sign, beta, -cap);
    SeenFromSide(exposure, sign, notional, beta);
    SeenFromSide(exposure, sign, edge, beta);
    assert Times(0.0, beta) == 0.0;
    assert edge > 0.0 by {
      if edge < 0.0 {
        FallingProduct(edge, 0.0, beta);
      }
    }
    assert edge > room by {
      if edge < room {
        FallingProduct(edge, room, beta);
      }
    }
    assert edge <= notional by {
      if edge > notional {
        FallingProduct(notional, edge, beta);
      }
      if 0.0 < notional {
        FallingProduct(0.0, notional, beta);
      }
    }
    assert Abs(ExposureAfter(exposure, sign, edge, beta)) <= cap;
  }
}
