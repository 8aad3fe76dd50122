/** The position state machine as a function on values (fbot/core/position.py).
    `PositionManager.dfy` holds the stateful code that is proved to compute these functions.
    Python's None is an Option where the source tests for it. Entry, stop and target prices are
    None only before the entry fill, when no rule reads them; they are 0 there. */
module Position {
  import opened Common
  import opened Rounding
  import opened Ids

  datatype PosState = EntrySent | Protecting | Managed | Closing | Emergency | Frozen | Closed

  datatype Mode = Full | ProtectionOnly | Halted

  /** Why a position was closed; `Other` is whatever text an exit fill carried. */
  datatype Reason =
    | ProtectTimeout | Degradation | BackupStop | HoldTimeout | StopHit | TargetHit
    | BelowFilter(wanted: Reason)
    | Other(text: string)

  datatype Filters = Filters(stepSize: real, minQty: real, minNotional: real, tickSize: real)

  /** A rule whose parameter is None is switched off. */
  datatype Config = Config(
    tProtectMs: int, tBackupMs: int, minReplaceIntervalMs: int,
    takerFeePct: real, makerFeePct: real, exitTtlMs: int,
    maxHoldMs: Option<int>,
    lockTriggerPct: Option<real>, lockOffsetPct: Option<real>,
    trailStepPct: Option<real>, trailGapPct: Option<real>,
    tp1Pct: Option<real>, tp1Frac: Option<real>,
    degradeMap: map<Option<string>, set<Option<string>>>)
  {
    /** Without these two pairings the source raises when the rule first fires. */
    predicate Complete() {
      (lockTriggerPct.Some? ==> lockOffsetPct.Some?) && (tp1Pct.Some? ==> tp1Frac.Some?)
    }
  }

  /** Fixed when the position object is made. */
  datatype Who = Who(posId: string, side: Side, filters: Filters)

  /** Fixed by the entry fill. */
  datatype Entry = Entry(price: real, qty: real, timeNs: Option<int>, isMaker: bool, regime: Option<string>,
                         tpPrice: real, tpVersion: nat, protectSentNs: Option<int>)

  /** The stop and the rules that move it. */
  datatype Stop = Stop(price: real, version: nat, crossedNs: Option<int>, lastReplaceNs: Option<int>, locked: bool)

  /** Exit orders of this system. */
  datatype Exits = Exits(count: nat, tp1Done: bool, inFlight: Option<OrderId>, sentNs: Option<int>)

  /** The fields of the source's Position, grouped by what changes them. */
  datatype Pos = Pos(
    who: Who, entry: Entry, state: PosState, prevState: Option<PosState>, qty: real,
    reason: Option<Reason>, fundingPct: real, stop: Stop, exits: Exits,
    acked: set<OrderId>, active: set<OrderId>)
  {
    function SlId(): OrderId { AlgoId(who.posId, SL, stop.version) }
    function TpId(): OrderId { AlgoId(who.posId, TP, entry.tpVersion) }
    /** What the state would be if the position were not frozen. */
    function Phase(): PosState {
      if state == Frozen then prevState.GetOr(Managed) else state
    }
    function Tick(): real { who.filters.tickSize }
    function StepSize(): real { who.filters.stepSize }
  }

  datatype AlgoType = StopMarket | TakeProfitMarket

  datatype Command =
    | PlaceAlgo(typ: AlgoType, trigger: real, closePosition: bool, algoId: OrderId, algoQty: Option<real>)
    | CancelAlgo(cancelled: OrderId)
    | PlaceOrder(qty: real, orderId: OrderId)   // market, reduce-only

  /** What reaches a position after its entry order was sent. */
  datatype Event =
    | EntryFill(price: real, qty: real, sl: real, tp: real, now: int, isMaker: bool, regime: Option<string>)
    | AlgoAck(id: OrderId)
    | AlgoTriggered(id: OrderId)
    | ExitFill(fillQty: real, reason: Option<Reason>, clientId: Option<OrderId>)
    | ExitTerminal(terminalId: OrderId)
    | Freeze
    | Unfreeze
    | Funding(pct: real)
    | Tick(at: int, mark: real, regime: Option<string>, mode: Mode)

  function New(who: Who): Pos {
    Pos(who, Entry(0.0, 0.0, None, false, None, 0.0, 0, None), EntrySent, None, 0.0, None, 0.0,
        Stop(0.0, 0, None, None, false), Exits(0, false, None, None), {}, {})
  }

  /** The units the source divides by are positive, and so is the entry price once there is one. */
  predicate Gridded(p: Pos) {
    p.Tick() > 0.0 && p.StepSize() > 0.0
  }

  predicate Priced(p: Pos) {
    Gridded(p) && (p.state != EntrySent ==> p.entry.price > 0.0)
  }

  // ---- accounting

  function GrossPct(p: Pos, mark: real): real
    requires p.entry.price > 0.0
  {
    var r := (mark / p.entry.price - 1.0) * 100.0;
    if p.who.side == Long then r else -r
  }

  function CostPct(cfg: Config, p: Pos): real {
    (if p.entry.isMaker then cfg.makerFeePct else cfg.takerFeePct) + cfg.takerFeePct + p.fundingPct
  }

  function NetPct(cfg: Config, p: Pos, mark: real): real
    requires p.entry.price > 0.0
  {
    GrossPct(p, mark) - CostPct(cfg, p)
  }

  // ---- helpers

  /** Python's `a or b`, where the empty text counts as absent. */
  function OrElse(a: Option<Reason>, b: Option<Reason>): Option<Reason> {
    if a.Some? && a.value != Other("") then a else b
  }

  /** The active protections in the order of their ids; an active id is one of these two (`ProtectionLedger.OwnOnly`). */
  function CancelActive(p: Pos): seq<Command> {
    (if p.SlId() in p.active then [CancelAlgo(p.SlId())] else [])
    + (if p.TpId() in p.active then [CancelAlgo(p.TpId())] else [])
  }

  function ExitQty(p: Pos): real
    requires Gridded(p)
  {
    FloorStep(p.qty, p.StepSize())
  }

  function ReleaseStaleExit(cfg: Config, p: Pos, now: int): Pos {
    if p.exits.inFlight.Some? && p.exits.sentNs.Some? && now - p.exits.sentNs.value >= cfg.exitTtlMs * MS
    then p.(exits := p.exits.(inFlight := None)) else p
  }

  function ExitOrder(p: Pos, tag: ExitTag, now: int): (Pos, seq<Command>)
    requires Gridded(p)
  {
    var id := ExitId(p.who.posId, tag, p.exits.count + 1);
    (p.(exits := p.exits.(count := p.exits.count + 1, inFlight := Some(id), sentNs := Some(now))),
     [PlaceOrder(ExitQty(p), id)])
  }

  function Close(cfg: Config, p: Pos, reason: Reason, now: int): (Pos, seq<Command>)
    requires Gridded(p)
  {
    var p1 := ReleaseStaleExit(cfg, p, now);
    if p1.exits.inFlight.Some? then (p1, [])
    else if ExitQty(p1) < p1.who.filters.minQty then
      (p1.(reason := OrElse(p1.reason, Some(BelowFilter(reason)))), [])
    else ExitOrder(p1.(state := Closing, reason := Some(reason)), X, now)
  }

  // ---- events other than ticks

  function OnEntryFill(p: Pos, price: real, qty: real, sl: real, tp: real, now: int,
                       isMaker: bool, regime: Option<string>): (Pos, seq<Command>)
    requires Gridded(p)
  {
    var entry := Entry(price, qty, Some(now), isMaker, regime, TriggerPrice(tp, p.Tick(), p.who.side, TP), 1, Some(now));
    var stop := p.stop.(price := TriggerPrice(sl, p.Tick(), p.who.side, SL), version := 1);
    var q := p.(entry := entry, stop := stop, qty := qty, state := Protecting,
      active := {AlgoId(p.who.posId, SL, 1), AlgoId(p.who.posId, TP, 1)});
    (q, [PlaceAlgo(StopMarket, stop.price, true, q.SlId(), None),
         PlaceAlgo(TakeProfitMarket, entry.tpPrice, true, q.TpId(), None)])
  }

  function OnAlgoAck(p: Pos, id: OrderId): Pos {
    var q := p.(acked := p.acked + {id});
    if q.state == Protecting && q.SlId() in q.acked && q.TpId() in q.acked then q.(state := Managed) else q
  }

  function OnAlgoTriggered(p: Pos, id: OrderId): (Pos, seq<Command>) {
    var q := p.(active := p.active - {id});
    if q.state == Closed then (q, [])
    else
      var why := if id.AlgoId? && id.role == SL then StopHit else TargetHit;
      (q.(state := Closing, reason := OrElse(q.reason, Some(why)), active := {}), CancelActive(q))
  }

  function OnExitTerminal(p: Pos, id: OrderId): Pos {
    if p.exits.inFlight == Some(id) then p.(exits := p.exits.(inFlight := None, sentNs := None)) else p
  }

  function OnExitFill(p: Pos, qty: real, reason: Option<Reason>, clientId: Option<OrderId>): (Pos, seq<Command>) {
    var q := if clientId.Some? then OnExitTerminal(p, clientId.value) else p.(exits := p.exits.(inFlight := None));
    if qty >= q.qty then
      (q.(qty := 0.0, state := Closed, reason := OrElse(q.reason, reason), active := {}), CancelActive(q))
    else (q.(qty := q.qty - qty), [])
  }

  function OnFreeze(p: Pos): Pos {
    if p.state != Closed && p.state != Frozen then p.(prevState := Some(p.state), state := Frozen) else p
  }

  function OnUnfreeze(p: Pos): Pos {
    if p.state == Frozen then p.(state := p.prevState.GetOr(Managed)) else p
  }

  /** The engine accrues funding on every open position whose entry price is known
      (fbot/core/engine.py:345-349). */
  function OnFunding(p: Pos, pct: real): Pos {
    if p.state != Closed && p.state != EntrySent then p.(fundingPct := p.fundingPct + pct) else p
  }

  // ---- tick rules, in the source's priority

  function TickProtecting(cfg: Config, p: Pos, now: int): (Pos, seq<Command>)
    requires Gridded(p)
  {
    if p.entry.protectSentNs.Some? && now - p.entry.protectSentNs.value > cfg.tProtectMs * MS then
      var p1 := ReleaseStaleExit(cfg, p.(state := Emergency, reason := Some(ProtectTimeout)), now);
      if p1.exits.inFlight.Some? then (p1, []) else ExitOrder(p1, EM, now)
    else (p, [])
  }

  predicate Degraded(cfg: Config, p: Pos, regime: Option<string>) {
    p.entry.regime in cfg.degradeMap && regime in cfg.degradeMap[p.entry.regime]
  }

  predicate Crossed(p: Pos, mark: real) {
    if p.who.side == Long then mark <= p.stop.price else mark >= p.stop.price
  }

  function TickCrossed(cfg: Config, p: Pos, now: int): (Pos, seq<Command>)
    requires Gridded(p)
  {
    if p.stop.crossedNs.None? then (p.(stop := p.stop.(crossedNs := Some(now))), [])
    else if now - p.stop.crossedNs.value > cfg.tBackupMs * MS then Close(cfg, p, BackupStop, now)
    else (p, [])
  }

  predicate HeldTooLong(cfg: Config, p: Pos, now: int, net: real) {
    cfg.maxHoldMs.Some? && p.entry.timeNs.Some? && now - p.entry.timeNs.value > cfg.maxHoldMs.value * MS && net <= 0.0
  }

  function PartialQty(cfg: Config, p: Pos): real
    requires Gridded(p) && cfg.tp1Frac.Some?
  {
    FloorStep(Times(p.qty, cfg.tp1Frac.value), p.StepSize())
  }

  function TakePartial(cfg: Config, p: Pos, now: int, mark: real, net: real): (Pos, seq<Command>)
    requires Gridded(p) && cfg.Complete()
  {
    if cfg.tp1Pct.Some? && !p.exits.tp1Done && net >= cfg.tp1Pct.value then
      var q := PartialQty(cfg, p);
      if q >= p.who.filters.minQty && q * mark >= p.who.filters.minNotional then
        var p1 := ReleaseStaleExit(cfg, p, now);
        if p1.exits.inFlight.Some? then (p1, [])
        else (p1.(exits := p1.exits.(tp1Done := true, count := p1.exits.count + 1)),
              [PlaceOrder(q, ExitId(p.who.posId, TP1, p1.exits.count + 1))])
      else (p, [])
    else (p, [])
  }

  /** Where the profit lock puts the stop when it first engages. */
  function LockPrice(cfg: Config, p: Pos): real
    requires cfg.lockOffsetPct.Some?
  {
    var off := (CostPct(cfg, p) + cfg.lockOffsetPct.value) / 100.0;
    Times(p.entry.price, if p.who.side == Long then 1.0 + off else 1.0 - off)
  }

  function TrailPrice(gapPct: real, p: Pos, mark: real): real {
    Times(mark, if p.who.side == Long then 1.0 - gapPct / 100.0 else 1.0 + gapPct / 100.0)
  }

  function DesiredStop(cfg: Config, p: Pos, mark: real): Option<real>
    requires cfg.lockOffsetPct.Some?
  {
    if !p.stop.locked then Some(LockPrice(cfg, p))
    else if cfg.trailGapPct.Some? then
      var cand := TrailPrice(cfg.trailGapPct.value, p, mark);
      var stepPx := Times(p.entry.price, cfg.trailStepPct.GetOr(0.0)) / 100.0;
      if (if p.who.side == Long then cand >= p.stop.price + stepPx else cand <= p.stop.price - stepPx) then Some(cand) else None
    else None
  }

  predicate Tighter(p: Pos, stop: real) {
    if p.who.side == Long then stop > p.stop.price else stop < p.stop.price
  }

  function ReplaceStop(p: Pos, desired: real, now: int): (Pos, seq<Command>)
    requires Gridded(p)
  {
    var stop := p.stop.(price := TriggerPrice(desired, p.Tick(), p.who.side, SL), version := p.stop.version + 1,
      locked := true, lastReplaceNs := Some(now));
    var newId := AlgoId(p.who.posId, SL, stop.version);
    (p.(stop := stop, active := p.active + {newId} - {p.SlId()}),
     [PlaceAlgo(StopMarket, stop.price, false, newId, Some(FloorStep(p.qty, p.StepSize()))),
      CancelAlgo(p.SlId())])
  }

  function Ratchet(cfg: Config, p: Pos, now: int, mark: real, net: real): (Pos, seq<Command>)
    requires Gridded(p) && cfg.Complete()
  {
    if cfg.lockTriggerPct.Some? && net >= cfg.lockTriggerPct.value then
      var desired := DesiredStop(cfg, p, mark);
      var intervalOk := p.stop.lastReplaceNs.None? || now - p.stop.lastReplaceNs.value >= cfg.minReplaceIntervalMs * MS;
      if desired.Some? && Tighter(p, desired.value) && intervalOk then ReplaceStop(p, desired.value, now)
      else (p, [])
    else (p, [])
  }

  function TickInProfitZone(cfg: Config, p: Pos, now: int, mark: real): (Pos, seq<Command>)
    requires Gridded(p) && cfg.Complete() && p.entry.price > 0.0
  {
    var net := NetPct(cfg, p, mark);
    if HeldTooLong(cfg, p, now, net) then Close(cfg, p, HoldTimeout, now)
    else
      var (p1, partial) := TakePartial(cfg, p, now, mark, net);
      var (p2, replace) := Ratchet(cfg, p1, now, mark, net);
      (p2, partial + replace)
  }

  function OnTick(cfg: Config, p: Pos, now: int, mark: real, regime: Option<string>, mode: Mode): (Pos, seq<Command>)
    requires Priced(p) && cfg.Complete()
  {
    if mode == Halted then (p, [])
    else if p.state == Protecting then TickProtecting(cfg, p, now)
    else if p.state != Managed || mode == ProtectionOnly then (p, [])
    else if Degraded(cfg, p, regime) then Close(cfg, p, Degradation, now)
    else if Crossed(p, mark) then TickCrossed(cfg, p, now)
    else TickInProfitZone(cfg, p.(stop := p.stop.(crossedNs := None)), now, mark)
  }

  // ---- runs

  function Step(cfg: Config, p: Pos, e: Event): (Pos, seq<Command>)
    requires Priced(p) && cfg.Complete()
  {
    match e
    case EntryFill(price, qty, sl, tp, now, isMaker, regime) =>
      OnEntryFill(p, price, qty, sl, tp, now, isMaker, regime)
    case AlgoAck(id) => (OnAlgoAck(p, id), [])
    case AlgoTriggered(id) => OnAlgoTriggered(p, id)
    case ExitFill(qty, reason, clientId) => OnExitFill(p, qty, reason, clientId)
    case ExitTerminal(id) => (OnExitTerminal(p, id), [])
    case Freeze => (OnFreeze(p), [])
    case Unfreeze => (OnUnfreeze(p), [])
    case Funding(pct) => (OnFunding(p, pct), [])
    case Tick(at, mark, regime, mode) => OnTick(cfg, p, at, mark, regime, mode)
  }

  /** Events after the entry fill: the engine fills an entry once (fbot/core/engine.py:236), prices
      are positive and fills have positive quantity. */
  predicate Later(e: Event) {
    !e.EntryFill? && (e.ExitFill? ==> e.fillQty > 0.0) && (e.Tick? ==> e.mark > 0.0)
  }

  /** A filled position. */
  predicate Open(p: Pos) {
    p.state != EntrySent && p.prevState != Some(EntrySent) && Priced(p) && SEP !in p.who.posId
  }

  /** No later event touches what the entry fixed. */
  predicate SameEntry(p: Pos, q: Pos) {
    q.who == p.who && q.entry == p.entry
  }

  lemma TickKeepsEntry(cfg: Config, p: Pos, now: int, mark: real, regime: Option<string>, mode: Mode)
    requires Open(p) && cfg.Complete()
    ensures var q := OnTick(cfg, p, now, mark, regime, mode).0; Open(q) && SameEntry(p, q)
  {
    if p.state == Managed && mode == Full && !Degraded(cfg, p, regime) && !Crossed(p, mark) {
      var p0 := p.(stop := p.stop.(crossedNs := None));
      var net := NetPct(cfg, p0, mark);
      if !HeldTooLong(cfg, p0, now, net) {
        var p1 := TakePartial(cfg, p0, now, mark, net).0;
        assert Open(p1) && SameEntry(p, p1);
        var p2 := Ratchet(cfg, p1, now, mark, net).0;
        assert Open(p2) && SameEntry(p1, p2);
      }
    }
  }

  lemma StepKeepsEntry(cfg: Config, p: Pos, e: Event)
    requires Open(p) && cfg.Complete() && Later(e)
    ensures Open(Step(cfg, p, e).0) && SameEntry(p, Step(cfg, p, e).0)
  {
    if e.Tick? {
      TickKeepsEntry(cfg, p, e.at, e.mark, e.regime, e.mode);
    }
  }

  function Run(cfg: Config, p: Pos, events: seq<Event>): (r: (Pos, seq<Command>))
    requires Open(p) && cfg.Complete()
    requires forall e <- events :: Later(e)
    decreases |events|
    ensures Open(r.0) && SameEntry(p, r.0)
  {
    if events == [] then (p, [])
    else
      StepKeepsEntry(cfg, p, events[0]);
      var (p1, c1) := Step(cfg, p, events[0]);
      var (p2, c2) := Run(cfg, p1, events[1..]);
      (p2, c1 + c2)
  }

  /** An entry fill the engine can deliver. */
  predicate ValidEntry(p: Pos, fill: Event) {
    && p == New(p.who) && SEP !in p.who.posId
    && p.Tick() > 0.0 && p.StepSize() > 0.0
    && fill.EntryFill? && fill.price > 0.0 && fill.qty > 0.0
  }

  /** The whole life of a position: its entry fill, then any later events. */
  function Life(cfg: Config, p: Pos, fill: Event, events: seq<Event>): (Pos, seq<Command>)
    requires ValidEntry(p, fill) && cfg.Complete()
    requires forall e <- events :: Later(e)
  {
    var (p1, c1) := Step(cfg, p, fill);
    var (p2, c2) := Run(cfg, p1, events);
    (p2, c1 + c2)
  }
}
