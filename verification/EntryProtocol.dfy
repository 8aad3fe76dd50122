/** How a symbol is reserved, entered, owned and freed again (fbot/core/engine.py), as a transition
    system. The market, the strategies and the exchange are the environment: they choose which
    intents are made, what the risk gate reads beside this state, and when orders are answered. */
module EntryProtocol {
  import opened Common
  import opened Ids
  import opened Leases
  import opened Position
  import Risk
  import Features
  import opened Rounding
  import opened Totals

  datatype Held = Held(symbol: string, pos: Pos)

  /** The part of the engine's state the protocol lives in; `pending` maps a symbol to the deadline
      of its reservation. */
  datatype Core = Core(positions: map<string, Held>, bySymbol: map<string, set<string>>,
                       pending: map<string, int>, table: Table)

  const START := Core(map[], map[], map[], EMPTY)

  datatype Setup = Setup(risk: Risk.RiskConfig, position: Config, bars: Features.Config, filters: map<string, Filters>,
                         ttlNs: int, strategy: string)
  {
    predicate Valid() {
      position.Complete() && forall s <- filters :: filters[s].tickSize > 0.0 && filters[s].stepSize > 0.0
    }
  }

  /** An entry order's fill, once the missing fields were taken from the intent that made it. */
  datatype Filled = Filled(posId: string, symbol: string, side: Side, price: real, qty: real, sl: real, tp: real,
                           now: int, isMaker: bool, regime: Option<string>)

  datatype Input =
    | Wanted(intent: Risk.Intent, view: Risk.Inputs, strategy: string, now: int)
    | EntryFilled(fill: Filled)
    | EntryGone(symbol: string)                 // rejected, cancelled, expired or unknown
    | ForPosition(posId: string, event: Event)  // anything that reaches one position
    | ClockTick(now: int)

  // ---- what the engine does

  predicate Live(h: Held) {
    h.pos.state != Closed
  }

  /** Closed, and nothing of its protection is left at the exchange. */
  predicate Finished(h: Held) {
    h.pos.state == Closed && h.pos.active == {}
  }

  function OpenPositions(s: Core): map<string, string> {
    map p | p in s.positions && Live(s.positions[p]) :: s.positions[p].symbol
  }

  /** What a position is counted with: its quantity at the entry price. */
  function Value(h: Held): real {
    Times(h.pos.qty, h.pos.entry.price)
  }

  function OpenValues(s: Core): map<string, real> {
    map p | p in s.positions && Live(s.positions[p]) :: Value(s.positions[p])
  }

  /** The sum over the open positions (engine.py:444); reservations are not in it. */
  ghost function Gross(s: Core): real {
    Total(OpenValues(s))
  }

  /** How many of the bars ever closed a state engine still holds. */
  function BarsHeld(closed: int, keep: nat): int {
    if closed > keep then keep else closed
  }

  /** The environment's facts with what the engine puts in their place (engine.py:437-457): it measures
      no depth, slippage or beta exposure, records no exits, has no strategy budget, and counts the
      bars it holds. `warmup` of the view says how many bars were ever closed. */
  function Passed(setup: Setup, symbol: string, view: Risk.Inputs): Risk.Inputs {
    view.(betaExposure := 0.0, depth := map[], slippageBps := map[symbol := 0.0],
          lastExitMs := map[], lastExitWasLoss := map[], lastStpMs := map[],
          budgetPositions := None, budgetGross := None, strategyOpen := 0, strategyGross := 0.0,
          warmup := map y | y in view.warmup :: BarsHeld(view.warmup[y], Features.Keep(setup.bars)))
  }

  /** What the gate sees: all that, the open positions, the reservations and the lease. */
  ghost function Seen(setup: Setup, s: Core, symbol: string, view: Risk.Inputs): Risk.Inputs {
    Passed(setup, symbol, view).(openPositions := OpenPositions(s), pendingEntries := s.pending.Keys, gross := Gross(s),
          leaseBusy := BusyFor(s.table, symbol, setup.strategy), filters := setup.filters)
  }

  function Reserve(s: Core, symbol: string, strategy: string, now: int, ttl: int): Core {
    s.(pending := s.pending[symbol := now + ttl], table := Acquire(s.table, symbol, strategy, now, ttl).0)
  }

  ghost predicate Askable(setup: Setup, s: Core, i: Risk.Intent, view: Risk.Inputs) {
    !i.reduceOnly && Risk.Divisible(i, Seen(setup, s, i.symbol, view), setup.risk)
  }

  ghost function Asked(setup: Setup, s: Core, i: Risk.Intent, view: Risk.Inputs): Risk.Verdict
    requires Askable(setup, s, i, view)
  {
    Risk.Assess(i, Seen(setup, s, i.symbol, view), setup.risk)
  }

  predicate Orderable(v: Risk.Verdict) {
    v.kind != Risk.Reject && v.qty.Some? && v.qty.value > 0.0
  }

  ghost predicate Accepts(setup: Setup, s: Core, i: Risk.Intent, view: Risk.Inputs)
    requires Askable(setup, s, i, view)
  {
    Orderable(Asked(setup, s, i, view))
  }

  function OnFill(setup: Setup, s: Core, f: Filled): Core
    requires setup.Valid()
  {
    if f.symbol !in setup.filters then s
    else Admit(s, f.posId, HeldFrom(f, setup.filters[f.symbol]))
  }

  function HeldFrom(f: Filled, filters: Filters): Held
    requires filters.tickSize > 0.0 && filters.stepSize > 0.0
  {
    var p := New(Who(f.posId, f.side, filters));
    Held(f.symbol, OnEntryFill(p, f.price, f.qty, f.sl, f.tp, f.now, f.isMaker, f.regime).0)
  }

  function Indexed(s: Core, symbol: string): set<string> {
    if symbol in s.bySymbol then s.bySymbol[symbol] else {}
  }

  function Admit(s: Core, posId: string, held: Held): Core {
    Core(s.positions[posId := held], s.bySymbol[held.symbol := Indexed(s, held.symbol) + {posId}],
         s.pending - {held.symbol}, Bind(s.table, held.symbol, posId))
  }

  function SweepPending(s: Core, now: int): Core {
    s.(pending := map y | y in s.pending && s.pending[y] > now :: s.pending[y])
  }

  function LiveOf(s: Core, symbol: string): set<string> {
    set p | p in Indexed(s, symbol) && p in s.positions && Live(s.positions[p])
  }

  function ReleaseFinished(s: Core): Table {
    s.table.(leases := map y | y in s.table.leases && !(
      var l := s.table.leases[y];
      l.posId.Some? && l.posId.value in s.positions && Finished(s.positions[l.posId.value])) :: s.table.leases[y])
  }

  function LiveIndex(s: Core): map<string, set<string>> {
    map y | y in s.bySymbol && LiveOf(s, y) != {} :: LiveOf(s, y)
  }

  function Reindex(s: Core): Core {
    s.(bySymbol := LiveIndex(s), table := ReleaseFinished(s))
  }

  function Swept(s: Core, now: int): Core {
    SweepPending(s, now).(table := Sweep(s.table, now))
  }

  function OnTick(s: Core, now: int): Core {
    Reindex(Swept(s, now))
  }

  /** Filled; once closed it keeps no protection and nothing can open it again. */
  predicate Kept(p: Pos) {
    Open(p) && (p.state == Closed ==> p.active == {}) && p.prevState != Some(Closed)
  }

  predicate Sound(s: Core) {
    forall p <- s.positions :: Kept(s.positions[p].pos)
  }

  function Notify(setup: Setup, s: Core, posId: string, e: Event): Core
    requires setup.Valid() && Sound(s)
  {
    if posId !in s.positions then s
    else
      var h := s.positions[posId];
      s.(positions := s.positions[posId := h.(pos := Step(setup.position, h.pos, e).0)])
  }

  /** What the environment may do. Only the fill is constrained by the state: an entry order fills
      at most once, while its symbol is reserved. */
  ghost predicate May(setup: Setup, s: Core, e: Input) {
    match e
    case Wanted(i, view, _, _) => Askable(setup, s, i, view)
    case EntryFilled(f) => Fillable(f) && f.posId !in s.positions && f.symbol in s.pending
    case EntryGone(_) => true
    case ForPosition(_, event) => Later(event)
    case ClockTick(_) => true
  }

  predicate Fillable(f: Filled) {
    f.price > 0.0 && f.qty > 0.0 && SEP !in f.posId
  }

  ghost function Next(setup: Setup, s: Core, e: Input): Core
    requires setup.Valid() && Sound(s) && May(setup, s, e)
  {
    match e
    case Wanted(i, view, strategy, now) =>
      if Accepts(setup, s, i, view) then Reserve(s, i.symbol, strategy, now, setup.ttlNs) else s
    case EntryFilled(f) => OnFill(setup, s, f)
    case EntryGone(symbol) => s.(pending := s.pending - {symbol})
    case ForPosition(posId, event) => Notify(setup, s, posId, event)
    case ClockTick(now) => OnTick(s, now)
  }

  // ---- the invariant

  predicate Owned(s: Core) {
    forall p <- s.positions :: Live(s.positions[p]) ==>
      var y := s.positions[p].symbol; y in s.table.leases && s.table.leases[y].posId == Some(p)
  }

  predicate OwnersKnown(s: Core) {
    forall y <- s.table.leases :: s.table.leases[y].posId.Some? ==>
      var p := s.table.leases[y].posId.value; p in s.positions && s.positions[p].symbol == y
  }

  predicate PendingLeased(s: Core) {
    forall y <- s.pending :: y in s.table.leases
      && s.table.leases[y].posId.None? && s.table.leases[y].expiresNs == s.pending[y]
  }

  /** The index holds every open position of a symbol and only positions of that symbol. */
  predicate IndexRight(s: Core) {
    && (forall p <- s.positions :: Live(s.positions[p]) ==> p in Indexed(s, s.positions[p].symbol))
    && (forall y <- s.bySymbol, p <- s.bySymbol[y] :: p in s.positions && s.positions[p].symbol == y)
  }

  function LiveIn(positions: map<string, Held>): set<string> {
    set p | p in positions && Live(positions[p])
  }

  function LiveIds(s: Core): set<string> {
    LiveIn(s.positions)
  }

  predicate WithinCapacity(max: int, s: Core) {
    var used := |LiveIds(s)| + |s.pending|;
    used == 0 || used <= max
  }

  predicate LeasesRight(s: Core) {
    Owned(s) && OwnersKnown(s) && PendingLeased(s) && s.table.conflicts == 0
  }

  predicate Inv(setup: Setup, s: Core) {
    Sound(s) && LeasesRight(s) && IndexRight(s) && WithinCapacity(setup.risk.maxPositions, s)
  }

  /** At most one open position per symbol, and none beside a reservation. */
  predicate Exclusive(s: Core) {
    && (forall p <- s.positions, q <- s.positions ::
          Live(s.positions[p]) && Live(s.positions[q]) && s.positions[p].symbol == s.positions[q].symbol ==> p == q)
    && (forall p <- s.positions :: Live(s.positions[p]) ==> s.positions[p].symbol !in s.pending)
  }

  lemma OwnershipExcludes(s: Core)
    requires Owned(s) && PendingLeased(s)
    ensures Exclusive(s)
  {
  }

  // ---- one lemma per kind of step

  /** The gate accepts only while the symbol is free and there is room for one more. */
  lemma AcceptedIsFree(setup: Setup, s: Core, i: Risk.Intent, view: Risk.Inputs)
    requires Askable(setup, s, i, view) && Accepts(setup, s, i, view)
    ensures i.symbol !in s.pending && i.symbol !in s.table.leases && i.symbol in setup.filters
    ensures |OpenPositions(s)| + |s.pending| < setup.risk.maxPositions
  {
    Risk.AcceptedFindsGatesOpen(i, Seen(setup, s, i.symbol, view), setup.risk);
    FreeIffAcquirable(s.table, i.symbol, setup.strategy, setup.strategy, 0, 0);
  }

  lemma ReserveKeeps(s: Core, symbol: string, strategy: string, now: int, ttl: int)
    requires LeasesRight(s) && symbol !in s.pending && symbol !in s.table.leases
    ensures LeasesRight(Reserve(s, symbol, strategy, now, ttl))
  {
  }

  lemma ReserveCounts(s: Core, symbol: string, strategy: string, now: int, ttl: int)
    requires symbol !in s.pending
    ensures var t := Reserve(s, symbol, strategy, now, ttl);
      LiveIds(t) == LiveIds(s) && |t.pending| == |s.pending| + 1 && (IndexRight(s) ==> IndexRight(t))
  {
    var t := Reserve(s, symbol, strategy, now, ttl);
    assert t.pending.Keys == s.pending.Keys + {symbol};
  }

  lemma OpenCounts(s: Core)
    ensures |LiveIds(s)| == |OpenPositions(s)|
  {
    assert OpenPositions(s).Keys == LiveIds(s);
  }

  lemma OneMoreLive(positions: map<string, Held>, posId: string, held: Held)
    requires posId !in positions && Live(held)
    ensures LiveIn(positions[posId := held]) == LiveIn(positions) + {posId}
    ensures |LiveIn(positions[posId := held])| == |LiveIn(positions)| + 1
  {
    assert LiveIn(positions[posId := held]) == LiveIn(positions) + {posId};
  }

  lemma AdmitCounts(s: Core, posId: string, held: Held)
    requires posId !in s.positions && Live(held)
    ensures var t := Admit(s, posId, held);
      && |LiveIds(t)| == |LiveIds(s)| + 1
      && |t.pending| == |s.pending| - if held.symbol in s.pending then 1 else 0
  {
    OneMoreLive(s.positions, posId, held);
    assert Admit(s, posId, held).pending.Keys == s.pending.Keys - {held.symbol};
  }

  lemma AdmitLeases(s: Core, posId: string, held: Held)
    requires LeasesRight(s) && posId !in s.positions && held.symbol in s.pending
    ensures LeasesRight(Admit(s, posId, held))
  {
  }

  lemma AdmitIndex(s: Core, posId: string, held: Held)
    requires IndexRight(s) && posId !in s.positions
    ensures IndexRight(Admit(s, posId, held))
  {
  }

  lemma FillKeeps(setup: Setup, s: Core, f: Filled)
    requires setup.Valid() && Inv(setup, s) && May(setup, s, EntryFilled(f))
    ensures Inv(setup, OnFill(setup, s, f))
  {
    if f.symbol in setup.filters {
      var h := HeldFrom(f, setup.filters[f.symbol]);
      AdmitCounts(s, f.posId, h);
      AdmitLeases(s, f.posId, h);
      AdmitIndex(s, f.posId, h);
    }
  }

  lemma {:induction false} FewerKeys(a: set<string>, b: set<string>)
    requires a <= b
    ensures |a| <= |b|
    decreases |a|
  {
    if a != {} {
      var x :| x in a;
      FewerKeys(a - {x}, b - {x});
    }
  }

  /** Dropping reservations and unbound leases no reservation needs. */
  lemma FewerReservations(max: int, s: Core, t: Core)
    requires LeasesRight(s) && IndexRight(s) && WithinCapacity(max, s)
    requires t.positions == s.positions && t.bySymbol == s.bySymbol && t.table.conflicts == 0
    requires t.pending.Keys <= s.pending.Keys && t.table.leases.Keys <= s.table.leases.Keys
    requires forall y <- t.pending :: t.pending[y] == s.pending[y] && y in t.table.leases
    requires forall y <- t.table.leases :: t.table.leases[y] == s.table.leases[y]
    requires forall y <- s.table.leases :: s.table.leases[y].posId.Some? ==> y in t.table.leases
    ensures LeasesRight(t) && IndexRight(t) && WithinCapacity(max, t)
  {
    FewerKeys(t.pending.Keys, s.pending.Keys);
  }

  /** A closed position stays closed and takes no protection back. */
  lemma StepKept(cfg: Config, p: Pos, e: Event)
    requires Kept(p) && cfg.Complete() && Later(e)
    ensures var q := Step(cfg, p, e).0; Kept(q) && (p.state == Closed ==> q.state == Closed)
  {
    StepKeepsEntry(cfg, p, e);
  }

  lemma NotifyKeeps(setup: Setup, s: Core, posId: string, e: Event)
    requires setup.Valid() && Inv(setup, s) && Later(e)
    ensures Inv(setup, Notify(setup, s, posId, e))
  {
    if posId in s.positions {
      var h := s.positions[posId];
      StepKept(setup.position, h.pos, e);
      ReplaceKeeps(setup.risk.maxPositions, s, posId, h.(pos := Step(setup.position, h.pos, e).0));
    }
  }

  lemma ReplaceKeeps(max: int, s: Core, posId: string, held: Held)
    requires LeasesRight(s) && IndexRight(s) && WithinCapacity(max, s)
    requires posId in s.positions && held.symbol == s.positions[posId].symbol
    requires !Live(s.positions[posId]) ==> !Live(held)
    ensures var t := s.(positions := s.positions[posId := held]);
      LeasesRight(t) && IndexRight(t) && WithinCapacity(max, t)
  {
    var t := s.(positions := s.positions[posId := held]);
    FewerKeys(LiveIds(t), LiveIds(s));
  }

  lemma ReindexKeeps(max: int, s: Core)
    requires LeasesRight(s) && IndexRight(s) && WithinCapacity(max, s)
    ensures var t := Reindex(s); LeasesRight(t) && IndexRight(t) && WithinCapacity(max, t)
  {
    var t := Reindex(s);
    forall p | p in t.positions && Live(t.positions[p]) ensures p in Indexed(t, t.positions[p].symbol) {
      assert p in LiveOf(s, s.positions[p].symbol);
    }
  }

  lemma TickKeeps(setup: Setup, s: Core, now: int)
    requires Inv(setup, s)
    ensures Inv(setup, OnTick(s, now))
  {
    var t := Swept(s, now);
    FewerReservations(setup.risk.maxPositions, s, t);
    ReindexKeeps(setup.risk.maxPositions, t);
  }

  lemma NextKeeps(setup: Setup, s: Core, e: Input)
    requires setup.Valid() && Inv(setup, s) && May(setup, s, e)
    ensures Inv(setup, Next(setup, s, e))
  {
    match e
    case Wanted(i, view, strategy, now) =>
      if Accepts(setup, s, i, view) {
        AcceptedIsFree(setup, s, i, view);
        ReserveKeeps(s, i.symbol, strategy, now, setup.ttlNs);
        OpenCounts(s);
        ReserveCounts(s, i.symbol, strategy, now, setup.ttlNs);
      }
    case EntryFilled(f) => FillKeeps(setup, s, f);
    case EntryGone(symbol) =>
      FewerReservations(setup.risk.maxPositions, s, s.(pending := s.pending - {symbol}));
    case ForPosition(posId, event) => NotifyKeeps(setup, s, posId, event);
    case ClockTick(now) => TickKeeps(setup, s, now);
  }

  // ---- every run

  lemma NextSound(setup: Setup, s: Core, e: Input)
    requires setup.Valid() && Sound(s) && May(setup, s, e)
    ensures Sound(Next(setup, s, e))
  {
    if e.ForPosition? && e.posId in s.positions {
      StepKept(setup.position, s.positions[e.posId].pos, e.event);
    }
  }

  /** A run the environment may drive from `s`. */
  ghost predicate Possible(setup: Setup, s: Core, events: seq<Input>)
    requires setup.Valid() && Sound(s)
    decreases |events|
  {
    events != [] ==>
      && May(setup, s, events[0])
      && (NextSound(setup, s, events[0]); Possible(setup, Next(setup, s, events[0]), events[1..]))
  }

  ghost function After(setup: Setup, s: Core, events: seq<Input>): Core
    requires setup.Valid() && Sound(s) && Possible(setup, s, events)
    decreases |events|
  {
    if events == [] then s
    else
      NextSound(setup, s, events[0]);
      After(setup, Next(setup, s, events[0]), events[1..])
  }

  lemma {:induction false} RunKeeps(setup: Setup, s: Core, events: seq<Input>)
    requires setup.Valid() && Inv(setup, s) && Possible(setup, s, events)
    ensures Inv(setup, After(setup, s, events))
    decreases |events|
  {
    if events != [] {
      NextKeeps(setup, s, events[0]);
      RunKeeps(setup, Next(setup, s, events[0]), events[1..]);
    }
  }

  /** In every run: at most one open position per symbol and none beside a reservation; open
      positions and reservations never exceed the limit; a reserved symbol holds an unbound lease
      with the reservation's deadline; an open position holds a lease bound to it; no strategy ever
      runs into another's lease; and the index holds exactly what it should. */
  lemma EntryProtocolIsSafe(setup: Setup, events: seq<Input>)
    requires setup.Valid() && Possible(setup, START, events)
    ensures var s := After(setup, START, events);
      && Exclusive(s) && WithinCapacity(setup.risk.maxPositions, s) && PendingLeased(s) && Owned(s) && IndexRight(s)
      && s.table.conflicts == 0
  {
    RunKeeps(setup, START, events);
    OwnershipExcludes(After(setup, START, events));
  }

  /** Whoever asks, an accepted intent gets its lease. */
  lemma AcceptedAlwaysAcquires(setup: Setup, s: Core, i: Risk.Intent, view: Risk.Inputs, strategy: string, now: int)
    requires Askable(setup, s, i, view) && Accepts(setup, s, i, view)
    ensures Acquire(s.table, i.symbol, strategy, now, setup.ttlNs).1
  {
    AcceptedIsFree(setup, s, i, view);
  }

  /** Nothing leaks: after a clock tick every reservation is still running, every lease is running
      or bound to an open position of its symbol, and the index holds open positions only. */
  lemma TickLeavesNoLeak(setup: Setup, s: Core, now: int)
    requires setup.Valid() && Inv(setup, s)
    ensures var t := OnTick(s, now);
      && (forall y <- t.pending :: t.pending[y] > now)
      && (forall y <- t.table.leases :: var l := t.table.leases[y];
            if l.posId.None? then l.expiresNs > now
            else l.posId.value in t.positions && Live(t.positions[l.posId.value])
                 && t.positions[l.posId.value].symbol == y)
      && (forall y <- t.bySymbol :: t.bySymbol[y] != {})
      && (forall y <- t.bySymbol, p <- t.bySymbol[y] :: p in t.positions && Live(t.positions[p]))
  {
  }

  /** So a symbol with no open position and no running lease is free for every strategy. */
  lemma IdleSymbolIsFree(setup: Setup, s: Core, now: int, symbol: string, strategy: string)
    requires setup.Valid() && Inv(setup, s)
    requires forall p <- s.positions :: s.positions[p].symbol == symbol ==> !Live(s.positions[p])
    requires symbol in s.table.leases && s.table.leases[symbol].posId.None? ==> s.table.leases[symbol].expiresNs <= now
    ensures BusyFor(OnTick(s, now).table, symbol, strategy) == None && symbol !in OnTick(s, now).pending
  {
    TickLeavesNoLeak(setup, s, now);
  }

  // ---- fills that come too late

  /** A fill the reservation no longer covers: exclusion survives it exactly when the symbol has no
      open position, ownership exactly when in addition the symbol still holds a lease, and the
      limit exactly when the symbol is still reserved or there is room for one more. */
  lemma LateFillIff(setup: Setup, s: Core, f: Filled)
    requires setup.Valid() && Inv(setup, s) && Fillable(f) && f.posId !in s.positions && f.symbol in setup.filters
    ensures var t := OnFill(setup, s, f);
      && (Exclusive(t) <==> !Taken(s, f.symbol))
      && (Owned(t) <==> !Taken(s, f.symbol) && f.symbol in s.table.leases)
      && (WithinCapacity(setup.risk.maxPositions, t) <==> f.symbol in s.pending || |LiveIds(s)| + |s.pending| < setup.risk.maxPositions)
  {
    OwnershipExcludes(s);
    var h := HeldFrom(f, setup.filters[f.symbol]);
    AdmitCounts(s, f.posId, h);
    AdmitLate(s, f.posId, h);
  }

  predicate Taken(s: Core, symbol: string) {
    exists p <- s.positions :: Live(s.positions[p]) && s.positions[p].symbol == symbol
  }

  lemma AdmitLate(s: Core, posId: string, held: Held)
    requires Owned(s) && PendingLeased(s) && posId !in s.positions && Live(held)
    ensures var t := Admit(s, posId, held);
      && (Exclusive(t) <==> !Taken(s, held.symbol))
      && (Owned(t) <==> !Taken(s, held.symbol) && held.symbol in s.table.leases)
  {
    var t := Admit(s, posId, held);
    assert t.positions[posId] == held;
    forall p | p in s.positions && Live(s.positions[p]) && s.positions[p].symbol == held.symbol
      ensures !Exclusive(t) && !Owned(t)
    {
      assert t.positions[p] == s.positions[p];
    }
  }
}
