/** How a fill comes too late: its reservation lapses, the symbol is entered again, and only then the
    first order is filled (fbot/core/engine.py:179-192, 253-257). */
module LateFill {
  import opened Common
  import opened Position
  import opened EntryProtocol
  import opened OpenGates
  import opened Leases
  import Risk

  lemma PlayFirst(setup: Setup, s: Core, e: Input, rest: seq<Input>)
    requires setup.Valid() && Sound(s) && May(setup, s, e) && Sound(Next(setup, s, e))
    requires Possible(setup, Next(setup, s, e), rest)
    ensures Possible(setup, s, [e] + rest) && After(setup, s, [e] + rest) == After(setup, Next(setup, s, e), rest)
  {
    assert ([e] + rest)[1..] == rest;
  }

  const SYMBOL := "S"

  function Price(risk: Risk.RiskConfig): real {
    if risk.grossCap.Some? then risk.grossCap.value else 1.0
  }

  function Asking(risk: Risk.RiskConfig, strategy: string, now: int): Input
    requires Leveraged(risk)
  {
    Wanted(One(SYMBOL, Price(risk)), Calm(risk, SYMBOL, Price(risk)), strategy, now)
  }

  function Fill(posId: string, price: real): Filled {
    Filled(posId, SYMBOL, Long, price, 1.0, price, price, 0, false, None)
  }

  function LapsedRun(risk: Risk.RiskConfig, strategy: string, ttl: int): seq<Input>
    requires Leveraged(risk)
  {
    [Asking(risk, strategy, 0)] + ([ClockTick(ttl)] + ([Asking(risk, strategy, ttl)] + ([EntryFilled(Fill("b", Price(risk)))] + [])))
  }

  ghost predicate Enterable(setup: Setup) {
    && setup.Valid() && Working(setup) && setup.risk.maxPositions >= 1 && Price(setup.risk) > 0.0
    && SYMBOL in setup.filters && setup.filters[SYMBOL] == WHOLE
  }

  lemma FirstAccepted(setup: Setup, strategy: string, now: int)
    requires Enterable(setup)
    ensures var e := Asking(setup.risk, strategy, now);
      May(setup, START, e) && Next(setup, START, e) == Reserve(START, SYMBOL, strategy, now, setup.ttlNs)
  {
    assert OpenValues(START) == map[] && OpenPositions(START) == map[];
    CalmAccepts(setup, START, SYMBOL, Price(setup.risk));
  }

  lemma Lapses(strategy: string, ttl: int)
    ensures EntryProtocol.OnTick(Reserve(START, SYMBOL, strategy, 0, ttl), ttl) == START
  {
    var s := Reserve(START, SYMBOL, strategy, 0, ttl);
    assert Swept(s, ttl).pending == map[] && Swept(s, ttl).table == EMPTY;
    assert LiveIndex(Swept(s, ttl)) == map[];
  }

  /** The state after the second order was filled. */
  function Entered(setup: Setup, strategy: string): Core
    requires setup.Valid()
  {
    OnFill(setup, Reserve(START, SYMBOL, strategy, setup.ttlNs, setup.ttlNs), Fill("b", Price(setup.risk)))
  }

  lemma LapsedRunEnters(setup: Setup, strategy: string)
    requires Enterable(setup)
    ensures var events := LapsedRun(setup.risk, strategy, setup.ttlNs);
      Possible(setup, START, events) && After(setup, START, events) == Entered(setup, strategy)
  {
    var ttl := setup.ttlNs;
    var again := Asking(setup.risk, strategy, ttl);
    var filled := EntryFilled(Fill("b", Price(setup.risk)));
    FirstAccepted(setup, strategy, 0);
    FirstAccepted(setup, strategy, ttl);
    Lapses(strategy, ttl);
    var s := Reserve(START, SYMBOL, strategy, ttl, ttl);
    NextSound(setup, s, filled);
    PlayFirst(setup, s, filled, []);
    PlayFirst(setup, START, again, [filled] + []);
    PlayFirst(setup, Reserve(START, SYMBOL, strategy, 0, ttl), ClockTick(ttl), [again] + ([filled] + []));
    PlayFirst(setup, START, Asking(setup.risk, strategy, 0), [ClockTick(ttl)] + ([again] + ([filled] + [])));
  }

  lemma EnteredState(setup: Setup, strategy: string)
    requires Enterable(setup)
    ensures var s := Entered(setup, strategy);
      "a" !in s.positions && Taken(s, SYMBOL) && LiveIds(s) == {"b"} && s.pending == map[]
  {
    var s := Entered(setup, strategy);
    assert s.positions.Keys == {"b"} && Live(s.positions["b"]) && s.positions["b"].symbol == SYMBOL;
  }

  lemma LateIn(setup: Setup, s: Core)
    requires Enterable(setup) && Inv(setup, s)
    requires "a" !in s.positions && Taken(s, SYMBOL) && |LiveIds(s)| == 1 && s.pending == map[]
    ensures var t := OnFill(setup, s, Fill("a", Price(setup.risk)));
      !Exclusive(t) && !Owned(t) && (setup.risk.maxPositions == 1 ==> !WithinCapacity(setup.risk.maxPositions, t))
  {
    LateFillIff(setup, s, Fill("a", Price(setup.risk)));
  }

  /** Whatever the time to live, the first order's fill then gives the symbol a second open position
      that owns no lease, and with a limit of one position exceeds the limit. */
  lemma LateFillHappens(setup: Setup, strategy: string)
    requires Enterable(setup)
    ensures var events := LapsedRun(setup.risk, strategy, setup.ttlNs);
      && Possible(setup, START, events)
      && var t := OnFill(setup, After(setup, START, events), Fill("a", Price(setup.risk)));
         && !Exclusive(t) && !Owned(t)
         && (setup.risk.maxPositions == 1 ==> !WithinCapacity(setup.risk.maxPositions, t))
  {
    var events := LapsedRun(setup.risk, strategy, setup.ttlNs);
    LapsedRunEnters(setup, strategy);
    RunKeeps(setup, START, events);
    EnteredState(setup, strategy);
    LateIn(setup, Entered(setup, strategy));
  }
}
