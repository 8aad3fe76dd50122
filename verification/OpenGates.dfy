/** A state of the surroundings in which the risk gate (fbot/core/risk.py) finds nothing to object to. */
module OpenGates {
  import opened Common
  import opened Rounding
  import opened Position
  import opened EntryProtocol
  import opened Leases
  import opened Products
  import opened Risk
  import Features

  /** The gate divides by the leverage. */
  predicate Leveraged(cfg: RiskConfig) {
    cfg.defaultLeverage > 0 && forall y <- cfg.leverage :: cfg.leverage[y] > 0
  }

  /** Parameters that by themselves let no entry through: every clock is too far off, any share of the
      depth is asked for when none is measured, no slippage is small enough, or more bars are asked
      for than are ever held. */
  predicate Refusing(cfg: RiskConfig, bars: Features.Config) {
    || (cfg.skewMaxMs.Some? && cfg.skewMaxMs.value < 0) || cfg.participationMax.Some?
    || (cfg.slippageMaxBps.Some? && cfg.slippageMaxBps.value < 0.0) || cfg.warmupBars > Features.Keep(bars)
  }

  predicate Working(setup: Setup) {
    Leveraged(setup.risk) && !Refusing(setup.risk, setup.bars)
  }

  /** Of the market gates the engine's own inputs leave these. */
  lemma MarketOpenIff(setup: Setup, s: Core, i: Intent, view: Inputs)
    requires Askable(setup, s, i, view)
    ensures MarketOpen(i, Seen(setup, s, i.symbol, view), setup.risk) <==>
      && setup.risk.participationMax.None? && (setup.risk.slippageMaxBps.Some? ==> setup.risk.slippageMaxBps.value >= 0.0)
      && !SpreadTooWide(i, view, setup.risk) && !OutOfOrders(view, setup.risk) && !view.banned && !BackingOff(view, setup.risk)
  {
  }

  lemma RefusesAll(setup: Setup, s: Core, i: Intent, view: Inputs)
    requires Refusing(setup.risk, setup.bars) && Askable(setup, s, i, view)
    ensures !Accepts(setup, s, i, view)
  {
    MarketOpenIff(setup, s, i, view);
    RefusedIff(i, Seen(setup, s, i.symbol, view), setup.risk);
  }

  /** An exchange that trades whole units from one unit up. */
  const WHOLE := Filters(1.0, 0.0, 0.0, 1.0)

  function One(symbol: string, price: real): Intent {
    Intent(symbol, Long, price, price, false)
  }

  function AtLeast(n: int, least: int): int {
    if n > least then n else least
  }

  function Calm(cfg: RiskConfig, symbol: string, price: real): Inputs
    requires Leveraged(cfg)
  {
    var leverage := WantedLeverage(One(symbol, price), cfg);
    var left := Some(AtLeast(cfg.reserveOrders, 0));
    Inputs(false, true, map[symbol := AtLeast(cfg.warmupBars, 1)], [], Some(0), map[], {}, 0.0, 0.0, map[symbol := 0.0],
           map[symbol := leverage], Some(Max(Times(price / leverage as real, 1.0 + cfg.marginBuffer), 0.0)), map[],
           map[symbol := Min(cfg.spreadMaxBps.GetOr(0.0), 0.0)], map[], map[symbol := 0.0], map[], map[], map[], left, left,
           None, false, 0, None, None, None, 0, 0.0)
  }

  /** Room for one more position, and nobody else in the symbol. */
  ghost predicate Roomy(setup: Setup, s: Core, symbol: string, price: real) {
    && price > 0.0 && symbol in setup.filters && setup.filters[symbol] == WHOLE
    && symbol !in s.pending && symbol !in s.table.leases && symbol !in OpenPositions(s).Values
    && |OpenPositions(s)| + |s.pending| < setup.risk.maxPositions
    && (setup.risk.grossCap.Some? ==> Gross(s) + price <= setup.risk.grossCap.value)
  }

  lemma OneUnit(price: real)
    requires price > 0.0
    ensures QtyFor(price, price, WHOLE) == 1.0
  {
    assert price / price == 1.0;
  }

  lemma CalmFits(setup: Setup, s: Core, symbol: string, price: real)
    requires Working(setup) && Roomy(setup, s, symbol, price)
    ensures var x := Seen(setup, s, symbol, Calm(setup.risk, symbol, price)); Fits(One(symbol, price), x, setup.risk)
  {
    assert Times(price, 0.0) == 0.0;
  }

  lemma CalmIsOpen(setup: Setup, s: Core, symbol: string, price: real)
    requires Working(setup) && Roomy(setup, s, symbol, price)
    ensures Askable(setup, s, One(symbol, price), Calm(setup.risk, symbol, price))
    ensures var x := Seen(setup, s, symbol, Calm(setup.risk, symbol, price));
      StateOpen(One(symbol, price), x, setup.risk) && MarketOpen(One(symbol, price), x, setup.risk)
  {
  }

  /** Then an order for one unit is approved as it stands. */
  lemma CalmAccepts(setup: Setup, s: Core, symbol: string, price: real)
    requires Working(setup) && Roomy(setup, s, symbol, price)
    ensures var (i, view) := (One(symbol, price), Calm(setup.risk, symbol, price));
      Askable(setup, s, i, view) && Accepts(setup, s, i, view) && Asked(setup, s, i, view).qty == Some(1.0)
  {
    var i, x := One(symbol, price), Seen(setup, s, symbol, Calm(setup.risk, symbol, price));
    CalmIsOpen(setup, s, symbol, price);
    CalmFits(setup, s, symbol, price);
    UncutIff(i, x, setup.risk);
    OneUnit(price);
    ApprovedIff(i, x, setup.risk);
  }
}
