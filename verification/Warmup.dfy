/** The warm-up gate reads how many bars the state engine still holds, not how many it has seen
    (fbot/core/engine.py:445, fbot/core/state_engine.py:47-56, fbot/core/risk.py:103-104). */
module Warmup {
  import opened Common
  import opened Features
  import StateEngine
  import EntryProtocol
  import Risk

  /** The window after any history holds as many bars as the gate is told. */
  lemma HeldAreCounted(h: seq<Row>, cfg: Config)
    ensures |StateEngine.Window(h, Keep(cfg))| == EntryProtocol.BarsHeld(|h|, Keep(cfg))
  {
    StateEngine.WindowIsSuffix(h, Keep(cfg));
  }

  /** What the gate reads once the symbol has the history `h`. */
  function AfterBars(x: Risk.Inputs, symbol: string, cfg: Config, h: seq<Row>): Risk.Inputs {
    x.(warmup := x.warmup[symbol := |StateEngine.Window(h, Keep(cfg))|])
  }

  function Warm(x: Risk.Inputs, symbol: string, bars: int): Risk.Inputs {
    x.(warmup := x.warmup[symbol := bars])
  }

  /** After a history the state gates are open exactly when the others are, and both the history and
      the window are as long as the warm-up asks. */
  lemma OpenAfterIff(i: Risk.Intent, x: Risk.Inputs, risk: Risk.RiskConfig, cfg: Config, h: seq<Row>)
    ensures Risk.StateOpen(i, AfterBars(x, i.symbol, cfg, h), risk) <==>
      && risk.warmupBars <= |h| && risk.warmupBars <= Keep(cfg)
      && Risk.StateOpen(i, Warm(x, i.symbol, risk.warmupBars), risk)
  {
    HeldAreCounted(h, cfg);
  }

  function Flat(n: nat): seq<Row> {
    seq(n, _ => Row(0, 1.0, 0.0, 0.0, None))
  }

  /** Over all histories the state gates can open, the others being open, exactly when the warm-up
      asks for no more bars than the window ever holds. */
  lemma WarmupOpensIff(i: Risk.Intent, x: Risk.Inputs, risk: Risk.RiskConfig, cfg: Config)
    ensures (exists h: seq<Row> :: PositiveCloses(h) && Risk.StateOpen(i, AfterBars(x, i.symbol, cfg, h), risk)) <==>
      risk.warmupBars <= Keep(cfg) && Risk.StateOpen(i, Warm(x, i.symbol, risk.warmupBars), risk)
  {
    forall h: seq<Row> | PositiveCloses(h) && Risk.StateOpen(i, AfterBars(x, i.symbol, cfg, h), risk)
      ensures risk.warmupBars <= Keep(cfg) && Risk.StateOpen(i, Warm(x, i.symbol, risk.warmupBars), risk)
    {
      OpenAfterIff(i, x, risk, cfg, h);
    }
    var h := Flat(if risk.warmupBars > 0 then risk.warmupBars else 0);
    assert PositiveCloses(h);
    OpenAfterIff(i, x, risk, cfg, h);
  }

  /** With a longer warm-up every entry is refused after every history. */
  lemma TooLongRefuses(i: Risk.Intent, x: Risk.Inputs, risk: Risk.RiskConfig, cfg: Config, h: seq<Row>)
    requires risk.warmupBars > Keep(cfg) && !i.reduceOnly && Risk.Divisible(i, x, risk)
    ensures Risk.Assess(i, AfterBars(x, i.symbol, cfg, h), risk).kind == Risk.Reject
  {
    OpenAfterIff(i, x, risk, cfg, h);
    Risk.RefusedIff(i, AfterBars(x, i.symbol, cfg, h), risk);
  }
}
