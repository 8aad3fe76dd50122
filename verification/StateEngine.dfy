/** The per-symbol state engine (fbot/core/state_engine.py): a sliding window of bars, a label, and a
    command when the label changes. */
module StateEngine {
  import opened Common
  import opened Features

  /** The report texts of the source's command are functions of the features and the new label. */
  datatype StateChanged = StateChanged(from: StateName, to: StateName, endMs: int, features: Vector)

  /** How a history is judged: by its last feature vector and the label of that. */
  datatype Judge = Judge(a: Arith, k: Kernel, t: Thresholds)

  function Seen(j: Judge, h: seq<Row>): Vector
    requires h != []
  {
    Last(j.a, j.k, h)
  }

  // ---- what the full history says

  function LabelOf(j: Judge, h: seq<Row>): StateName {
    if h == [] then S0 else Regime(Seen(j, h), j.t)
  }

  /** The label changes of a history in which every bar is judged with everything before it. */
  function Changes(j: Judge, h: seq<Row>): seq<StateChanged> {
    if h == [] then []
    else
      var earlier := h[..|h| - 1];
      var from, to := LabelOf(j, earlier), LabelOf(j, h);
      Changes(j, earlier) + (if from == to then [] else [StateChanged(from, to, h[|h| - 1].endMs, Seen(j, h))])
  }

  /** Bars since the last change of label. */
  function Age(j: Judge, h: seq<Row>): nat {
    if h == [] then 0
    else
      var earlier := h[..|h| - 1];
      if LabelOf(j, earlier) == LabelOf(j, h) then Age(j, earlier) + 1 else 0
  }

  // ---- loops of the feature code

  method ComputeRv(a: Arith, bars: seq<Row>, i: nat, n: nat) returns (r: Option<real>)
    requires i < |bars| && PositiveCloses(bars)
    ensures r == Rv(a, bars, i, n)
  {
    if i < n {
      return None;
    }
    var acc := 0.0;
    for k := i - n + 1 to i + 1
      invariant acc == SquareSum(a, bars, i - n + 1, k)
    {
      var ret := a.log(a.div(bars[k].close, bars[k - 1].close));
      acc := a.add(acc, a.mul(ret, ret));
    }
    r := Some(a.sqrt(acc));
  }

  method ComputeRvs(a: Arith, bars: seq<Row>, n: nat) returns (r: Values)
    requires PositiveCloses(bars)
    ensures r == ListOf(a, RvOf(n), bars, |bars|)
  {
    r := [];
    for i := 0 to |bars|
      invariant r == ListOf(a, RvOf(n), bars, i)
    {
      var v := ComputeRv(a, bars, i, n);
      r := r + [v];
    }
  }

  method ComputeFeatures(a: Arith, bars: seq<Row>, cfg: Config) returns (out: seq<Vector>)
    requires cfg.Valid() && PositiveCloses(bars)
    ensures |out| == |bars|
    ensures forall i :: 0 <= i < |bars| ==> out[i] == VectorAt(a, KernelOf(cfg), bars, i)
  {
    var n := |bars|;
    var retS, retL := ListOf(a, RetOf(cfg.nShort), bars, n), ListOf(a, RetOf(cfg.nLong), bars, n);
    var rvS := ComputeRvs(a, bars, cfg.nShort);
    var rvL := ComputeRvs(a, bars, cfg.nLong);
    var imbS, vr := ListOf(a, ImbOf(cfg.nShort), bars, n), ListOf(a, VolRatioOf(cfg.W), bars, n);
    var spread := ListOf(a, SpreadOf, bars, n);
    out := [];
    for i := 0 to n
      invariant |out| == i && forall j :: 0 <= j < i ==> out[j] == VectorAt(a, KernelOf(cfg), bars, j)
    {
      var v := Vector(retS[i], retL[i], rvS[i], rvL[i], imbS[i], vr[i], spread[i],
                      RollingPct(a, retL, i, cfg.W), RollingPct(a, rvL, i, cfg.W), RollingPct(a, rvS, i, cfg.W),
                      RollingPct(a, vr, i, cfg.W), RollingPct(a, spread, i, cfg.W));
      Assembled(a, bars, cfg, i, v);
      out := out + [v];
    }
  }

  /** A vector put together from the lists is the vector of its bar. */
  lemma Assembled(a: Arith, bars: seq<Row>, cfg: Config, i: nat, v: Vector)
    requires i < |bars|
    requires var n := |bars|;
      var retS, retL := ListOf(a, RetOf(cfg.nShort), bars, n), ListOf(a, RetOf(cfg.nLong), bars, n);
      var rvS, rvL := ListOf(a, RvOf(cfg.nShort), bars, n), ListOf(a, RvOf(cfg.nLong), bars, n);
      var imbS, vr := ListOf(a, ImbOf(cfg.nShort), bars, n), ListOf(a, VolRatioOf(cfg.W), bars, n);
      var spread := ListOf(a, SpreadOf, bars, n);
      v == Vector(retS[i], retL[i], rvS[i], rvL[i], imbS[i], vr[i], spread[i],
                  RollingPct(a, retL, i, cfg.W), RollingPct(a, rvL, i, cfg.W), RollingPct(a, rvS, i, cfg.W),
                  RollingPct(a, vr, i, cfg.W), RollingPct(a, spread, i, cfg.W))
    ensures v == VectorAt(a, KernelOf(cfg), bars, i)
  {
    ListAt(a, RetOf(cfg.nShort), bars, |bars|, i);
    ListAt(a, RetOf(cfg.nLong), bars, |bars|, i);
    ListAt(a, RvOf(cfg.nShort), bars, |bars|, i);
    ListAt(a, RvOf(cfg.nLong), bars, |bars|, i);
    ListAt(a, ImbOf(cfg.nShort), bars, |bars|, i);
    ListAt(a, VolRatioOf(cfg.W), bars, |bars|, i);
    ListAt(a, SpreadOf, bars, |bars|, i);
  }

  // ---- the engine

  class SymbolStateEngine {
    const a: Arith
    const cfg: Config
    const t: Thresholds
    var bars: seq<Row>
    var regime: StateName
    var features: Option<Vector>
    var sinceBarMs: Option<int>
    var barsInState: nat
    ghost var history: seq<Row>   // every bar seen

    function J(): Judge {
      Judge(a, KernelOf(cfg), t)
    }

    /** Window, label and age are those of the windowed run over every bar seen. */
    ghost predicate Valid()
      reads this
    {
      && cfg.Valid() && PositiveCloses(history)
      && bars == Window(history, Keep(cfg))
      && Labelled(regime, barsInState) == RunBars(J(), history, Keep(cfg)).0
      && (history != [] ==> bars != [] && features == Some(Seen(J(), bars)))
    }

    constructor (a: Arith, cfg: Config, t: Thresholds)
      requires cfg.Valid()
      ensures Valid() && history == [] && this.a == a && this.cfg == cfg && this.t == t
    {
      this.a, this.cfg, this.t := a, cfg, t;
      bars, regime, features, sinceBarMs, barsInState := [], S0, None, None, 0;
      history := [];
    }

    method Extend(bar: Row)
      modifies `bars, `history
      ensures bars == old(bars) + [bar] && history == old(history) + [bar]
    {
      bars, history := bars + [bar], history + [bar];
    }

    /** Appends a bar and trims to the window. */
    method AppendAndTrim(bar: Row)
      requires cfg.Valid() && PositiveCloses(history) && bar.close > 0.0 && bars == Window(history, Keep(cfg))
      modifies `bars, `history
      ensures history == old(history) + [bar] && bars == Window(history, Keep(cfg)) == Suffix(history, Keep(cfg))
      ensures PositiveCloses(history) && PositiveCloses(bars) && bars != []
    {
      WindowAppend(history, bar, Keep(cfg));
      Extend(bar);
      if |bars| > Keep(cfg) {
        bars := bars[|bars| - Keep(cfg)..];
      }
    }

    /** The last features of the window and their label. */
    method JudgeWindow()
      requires cfg.Valid() && PositiveCloses(bars) && bars != []
      modifies `features, `regime
      ensures features == Some(Seen(J(), bars)) && regime == Regime(Seen(J(), bars), t)
    {
      var all := ComputeFeatures(a, bars, cfg);
      features := Some(all[|all| - 1]);
      regime := Regime(features.value, t);
    }

    /** Labels the window; when the short horizon fits, as the full history would. */
    method OnBar(bar: Row)
      requires Valid() && bar.close > 0.0
      modifies this
      ensures history == old(history) + [bar] && PositiveCloses(history) && bars == Window(history, Keep(cfg)) && bars != []
      ensures features == Some(Seen(J(), bars)) && regime == Regime(Seen(J(), bars), t)
      ensures ShortFits(cfg) ==> features == Some(Seen(J(), history))
      ensures barsInState == old(barsInState) && sinceBarMs == old(sinceBarMs)
    {
      AppendAndTrim(bar);
      JudgeWindow();
      WindowSees(J(), cfg, history);
    }

    /** The commands of a whole life are those of the windowed run; when the short horizon fits, they
        are the label changes of the full history. */
    method OnBarCmds(bar: Row) returns (cmds: seq<StateChanged>)
      requires Valid() && bar.close > 0.0
      modifies this
      ensures Valid() && history == old(history) + [bar]
      ensures RunBars(J(), history, Keep(cfg)).1 == RunBars(J(), old(history), Keep(cfg)).1 + cmds
      ensures ShortFits(cfg) ==> Changes(J(), history) == Changes(J(), old(history)) + cmds
      ensures ShortFits(cfg) ==> regime == LabelOf(J(), history) && barsInState == Age(J(), history)
    {
      var prev := regime;
      OnBar(bar);
      assert history[..|history| - 1] == old(history);
      if ShortFits(cfg) {
        RunMatchesHistory(a, old(history), cfg, t);
        RunMatchesHistory(a, history, cfg, t);
      }
      if regime == prev {
        barsInState := barsInState + 1;
        return [];
      }
      barsInState := 0;
      sinceBarMs := Some(bar.endMs);
      cmds := [StateChanged(prev, regime, bar.endMs, features.value)];
    }
  }

  lemma WindowSees(j: Judge, cfg: Config, h: seq<Row>)
    requires j.k == KernelOf(cfg) && h != []
    ensures Window(h, Keep(cfg)) != []
    ensures ShortFits(cfg) ==> Seen(j, Window(h, Keep(cfg))) == Seen(j, h)
  {
    WindowIsSuffix(h, Keep(cfg));
    FitsWithin(cfg);
    if ShortFits(cfg) {
      WindowSuffices(j.a, j.k, h, Keep(cfg));
    }
  }

  /** Keeping the last k bars one bar at a time keeps the last k bars of everything. */
  lemma SuffixAppend(h: seq<Row>, bar: Row, k: nat)
    requires k >= 1
    ensures Suffix(h + [bar], k) == Suffix(Suffix(h, k) + [bar], k)
  {
  }

  // ---- whole runs as values

  /** The window after a history, kept one bar at a time. */
  function Window(h: seq<Row>, keep: nat): seq<Row> {
    if h == [] then [] else Suffix(Window(h[..|h| - 1], keep) + [h[|h| - 1]], keep)
  }

  /** What the source's engine holds besides its window: its label and the label's age. */
  datatype Labelled = Labelled(regime: StateName, age: nat)

  /** Judging the window after a bar. */
  function Relabel(j: Judge, e: Labelled, window: seq<Row>, endMs: int): (Labelled, seq<StateChanged>)
    requires window != []
  {
    var f := Seen(j, window);
    var to := Regime(f, j.t);
    if to == e.regime then (Labelled(to, e.age + 1), [])
    else (Labelled(to, 0), [StateChanged(e.regime, to, endMs, f)])
  }

  function RunBars(j: Judge, h: seq<Row>, keep: nat): (Labelled, seq<StateChanged>)
    requires keep >= 1
  {
    if h == [] then (Labelled(S0, 0), [])
    else
      var (e, before) := RunBars(j, h[..|h| - 1], keep);
      var (e', cmds) := Relabel(j, e, Window(h, keep), h[|h| - 1].endMs);
      (e', before + cmds)
  }

  lemma WindowAppend(h: seq<Row>, bar: Row, keep: nat)
    requires keep >= 1 && PositiveCloses(h) && bar.close > 0.0
    ensures var more, w := Window(h, keep) + [bar], Window(h + [bar], keep);
      && w == (if |more| > keep then more[|more| - keep..] else more) && w == Suffix(h + [bar], keep)
      && w != [] && PositiveCloses(h + [bar]) && PositiveCloses(w)
  {
    assert (h + [bar])[..|h|] == h;
    WindowIsSuffix(h + [bar], keep);
  }

  lemma {:induction false} WindowIsSuffix(h: seq<Row>, keep: nat)
    requires keep >= 1
    ensures Window(h, keep) == Suffix(h, keep)
  {
    if h != [] {
      var earlier, bar := h[..|h| - 1], h[|h| - 1];
      WindowIsSuffix(earlier, keep);
      SuffixAppend(earlier, bar, keep);
      assert h == earlier + [bar];
    }
  }

  lemma {:induction false} RunMatches(j: Judge, h: seq<Row>, keep: nat)
    requires keep >= 1 && Within(j.k, keep - 1)
    ensures RunBars(j, h, keep) == (Labelled(LabelOf(j, h), Age(j, h)), Changes(j, h))
  {
    if h != [] {
      RunMatches(j, h[..|h| - 1], keep);
      WindowIsSuffix(h, keep);
      WindowSuffices(j.a, j.k, h, keep);
    }
  }

  /** For every history the windowed engine emits exactly the label changes of the full history, with
      the same features, and ends in the same label with the same age. */
  lemma RunMatchesHistory(a: Arith, h: seq<Row>, cfg: Config, t: Thresholds)
    requires cfg.Valid() && ShortFits(cfg) && PositiveCloses(h)
    ensures var j := Judge(a, KernelOf(cfg), t);
      RunBars(j, h, Keep(cfg)) == (Labelled(LabelOf(j, h), Age(j, h)), Changes(j, h))
  {
    FitsWithin(cfg);
    RunMatches(Judge(a, KernelOf(cfg), t), h, Keep(cfg));
  }

  lemma {:induction false} NeverS4(j: Judge, h: seq<Row>, keep: nat)
    requires keep >= 1 && (keep <= Start(j.k.pctVolRatio) || keep <= Start(j.k.pctRvShort))
    ensures RunBars(j, h, keep).0.regime != S4 && forall c <- RunBars(j, h, keep).1 :: c.to != S4
  {
    if h != [] {
      NeverS4(j, h[..|h| - 1], keep);
      WindowIsSuffix(h, keep);
      BlindToS4(j.a, j.k, h, keep, j.t);
    }
  }

  /** No run that keeps only W + nLong + 2 bars ever enters S4 when the long horizon is shorter than
      the percentile window; nor does one with the full window when the short horizon overruns it. */
  lemma TooShortNeverS4(a: Arith, h: seq<Row>, cfg: Config, t: Thresholds, keep: nat)
    requires cfg.Valid()
    requires (keep == cfg.W + cfg.nLong + 2 && cfg.nLong + 1 < cfg.W) || (keep == Keep(cfg) && !ShortFits(cfg))
    ensures var (e, cmds) := RunBars(Judge(a, KernelOf(cfg), t), h, keep);
      e.regime != S4 && forall c <- cmds :: c.to != S4
  {
    BlindConfigurations(cfg);
    NeverS4(Judge(a, KernelOf(cfg), t), h, keep);
  }
}
