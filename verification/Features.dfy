/** Rolling features and state labels (fbot/research/features.py, fbot/research/states.py).
    Floats are reals whose operations are parameters, so every result holds for any rounding. */
module Features {
  import opened Common

  datatype Arith = Arith(add: (real, real) -> real, sub: (real, real) -> real, mul: (real, real) -> real,
                         div: (real, real) -> real, log: real -> real, sqrt: real -> real)

  datatype Row = Row(endMs: int, close: real, volume: real, buyVolume: real, spread: Option<real>)

  /** W: percentile window; the source's rolling percentile raises on an empty window. */
  datatype Config = Config(W: nat, nShort: nat, nLong: nat)
  {
    predicate Valid() { W >= 1 }
  }

  datatype Vector = Vector(
    retShort: Option<real>, retLong: Option<real>, rvShort: Option<real>, rvLong: Option<real>,
    imbShort: Option<real>, volRatio: Option<real>, spread: Option<real>,
    pctRetLong: Option<real>, pctRvLong: Option<real>, pctRvShort: Option<real>,
    pctVolRatio: Option<real>, pctSpread: Option<real>)

  type Values = seq<Option<real>>

  /** The source's logarithms raise on anything else. */
  predicate PositiveCloses(bars: seq<Row>) {
    forall i :: 0 <= i < |bars| ==> bars[i].close > 0.0
  }

  // ---- raw features at one bar

  /** How many of values[lo..hi] are at most v. */
  function CountAtMost(values: Values, lo: nat, hi: nat, v: real): nat
    requires lo <= hi <= |values|
  {
    if lo == hi then 0
    else CountAtMost(values, lo, hi - 1, v) + (if values[hi - 1].Some? && values[hi - 1].value <= v then 1 else 0)
  }

  predicate Defined(values: Values, lo: nat, hi: nat)
    requires lo <= hi <= |values|
  {
    forall k :: lo <= k < hi ==> values[k].Some?
  }

  predicate Constant(values: Values, lo: nat, hi: nat, v: Option<real>)
    requires lo <= hi <= |values|
  {
    forall k :: lo <= k < hi ==> values[k] == v
  }

  /** Share of the previous W values that do not exceed this one; none for a constant window. */
  function RollingPct(a: Arith, values: Values, i: nat, W: nat): Option<real>
    requires i < |values|
  {
    if i < W then None
    else if !Defined(values, i - W, i) || values[i].None? then None
    else if Constant(values, i - W, i, values[i]) then None
    else Some(a.div(CountAtMost(values, i - W, i, values[i].value) as real, W as real))
  }

  function LogRet(a: Arith, bars: seq<Row>, i: nat, n: nat): Option<real>
    requires i < |bars|
  {
    if i < n || bars[i - n].close <= 0.0 then None
    else Some(a.log(a.div(bars[i].close, bars[i - n].close)))
  }

  function SquareSum(a: Arith, bars: seq<Row>, lo: nat, hi: nat): real
    requires 1 <= lo <= hi <= |bars|
  {
    if lo == hi then 0.0
    else
      var r := a.log(a.div(bars[hi - 1].close, bars[hi - 2].close));
      a.add(SquareSum(a, bars, lo, hi - 1), a.mul(r, r))
  }

  function Rv(a: Arith, bars: seq<Row>, i: nat, n: nat): Option<real>
    requires i < |bars|
  {
    if i < n then None else Some(a.sqrt(SquareSum(a, bars, i - n + 1, i + 1)))
  }

  function VolumeSum(a: Arith, bars: seq<Row>, lo: nat, hi: nat): real
    requires lo <= hi <= |bars|
  {
    if lo == hi then 0.0 else a.add(VolumeSum(a, bars, lo, hi - 1), bars[hi - 1].volume)
  }

  function BuySum(a: Arith, bars: seq<Row>, lo: nat, hi: nat): real
    requires lo <= hi <= |bars|
  {
    if lo == hi then 0.0 else a.add(BuySum(a, bars, lo, hi - 1), bars[hi - 1].buyVolume)
  }

  function Imb(a: Arith, bars: seq<Row>, i: nat, n: nat): Option<real>
    requires i < |bars|
  {
    if i < n - 1 then None
    else
      var v := VolumeSum(a, bars, i - n + 1, i + 1);
      if v <= 0.0 then None else Some(a.div(a.sub(a.mul(2.0, BuySum(a, bars, i - n + 1, i + 1)), v), v))
  }

  function VolRatio(a: Arith, bars: seq<Row>, i: nat, W: nat): Option<real>
    requires i < |bars|
  {
    if i < W then None
    else
      var avg := a.div(VolumeSum(a, bars, i - W, i), W as real);
      if avg > 0.0 then Some(a.div(bars[i].volume, avg)) else None
  }

  // ---- the features of every bar

  /** A feature of a bar: a raw one, or the rolling percentile of another. */
  datatype Feature =
    | RetOf(n: nat) | RvOf(n: nat) | ImbOf(n: nat) | VolRatioOf(W: nat) | SpreadOf
    | PctOf(of: Feature, window: nat)

  function Eval(a: Arith, f: Feature, bars: seq<Row>, i: nat): Option<real>
    requires i < |bars|
    decreases f, 1
  {
    match f
    case RetOf(n) => LogRet(a, bars, i, n)
    case RvOf(n) => Rv(a, bars, i, n)
    case ImbOf(n) => Imb(a, bars, i, n)
    case VolRatioOf(W) => VolRatio(a, bars, i, W)
    case SpreadOf => bars[i].spread
    case PctOf(of, W) => RollingPct(a, ListOf(a, of, bars, |bars|), i, W)
  }

  /** The values of a feature at the first k bars. */
  function ListOf(a: Arith, f: Feature, bars: seq<Row>, k: nat): (r: Values)
    requires k <= |bars|
    ensures |r| == k
    decreases f, 2, k
  {
    if k == 0 then [] else ListOf(a, f, bars, k - 1) + [Eval(a, f, bars, k - 1)]
  }

  /** The twelve features the source computes, in its order. */
  datatype Kernel = Kernel(retShort: Feature, retLong: Feature, rvShort: Feature, rvLong: Feature,
                           imbShort: Feature, volRatio: Feature, spread: Feature,
                           pctRetLong: Feature, pctRvLong: Feature, pctRvShort: Feature,
                           pctVolRatio: Feature, pctSpread: Feature)

  function KernelOf(cfg: Config): Kernel {
    Kernel(RetOf(cfg.nShort), RetOf(cfg.nLong), RvOf(cfg.nShort), RvOf(cfg.nLong),
           ImbOf(cfg.nShort), VolRatioOf(cfg.W), SpreadOf,
           PctOf(RetOf(cfg.nLong), cfg.W), PctOf(RvOf(cfg.nLong), cfg.W), PctOf(RvOf(cfg.nShort), cfg.W),
           PctOf(VolRatioOf(cfg.W), cfg.W), PctOf(SpreadOf, cfg.W))
  }

  function VectorAt(a: Arith, k: Kernel, bars: seq<Row>, i: nat): Vector
    requires i < |bars|
  {
    Vector(Eval(a, k.retShort, bars, i), Eval(a, k.retLong, bars, i), Eval(a, k.rvShort, bars, i),
           Eval(a, k.rvLong, bars, i), Eval(a, k.imbShort, bars, i), Eval(a, k.volRatio, bars, i),
           Eval(a, k.spread, bars, i),
           Eval(a, k.pctRetLong, bars, i), Eval(a, k.pctRvLong, bars, i), Eval(a, k.pctRvShort, bars, i),
           Eval(a, k.pctVolRatio, bars, i), Eval(a, k.pctSpread, bars, i))
  }

  function Last(a: Arith, k: Kernel, bars: seq<Row>): Vector
    requires bars != []
  {
    VectorAt(a, k, bars, |bars| - 1)
  }

  // ---- labels

  datatype StateName = S0 | S1 | S2 | S3 | S4

  datatype Thresholds = Thresholds(lo: real, hi: real)

  predicate Above(x: Option<real>, t: real) { x.Some? && x.value > t }
  predicate Below(x: Option<real>, t: real) { x.Some? && x.value < t }
  predicate InBand(x: Option<real>, t: Thresholds) { x.Some? && t.lo <= x.value <= t.hi }

  function Regime(f: Vector, t: Thresholds): StateName {
    if Above(f.pctRvShort, t.hi) && Above(f.pctVolRatio, t.hi) then S4
    else if Above(f.pctRetLong, t.hi) && InBand(f.pctRvLong, t) then S1
    else if Below(f.pctRetLong, t.lo) && InBand(f.pctRvLong, t) then S2
    else if Below(f.pctRvLong, t.lo) && (f.pctSpread.None? || f.pctSpread.value < t.hi) then S3
    else S0
  }

  // ---- a suffix of the history

  lemma {:induction false} SquareSumShift(a: Arith, h: seq<Row>, d: nat, lo: nat, hi: nat)
    requires d + 1 <= lo <= hi <= |h|
    ensures SquareSum(a, h[d..], lo - d, hi - d) == SquareSum(a, h, lo, hi)
    decreases hi
  {
    if lo < hi {
      SquareSumShift(a, h, d, lo, hi - 1);
      assert h[d..][hi - d - 1] == h[hi - 1] && h[d..][hi - d - 2] == h[hi - 2];
    }
  }

  lemma LogRetShift(a: Arith, h: seq<Row>, d: nat, i: nat, n: nat)
    requires d + n <= i < |h|
    ensures LogRet(a, h[d..], i - d, n) == LogRet(a, h, i, n)
  {
  }

  lemma RvShift(a: Arith, h: seq<Row>, d: nat, i: nat, n: nat)
    requires d + n <= i < |h|
    ensures Rv(a, h[d..], i - d, n) == Rv(a, h, i, n)
  {
    SquareSumShift(a, h, d, i - n + 1, i + 1);
  }

  lemma {:induction false} SumsShift(a: Arith, h: seq<Row>, d: nat, lo: nat, hi: nat)
    requires d <= lo <= hi <= |h|
    ensures VolumeSum(a, h[d..], lo - d, hi - d) == VolumeSum(a, h, lo, hi)
    ensures BuySum(a, h[d..], lo - d, hi - d) == BuySum(a, h, lo, hi)
    decreases hi
  {
    if lo < hi {
      SumsShift(a, h, d, lo, hi - 1);
      assert h[d..][hi - d - 1] == h[hi - 1];
    }
  }

  lemma ImbShift(a: Arith, h: seq<Row>, d: nat, i: nat, n: nat)
    requires d + n <= i + 1 && d <= i < |h|
    ensures Imb(a, h[d..], i - d, n) == Imb(a, h, i, n)
  {
    SumsShift(a, h, d, i - n + 1, i + 1);
  }

  lemma VolRatioShift(a: Arith, h: seq<Row>, d: nat, i: nat, W: nat)
    requires d + W <= i < |h|
    ensures VolRatio(a, h[d..], i - d, W) == VolRatio(a, h, i, W)
  {
    SumsShift(a, h, d, i - W, i);
  }

  lemma {:induction false} CountShift(short: Values, long: Values, d: nat, lo: nat, hi: nat, v: real)
    requires d <= lo <= hi <= |long| && |short| == |long| - d
    requires forall j :: lo <= j < hi ==> short[j - d] == long[j]
    ensures CountAtMost(short, lo - d, hi - d, v) == CountAtMost(long, lo, hi, v)
    decreases hi
  {
    if lo < hi {
      CountShift(short, long, d, lo, hi - 1, v);
    }
  }

  lemma RollingShift(a: Arith, short: Values, long: Values, d: nat, i: nat, W: nat)
    requires d + W <= i < |long| && |short| == |long| - d
    requires forall j :: i - W <= j <= i ==> short[j - d] == long[j]
    ensures RollingPct(a, short, i - d, W) == RollingPct(a, long, i, W)
  {
    if long[i].Some? {
      CountShift(short, long, d, i - W, i, long[i].value);
    }
    forall k | i - d - W <= k < i - d ensures short[k] == long[k + d] {
      assert short[(k + d) - d] == long[k + d];
    }
    assert Defined(short, i - d - W, i - d) <==> Defined(long, i - W, i);
    assert Constant(short, i - d - W, i - d, long[i]) <==> Constant(long, i - W, i, long[i]);
  }

  /** Bars the engine keeps: percentiles of a feature that itself looks back W bars. */
  function Keep(cfg: Config): nat {
    2 * cfg.W + cfg.nLong + 2
  }

  function Suffix(h: seq<Row>, k: nat): seq<Row> {
    if |h| <= k then h else h[|h| - k..]
  }

  predicate ShortFits(cfg: Config) {
    cfg.nShort <= cfg.W + cfg.nLong + 1
  }

  /** How many bars a feature looks back; a percentile looks back its window further. */
  function Reach(f: Feature): nat {
    match f
    case RetOf(n) => n
    case RvOf(n) => n
    case ImbOf(n) => n
    case VolRatioOf(W) => W
    case SpreadOf => 0
    case PctOf(of, W) => W + Reach(of)
  }

  lemma {:induction false} ListAt(a: Arith, f: Feature, bars: seq<Row>, k: nat, i: nat)
    requires i < k <= |bars|
    ensures ListOf(a, f, bars, k)[i] == Eval(a, f, bars, i)
    decreases k
  {
    if i < k - 1 {
      ListAt(a, f, bars, k - 1, i);
    }
  }

  /** A feature does not see bars older than its reach removed. */
  lemma {:induction false} EvalShift(a: Arith, f: Feature, h: seq<Row>, d: nat, i: nat)
    requires d + Reach(f) <= i < |h|
    ensures Eval(a, f, h[d..], i - d) == Eval(a, f, h, i)
    decreases f
  {
    match f
    case RetOf(n) => LogRetShift(a, h, d, i, n);
    case RvOf(n) => RvShift(a, h, d, i, n);
    case ImbOf(n) => ImbShift(a, h, d, i, n);
    case VolRatioOf(W) => VolRatioShift(a, h, d, i, W);
    case SpreadOf =>
    case PctOf(of, W) =>
      var short, long := ListOf(a, of, h[d..], |h[d..]|), ListOf(a, of, h, |h|);
      forall j | i - W <= j <= i ensures short[j - d] == long[j] {
        EvalShift(a, of, h, d, j);
        ListAt(a, of, h[d..], |h[d..]|, j - d);
        ListAt(a, of, h, |h|, j);
      }
      RollingShift(a, short, long, d, i, W);
  }

  /** No feature reaches further back than `n` bars. */
  predicate Within(k: Kernel, n: int) {
    && Reach(k.retShort) <= n && Reach(k.retLong) <= n && Reach(k.rvShort) <= n && Reach(k.rvLong) <= n
    && Reach(k.imbShort) <= n && Reach(k.volRatio) <= n && Reach(k.spread) <= n
    && Reach(k.pctRetLong) <= n && Reach(k.pctRvLong) <= n && Reach(k.pctRvShort) <= n
    && Reach(k.pctVolRatio) <= n && Reach(k.pctSpread) <= n
  }

  lemma FitsWithin(cfg: Config)
    ensures ShortFits(cfg) ==> Within(KernelOf(cfg), Keep(cfg) - 1)
  {
  }

  lemma AllSame(a: Arith, h: seq<Row>, b: seq<Row>, d: nat)
    requires d < |h| && b == h[d..]
    ensures forall f: Feature | d + Reach(f) < |h| :: Eval(a, f, b, |b| - 1) == Eval(a, f, h, |h| - 1)
  {
    forall f: Feature | d + Reach(f) < |h| ensures Eval(a, f, b, |b| - 1) == Eval(a, f, h, |h| - 1) {
      EvalShift(a, f, h, d, |h| - 1);
    }
  }

  /** The last feature vector needs no bar older than the window. */
  lemma WindowSuffices(a: Arith, k: Kernel, h: seq<Row>, keep: nat)
    requires h != [] && Within(k, keep - 1)
    ensures Last(a, k, Suffix(h, keep)) == Last(a, k, h)
  {
    if |h| > keep {
      AllSame(a, h, Suffix(h, keep), |h| - keep);
    }
  }

  // ---- both bounds are needed

  /** A history shorter than a feature's reach leaves its percentile undefined. */
  lemma RollingNeedsReach(a: Arith, values: Values, i: nat, W: nat)
    requires i < |values|
    requires i >= W ==> values[i - W].None?
    ensures RollingPct(a, values, i, W).None?
  {
  }

  /** The first bar at which a feature can be defined, for those with a strict start. */
  function Start(f: Feature): nat {
    match f
    case RetOf(n) => n
    case RvOf(n) => n
    case ImbOf(_) => 0
    case VolRatioOf(W) => W
    case SpreadOf => 0
    case PctOf(of, W) => W + Start(of)
  }

  lemma {:induction false} UndefinedBeforeStart(a: Arith, f: Feature, bars: seq<Row>, i: nat)
    requires i < |bars| && i < Start(f)
    ensures Eval(a, f, bars, i).None?
    decreases f
  {
    if f.PctOf? {
      var values := ListOf(a, f.of, bars, |bars|);
      if i >= f.window {
        if f.window == 0 {
          UndefinedBeforeStart(a, f.of, bars, i);
          ListAt(a, f.of, bars, |bars|, i);
        } else {
          UndefinedBeforeStart(a, f.of, bars, i - f.window);
          ListAt(a, f.of, bars, |bars|, i - f.window);
        }
      }
      RollingNeedsReach(a, values, i, f.window);
    }
  }

  /** A window no longer than the start of a percentile S4 needs is never labelled S4. */
  lemma BlindToS4(a: Arith, k: Kernel, h: seq<Row>, keep: nat, t: Thresholds)
    requires h != [] && keep >= 1 && (keep <= Start(k.pctVolRatio) || keep <= Start(k.pctRvShort))
    ensures Regime(Last(a, k, Suffix(h, keep)), t) != S4
  {
    var b := Suffix(h, keep);
    if keep <= Start(k.pctVolRatio) {
      UndefinedBeforeStart(a, k.pctVolRatio, b, |b| - 1);
    } else {
      UndefinedBeforeStart(a, k.pctRvShort, b, |b| - 1);
    }
  }

  /** Two ways to be blind: keeping only W + nLong + 2 bars with a long horizon shorter than the
      percentile window, and a short horizon beyond W + nLong + 1. */
  lemma BlindConfigurations(cfg: Config)
    ensures cfg.nLong + 1 < cfg.W <==> cfg.W + cfg.nLong + 2 <= Start(KernelOf(cfg).pctVolRatio)
    ensures !ShortFits(cfg) <==> Keep(cfg) <= Start(KernelOf(cfg).pctRvShort)
  {
  }

  /** Elementary facts of any usable arithmetic: nothing moves when the price does not, and a doubling does. */
  predicate Discerning(a: Arith) {
    var l := a.log(a.div(2.0, 1.0));
    && a.div(1.0, 1.0) == 1.0 && a.log(1.0) == 0.0 && a.mul(0.0, 0.0) == 0.0 && a.add(0.0, 0.0) == 0.0
    && a.sqrt(a.add(0.0, a.mul(l, l))) != a.sqrt(0.0)
  }

  /** A flat price that doubles in the last bar. */
  function Jump(n: nat): seq<Row> {
    seq(n, i => Row(i, if i == n - 1 then 2.0 else 1.0, 1.0, 0.5, None))
  }

  lemma {:induction false} FlatSquareSum(a: Arith, n: nat, lo: nat, hi: nat)
    requires Discerning(a) && 1 <= lo <= hi < n
    ensures SquareSum(a, Jump(n), lo, hi) == 0.0
    decreases hi
  {
    if lo < hi {
      FlatSquareSum(a, n, lo, hi - 1);
    }
  }

  lemma JumpRvs(a: Arith, n: nat, k: nat, j: nat)
    requires Discerning(a) && 1 <= k <= j < n
    ensures j < n - 1 ==> Rv(a, Jump(n), j, k) == Some(a.sqrt(0.0))
    ensures j == n - 1 ==> Rv(a, Jump(n), j, k).Some? && Rv(a, Jump(n), j, k) != Some(a.sqrt(0.0))
  {
    if j < n - 1 {
      FlatSquareSum(a, n, j - k + 1, j + 1);
    } else {
      FlatSquareSum(a, n, j - k + 1, j);
      var l := a.log(a.div(2.0, 1.0));
      assert SquareSum(a, Jump(n), j - k + 1, j + 1) == a.add(0.0, a.mul(l, l));
    }
  }

  lemma RollingSees(a: Arith, values: Values, i: nat, W: nat, flat: Option<real>)
    requires W >= 1 && W <= i < |values|
    requires values[i].Some? && flat.Some? && values[i] != flat
    requires forall j :: i - W <= j < i ==> values[j] == flat
    ensures RollingPct(a, values, i, W).Some?
  {
    assert values[i - W] == flat;
  }

  lemma JumpIsSeen(a: Arith, n: nat, W: nat)
    requires Discerning(a) && W >= 1 && n >= 1
    ensures Eval(a, PctOf(RvOf(n), W), Jump(W + n + 1), W + n).Some?
  {
    var h := Jump(W + n + 1);
    var values := ListOf(a, RvOf(n), h, |h|);
    forall j | n <= j < |h|
      ensures j < |h| - 1 ==> values[j] == Some(a.sqrt(0.0))
      ensures j == |h| - 1 ==> values[j].Some? && values[j] != Some(a.sqrt(0.0))
    {
      ListAt(a, RvOf(n), h, |h|, j);
      JumpRvs(a, |h|, n, j);
    }
    RollingSees(a, values, W + n, W, Some(a.sqrt(0.0)));
  }

  ghost predicate Suffices(a: Arith, k: Kernel, keep: nat)
    requires keep >= 1
  {
    forall h: seq<Row> | h != [] && PositiveCloses(h) :: Last(a, k, Suffix(h, keep)) == Last(a, k, h)
  }

  lemma SufficesWithin(a: Arith, k: Kernel, keep: nat)
    requires keep >= 1 && Within(k, keep - 1)
    ensures Suffices(a, k, keep)
  {
    forall h: seq<Row> | h != [] && PositiveCloses(h)
      ensures Last(a, k, Suffix(h, keep)) == Last(a, k, h)
    {
      WindowSuffices(a, k, h, keep);
    }
  }

  lemma FailsOn(a: Arith, k: Kernel, h: seq<Row>, keep: nat)
    requires h != [] && PositiveCloses(h) && 1 <= keep <= Start(k.pctRvShort)
    requires Eval(a, k.pctRvShort, h, |h| - 1).Some?
    ensures !Suffices(a, k, keep)
  {
    var b := Suffix(h, keep);
    UndefinedBeforeStart(a, k.pctRvShort, b, |b| - 1);
    assert Last(a, k, b).pctRvShort != Last(a, k, h).pctRvShort;
  }

  /** The kept window reproduces the full history's last features, for every history, exactly when
      the short horizon fits in it. */
  lemma WindowSufficesIff(a: Arith, cfg: Config)
    requires Discerning(a) && cfg.Valid()
    ensures Suffices(a, KernelOf(cfg), Keep(cfg)) <==> ShortFits(cfg)
  {
    if ShortFits(cfg) {
      FitsWithin(cfg);
      SufficesWithin(a, KernelOf(cfg), Keep(cfg));
    } else {
      JumpIsSeen(a, cfg.nShort, cfg.W);
      FailsOn(a, KernelOf(cfg), Jump(cfg.W + cfg.nShort + 1), Keep(cfg));
    }
  }
}
