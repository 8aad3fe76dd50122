/** Bars from trades (fbot/core/market.py) and higher timeframes from bars
    (fbot/research/timeframe.py), as functions on values. Prices and volumes are exact. */
module Bars {
  import opened Common

  const MINUTE := 60_000

  datatype Trade = Trade(price: real, qty: real, time: int, buyerIsMaker: bool)

  datatype Bar = Bar(start: int, open: real, high: real, low: real, close: real,
                     volume: real, trades: nat, buyVolume: real)

  function Bucket(time: int, width: int): int
    requires width > 0
  {
    time / width * width
  }

  function BuyQty(t: Trade): real {
    if t.buyerIsMaker then 0.0 else t.qty
  }

  function FirstTrade(t: Trade, start: int): Bar {
    Bar(start, t.price, t.price, t.price, t.price, t.qty, 1, BuyQty(t))
  }

  function AddTrade(b: Bar, t: Trade): Bar {
    b.(high := Max(b.high, t.price), low := Min(b.low, t.price), close := t.price,
       volume := b.volume + t.qty, trades := b.trades + 1, buyVolume := b.buyVolume + BuyQty(t))
  }

  /** The new open bar and the bars this trade closed. */
  function OnTrade(open: Option<Bar>, t: Trade, width: int): (Option<Bar>, seq<Bar>)
    requires width > 0
  {
    var start := Bucket(t.time, width);
    if open.Some? && open.value.start == start then (Some(AddTrade(open.value, t)), [])
    else (Some(FirstTrade(t, start)), if open.Some? then [open.value] else [])
  }

  /** Bars closed by a stream of trades, and the bar still open. */
  function Build(ts: seq<Trade>, width: int): (seq<Bar>, Option<Bar>)
    requires width > 0
  {
    if ts == [] then ([], None)
    else
      var (closed, open) := Build(ts[..|ts| - 1], width);
      var (open', out) := OnTrade(open, ts[|ts| - 1], width);
      (closed + out, open')
  }

  function Closed(ts: seq<Trade>, width: int): seq<Bar>
    requires width > 0
  {
    Build(ts, width).0
  }

  // ---- aggregation

  function HighOf(g: seq<Bar>): real
    requires g != []
  {
    if |g| == 1 then g[0].high else Max(HighOf(g[..|g| - 1]), g[|g| - 1].high)
  }

  function LowOf(g: seq<Bar>): real
    requires g != []
  {
    if |g| == 1 then g[0].low else Min(LowOf(g[..|g| - 1]), g[|g| - 1].low)
  }

  function VolumeOf(g: seq<Bar>): real {
    if g == [] then 0.0 else VolumeOf(g[..|g| - 1]) + g[|g| - 1].volume
  }

  function BuyVolumeOf(g: seq<Bar>): real {
    if g == [] then 0.0 else BuyVolumeOf(g[..|g| - 1]) + g[|g| - 1].buyVolume
  }

  function TradesOf(g: seq<Bar>): nat {
    if g == [] then 0 else TradesOf(g[..|g| - 1]) + g[|g| - 1].trades
  }

  function Combine(g: seq<Bar>, start: int): Bar
    requires g != []
  {
    Bar(start, g[0].open, HighOf(g), LowOf(g), g[|g| - 1].close, VolumeOf(g), TradesOf(g), BuyVolumeOf(g))
  }

  /** A group with a minute missing gives no bar. */
  function Fold(g: seq<Bar>, start: int, minutes: nat): seq<Bar> {
    if |g| == minutes && g != [] then [Combine(g, start)] else []
  }

  /** The group being collected, its key, and the bars already produced. */
  datatype Grouping = Grouping(cur: seq<Bar>, key: Option<int>, out: seq<Bar>)

  function Flush(s: Grouping, minutes: nat): seq<Bar> {
    if s.key.Some? then Fold(s.cur, s.key.value, minutes) else []
  }

  function Collect(s: Grouping, b: Bar, k: int, minutes: nat): Grouping {
    if s.key == Some(k) then s.(cur := s.cur + [b])
    else Grouping([b], Some(k), s.out + Flush(s, minutes))
  }

  function Group(bars: seq<Bar>, minutes: nat): Grouping
    requires minutes >= 1
  {
    if bars == [] then Grouping([], None, [])
    else
      var b := bars[|bars| - 1];
      Collect(Group(bars[..|bars| - 1], minutes), b, Bucket(b.start, minutes * MINUTE), minutes)
  }

  predicate Ascending(bars: seq<Bar>) {
    forall i :: 0 <= i < |bars| - 1 ==> bars[i].start < bars[i + 1].start
  }

  function Aggregate(bars: seq<Bar>, minutes: int): Result<seq<Bar>> {
    if minutes < 1 then Err("timeframe below one minute")
    else if !Ascending(bars) then Err("bars not ascending")
    else if minutes == 1 then Ok(bars)
    else var s := Group(bars, minutes); Ok(s.out + Flush(s, minutes))
  }

  // ---- conservation

  function QtySum(ts: seq<Trade>): real {
    if ts == [] then 0.0 else QtySum(ts[..|ts| - 1]) + ts[|ts| - 1].qty
  }

  function BuySum(ts: seq<Trade>): real {
    if ts == [] then 0.0 else BuySum(ts[..|ts| - 1]) + BuyQty(ts[|ts| - 1])
  }

  function Whole(closed: seq<Bar>, open: Option<Bar>): seq<Bar> {
    if open.Some? then closed + [open.value] else closed
  }

  /** In any order of arrival, the closed bars and the open one hold all the volume, all the buy
      volume and all the trades. */
  lemma {:induction false} NothingLost(ts: seq<Trade>, width: int)
    requires width > 0
    ensures var (closed, open) := Build(ts, width); var all := Whole(closed, open);
      VolumeOf(all) == QtySum(ts) && BuyVolumeOf(all) == BuySum(ts) && TradesOf(all) == |ts|
  {
    if ts != [] {
      var n := |ts| - 1;
      var t := ts[n];
      NothingLost(ts[..n], width);
      var (closed, open) := Build(ts[..n], width);
      var (open', out) := OnTrade(open, t, width);
      if open.Some? && open.value.start == Bucket(t.time, width) {
        assert closed + out == closed;
        assert Whole(closed, open)[..|closed|] == closed == Whole(closed, open')[..|closed|];
      } else {
        assert closed + out == Whole(closed, open);
        assert Whole(closed + out, open')[..|closed + out|] == Whole(closed, open);
      }
    }
  }

  // ---- timeframes commute

  function Minute(t: Trade): int {
    Bucket(t.time, MINUTE)
  }

  /** Minutes do not go back; inside one, trades may come in any order. */
  predicate InOrder(ts: seq<Trade>) {
    forall i, j :: 0 <= i < j < |ts| ==> Minute(ts[i]) <= Minute(ts[j])
  }

  predicate Traded(ts: seq<Trade>, minute: int) {
    exists i :: 0 <= i < |ts| && Bucket(ts[i].time, MINUTE) == minute
  }

  /** Every minute of the bucket starting at `start` saw a trade. */
  predicate Complete(ts: seq<Trade>, start: int, minutes: nat) {
    forall j :: 0 <= j < minutes ==> Traded(ts, start + j * MINUTE)
  }

  function CompleteOnly(ts: seq<Trade>, bars: seq<Bar>, minutes: nat): seq<Bar> {
    if bars == [] then []
    else
      CompleteOnly(ts, bars[..|bars| - 1], minutes)
      + (if Complete(ts, bars[|bars| - 1].start, minutes) then [bars[|bars| - 1]] else [])
  }

  lemma AtLeastOne(k: int, d: int)
    requires d > 0
    ensures k >= 1 ==> k * d >= d
    ensures k <= -1 ==> k * d <= -d
    ensures k * d > 0 ==> k >= 1
  {
    if k >= 1 {
      assert (k - 1) * d >= 0;
    } else {
      assert (-k) * d >= 0;
      if k <= -1 {
        assert (-k - 1) * d >= 0;
      }
    }
  }

  lemma DivUnique(x: int, d: int, q: int, r: int)
    requires d > 0 && x == q * d + r && 0 <= r < d
    ensures x / d == q
  {
    var q', r' := x / d, x % d;
    assert x == q' * d + r';
    assert (q' - q) * d == r - r' by {
      assert (q' - q) * d == q' * d - q * d;
    }
    AtLeastOne(q' - q, d);
  }

  lemma BucketBounds(x: int, d: int)
    requires d > 0
    ensures Bucket(x, d) <= x < Bucket(x, d) + d
  {
    assert x == x / d * d + x % d;
  }

  lemma BucketUnique(x: int, d: int, start: int)
    requires d > 0 && start % d == 0 && start <= x < start + d
    ensures Bucket(x, d) == start
  {
    DivUnique(x, d, start / d, x - start);
  }

  lemma BucketAligned(x: int, d: int)
    requires d > 0
    ensures Bucket(x, d) % d == 0
  {
    DivUnique(Bucket(x, d), d, x / d, 0);
  }

  lemma MultipleOfMinutes(start: int, minutes: nat)
    requires minutes >= 1 && start % (minutes * MINUTE) == 0
    ensures start % MINUTE == 0
  {
    var k := start / (minutes * MINUTE);
    assert start == k * (minutes * MINUTE);
    assert start == (k * minutes) * MINUTE;
    DivUnique(start, MINUTE, k * minutes, 0);
  }

  /** A minute lies inside the bucket of each of its trades. */
  lemma MinuteInBucket(time: int, minutes: nat)
    requires minutes >= 1
    ensures var w := minutes * MINUTE; var s := Bucket(time, w); var u := Bucket(time, MINUTE);
      && Bucket(u, w) == s && s <= u && u + MINUTE <= s + w && u % MINUTE == 0 && s % MINUTE == 0
  {
    var w := minutes * MINUTE;
    var s, u := Bucket(time, w), Bucket(time, MINUTE);
    BucketBounds(time, w);
    BucketBounds(time, MINUTE);
    BucketAligned(time, w);
    BucketAligned(time, MINUTE);
    MultipleOfMinutes(s, minutes);
    assert (s + w) % MINUTE == 0 by {
      DivUnique(s + w, MINUTE, s / MINUTE + minutes, 0);
    }
    AlignedGap(s, u);
    AlignedGap(u, s + w);
    BucketUnique(u, w, s);
  }

  /** Aligned minutes are equal or a whole minute apart. */
  lemma AlignedGap(a: int, b: int)
    requires a % MINUTE == 0 && b % MINUTE == 0
    ensures b > a - MINUTE ==> a <= b
    ensures a < b ==> a + MINUTE <= b
  {
  }

  lemma BucketMonotone(x: int, y: int, d: int)
    requires d > 0 && x <= y
    ensures Bucket(x, d) <= Bucket(y, d)
  {
    BucketBounds(x, d);
    BucketBounds(y, d);
    var a, b := x / d, y / d;
    assert (a - b) * d == a * d - b * d;
    AtLeastOne(a - b, d);
  }

  // ---- minutes of one bucket

  /** Distinct traded minutes of the bucket at `start`, in order. */
  predicate Minutes(g: seq<Bar>, start: int, minutes: nat) {
    && (forall i :: 0 <= i < |g| ==> g[i].start % MINUTE == 0 && start <= g[i].start < start + minutes * MINUTE)
    && (forall i :: 0 <= i < |g| - 1 ==> g[i].start < g[i + 1].start)
    && start % MINUTE == 0
  }

  lemma {:induction false} MinutesAtLeast(g: seq<Bar>, start: int, minutes: nat, i: nat)
    requires Minutes(g, start, minutes) && i < |g|
    ensures g[i].start >= start + i * MINUTE
    decreases i
  {
    if i > 0 {
      MinutesAtLeast(g, start, minutes, i - 1);
      AlignedGap(g[i - 1].start, g[i].start);
    }
  }

  lemma {:induction false} MinutesAtMost(g: seq<Bar>, start: int, minutes: nat, i: nat)
    requires Minutes(g, start, minutes) && i < |g|
    ensures g[i].start <= start + (minutes - (|g| - i)) * MINUTE
    decreases |g| - i
  {
    if i < |g| - 1 {
      MinutesAtMost(g, start, minutes, i + 1);
      AlignedGap(g[i].start, g[i + 1].start);
    } else {
      AlignedEnd(start, minutes);
      AlignedGap(g[i].start, start + minutes * MINUTE);
    }
  }

  lemma AlignedEnd(start: int, k: int)
    requires start % MINUTE == 0
    ensures (start + k * MINUTE) % MINUTE == 0
  {
    DivUnique(start + k * MINUTE, MINUTE, start / MINUTE + k, 0);
  }

  predicate HasMinute(g: seq<Bar>, minute: int) {
    exists i :: 0 <= i < |g| && g[i].start == minute
  }

  /** A bucket cannot hold more minutes than it has, and holds them all exactly when it is full. */
  lemma FullIff(g: seq<Bar>, start: int, minutes: nat)
    requires Minutes(g, start, minutes)
    ensures |g| <= minutes
    ensures |g| == minutes <==> forall j :: 0 <= j < minutes ==> HasMinute(g, start + j * MINUTE)
  {
    if g != [] {
      MinutesAtLeast(g, start, minutes, 0);
      MinutesAtMost(g, start, minutes, 0);
    }
    if |g| == minutes {
      forall j | 0 <= j < minutes ensures HasMinute(g, start + j * MINUTE) {
        MinutesAtLeast(g, start, minutes, j);
        MinutesAtMost(g, start, minutes, j);
        assert g[j].start == start + j * MINUTE;
      }
    }
    if forall j :: 0 <= j < minutes ==> HasMinute(g, start + j * MINUTE) {
      if minutes > 0 {
        EachInPlace(g, start, minutes, minutes - 1);
      }
    }
  }

  lemma {:induction false} EachInPlace(g: seq<Bar>, start: int, minutes: nat, j: nat)
    requires Minutes(g, start, minutes) && j < minutes
    requires forall k :: 0 <= k < minutes ==> HasMinute(g, start + k * MINUTE)
    ensures j < |g| && g[j].start == start + j * MINUTE
  {
    assert HasMinute(g, start + j * MINUTE);
    var i :| 0 <= i < |g| && g[i].start == start + j * MINUTE;
    MinutesAtLeast(g, start, minutes, i);
    if i < j {
      EachInPlace(g, start, minutes, i);
    }
  }

  // ---- the invariant, one trade at a time

  /** The minute bars of the bucket now open, the open minute included. */
  function OpenGroup(s: Grouping, bucket: int, minute: Bar): seq<Bar> {
    (if s.key == Some(bucket) then s.cur else []) + [minute]
  }

  /** What the aggregator has produced once the bucket now open is set aside. */
  function Settled(s: Grouping, bucket: int, minutes: nat): seq<Bar> {
    s.out + (if s.key == Some(bucket) then [] else Flush(s, minutes))
  }

  /** Where the two builders and the aggregator stand after some trades. */
  datatype Track = Track(c1: seq<Bar>, o1: Bar, cm: seq<Bar>, om: Bar, s: Grouping)

  function OpenMinutes(k: Track): seq<Bar> {
    OpenGroup(k.s, k.om.start, k.o1)
  }

  /** The minute bars go forward and the aggregator is no further than the open bucket. */
  predicate Timed(k: Track) {
    && Ascending(k.c1) && (k.c1 != [] ==> k.c1[|k.c1| - 1].start < k.o1.start)
    && (k.s.key.Some? ==> k.s.key.value <= k.om.start)
    && k.om.start <= k.o1.start
  }

  /** The open longer bar is the combination of the open bucket's minutes, which are those that traded. */
  ghost predicate Grouped(ts: seq<Trade>, k: Track, minutes: nat) {
    var g := OpenMinutes(k);
    && Minutes(g, k.om.start, minutes)
    && k.om == Combine(g, k.om.start)
    && (forall u :: u >= k.om.start ==> (Traded(ts, u) <==> HasMinute(g, u)))
  }

  /** The aggregator has produced the complete ones among the closed longer bars. */
  predicate Emitted(ts: seq<Trade>, k: Track, minutes: nat) {
    && (forall b <- k.cm :: b.start + minutes * MINUTE <= k.om.start)
    && Settled(k.s, k.om.start, minutes) == CompleteOnly(ts, k.cm, minutes)
  }

  ghost predicate InStep(ts: seq<Trade>, k: Track, minutes: nat) {
    Timed(k) && Grouped(ts, k, minutes) && Emitted(ts, k, minutes)
  }

  lemma TradedAppend(ts: seq<Trade>, t: Trade, minute: int)
    ensures Traded(ts + [t], minute) <==> Traded(ts, minute) || Bucket(t.time, MINUTE) == minute
  {
    assert (ts + [t])[|ts|] == t;
    assert forall i :: 0 <= i < |ts| ==> (ts + [t])[i] == ts[i];
  }

  /** A later trade cannot complete a bucket that ended before its minute. */
  lemma {:induction false} CompleteOnlyStable(ts: seq<Trade>, t: Trade, bars: seq<Bar>, minutes: nat)
    requires forall b <- bars :: b.start + minutes * MINUTE <= Bucket(t.time, MINUTE)
    ensures CompleteOnly(ts + [t], bars, minutes) == CompleteOnly(ts, bars, minutes)
  {
    if bars != [] {
      CompleteOnlyStable(ts, t, bars[..|bars| - 1], minutes);
      CompleteStable(ts, t, bars[|bars| - 1].start, minutes);
    }
  }

  lemma CompleteStable(ts: seq<Trade>, t: Trade, start: int, minutes: nat)
    requires start + minutes * MINUTE <= Bucket(t.time, MINUTE)
    ensures Complete(ts + [t], start, minutes) <==> Complete(ts, start, minutes)
  {
    forall j | 0 <= j < minutes
      ensures Traded(ts + [t], start + j * MINUTE) <==> Traded(ts, start + j * MINUTE)
    {
      TradedAppend(ts, t, start + j * MINUTE);
    }
  }

  lemma CombineAppend(g: seq<Bar>, t: Trade, minute: int, start: int)
    requires g != []
    ensures Combine(g + [FirstTrade(t, minute)], start) == AddTrade(Combine(g, start), t)
  {
    var h := g + [FirstTrade(t, minute)];
    assert h[..|h| - 1] == g;
  }

  lemma CombineAdd(g: seq<Bar>, b: Bar, t: Trade, start: int)
    ensures Combine(g + [AddTrade(b, t)], start) == AddTrade(Combine(g + [b], start), t)
  {
    var h, k := g + [b], g + [AddTrade(b, t)];
    assert h[..|h| - 1] == g == k[..|k| - 1];
  }

  lemma CombineOne(t: Trade, minute: int, start: int)
    ensures Combine([FirstTrade(t, minute)], start) == FirstTrade(t, start)
  {
    var g := [FirstTrade(t, minute)];
    assert g[..0] == [];
    assert VolumeOf([]) == 0.0 && TradesOf([]) == 0 && BuyVolumeOf([]) == 0.0;
  }

  lemma BuildAppend(ts: seq<Trade>, t: Trade, width: int)
    requires width > 0
    ensures var (closed, open) := Build(ts, width); var (open', out) := OnTrade(open, t, width);
      Build(ts + [t], width) == (closed + out, open')
  {
    assert (ts + [t])[..|ts|] == ts;
  }

  lemma GroupAppend(bars: seq<Bar>, b: Bar, minutes: nat)
    requires minutes >= 1
    ensures Group(bars + [b], minutes) == Collect(Group(bars, minutes), b, Bucket(b.start, minutes * MINUTE), minutes)
  {
    assert (bars + [b])[..|bars|] == bars;
  }

  /** Another trade in the open minute. */
  lemma SameMinute(ts: seq<Trade>, k: Track, t: Trade, minutes: nat)
    requires InStep(ts, k, minutes) && Bucket(t.time, MINUTE) == k.o1.start
    ensures InStep(ts + [t], k.(o1 := AddTrade(k.o1, t), om := AddTrade(k.om, t)), minutes)
  {
    var k' := k.(o1 := AddTrade(k.o1, t), om := AddTrade(k.om, t));
    assert k'.om.start == k.om.start && k'.o1.start == k.o1.start;
    assert Timed(k');
    SameMinuteGrouped(ts, k, t, minutes);
    StillEmitted(ts, k, t, k', minutes);
  }

  lemma SameMinuteGrouped(ts: seq<Trade>, k: Track, t: Trade, minutes: nat)
    requires Grouped(ts, k, minutes) && Bucket(t.time, MINUTE) == k.o1.start
    ensures Grouped(ts + [t], k.(o1 := AddTrade(k.o1, t), om := AddTrade(k.om, t)), minutes)
  {
    var k' := k.(o1 := AddTrade(k.o1, t), om := AddTrade(k.om, t));
    var start := k.om.start;
    var cur := if k.s.key == Some(start) then k.s.cur else [];
    CombineAdd(cur, k.o1, t, start);
    var g, g' := OpenMinutes(k), OpenMinutes(k');
    assert g == cur + [k.o1] && g' == cur + [k'.o1];
    assert forall i :: 0 <= i < |g| ==> g'[i].start == g[i].start;
    assert Minutes(g', start, minutes);
    assert g[|g| - 1].start == k.o1.start;
    forall u | u >= start ensures Traded(ts + [t], u) <==> HasMinute(g', u) {
      TradedAppend(ts, t, u);
      SameMinutes(g, g', u);
    }
  }

  /** A trade inside the open bucket changes nothing that was emitted. */
  lemma StillEmitted(ts: seq<Trade>, k: Track, t: Trade, k': Track, minutes: nat)
    requires Emitted(ts, k, minutes) && k.om.start <= Bucket(t.time, MINUTE)
    requires k'.cm == k.cm && k'.om.start == k.om.start
    requires Settled(k'.s, k.om.start, minutes) == Settled(k.s, k.om.start, minutes)
    ensures Emitted(ts + [t], k', minutes)
  {
    CompleteOnlyStable(ts, t, k.cm, minutes);
  }

  lemma SameMinutes(g: seq<Bar>, h: seq<Bar>, minute: int)
    requires |g| == |h| && forall i :: 0 <= i < |g| ==> h[i].start == g[i].start
    ensures HasMinute(g, minute) <==> HasMinute(h, minute)
  {
    if HasMinute(g, minute) {
      var i :| 0 <= i < |g| && g[i].start == minute;
      assert h[i].start == minute;
    }
    if HasMinute(h, minute) {
      var i :| 0 <= i < |h| && h[i].start == minute;
      assert g[i].start == minute;
    }
  }

  lemma HasMinuteAppend(g: seq<Bar>, b: Bar, minute: int)
    ensures HasMinute(g + [b], minute) <==> HasMinute(g, minute) || b.start == minute
  {
    assert (g + [b])[|g|] == b;
    assert forall i :: 0 <= i < |g| ==> (g + [b])[i] == g[i];
  }

  /** The first trade of another minute of the open bucket. */
  lemma NextMinute(ts: seq<Trade>, k: Track, t: Trade, minute: int, minutes: nat)
    requires InStep(ts, k, minutes) && minute == Bucket(t.time, MINUTE) && minute % MINUTE == 0
    requires k.o1.start < minute < k.om.start + minutes * MINUTE
    ensures InStep(ts + [t], Track(k.c1 + [k.o1], FirstTrade(t, minute), k.cm, AddTrade(k.om, t),
                                   Collect(k.s, k.o1, k.om.start, minutes)), minutes)
  {
    var bucket, b := k.om.start, FirstTrade(t, minute);
    var s' := Collect(k.s, k.o1, bucket, minutes);
    var k' := Track(k.c1 + [k.o1], b, k.cm, AddTrade(k.om, t), s');
    CollectOpens(k, minutes);
    assert s'.out + [] == s'.out;
    assert Timed(k');
    NextMinuteGrouped(ts, k, t, k', minutes);
    StillEmitted(ts, k, t, k', minutes);
  }

  /** Pushing the open minute into the aggregator leaves exactly the open bucket's minutes in it. */
  lemma CollectOpens(k: Track, minutes: nat)
    ensures var s' := Collect(k.s, k.o1, k.om.start, minutes);
      s'.key == Some(k.om.start) && s'.cur == OpenMinutes(k) && s'.out == Settled(k.s, k.om.start, minutes)
  {
    assert k.s.out + [] == k.s.out;
    assert [] + [k.o1] == [k.o1];
  }

  lemma NextMinuteGrouped(ts: seq<Trade>, k: Track, t: Trade, k': Track, minutes: nat)
    requires Grouped(ts, k, minutes)
    requires k'.om == AddTrade(k.om, t) && k'.s.key == Some(k.om.start) && k'.s.cur == OpenMinutes(k)
    requires k'.o1 == FirstTrade(t, Bucket(t.time, MINUTE)) && k'.o1.start % MINUTE == 0
    requires k.o1.start < k'.o1.start < k.om.start + minutes * MINUTE
    ensures Grouped(ts + [t], k', minutes)
  {
    var start, g := k.om.start, OpenMinutes(k);
    assert OpenMinutes(k') == g + [k'.o1];
    CombineAppend(g, t, k'.o1.start, start);
    assert g[|g| - 1] == k.o1;
    MinutesAppend(g, k'.o1, start, minutes);
    TradedIn(ts, t, g, k'.o1, start);
  }

  lemma MinutesAppend(g: seq<Bar>, b: Bar, start: int, minutes: nat)
    requires Minutes(g, start, minutes) && (g != [] ==> g[|g| - 1].start < b.start)
    requires b.start % MINUTE == 0 && start <= b.start < start + minutes * MINUTE
    ensures Minutes(g + [b], start, minutes)
  {
  }

  /** The minutes that traded stay those of the list when a trade opens a bar. */
  lemma TradedIn(ts: seq<Trade>, t: Trade, g: seq<Bar>, b: Bar, start: int)
    requires b.start == Bucket(t.time, MINUTE)
    requires forall u :: u >= start ==> (Traded(ts, u) <==> HasMinute(g, u))
    ensures forall u :: u >= start ==> (Traded(ts + [t], u) <==> HasMinute(g + [b], u))
  {
    forall u | u >= start ensures Traded(ts + [t], u) <==> HasMinute(g + [b], u) {
      TradedAppend(ts, t, u);
      HasMinuteAppend(g, b, u);
    }
  }

  lemma OldMinutes(ts: seq<Trade>, minute: int)
    requires InOrder(ts) && ts != [] && minute > Bucket(ts[|ts| - 1].time, MINUTE)
    ensures !Traded(ts, minute)
  {
    forall i | 0 <= i < |ts| ensures Bucket(ts[i].time, MINUTE) < minute {
      assert Minute(ts[i]) <= Minute(ts[|ts| - 1]);
    }
  }

  /** The first trade of another bucket. */
  lemma NextBucket(ts: seq<Trade>, k: Track, t: Trade, minute: int, bucket: int, minutes: nat)
    requires InStep(ts, k, minutes) && minute == Bucket(t.time, MINUTE) && minute % MINUTE == 0 && bucket % MINUTE == 0
    requires k.om.start + minutes * MINUTE <= bucket <= minute < bucket + minutes * MINUTE
    requires k.o1.start < minute && forall u :: u >= bucket ==> !Traded(ts, u)
    ensures InStep(ts + [t], Track(k.c1 + [k.o1], FirstTrade(t, minute), k.cm + [k.om], FirstTrade(t, bucket),
                                   Collect(k.s, k.o1, k.om.start, minutes)), minutes)
  {
    var s' := Collect(k.s, k.o1, k.om.start, minutes);
    var k' := Track(k.c1 + [k.o1], FirstTrade(t, minute), k.cm + [k.om], FirstTrade(t, bucket), s');
    assert minutes >= 1;
    CollectOpens(k, minutes);
    assert Timed(k');
    FreshGrouped(ts, t, k', minutes);
    NextEmitted(ts, k, t, minutes);
    assert Settled(s', bucket, minutes) == s'.out + Fold(OpenMinutes(k), k.om.start, minutes);
    assert Emitted(ts + [t], k', minutes);
  }

  /** A bucket's first trade. */
  lemma FreshGrouped(ts: seq<Trade>, t: Trade, k: Track, minutes: nat)
    requires k.o1 == FirstTrade(t, Bucket(t.time, MINUTE)) && k.om == FirstTrade(t, k.om.start)
    requires k.o1.start % MINUTE == 0 && k.om.start % MINUTE == 0
    requires k.om.start <= k.o1.start < k.om.start + minutes * MINUTE
    requires k.s.key != Some(k.om.start) && forall u :: u >= k.om.start ==> !Traded(ts, u)
    ensures Grouped(ts + [t], k, minutes)
  {
    assert OpenMinutes(k) == [k.o1];
    CombineOne(t, k.o1.start, k.om.start);
    MinutesAppend([], k.o1, k.om.start, minutes);
    TradedIn(ts, t, [], k.o1, k.om.start);
    assert [] + [k.o1] == [k.o1];
  }

  lemma CompleteIff(ts: seq<Trade>, g: seq<Bar>, start: int, minutes: nat)
    requires Minutes(g, start, minutes)
    requires forall u :: u >= start ==> (Traded(ts, u) <==> HasMinute(g, u))
    ensures Complete(ts, start, minutes) <==> |g| == minutes
  {
    FullIff(g, start, minutes);
    forall j | 0 <= j < minutes ensures Traded(ts, start + j * MINUTE) <==> HasMinute(g, start + j * MINUTE) {
      assert start + j * MINUTE >= start;
    }
  }

  /** Closing the open bucket emits it exactly when every minute of it traded. */
  lemma NextEmitted(ts: seq<Trade>, k: Track, t: Trade, minutes: nat)
    requires Grouped(ts, k, minutes) && Emitted(ts, k, minutes)
    requires k.om.start + minutes * MINUTE <= Bucket(t.time, MINUTE)
    ensures CompleteOnly(ts + [t], k.cm + [k.om], minutes)
      == Settled(k.s, k.om.start, minutes) + Fold(OpenMinutes(k), k.om.start, minutes)
  {
    var g := OpenMinutes(k);
    CompleteOnlyStable(ts, t, k.cm, minutes);
    CompleteStable(ts, t, k.om.start, minutes);
    CompleteIff(ts, g, k.om.start, minutes);
    var bars := k.cm + [k.om];
    assert bars[..|bars| - 1] == k.cm && bars[|bars| - 1] == k.om;
    assert Fold(g, k.om.start, minutes) == if Complete(ts + [t], k.om.start, minutes) then [k.om] else [];
  }

  lemma FirstInStep(t: Trade, minute: int, bucket: int, minutes: nat)
    requires minute == Bucket(t.time, MINUTE) && minute % MINUTE == 0 && bucket % MINUTE == 0
    requires bucket <= minute < bucket + minutes * MINUTE
    ensures InStep([t], Track([], FirstTrade(t, minute), [], FirstTrade(t, bucket), Grouping([], None, [])), minutes)
  {
    var k := Track([], FirstTrade(t, minute), [], FirstTrade(t, bucket), Grouping([], None, []));
    FreshGrouped([], t, k, minutes);
    assert [] + [t] == [t];
  }

  /** Both builders have an open bar in the last trade's minute and bucket. */
  ghost predicate Tracked(ts: seq<Trade>, k: Track, minutes: nat)
    requires minutes >= 1 && ts != []
  {
    && Build(ts, MINUTE) == (k.c1, Some(k.o1)) && Build(ts, minutes * MINUTE) == (k.cm, Some(k.om))
    && Group(k.c1, minutes) == k.s
    && k.o1.start == Bucket(ts[|ts| - 1].time, MINUTE)
    && k.om.start == Bucket(ts[|ts| - 1].time, minutes * MINUTE)
    && InStep(ts, k, minutes)
  }

  lemma {:induction false} AlwaysInStep(ts: seq<Trade>, minutes: nat) returns (k: Track)
    requires minutes >= 1 && InOrder(ts) && ts != []
    ensures Tracked(ts, k, minutes)
  {
    var n := |ts| - 1;
    var prefix, t := ts[..n], ts[n];
    assert ts == prefix + [t];
    if n == 0 {
      assert ts == [t];
      k := Start(t, minutes);
    } else {
      var p := AlwaysInStep(prefix, minutes);
      k := Advance(prefix, p, t, minutes);
    }
  }

  lemma Start(t: Trade, minutes: nat) returns (k: Track)
    requires minutes >= 1
    ensures Tracked([t], k, minutes)
  {
    var minute, bucket := Bucket(t.time, MINUTE), Bucket(t.time, minutes * MINUTE);
    MinuteInBucket(t.time, minutes);
    assert [] + [t] == [t];
    BuildAppend([], t, MINUTE);
    BuildAppend([], t, minutes * MINUTE);
    k := Track([], FirstTrade(t, minute), [], FirstTrade(t, bucket), Grouping([], None, []));
    FirstInStep(t, minute, bucket, minutes);
  }

  lemma Advance(ts: seq<Trade>, p: Track, t: Trade, minutes: nat) returns (k: Track)
    requires minutes >= 1 && ts != [] && Tracked(ts, p, minutes) && InOrder(ts + [t])
    ensures Tracked(ts + [t], k, minutes)
  {
    var last := ts[|ts| - 1];
    assert (ts + [t])[|ts|] == t && (ts + [t])[|ts| - 1] == last;
    BuildAppend(ts, t, MINUTE);
    BuildAppend(ts, t, minutes * MINUTE);
    assert p.c1 + [] == p.c1 && p.cm + [] == p.cm;
    k := Next(ts, p, t, Bucket(last.time, minutes * MINUTE), Bucket(t.time, MINUTE), Bucket(t.time, minutes * MINUTE), minutes);
  }

  /** Which of the three cases a trade is, and that the builders and the aggregator agree on it. */
  lemma Next(ts: seq<Trade>, p: Track, t: Trade, before: int, minute: int, bucket: int, minutes: nat) returns (k: Track)
    requires minutes >= 1 && ts != [] && Tracked(ts, p, minutes) && InOrder(ts + [t])
    requires before == Bucket(ts[|ts| - 1].time, minutes * MINUTE)
    requires minute == Bucket(t.time, MINUTE) && bucket == Bucket(t.time, minutes * MINUTE)
    ensures InStep(ts + [t], k, minutes) && k.o1.start == minute && k.om.start == bucket
    ensures (k.c1, k.o1) == (if minute == p.o1.start then (p.c1, AddTrade(p.o1, t)) else (p.c1 + [p.o1], FirstTrade(t, minute)))
    ensures (k.cm, k.om) == (if bucket == p.om.start then (p.cm, AddTrade(p.om, t)) else (p.cm + [p.om], FirstTrade(t, bucket)))
    ensures Group(k.c1, minutes) == k.s
  {
    var last := ts[|ts| - 1];
    assert forall i :: 0 <= i < |ts| ==> (ts + [t])[i] == ts[i];
    assert (ts + [t])[|ts|] == t;
    MinuteInBucket(t.time, minutes);
    MinuteInBucket(last.time, minutes);
    assert Minute((ts + [t])[|ts| - 1]) <= Minute((ts + [t])[|ts|]);
    BucketsApart(Minute(last), minute, minutes * MINUTE);
    GroupAppend(p.c1, p.o1, minutes);
    if minute == p.o1.start {
      assert bucket == Bucket(minute, minutes * MINUTE) == before;
      k := p.(o1 := AddTrade(p.o1, t), om := AddTrade(p.om, t));
      SameMinute(ts, p, t, minutes);
    } else if bucket == before {
      k := Track(p.c1 + [p.o1], FirstTrade(t, minute), p.cm, AddTrade(p.om, t), Collect(p.s, p.o1, p.om.start, minutes));
      NextMinute(ts, p, t, minute, minutes);
    } else {
      k := Track(p.c1 + [p.o1], FirstTrade(t, minute), p.cm + [p.om], FirstTrade(t, bucket),
                 Collect(p.s, p.o1, p.om.start, minutes));
      forall u | u >= bucket ensures !Traded(ts, u) {
        OldMinutes(ts, u);
      }
      NextBucket(ts, p, t, minute, bucket, minutes);
    }
  }

  lemma BucketsApart(x: int, y: int, w: int)
    requires w > 0 && x <= y
    ensures Bucket(x, w) == Bucket(y, w) || Bucket(x, w) + w <= Bucket(y, w)
  {
    BucketMonotone(x, y, w);
    var a, b := x / w, y / w;
    assert (b - a) * w == b * w - a * w;
    AtLeastOne(b - a, w);
  }

  /** Timeframes commute: aggregating the closed minute bars of trades whose minutes do not go back
      gives exactly the bars built directly at the longer width, less those with a minute that saw no trade. */
  lemma TimeframesCommute(ts: seq<Trade>, minutes: nat)
    requires minutes >= 1 && InOrder(ts)
    ensures Aggregate(Closed(ts, MINUTE), minutes)
      == Ok(CompleteOnly(ts, Closed(ts, minutes * MINUTE), minutes))
  {
    if ts != [] {
      var k := AlwaysInStep(ts, minutes);
      if minutes == 1 {
        ClosedWereTraded(ts);
        AllComplete(ts, Closed(ts, MINUTE));
      } else {
        FullIff(OpenMinutes(k), k.om.start, minutes);
        assert k.s.out + Flush(k.s, minutes) == Settled(k.s, k.om.start, minutes);
      }
    } else {
      assert Closed(ts, MINUTE) == [] && Closed(ts, minutes * MINUTE) == [];
      var s := Grouping([], None, []);
      assert Group([], minutes) == s;
      assert s.out + Flush(s, minutes) == [];
    }
  }

  lemma {:induction false} ClosedWereTraded(ts: seq<Trade>)
    ensures forall b <- Whole(Closed(ts, MINUTE), Build(ts, MINUTE).1) :: Traded(ts, b.start)
  {
    if ts != [] {
      var n := |ts| - 1;
      ClosedWereTraded(ts[..n]);
      assert ts == ts[..n] + [ts[n]];
      BuildAppend(ts[..n], ts[n], MINUTE);
      var (closed, open) := Build(ts[..n], MINUTE);
      forall b <- Whole(Closed(ts, MINUTE), Build(ts, MINUTE).1) ensures Traded(ts, b.start) {
        TradedAppend(ts[..n], ts[n], b.start);
        assert b.start == Bucket(ts[n].time, MINUTE) || b in Whole(closed, open);
      }
    }
  }

  lemma {:induction false} AllComplete(ts: seq<Trade>, bars: seq<Bar>)
    requires forall b <- bars :: Traded(ts, b.start)
    ensures CompleteOnly(ts, bars, 1) == bars
  {
    if bars != [] {
      AllComplete(ts, bars[..|bars| - 1]);
    }
  }

  // ---- when aggregation takes what the bar builder gives

  /** Where the trades of the open minute bar begin. */
  function OpenFrom(ts: seq<Trade>): (n: nat)
    ensures n <= |ts| && (ts != [] ==> n < |ts|)
  {
    if |ts| <= 1 then 0
    else if Minute(ts[|ts| - 1]) == Minute(ts[|ts| - 2]) then OpenFrom(ts[..|ts| - 1])
    else |ts| - 1
  }

  /** The first n trades never step back a minute. */
  predicate Forward(ts: seq<Trade>, n: nat)
    requires n <= |ts|
  {
    forall i :: 0 <= i < n - 1 ==> Minute(ts[i]) <= Minute(ts[i + 1])
  }

  /** The open bar holds the trades from `OpenFrom` on, the last closed bar the one before. */
  predicate OpensThere(ts: seq<Trade>, closed: seq<Bar>, open: Option<Bar>)
    requires ts != []
  {
    var n := OpenFrom(ts);
    && open.Some? && open.value.start == Minute(ts[|ts| - 1])
    && (forall i :: n <= i < |ts| ==> Minute(ts[i]) == Minute(ts[|ts| - 1]))
    && (closed == [] <==> n == 0)
    && (n > 0 ==> closed[|closed| - 1].start == Minute(ts[n - 1]) != Minute(ts[n]))
  }

  ghost predicate AscendsIff(ts: seq<Trade>, closed: seq<Bar>, open: Option<Bar>)
    requires ts != []
  {
    OpensThere(ts, closed, open) && (Ascending(closed) <==> Forward(ts, OpenFrom(ts)))
  }

  lemma {:induction false} ClosedAscendIff(ts: seq<Trade>)
    requires ts != []
    ensures AscendsIff(ts, Build(ts, MINUTE).0, Build(ts, MINUTE).1)
  {
    var before, t := ts[..|ts| - 1], ts[|ts| - 1];
    assert ts == before + [t];
    BuildAppend(before, t, MINUTE);
    if before == [] {
      FirstRun(t);
      assert ts == [t] && [] + OnTrade(None, t, MINUTE).1 == [];
    } else {
      ClosedAscendIff(before);
      var (closed, open) := Build(before, MINUTE);
      RunGoesOn(before, t, closed, open);
    }
  }

  lemma FirstRun(t: Trade)
    ensures AscendsIff([t], [], OnTrade(None, t, MINUTE).0)
  {
  }

  lemma RunGoesOn(ts: seq<Trade>, t: Trade, closed: seq<Bar>, open: Option<Bar>)
    requires ts != [] && AscendsIff(ts, closed, open)
    ensures var (open', out) := OnTrade(open, t, MINUTE); AscendsIff(ts + [t], closed + out, open')
  {
    if Minute(t) == open.value.start {
      SameRun(ts, t, closed, open.value);
      assert closed + [] == closed;
    } else {
      NewRun(ts, t, closed, open.value);
    }
  }

  lemma SameRun(ts: seq<Trade>, t: Trade, closed: seq<Bar>, open: Bar)
    requires ts != [] && AscendsIff(ts, closed, Some(open)) && Minute(t) == open.start
    ensures AscendsIff(ts + [t], closed, Some(AddTrade(open, t)))
  {
    var all := ts + [t];
    assert all[..|ts|] == ts && all[|ts|] == t;
    assert forall i :: 0 <= i < |ts| ==> all[i] == ts[i];
    assert OpenFrom(all) == OpenFrom(ts);
  }

  lemma NewRun(ts: seq<Trade>, t: Trade, closed: seq<Bar>, open: Bar)
    requires ts != [] && AscendsIff(ts, closed, Some(open)) && Minute(t) != open.start
    ensures AscendsIff(ts + [t], closed + [open], Some(FirstTrade(t, Minute(t))))
  {
    var all := ts + [t];
    assert all[|ts|] == t && all[|ts| - 1] == ts[|ts| - 1];
    assert OpenFrom(all) == |ts|;
    AscendMore(closed, open);
    ForwardMore(ts, t);
  }

  lemma AscendMore(closed: seq<Bar>, b: Bar)
    ensures Ascending(closed + [b])
      <==> Ascending(closed) && (closed != [] ==> closed[|closed| - 1].start < b.start)
  {
    var bars, n := closed + [b], |closed|;
    assert forall i :: 0 <= i < n ==> bars[i] == closed[i];
    assert n > 0 ==> (bars[n - 1].start < bars[n - 1 + 1].start <==> closed[n - 1].start < b.start);
  }

  lemma ForwardMore(ts: seq<Trade>, t: Trade)
    requires ts != []
    requires forall i :: OpenFrom(ts) <= i < |ts| ==> Minute(ts[i]) == Minute(ts[|ts| - 1])
    ensures var n := OpenFrom(ts);
      Forward(ts + [t], |ts|) <==> Forward(ts, n) && (n > 0 ==> Minute(ts[n - 1]) <= Minute(ts[n]))
  {
    var n, all := OpenFrom(ts), ts + [t];
    assert forall i :: 0 <= i < |ts| ==> all[i] == ts[i];
    assert n > 0 ==> (Minute(all[n - 1]) <= Minute(all[n - 1 + 1]) <==> Minute(ts[n - 1]) <= Minute(ts[n]));
  }

  /** Aggregation accepts the closed minute bars of a stream of trades exactly when no trade before
      the open minute steps back to an earlier minute. */
  lemma AggregateAcceptsIff(ts: seq<Trade>, minutes: nat)
    requires minutes >= 1
    ensures Aggregate(Closed(ts, MINUTE), minutes).Ok? <==> Forward(ts, OpenFrom(ts))
  {
    if ts != [] {
      ClosedAscendIff(ts);
    }
  }

  /** A stream it refuses: the second trade steps back before a third minute closes it. */
  lemma BackwardsIsRefused(minutes: nat)
    requires minutes >= 1
    ensures var ts := [Trade(1.0, 1.0, MINUTE, false), Trade(1.0, 1.0, 0, false), Trade(1.0, 1.0, 2 * MINUTE, false)];
      Aggregate(Closed(ts, MINUTE), minutes).Err?
  {
    var ts := [Trade(1.0, 1.0, MINUTE, false), Trade(1.0, 1.0, 0, false), Trade(1.0, 1.0, 2 * MINUTE, false)];
    assert OpenFrom(ts) == 2;
    assert Minute(ts[0]) > Minute(ts[0 + 1]);
    AggregateAcceptsIff(ts, minutes);
  }
}
