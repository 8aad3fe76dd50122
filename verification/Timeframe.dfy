/** Higher timeframes from one-minute bars with everything a bar carries (fbot/research/timeframe.py),
    proved against functions of the bars, and those against `Bars`. */
module Timeframe {
  import opened Common
  import opened Rounding
  import opened Products
  import opened Bars

  /** A bar with its end, its spread and whatever other fields it has; all are of one symbol. */
  datatype Row<E> = Row(bar: Bar, endMs: int, spreadBps: Option<real>, extra: E)

  function Cores<E>(rows: seq<Row<E>>): seq<Bar> {
    if |rows| == 0 then [] else Cores(rows[..|rows| - 1]) + [rows[|rows| - 1].bar]
  }

  // ---- the spread

  function SpreadsOf<E>(g: seq<Row<E>>): seq<real> {
    if |g| == 0 then []
    else
      var s := g[|g| - 1].spreadBps;
      SpreadsOf(g[..|g| - 1]) + if s.Some? then [s.value] else []
  }

  function Sum(v: seq<real>): real {
    if v == [] then 0.0 else Sum(v[..|v| - 1]) + v[|v| - 1]
  }

  function Mean(v: seq<real>): Option<real> {
    if v == [] then None else Some(Sum(v) / |v| as real)
  }

  lemma {:induction false} SumBetween(v: seq<real>, lo: real, hi: real)
    requires forall x <- v :: lo <= x <= hi
    ensures Times(|v| as real, lo) <= Sum(v) <= Times(|v| as real, hi)
  {
    if v != [] {
      var n := |v| - 1;
      assert v[n] in v;
      assert forall x <- v[..n] :: x in v;
      SumBetween(v[..n], lo, hi);
      TimesAdds(n as real, 1.0, lo);
      TimesAdds(n as real, 1.0, hi);
    }
  }

  /** A mean lies where its values lie. */
  lemma MeanBetween(v: seq<real>, lo: real, hi: real)
    requires v != [] && forall x <- v :: lo <= x <= hi
    ensures Mean(v).Some? && lo <= Mean(v).value <= hi
  {
    SumBetween(v, lo, hi);
    QuotientBetween(Sum(v), |v| as real, lo, hi);
  }

  lemma {:induction false} SpreadsAre<E>(g: seq<Row<E>>, x: real)
    ensures x in SpreadsOf(g) <==> exists i :: 0 <= i < |g| && g[i].spreadBps == Some(x)
  {
    if |g| > 0 {
      var n := |g| - 1;
      SpreadsAre(g[..n], x);
      if x in SpreadsOf(g[..n]) {
        var i :| 0 <= i < n && g[..n][i].spreadBps == Some(x);
        assert g[i].spreadBps == Some(x);
      }
      if i :| 0 <= i < |g| && g[i].spreadBps == Some(x) {
        if i < n {
          assert g[..n][i].spreadBps == Some(x);
        }
      }
    }
  }

  // ---- grouping

  function Folded<E>(g: seq<Row<E>>, start: int, minutes: nat): Row<E>
    requires |g| > 0
  {
    Row(Combine(Cores(g), start), start + minutes * MINUTE, Mean(SpreadsOf(g)), g[|g| - 1].extra)
  }

  function FoldRows<E>(g: seq<Row<E>>, start: int, minutes: nat): seq<Row<E>> {
    if |g| == minutes && |g| > 0 then [Folded(g, start, minutes)] else []
  }

  /** As `Bars.Grouping`. */
  datatype Rows<E> = Rows(cur: seq<Row<E>>, key: Option<int>, out: seq<Row<E>>)

  function FlushRows<E>(s: Rows<E>, minutes: nat): seq<Row<E>> {
    if s.key.Some? then FoldRows(s.cur, s.key.value, minutes) else []
  }

  function CollectRow<E>(s: Rows<E>, b: Row<E>, k: int, minutes: nat): Rows<E> {
    if s.key == Some(k) then s.(cur := s.cur + [b]) else Rows([b], Some(k), s.out + FlushRows(s, minutes))
  }

  function GroupRows<E>(rows: seq<Row<E>>, minutes: nat): Rows<E>
    requires minutes >= 1
  {
    if |rows| == 0 then Rows([], None, [])
    else
      var b := rows[|rows| - 1];
      CollectRow(GroupRows(rows[..|rows| - 1], minutes), b, Bucket(b.bar.start, minutes * MINUTE), minutes)
  }

  predicate AscendingRows<E>(rows: seq<Row<E>>) {
    forall i :: 0 <= i < |rows| - 1 ==> rows[i].bar.start < rows[i + 1].bar.start
  }

  function AggregateAll<E>(rows: seq<Row<E>>, minutes: int): Result<seq<Row<E>>> {
    if minutes < 1 then Err("timeframe below one minute")
    else if !AscendingRows(rows) then Err("bars not ascending")
    else if minutes == 1 then Ok(rows)
    else var s := GroupRows(rows, minutes); Ok(s.out + FlushRows(s, minutes))
  }

  // ---- the bars in it are those of `Bars`

  lemma {:induction false} CoresAre<E>(rows: seq<Row<E>>)
    ensures |Cores(rows)| == |rows| && forall i :: 0 <= i < |rows| ==> Cores(rows)[i] == rows[i].bar
  {
    if |rows| > 0 {
      CoresAre(rows[..|rows| - 1]);
    }
  }

  lemma CoresConcat<E>(a: seq<Row<E>>, b: seq<Row<E>>)
    ensures Cores(a + b) == Cores(a) + Cores(b)
  {
    CoresAre(a);
    CoresAre(b);
    CoresAre(a + b);
  }

  lemma CoresOne<E>(b: Row<E>)
    ensures Cores([b]) == [b.bar]
  {
    CoresAre([b]);
  }

  lemma FlushCores<E>(s: Rows<E>, minutes: nat)
    ensures Cores(FlushRows(s, minutes)) == Flush(Grouping(Cores(s.cur), s.key, Cores(s.out)), minutes)
  {
    CoresAre(s.cur);
    if FlushRows(s, minutes) != [] {
      CoresOne(FlushRows(s, minutes)[0]);
    }
  }

  lemma {:induction false} GroupCores<E>(rows: seq<Row<E>>, minutes: nat)
    requires minutes >= 1
    ensures var s := GroupRows(rows, minutes);
      Group(Cores(rows), minutes) == Grouping(Cores(s.cur), s.key, Cores(s.out))
  {
    if |rows| > 0 {
      var n := |rows| - 1;
      var b := rows[n];
      GroupCores(rows[..n], minutes);
      CoresAre(rows[..n]);
      GroupAppend(Cores(rows[..n]), b.bar, minutes);
      var s := GroupRows(rows[..n], minutes);
      FlushCores(s, minutes);
      CoresConcat(s.cur, [b]);
      CoresOne(b);
      CoresConcat(s.out, FlushRows(s, minutes));
    }
  }

  /** Leaving out what a bar carries besides, before or after aggregating, is the same. */
  lemma CoresCommute<E>(rows: seq<Row<E>>, minutes: int)
    ensures var all := AggregateAll(rows, minutes);
      Aggregate(Cores(rows), minutes) == if all.Ok? then Ok(Cores(all.value)) else Err(all.message)
  {
    CoresAre(rows);
    assert AscendingRows(rows) <==> Ascending(Cores(rows));
    if minutes > 1 {
      GroupCores(rows, minutes);
      var s := GroupRows(rows, minutes);
      FlushCores(s, minutes);
      CoresConcat(s.out, FlushRows(s, minutes));
    }
  }

  // ---- what each aggregated bar is made of

  /** The minutes from index `i` are a whole bucket, and `r` is what they fold to. */
  ghost predicate MadeFrom<E>(r: Row<E>, rows: seq<Row<E>>, i: nat, minutes: nat)
    requires minutes >= 1
  {
    && i + minutes <= |rows| && r == Folded(rows[i..i + minutes], r.bar.start, minutes)
    && forall j :: i <= j < i + minutes ==> Bucket(rows[j].bar.start, minutes * MINUTE) == r.bar.start
  }

  ghost predicate Made<E>(r: Row<E>, rows: seq<Row<E>>, minutes: nat)
    requires minutes >= 1
  {
    exists i: nat :: MadeFrom(r, rows, i, minutes)
  }

  /** The open group is the end of the list, all in its bucket. */
  ghost predicate Trailing<E>(s: Rows<E>, rows: seq<Row<E>>, minutes: nat)
    requires minutes >= 1
  {
    && |s.cur| <= |rows| && s.cur == rows[|rows| - |s.cur|..] && (s.key.Some? <==> |s.cur| > 0)
    && (s.key.Some? ==> forall j :: 0 <= j < |s.cur| ==> Bucket(s.cur[j].bar.start, minutes * MINUTE) == s.key.value)
  }

  lemma MadeMore<E>(r: Row<E>, rows: seq<Row<E>>, b: Row<E>, minutes: nat)
    requires minutes >= 1 && Made(r, rows, minutes)
    ensures Made(r, rows + [b], minutes)
  {
    var i: nat :| MadeFrom(r, rows, i, minutes);
    assert (rows + [b])[i..i + minutes] == rows[i..i + minutes];
    assert MadeFrom(r, rows + [b], i, minutes);
  }

  lemma FlushIsMade<E>(s: Rows<E>, rows: seq<Row<E>>, minutes: nat)
    requires minutes >= 1 && Trailing(s, rows, minutes)
    ensures forall r <- FlushRows(s, minutes) :: Made(r, rows, minutes)
  {
    if FlushRows(s, minutes) != [] {
      var i := |rows| - minutes;
      assert rows[i..i + minutes] == s.cur;
      assert MadeFrom(Folded(s.cur, s.key.value, minutes), rows, i, minutes);
    }
  }

  lemma TrailingMore<E>(s: Rows<E>, rows: seq<Row<E>>, b: Row<E>, minutes: nat)
    requires minutes >= 1 && Trailing(s, rows, minutes)
    ensures Trailing(CollectRow(s, b, Bucket(b.bar.start, minutes * MINUTE), minutes), rows + [b], minutes)
  {
  }

  lemma {:induction false} GroupsAreMade<E>(rows: seq<Row<E>>, minutes: nat)
    requires minutes >= 1
    ensures var s := GroupRows(rows, minutes); Trailing(s, rows, minutes) && forall r <- s.out :: Made(r, rows, minutes)
  {
    if |rows| > 0 {
      var before, b := rows[..|rows| - 1], rows[|rows| - 1];
      GroupsAreMade(before, minutes);
      var s := GroupRows(before, minutes);
      assert rows == before + [b];
      TrailingMore(s, before, b, minutes);
      FlushIsMade(s, before, minutes);
      forall r | r in GroupRows(rows, minutes).out ensures Made(r, rows, minutes) {
        MadeMore(r, before, b, minutes);
      }
    }
  }

  /** Every aggregated bar folds as many consecutive minutes as the timeframe has, all of its bucket:
      it ends where the bucket ends, its spread is the mean of the spreads that are known, and its
      other fields are those of its last minute. */
  lemma EachFoldsItsBucket<E>(rows: seq<Row<E>>, minutes: int)
    requires minutes > 1 && AggregateAll(rows, minutes).Ok?
    ensures forall r <- AggregateAll(rows, minutes).value :: Made(r, rows, minutes)
  {
    GroupsAreMade(rows, minutes);
    FlushIsMade(GroupRows(rows, minutes), rows, minutes);
  }

  /** So the spread is known exactly when some minute's is, and lies between the minutes' spreads. */
  lemma SpreadIsWithin<E>(r: Row<E>, rows: seq<Row<E>>, i: nat, minutes: nat, lo: real, hi: real)
    requires minutes >= 1 && MadeFrom(r, rows, i, minutes)
    requires forall j :: i <= j < i + minutes && rows[j].spreadBps.Some? ==> lo <= rows[j].spreadBps.value <= hi
    ensures r.spreadBps.Some? <==> exists j :: i <= j < i + minutes && rows[j].spreadBps.Some?
    ensures r.spreadBps.Some? ==> lo <= r.spreadBps.value <= hi
  {
    var g := rows[i..i + minutes];
    forall x ensures x in SpreadsOf(g) <==> exists j :: 0 <= j < |g| && g[j].spreadBps == Some(x) {
      SpreadsAre(g, x);
    }
    if j :| i <= j < i + minutes && rows[j].spreadBps.Some? {
      assert g[j - i].spreadBps == Some(rows[j].spreadBps.value);
    }
    if SpreadsOf(g) != [] {
      assert SpreadsOf(g)[0] in SpreadsOf(g);
      MeanBetween(SpreadsOf(g), lo, hi);
    }
  }

  // ---- bars as the bar builder closes them

  /** The bar builder ends a bar one millisecond before the next begins (fbot/core/market.py:62) and
      gives it no spread. */
  function Rowed<E>(bars: seq<Bar>, width: int, extra: E): seq<Row<E>> {
    seq(|bars|, k requires 0 <= k < |bars| => Row(bars[k], bars[k].start + width - 1, None, extra))
  }

  lemma CoresOfRowed<E>(bars: seq<Bar>, width: int, extra: E)
    ensures Cores(Rowed(bars, width, extra)) == bars
  {
    CoresAre(Rowed(bars, width, extra));
  }

  /** What aggregated bars of the builder carry: their end lies a millisecond after the one the
      builder would give. */
  lemma MadeOfRowed<E>(r: Row<E>, bars: seq<Bar>, extra: E, minutes: nat)
    requires minutes >= 1 && Made(r, Rowed(bars, MINUTE, extra), minutes)
    ensures r == Row(r.bar, r.bar.start + minutes * MINUTE, None, extra)
  {
    var rows := Rowed(bars, MINUTE, extra);
    var i: nat :| MadeFrom(r, rows, i, minutes);
    var g := rows[i..i + minutes];
    if SpreadsOf(g) != [] {
      assert SpreadsOf(g)[0] in SpreadsOf(g);
      SpreadsAre(g, SpreadsOf(g)[0]);
    }
  }

  lemma LateEnds<E>(out: seq<Row<E>>, width: int, extra: E)
    requires forall r <- out :: r == Row(r.bar, r.bar.start + width, None, extra)
    ensures out == Rowed(Cores(out), width, extra) <==> Cores(out) == []
  {
    CoresAre(out);
    if |out| > 0 {
      assert out[0] in out;
      assert Rowed(Cores(out), width, extra)[0].endMs != out[0].endMs;
    }
  }

  lemma FoldedEnds<E>(bars: seq<Bar>, minutes: nat, extra: E)
    requires minutes > 1 && AggregateAll(Rowed(bars, MINUTE, extra), minutes).Ok?
    ensures forall r <- AggregateAll(Rowed(bars, MINUTE, extra), minutes).value ::
      r == Row(r.bar, r.bar.start + minutes * MINUTE, None, extra)
  {
    EachFoldsItsBucket(Rowed(bars, MINUTE, extra), minutes);
    forall r | r in AggregateAll(Rowed(bars, MINUTE, extra), minutes).value
      ensures r == Row(r.bar, r.bar.start + minutes * MINUTE, None, extra)
    {
      MadeOfRowed(r, bars, extra, minutes);
    }
  }

  lemma AggregatedCores<E>(bars: seq<Bar>, direct: seq<Bar>, minutes: nat, extra: E)
    requires minutes >= 1 && Aggregate(bars, minutes) == Ok(direct)
    ensures var all := AggregateAll(Rowed(bars, MINUTE, extra), minutes); all.Ok? && Cores(all.value) == direct
  {
    CoresOfRowed(bars, MINUTE, extra);
    CoresCommute(Rowed(bars, MINUTE, extra), minutes);
  }

  /** Timeframes commute in everything a bar carries exactly when the timeframe is one minute or there
      is no complete bar; otherwise the ends differ, and only they. */
  lemma WholeBarsCommuteIff<E>(ts: seq<Trade>, minutes: nat, extra: E)
    requires minutes >= 1 && InOrder(ts)
    ensures var all := AggregateAll(Rowed(Closed(ts, MINUTE), MINUTE, extra), minutes);
      var direct := CompleteOnly(ts, Closed(ts, minutes * MINUTE), minutes);
      && all.Ok? && Cores(all.value) == direct && (forall r <- all.value :: r.spreadBps == None && r.extra == extra)
      && (all.value == Rowed(direct, minutes * MINUTE, extra) <==> minutes == 1 || direct == [])
  {
    TimeframesCommute(ts, minutes);
    RowsCommuteIff(Closed(ts, MINUTE), CompleteOnly(ts, Closed(ts, minutes * MINUTE), minutes), minutes, extra);
  }

  lemma RowsCommuteIff<E>(bars: seq<Bar>, direct: seq<Bar>, minutes: nat, extra: E)
    requires minutes >= 1 && Aggregate(bars, minutes) == Ok(direct)
    ensures var all := AggregateAll(Rowed(bars, MINUTE, extra), minutes);
      && all.Ok? && Cores(all.value) == direct && (forall r <- all.value :: r.spreadBps == None && r.extra == extra)
      && (all.value == Rowed(direct, minutes * MINUTE, extra) <==> minutes == 1 || direct == [])
  {
    AggregatedCores(bars, direct, minutes, extra);
    if minutes > 1 {
      FoldedEnds(bars, minutes, extra);
      LateEnds(AggregateAll(Rowed(bars, MINUTE, extra), minutes).value, minutes * MINUTE, extra);
    }
  }

  // ---- the loops

  method MeanSpread<E>(g: seq<Row<E>>) returns (mean: Option<real>)
    ensures mean == Mean(SpreadsOf(g))
  {
    var spreads: seq<real>, sum := [], 0.0;
    for i := 0 to |g|
      invariant spreads == SpreadsOf(g[..i]) && sum == Sum(spreads)
    {
      assert g[..i + 1][..i] == g[..i];
      if g[i].spreadBps.Some? {
        assert (spreads + [g[i].spreadBps.value])[..|spreads|] == spreads;
        spreads, sum := spreads + [g[i].spreadBps.value], sum + g[i].spreadBps.value;
      }
    }
    assert g[..|g|] == g;
    mean := if spreads == [] then None else Some(sum / |spreads| as real);
  }

  method FoldGroup<E>(g: seq<Row<E>>, start: int, minutes: nat) returns (out: seq<Row<E>>)
    requires |g| > 0
    ensures out == FoldRows(g, start, minutes)
  {
    if |g| != minutes {
      return [];
    }
    ghost var cores := Cores(g);
    CoresAre(g);
    var b := g[0].bar;
    var high, low, volume, buy, trades := b.high, b.low, b.volume, b.buyVolume, b.trades;
    assert cores[..1][..0] == [];
    for i := 1 to |g|
      invariant high == HighOf(cores[..i]) && low == LowOf(cores[..i])
      invariant volume == VolumeOf(cores[..i]) && buy == BuyVolumeOf(cores[..i]) && trades == TradesOf(cores[..i])
    {
      assert cores[..i + 1][..i] == cores[..i];
      b := g[i].bar;
      high, low := Max(high, b.high), Min(low, b.low);
      volume, buy, trades := volume + b.volume, buy + b.buyVolume, trades + b.trades;
    }
    assert cores[..|g|] == cores;
    var spread := MeanSpread(g);
    var last := g[|g| - 1];
    out := [Row(Bar(start, g[0].bar.open, high, low, last.bar.close, volume, trades, buy), start + minutes * MINUTE, spread,
                last.extra)];
  }

  method CheckAscending<E>(rows: seq<Row<E>>) returns (ok: bool)
    ensures ok <==> AscendingRows(rows)
  {
    var n := 0;
    while n + 1 < |rows|
      invariant forall j :: 0 <= j < n && j + 1 < |rows| ==> rows[j].bar.start < rows[j + 1].bar.start
    {
      if rows[n].bar.start >= rows[n + 1].bar.start {
        return false;
      }
      n := n + 1;
    }
    ok := true;
  }

  /** One turn of the aggregation loop: a bar with another key first folds the group before it. */
  method Collect<E>(cur: seq<Row<E>>, key: Option<int>, out: seq<Row<E>>, b: Row<E>, k: int, minutes: nat)
    returns (cur': seq<Row<E>>, key': Option<int>, out': seq<Row<E>>)
    requires key.Some? <==> |cur| > 0
    ensures Rows(cur', key', out') == CollectRow(Rows(cur, key, out), b, k, minutes)
    ensures key'.Some? && |cur'| > 0
  {
    cur', key', out' := cur, key, out;
    if key != Some(k) {
      if |cur| > 0 {
        var f := FoldGroup(cur, key.value, minutes);
        out' := out + f;
      }
      cur', key' := [], Some(k);
    }
    cur' := cur' + [b];
  }

  lemma GroupRowsAppend<E>(rows: seq<Row<E>>, b: Row<E>, minutes: nat)
    requires minutes >= 1
    ensures GroupRows(rows + [b], minutes)
      == CollectRow(GroupRows(rows, minutes), b, Bucket(b.bar.start, minutes * MINUTE), minutes)
  {
    assert (rows + [b])[..|rows|] == rows;
  }

  method AggregateBars<E>(rows: seq<Row<E>>, minutes: int) returns (r: Result<seq<Row<E>>>)
    ensures r == AggregateAll(rows, minutes)
  {
    if minutes < 1 {
      return Err("timeframe below one minute");
    }
    var ascending := CheckAscending(rows);
    if !ascending {
      return Err("bars not ascending");
    }
    if minutes == 1 {
      return Ok(rows);
    }
    var out: seq<Row<E>>, cur: seq<Row<E>>, key: Option<int> := [], [], None;
    for i := 0 to |rows|
      invariant Rows(cur, key, out) == GroupRows(rows[..i], minutes)
      invariant key.Some? <==> |cur| > 0
    {
      var k := Bucket(rows[i].bar.start, minutes * MINUTE);
      assert rows[..i + 1] == rows[..i] + [rows[i]];
      GroupRowsAppend(rows[..i], rows[i], minutes);
      cur, key, out := Collect(cur, key, out, rows[i], k, minutes);
    }
    assert rows[..|rows|] == rows;
    ghost var s := GroupRows(rows, minutes);
    if |cur| > 0 {
      var f := FoldGroup(cur, key.value, minutes);
      out := out + f;
    }
    assert out == s.out + FlushRows(s, minutes);
    r := Ok(out);
  }
}
