/** Local order book: a snapshot-plus-diff protocol over a network that may lose, duplicate and
    reorder diffs (fbot/orderbook.py). */
module OrderBookSync {
  import opened Common

  type Levels = map<real, real>   // price -> resting quantity

  datatype Change = Change(price: real, qty: real)

  /** Covers update ids U..u; `pu` is the last id of the diff before it. */
  datatype Diff = Diff(U: int, u: int, pu: Option<int>, bids: seq<Change>, asks: seq<Change>)

  datatype Snapshot = Snapshot(lastUpdateId: int, bids: Levels, asks: Levels)

  datatype Outcome = Buffered | Dropped | Applied | Resync

  datatype Reason = Adjacent | Gap | Broken

  datatype Stats = Stats(resyncs: nat, reasons: map<Reason, nat>, syncs: nat, applied: nat, dropped: nat)

  datatype Book = Book(
    bids: Levels, asks: Levels, lastUpdateId: int, lastU: Option<int>, synced: bool, buffer: seq<Diff>, stats: Stats)

  function New(): Book {
    Book(map[], map[], 0, None, false, [], Stats(0, map[], 0, 0, 0))
  }

  // ---- one diff

  /** Quantities are absolute; zero removes the level, present or not. */
  function Put(m: Levels, c: Change): Levels {
    if c.qty == 0.0 then m - {c.price} else m[c.price := c.qty]
  }

  function PutAll(m: Levels, cs: seq<Change>): Levels
    decreases |cs|
  {
    if cs == [] then m else Put(PutAll(m, cs[..|cs| - 1]), cs[|cs| - 1])
  }

  function CountReason(reasons: map<Reason, nat>, why: Reason): map<Reason, nat> {
    reasons[why := (if why in reasons then reasons[why] else 0) + 1]
  }

  function Lose(b: Book, why: Reason): Book {
    b.(synced := false, lastU := None,
      stats := b.stats.(resyncs := b.stats.resyncs + 1, reasons := CountReason(b.stats.reasons, why)))
  }

  function Accept(b: Book, d: Diff): Book {
    b.(bids := PutAll(b.bids, d.bids), asks := PutAll(b.asks, d.asks), lastU := Some(d.u),
      stats := b.stats.(applied := b.stats.applied + 1))
  }

  function Process(b: Book, d: Diff): (Book, Outcome) {
    if b.lastU.None? then
      if d.u < b.lastUpdateId then (b.(stats := b.stats.(dropped := b.stats.dropped + 1)), Dropped)
      else if !(d.U <= b.lastUpdateId <= d.u) then
        (Lose(b, if d.U == b.lastUpdateId + 1 then Adjacent else Gap), Resync)
      else (Accept(b.(stats := b.stats.(syncs := b.stats.syncs + 1)), d), Applied)
    else if d.pu != b.lastU then (Lose(b, Broken), Resync)
    else (Accept(b, d), Applied)
  }

  /** The pending diffs in order, up to and including the first that forces a resync. */
  function ProcessAll(b: Book, pending: seq<Diff>): (Book, seq<Outcome>)
    decreases |pending|
  {
    if pending == [] then (b, [])
    else
      var (b1, r) := Process(b, pending[0]);
      if r == Resync then (b1, [r])
      else
        var (b2, rest) := ProcessAll(b1, pending[1..]);
        (b2, [r] + rest)
  }

  function Install(b: Book, s: Snapshot): Book {
    b.(bids := s.bids, asks := s.asks, lastUpdateId := s.lastUpdateId, lastU := None, synced := true, buffer := [])
  }

  function ApplySnapshot(b: Book, s: Snapshot): (Book, seq<Outcome>) {
    ProcessAll(Install(b, s), b.buffer)
  }

  function Feed(b: Book, d: Diff): (Book, Outcome) {
    if !b.synced then (b.(buffer := b.buffer + [d]), Buffered) else Process(b, d)
  }

  datatype Event = Incoming(diff: Diff) | Refresh(snapshot: Snapshot)

  function Step(b: Book, e: Event): Book {
    match e
    case Incoming(d) => Feed(b, d).0
    case Refresh(s) => ApplySnapshot(b, s).0
  }

  function Run(b: Book, events: seq<Event>): Book
    decreases |events|
  {
    if events == [] then b else Run(Step(b, events[0]), events[1..])
  }

  // ---- the exchange

  /** What the exchange did at each update id; an id may leave this symbol untouched. */
  datatype Update = Update(bids: seq<Change>, asks: seq<Change>)

  datatype World = World(at: nat -> Update)

  function TrueBids(w: World, id: nat): Levels {
    if id == 0 then map[] else PutAll(TrueBids(w, id - 1), w.at(id).bids)
  }

  function TrueAsks(w: World, id: nat): Levels {
    if id == 0 then map[] else PutAll(TrueAsks(w, id - 1), w.at(id).asks)
  }

  function Quantity(m: Levels, price: real): real {
    if price in m then m[price] else 0.0
  }

  predicate Mentions(cs: seq<Change>, price: real) {
    exists i :: 0 <= i < |cs| && cs[i].price == price
  }

  /** `cs` reports a side at id `hi`: every price touched after `lo` is mentioned, and every price
      mentioned has the quantity it holds at `hi`. */
  ghost predicate Reports(cs: seq<Change>, side: (World, nat) -> Levels, touched: (World, nat) -> seq<Change>,
                          w: World, lo: nat, hi: nat)
  {
    && (forall i :: 0 <= i < |cs| ==> cs[i].qty == Quantity(side(w, hi), cs[i].price))
    && (forall id: nat, price: real :: lo < id <= hi && Mentions(touched(w, id), price) ==> Mentions(cs, price))
  }

  function BidsAt(w: World, id: nat): seq<Change> { w.at(id).bids }
  function AsksAt(w: World, id: nat): seq<Change> { w.at(id).asks }

  /** The first id a diff is complete from; without `pu` it is complete from its own U. */
  function Low(d: Diff): int {
    if d.pu.Some? then d.pu.value else d.U - 1
  }

  /** A diff the exchange really sent. The network decides only when, how often and whether it arrives. */
  ghost predicate Genuine(w: World, d: Diff) {
    && 0 <= Low(d) < d.U <= d.u
    && Reports(d.bids, TrueBids, BidsAt, w, Low(d), d.u)
    && Reports(d.asks, TrueAsks, AsksAt, w, Low(d), d.u)
  }

  ghost predicate GenuineSnapshot(w: World, s: Snapshot) {
    s.lastUpdateId >= 0 && s.bids == TrueBids(w, s.lastUpdateId) && s.asks == TrueAsks(w, s.lastUpdateId)
  }

  ghost predicate GenuineEvent(w: World, e: Event) {
    match e case Incoming(d) => Genuine(w, d) case Refresh(s) => GenuineSnapshot(w, s)
  }

  /** The id whose true book a synced book claims to hold. */
  function Position(b: Book): int {
    if b.lastU.Some? then b.lastU.value else b.lastUpdateId
  }

  ghost predicate Faithful(w: World, b: Book) {
    b.synced ==>
      && b.buffer == [] && Position(b) >= 0
      && b.bids == TrueBids(w, Position(b)) && b.asks == TrueAsks(w, Position(b))
  }

  ghost predicate GenuineBook(w: World, b: Book) {
    Faithful(w, b) && forall d <- b.buffer :: Genuine(w, d)
  }

  // ---- absolute quantities make the overlap harmless

  predicate NoZeros(m: Levels) {
    forall price <- m :: m[price] != 0.0
  }

  lemma {:induction false} PutAllMentions(m: Levels, cs: seq<Change>, price: real, q: real)
    requires forall i :: 0 <= i < |cs| && cs[i].price == price ==> cs[i].qty == q
    ensures Mentions(cs, price) ==> Quantity(PutAll(m, cs), price) == q
    ensures !Mentions(cs, price) ==> Quantity(PutAll(m, cs), price) == Quantity(m, price)
    ensures NoZeros(m) ==> NoZeros(PutAll(m, cs))
    decreases |cs|
  {
    if cs != [] {
      var n := |cs| - 1;
      PutAllMentions(m, cs[..n], price, q);
      if cs[n].price == price {
        assert Mentions(cs, price);
      } else if Mentions(cs, price) {
        var i :| 0 <= i < |cs| && cs[i].price == price;
        assert cs[..n][i].price == price;
        assert Mentions(cs[..n], price);
      } else {
        assert !Mentions(cs[..n], price);
      }
    }
  }

  lemma SameQuantities(a: Levels, b: Levels)
    requires NoZeros(a) && NoZeros(b)
    requires forall price: real :: Quantity(a, price) == Quantity(b, price)
    ensures a == b
  {
    forall price: real ensures (price in a <==> price in b) && (price in a ==> a[price] == b[price]) {
      assert Quantity(a, price) == Quantity(b, price);
    }
  }

  lemma {:induction false} TrueHasNoZeros(w: World, id: nat)
    ensures NoZeros(TrueBids(w, id)) && NoZeros(TrueAsks(w, id))
  {
    if id > 0 {
      TrueHasNoZeros(w, id - 1);
      PutAllKeepsNoZeros(TrueBids(w, id - 1), w.at(id).bids);
      PutAllKeepsNoZeros(TrueAsks(w, id - 1), w.at(id).asks);
    }
  }

  lemma {:induction false} PutAllKeepsNoZeros(m: Levels, cs: seq<Change>)
    requires NoZeros(m)
    ensures NoZeros(PutAll(m, cs))
    decreases |cs|
  {
    if cs != [] {
      PutAllKeepsNoZeros(m, cs[..|cs| - 1]);
    }
  }

  /** A price no update touches between two ids keeps its quantity. */
  lemma {:induction false} Untouched(w: World, lo: nat, hi: nat, price: real)
    requires lo <= hi
    ensures (forall id: nat :: lo < id <= hi ==> !Mentions(BidsAt(w, id), price)) ==>
      Quantity(TrueBids(w, lo), price) == Quantity(TrueBids(w, hi), price)
    ensures (forall id: nat :: lo < id <= hi ==> !Mentions(AsksAt(w, id), price)) ==>
      Quantity(TrueAsks(w, lo), price) == Quantity(TrueAsks(w, hi), price)
  {
    if lo < hi {
      Untouched(w, lo, hi - 1, price);
      if !Mentions(BidsAt(w, hi), price) {
        PutAllMentions(TrueBids(w, hi - 1), w.at(hi).bids, price, 0.0);
      }
      if !Mentions(AsksAt(w, hi), price) {
        PutAllMentions(TrueAsks(w, hi - 1), w.at(hi).asks, price, 0.0);
      }
    }
  }

  /** Applied to the true book anywhere between the previous diff and its own end, a genuine diff
      gives the true book at its end: levels already current are simply written again. */
  lemma DiffCatchesUp(w: World, d: Diff, from: nat)
    requires Genuine(w, d) && Low(d) <= from <= d.u
    ensures PutAll(TrueBids(w, from), d.bids) == TrueBids(w, d.u)
    ensures PutAll(TrueAsks(w, from), d.asks) == TrueAsks(w, d.u)
  {
    TrueHasNoZeros(w, from);
    TrueHasNoZeros(w, d.u);
    forall price: real ensures Quantity(PutAll(TrueBids(w, from), d.bids), price) == Quantity(TrueBids(w, d.u), price) {
      PutAllMentions(TrueBids(w, from), d.bids, price, Quantity(TrueBids(w, d.u), price));
      Untouched(w, from, d.u, price);
    }
    forall price: real ensures Quantity(PutAll(TrueAsks(w, from), d.asks), price) == Quantity(TrueAsks(w, d.u), price) {
      PutAllMentions(TrueAsks(w, from), d.asks, price, Quantity(TrueAsks(w, d.u), price));
      Untouched(w, from, d.u, price);
    }
    PutAllKeepsNoZeros(TrueBids(w, from), d.bids);
    PutAllKeepsNoZeros(TrueAsks(w, from), d.asks);
    SameQuantities(PutAll(TrueBids(w, from), d.bids), TrueBids(w, d.u));
    SameQuantities(PutAll(TrueAsks(w, from), d.asks), TrueAsks(w, d.u));
  }

  // ---- safety over every run

  lemma ProcessFaithful(w: World, b: Book, d: Diff)
    requires Faithful(w, b) && b.synced && Genuine(w, d)
    ensures var (c, r) := Process(b, d);
      Faithful(w, c) && c.buffer == [] && (r == Resync <==> !c.synced) && r != Buffered
  {
    if Process(b, d).1 == Applied {
      DiffCatchesUp(w, d, Position(b));
    }
  }

  lemma {:induction false} ProcessAllFaithful(w: World, b: Book, pending: seq<Diff>)
    requires Faithful(w, b) && b.synced && forall d <- pending :: Genuine(w, d)
    ensures Faithful(w, ProcessAll(b, pending).0) && ProcessAll(b, pending).0.buffer == []
    decreases |pending|
  {
    if pending != [] {
      ProcessFaithful(w, b, pending[0]);
      if Process(b, pending[0]).1 != Resync {
        ProcessAllFaithful(w, Process(b, pending[0]).0, pending[1..]);
      }
    }
  }

  lemma StepFaithful(w: World, b: Book, e: Event)
    requires GenuineBook(w, b) && GenuineEvent(w, e)
    ensures GenuineBook(w, Step(b, e))
  {
    match e
    case Incoming(d) =>
      if b.synced {
        ProcessFaithful(w, b, d);
      }
    case Refresh(s) =>
      ProcessAllFaithful(w, Install(b, s), b.buffer);
  }

  /** Whatever is lost, repeated or reordered, and whenever snapshots arrive: a synced book is the
      true book at the id it claims, and has nothing buffered. */
  lemma {:induction false} SyncedIsTrue(w: World, b: Book, events: seq<Event>)
    requires GenuineBook(w, b) && forall e <- events :: GenuineEvent(w, e)
    ensures GenuineBook(w, Run(b, events))
    decreases |events|
  {
    if events != [] {
      StepFaithful(w, b, events[0]);
      SyncedIsTrue(w, Step(b, events[0]), events[1..]);
    }
  }

  lemma FromTheStart(w: World, events: seq<Event>)
    requires forall e <- events :: GenuineEvent(w, e)
    ensures var b := Run(New(), events);
      b.synced ==>
        && b.buffer == [] && Position(b) >= 0
        && b.bids == TrueBids(w, Position(b)) && b.asks == TrueAsks(w, Position(b))
  {
    SyncedIsTrue(w, New(), events);
  }

  // ---- a lossless buffer

  /** Consecutive diffs of the stream, none missing. */
  predicate Chain(ds: seq<Diff>) {
    && (forall i :: 0 <= i < |ds| ==> ds[i].U <= ds[i].u)
    && (forall i :: 0 < i < |ds| ==> ds[i].pu == Some(ds[i - 1].u) && ds[i - 1].u < ds[i].U)
  }

  function Repeat(r: Outcome, n: nat): (s: seq<Outcome>)
    ensures |s| == n
  {
    if n == 0 then [] else [r] + Repeat(r, n - 1)
  }

  lemma {:induction false} ChainApplies(b: Book, ds: seq<Diff>)
    requires Chain(ds) && b.synced && b.lastU.Some? && (ds != [] ==> ds[0].pu == b.lastU)
    ensures ProcessAll(b, ds).1 == Repeat(Applied, |ds|)
    ensures ProcessAll(b, ds).0.synced
    ensures ds != [] ==> ProcessAll(b, ds).0.lastU == Some(ds[|ds| - 1].u)
    decreases |ds|
  {
    if ds != [] {
      ChainApplies(Process(b, ds[0]).0, ds[1..]);
      assert Repeat(Applied, |ds|) == [Applied] + Repeat(Applied, |ds| - 1);
    }
  }

  /** The number of leading diffs that end before the snapshot. */
  function Stale(ds: seq<Diff>, id: int): (k: nat)
    ensures k <= |ds| && (forall i :: 0 <= i < k ==> ds[i].u < id) && (k < |ds| ==> ds[k].u >= id)
  {
    if ds == [] || ds[0].u >= id then 0 else 1 + Stale(ds[1..], id)
  }

  /** What a lossless buffer comes to: dropped diffs, then applied ones, unless the first diff reaching
      past the snapshot starts after it; that one forces the only resync and those behind it are lost. */
  predicate LosslessResult(ds: seq<Diff>, id: int, c: Book, out: seq<Outcome>) {
    var k := Stale(ds, id);
    if k == |ds| || ds[k].U <= id then
      && out == Repeat(Dropped, k) + Repeat(Applied, |ds| - k) && c.synced
      && c.lastU == (if k == |ds| then None else Some(ds[|ds| - 1].u))
    else
      out == Repeat(Dropped, k) + [Resync] && !c.synced
  }

  lemma FirstReaching(b: Book, ds: seq<Diff>)
    requires Chain(ds) && b.synced && b.lastU.None? && ds != [] && Stale(ds, b.lastUpdateId) == 0
    ensures var (c, out) := ProcessAll(b, ds); LosslessResult(ds, b.lastUpdateId, c, out)
  {
    var (b1, r) := Process(b, ds[0]);
    assert Repeat(Dropped, 0) == [];
    assert forall rest: seq<Outcome> :: [] + rest == rest;
    if r == Applied {
      assert b1.synced && b1.lastU == Some(ds[0].u);
      ChainApplies(b1, ds[1..]);
      assert Repeat(Applied, |ds|) == [Applied] + Repeat(Applied, |ds| - 1);
    }
  }

  lemma {:induction false} LosslessBuffer(b: Book, ds: seq<Diff>)
    requires Chain(ds) && b.synced && b.lastU.None?
    ensures var (c, out) := ProcessAll(b, ds); LosslessResult(ds, b.lastUpdateId, c, out)
    decreases |ds|
  {
    if ds == [] {
      assert Repeat(Dropped, 0) + Repeat(Applied, 0) == [];
    } else if Stale(ds, b.lastUpdateId) == 0 {
      FirstReaching(b, ds);
    } else {
      var (b1, r) := Process(b, ds[0]);
      assert r == Dropped && b1.lastUpdateId == b.lastUpdateId;
      LosslessBuffer(b1, ds[1..]);
      var (c, out) := ProcessAll(b1, ds[1..]);
      assert ProcessAll(b, ds) == (c, [Dropped] + out);
      StalePrefix(ds, b.lastUpdateId, c, out);
    }
  }

  lemma StalePrefix(ds: seq<Diff>, id: int, c: Book, out: seq<Outcome>)
    requires ds != [] && ds[0].u < id && LosslessResult(ds[1..], id, c, out)
    ensures LosslessResult(ds, id, c, [Dropped] + out)
  {
    var k := Stale(ds[1..], id);
    assert Stale(ds, id) == k + 1;
    var tail := out[k..];
    assert out == Repeat(Dropped, k) + tail;
    assert [Dropped] + (Repeat(Dropped, k) + tail) == Repeat(Dropped, k + 1) + tail;
    assert k < |ds[1..]| ==> ds[1..][k] == ds[k + 1];
  }

  /** A snapshot installed over a lossless buffer that covers its id always syncs, to the end of the buffer. */
  lemma CoveringSnapshotSyncs(b: Book, s: Snapshot, i: nat)
    requires Chain(b.buffer) && i < |b.buffer|
    requires b.buffer[i].U <= s.lastUpdateId <= b.buffer[i].u
    ensures var (c, out) := ApplySnapshot(b, s);
      && c.synced && c.lastU == Some(b.buffer[|b.buffer| - 1].u)
      && out == Repeat(Dropped, i) + Repeat(Applied, |b.buffer| - i)
  {
    var ds, id := b.buffer, s.lastUpdateId;
    ChainIncreases(ds, id);
    var k := Stale(ds, id);
    assert k == i;
    LosslessBuffer(Install(b, s), ds);
  }

  lemma ChainIncreases(ds: seq<Diff>, id: int)
    requires Chain(ds)
    ensures forall i, j :: 0 <= i < j < |ds| ==> ds[i].u < ds[j].U
  {
    forall i, j | 0 <= i < j < |ds| ensures ds[i].u < ds[j].U {
      ChainIncreasesBetween(ds, i, j);
    }
  }

  lemma {:induction false} ChainIncreasesBetween(ds: seq<Diff>, i: nat, j: nat)
    requires Chain(ds) && i < j < |ds|
    ensures ds[i].u < ds[j].U
    decreases j
  {
    if i + 1 < j {
      ChainIncreasesBetween(ds, i, j - 1);
    }
  }

  /** A buffer a snapshot at `id` syncs over: it ends before the snapshot, or one of its diffs covers it. */
  predicate Reaches(ds: seq<Diff>, id: int) {
    ds == [] || ds[|ds| - 1].u < id || exists i :: 0 <= i < |ds| && ds[i].U <= id <= ds[i].u
  }

  lemma ReachesIff(ds: seq<Diff>, id: int)
    requires Chain(ds)
    ensures var k := Stale(ds, id); Reaches(ds, id) <==> k == |ds| || ds[k].U <= id
  {
    ChainIncreases(ds, id);
    var k := Stale(ds, id);
    if k < |ds| {
      assert forall i :: k < i < |ds| ==> ds[k].u < ds[i].U;
      assert ds[k].u <= ds[|ds| - 1].u;
    }
  }

  lemma ResyncIff(ds: seq<Diff>, id: int, c: Book, out: seq<Outcome>)
    requires LosslessResult(ds, id, c, out)
    ensures var k := Stale(ds, id); Resync !in out <==> k == |ds| || ds[k].U <= id
  {
    var k := Stale(ds, id);
    if k == |ds| || ds[k].U <= id {
      RepeatOnly(Dropped, k);
      RepeatOnly(Applied, |ds| - k);
    } else {
      assert out[k] == Resync;
    }
  }

  /** A snapshot over any lossless buffer avoids a further resync exactly when the buffer reaches it. */
  lemma SnapshotSyncsIff(b: Book, s: Snapshot)
    requires Chain(b.buffer)
    ensures Resync !in ApplySnapshot(b, s).1 <==> Reaches(b.buffer, s.lastUpdateId)
  {
    LosslessBuffer(Install(b, s), b.buffer);
    ReachesIff(b.buffer, s.lastUpdateId);
    var (c, out) := ApplySnapshot(b, s);
    ResyncIff(b.buffer, s.lastUpdateId, c, out);
  }

  lemma {:induction false} RepeatOnly(r: Outcome, n: nat)
    ensures forall x <- Repeat(r, n) :: x == r
  {
    if n > 0 {
      RepeatOnly(r, n - 1);
    }
  }

  function FeedAll(b: Book, ds: seq<Diff>): Book
    decreases |ds|
  {
    if ds == [] then b else Feed(FeedAll(b, ds[..|ds| - 1]), ds[|ds| - 1]).0
  }

  lemma {:induction false} UnsyncedBuffers(b: Book, ds: seq<Diff>)
    requires !b.synced
    ensures FeedAll(b, ds) == b.(buffer := b.buffer + ds)
    decreases |ds|
  {
    if ds == [] {
      assert b.buffer + ds == b.buffer;
    } else {
      UnsyncedBuffers(b, ds[..|ds| - 1]);
      assert b.buffer + ds[..|ds| - 1] + [ds[|ds| - 1]] == b.buffer + ds;
    }
  }

  lemma BrokenDiffIsLost(b: Book, d: Diff, later: seq<Diff>)
    requires b.synced && b.buffer == [] && b.lastU.Some? && d.pu != b.lastU
    ensures Feed(b, d).1 == Resync && FeedAll(Feed(b, d).0, later).buffer == later
  {
    UnsyncedBuffers(Feed(b, d).0, later);
    assert [] + later == later;
  }

  /** The diff that breaks the chain is itself thrown away, so recovery depends on the diffs after it
      alone, however many arrived: the next snapshot brings the book back exactly when they reach it. */
  lemma RecoveryIff(b: Book, d: Diff, later: seq<Diff>, s: Snapshot)
    requires b.synced && b.buffer == [] && b.lastU.Some? && d.pu != b.lastU && Chain(later)
    ensures Feed(b, d).1 == Resync
    ensures Resync !in ApplySnapshot(FeedAll(Feed(b, d).0, later), s).1 <==> Reaches(later, s.lastUpdateId)
  {
    BrokenDiffIsLost(b, d, later);
    SnapshotSyncsIff(FeedAll(Feed(b, d).0, later), s);
  }

  /** So a snapshot older than the first of them, such as one that only covers the broken diff, fails. */
  lemma RecoveryNeedsNewerSnapshot(b: Book, d: Diff, later: seq<Diff>, s: Snapshot)
    requires b.synced && b.buffer == [] && b.lastU.Some? && d.pu != b.lastU && Chain(later)
    requires later != [] && s.lastUpdateId < later[0].U
    ensures Resync in ApplySnapshot(FeedAll(Feed(b, d).0, later), s).1
  {
    RecoveryIff(b, d, later, s);
    ReachesIff(later, s.lastUpdateId);
  }

  // ---- bookkeeping

  function CountOf(reasons: map<Reason, nat>, why: Reason): nat {
    if why in reasons then reasons[why] else 0
  }

  /** Every resync has one recorded reason. */
  predicate Accounted(b: Book) {
    b.stats.resyncs == CountOf(b.stats.reasons, Adjacent) + CountOf(b.stats.reasons, Gap) + CountOf(b.stats.reasons, Broken)
  }

  function Handled(b: Book): nat {
    b.stats.applied + b.stats.dropped + b.stats.resyncs
  }

  lemma LoseAccounted(b: Book, why: Reason)
    requires Accounted(b)
    ensures Accounted(Lose(b, why))
  {
    assert forall r :: CountOf(Lose(b, why).stats.reasons, r) == CountOf(b.stats.reasons, r) + if r == why then 1 else 0;
  }

  lemma ProcessAccounted(b: Book, d: Diff)
    requires Accounted(b)
    ensures var c := Process(b, d).0; Accounted(c) && Handled(c) == Handled(b) + 1 && c.buffer == b.buffer
  {
    if b.lastU.Some? {
      if d.pu != b.lastU {
        LoseAccounted(b, Broken);
      }
    } else if d.u >= b.lastUpdateId && !(d.U <= b.lastUpdateId <= d.u) {
      LoseAccounted(b, if d.U == b.lastUpdateId + 1 then Adjacent else Gap);
    }
  }

  lemma {:induction false} ProcessAllAccounted(b: Book, pending: seq<Diff>)
    requires Accounted(b)
    ensures var (c, out) := ProcessAll(b, pending); Accounted(c) && Handled(c) == Handled(b) + |out| && |out| <= |pending|
    decreases |pending|
  {
    if pending != [] {
      ProcessAccounted(b, pending[0]);
      if Process(b, pending[0]).1 != Resync {
        ProcessAllAccounted(Process(b, pending[0]).0, pending[1..]);
      }
    }
  }

  /** Over every run each handled diff is counted once, as applied, dropped or the cause of a resync,
      and the counted reasons add up to the resyncs. */
  lemma StepAccounted(b: Book, e: Event)
    requires Accounted(b)
    ensures var c := Step(b, e);
      && Accounted(c)
      && match e
         case Incoming(d) => Handled(c) + |c.buffer| == Handled(b) + |b.buffer| + 1
         case Refresh(s) => Handled(c) == Handled(b) + |ApplySnapshot(b, s).1|
  {
    match e
    case Incoming(d) =>
      ProcessAccounted(b, d);
    case Refresh(s) => ProcessAllAccounted(Install(b, s), b.buffer);
  }
}
