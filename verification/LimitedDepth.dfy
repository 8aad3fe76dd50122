/** The local order book under snapshots of limited depth (fbot/orderbook.py, fbot/recorder/main.py:118):
    what `OrderBookSync` proves of the whole book, price by price. */
module LimitedDepth {
  import opened Common
  import opened OrderBookSync

  datatype Side = Bid | Ask

  function SideOf(b: Book, side: Side): Levels {
    if side.Bid? then b.bids else b.asks
  }

  function SnapshotSide(s: Snapshot, side: Side): Levels {
    if side.Bid? then s.bids else s.asks
  }

  function TrueSide(w: World, id: nat, side: Side): Levels {
    if side.Bid? then TrueBids(w, id) else TrueAsks(w, id)
  }

  function ChangesOf(d: Diff, side: Side): seq<Change> {
    if side.Bid? then d.bids else d.asks
  }

  /** The snapshot shows the true quantity at the price, which a price beyond its depth need not have. */
  predicate ShowsTrue(w: World, s: Snapshot, side: Side, price: real) {
    s.lastUpdateId >= 0 && Quantity(SnapshotSide(s, side), price) == Quantity(TrueSide(w, s.lastUpdateId, side), price)
  }

  /** A synced book has the true quantity at the price. */
  predicate RightAt(w: World, b: Book, side: Side, price: real) {
    b.synced ==>
      && b.buffer == [] && Position(b) >= 0
      && Quantity(SideOf(b, side), price) == Quantity(TrueSide(w, Position(b), side), price)
  }

  /** One side of a genuine diff writes the quantity it has at the diff's end, and mentions all that changed. */
  lemma CatchesUpAt(w: World, d: Diff, m: Levels, from: nat, side: Side, price: real)
    requires Genuine(w, d) && Low(d) <= from <= d.u
    requires Mentions(ChangesOf(d, side), price) || Quantity(m, price) == Quantity(TrueSide(w, from, side), price)
    ensures Quantity(PutAll(m, ChangesOf(d, side)), price) == Quantity(TrueSide(w, d.u, side), price)
  {
    PutAllMentions(m, ChangesOf(d, side), price, Quantity(TrueSide(w, d.u, side), price));
    Untouched(w, from, d.u, price);
  }

  /** A diff that is applied leaves the price right if it was, and makes it right if it mentions it. */
  lemma ProcessRightAt(w: World, b: Book, d: Diff, side: Side, price: real)
    requires b.synced && b.buffer == [] && Position(b) >= 0 && Genuine(w, d)
    requires RightAt(w, b, side, price) || (Process(b, d).1 == Applied && Mentions(ChangesOf(d, side), price))
    ensures RightAt(w, Process(b, d).0, side, price) && Process(b, d).0.buffer == []
    ensures Process(b, d).1 == Resync <==> !Process(b, d).0.synced
  {
    if Process(b, d).1 == Applied {
      CatchesUpAt(w, d, SideOf(b, side), Position(b), side, price);
    }
  }

  lemma {:induction false} ProcessAllRightAt(w: World, b: Book, pending: seq<Diff>, side: Side, price: real)
    requires b.synced && RightAt(w, b, side, price) && forall d <- pending :: Genuine(w, d)
    ensures RightAt(w, ProcessAll(b, pending).0, side, price)
    decreases |pending|
  {
    if pending != [] {
      ProcessRightAt(w, b, pending[0], side, price);
      if Process(b, pending[0]).1 != Resync {
        ProcessAllRightAt(w, Process(b, pending[0]).0, pending[1..], side, price);
      }
    }
  }

  /** Diffs are the exchange's own; nothing is asked of snapshots. */
  ghost predicate GenuineDiffs(w: World, events: seq<Event>) {
    forall e <- events :: e.Incoming? ==> Genuine(w, e.diff)
  }

  ghost predicate GenuineBuffer(w: World, b: Book) {
    (forall d <- b.buffer :: Genuine(w, d)) && (b.synced ==> b.buffer == [])
  }

  lemma {:induction false} ProcessAllBuffer(b: Book, pending: seq<Diff>)
    ensures ProcessAll(b, pending).0.buffer == b.buffer
    decreases |pending|
  {
    if pending != [] && Process(b, pending[0]).1 != Resync {
      ProcessAllBuffer(Process(b, pending[0]).0, pending[1..]);
    }
  }

  lemma {:induction false} RunBuffer(w: World, b: Book, events: seq<Event>)
    requires GenuineBuffer(w, b) && GenuineDiffs(w, events)
    ensures GenuineBuffer(w, Run(b, events))
    decreases |events|
  {
    if events != [] {
      if events[0].Refresh? {
        ProcessAllBuffer(Install(b, events[0].snapshot), b.buffer);
      }
      RunBuffer(w, Step(b, events[0]), events[1..]);
    }
  }

  predicate OnlyDiffs(events: seq<Event>) {
    forall e <- events :: e.Incoming?
  }

  lemma {:induction false} DiffsKeepRightAt(w: World, b: Book, after: seq<Event>, side: Side, price: real)
    requires RightAt(w, b, side, price) && GenuineDiffs(w, after) && OnlyDiffs(after)
    ensures RightAt(w, Run(b, after), side, price)
    decreases |after|
  {
    if after != [] {
      assert after[0] in after;
      if b.synced {
        ProcessRightAt(w, b, after[0].diff, side, price);
      }
      DiffsKeepRightAt(w, Step(b, after[0]), after[1..], side, price);
    }
  }

  lemma {:induction false} RunConcat(b: Book, first: seq<Event>, second: seq<Event>)
    ensures Run(b, first + second) == Run(Run(b, first), second)
    decreases |first|
  {
    if first == [] {
      assert first + second == second;
    } else {
      assert (first + second)[1..] == first[1..] + second;
      RunConcat(Step(b, first[0]), first[1..], second);
    }
  }

  /** Whatever came before, and whatever of the diffs is lost, repeated or reordered: while the book is
      synced it is right at every price at which the last snapshot was. */
  lemma RightWhereSnapshotIs(w: World, before: seq<Event>, s: Snapshot, after: seq<Event>, side: Side, price: real)
    requires GenuineDiffs(w, before) && GenuineDiffs(w, after) && OnlyDiffs(after) && ShowsTrue(w, s, side, price)
    ensures RightAt(w, Run(New(), before + ([Refresh(s)] + after)), side, price)
  {
    var b := Run(New(), before);
    RunConcat(New(), before, [Refresh(s)] + after);
    RunBuffer(w, New(), before);
    ProcessAllRightAt(w, Install(b, s), b.buffer, side, price);
    assert ([Refresh(s)] + after)[1..] == after;
    DiffsKeepRightAt(w, Step(b, Refresh(s)), after, side, price);
  }

  /** And at every other price from the first applied diff that mentions it. */
  lemma RightOnceTouched(w: World, b: Book, d: Diff, after: seq<Event>, side: Side, price: real)
    requires b.synced && b.buffer == [] && Position(b) >= 0 && Genuine(w, d)
    requires Feed(b, d).1 == Applied && Mentions(ChangesOf(d, side), price)
    requires GenuineDiffs(w, after) && OnlyDiffs(after)
    ensures RightAt(w, Run(b, [Incoming(d)] + after), side, price)
  {
    ProcessRightAt(w, b, d, side, price);
    assert ([Incoming(d)] + after)[1..] == after;
    DiffsKeepRightAt(w, Feed(b, d).0, after, side, price);
  }

  /** A price the snapshot left out stays wrong until a diff touches it: it is right after the snapshot
      exactly when it was shown right. */
  lemma RightAfterSnapshotIff(w: World, b: Book, s: Snapshot, side: Side, price: real)
    requires b.buffer == [] && s.lastUpdateId >= 0
    ensures RightAt(w, Step(b, Refresh(s)), side, price) <==> ShowsTrue(w, s, side, price)
  {
  }
}
