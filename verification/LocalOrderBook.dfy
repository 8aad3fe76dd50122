/** The order book object (fbot/orderbook.py), proved to compute the protocol of `OrderBookSync`. */
module LocalOrderBook {
  import opened Common
  import opened OrderBookSync

  class LocalBook {
    var bids: Levels
    var asks: Levels
    var lastUpdateId: int
    var lastU: Option<int>
    var synced: bool
    var buffer: seq<Diff>
    var stats: Stats

    ghost function View(): Book
      reads this
    {
      Book(bids, asks, lastUpdateId, lastU, synced, buffer, stats)
    }

    constructor ()
      ensures View() == New()
    {
      bids, asks := map[], map[];
      lastUpdateId, lastU, synced, buffer := 0, None, false, [];
      stats := Stats(0, map[], 0, 0, 0);
    }

    /** Writes the changes of one side in order; the last one at a price wins. */
    static method Write(side: Levels, changes: seq<Change>) returns (r: Levels)
      ensures r == PutAll(side, changes)
    {
      r := side;
      for i := 0 to |changes|
        invariant r == PutAll(side, changes[..i])
      {
        var c := changes[i];
        if c.qty == 0.0 {
          r := r - {c.price};
        } else {
          r := r[c.price := c.qty];
        }
        assert changes[..i + 1][..i] == changes[..i];
      }
      assert changes[..|changes|] == changes;
    }

    method Lose(why: Reason)
      modifies this
      ensures View() == OrderBookSync.Lose(old(View()), why)
    {
      synced := false;
      lastU := None;
      stats := stats.(resyncs := stats.resyncs + 1, reasons := CountReason(stats.reasons, why));
    }

    method Process(d: Diff) returns (r: Outcome)
      modifies this
      ensures (View(), r) == OrderBookSync.Process(old(View()), d)
    {
      if lastU.None? {
        if d.u < lastUpdateId {
          stats := stats.(dropped := stats.dropped + 1);
          return Dropped;
        }
        if !(d.U <= lastUpdateId <= d.u) {
          Lose(if d.U == lastUpdateId + 1 then Adjacent else Gap);
          return Resync;
        }
        stats := stats.(syncs := stats.syncs + 1);
      } else if d.pu != lastU {
        Lose(Broken);
        return Resync;
      }
      bids := Write(bids, d.bids);
      asks := Write(asks, d.asks);
      lastU := Some(d.u);
      stats := stats.(applied := stats.applied + 1);
      return Applied;
    }

    method ApplySnapshot(s: Snapshot) returns (out: seq<Outcome>)
      modifies this
      ensures (View(), out) == OrderBookSync.ApplySnapshot(old(View()), s)
    {
      bids, asks, lastUpdateId := s.bids, s.asks, s.lastUpdateId;
      lastU, synced := None, true;
      var pending := buffer;
      buffer := [];
      out := [];
      ghost var (final, all) := ProcessAll(View(), pending);
      assert pending[0..] == pending && all == out + all;
      var i := 0;
      while i < |pending|
        invariant i <= |pending|
        invariant final == ProcessAll(View(), pending[i..]).0
        invariant all == out + ProcessAll(View(), pending[i..]).1
      {
        Unfold(View(), pending, i, out);
        var r := Process(pending[i]);
        out := out + [r];
        i := i + 1;
        if r == Resync {
          return;
        }
      }
      assert pending[i..] == [] && out + [] == out;
    }

    /** One turn of the snapshot loop. */
    lemma Unfold(b: Book, pending: seq<Diff>, i: nat, out: seq<Outcome>)
      requires i < |pending|
      ensures var (c, r) := OrderBookSync.Process(b, pending[i]); var (final, rest) := ProcessAll(b, pending[i..]);
        if r == Resync then final == c && out + rest == out + [r]
        else final == ProcessAll(c, pending[i + 1..]).0
             && out + rest == (out + [r]) + ProcessAll(c, pending[i + 1..]).1
    {
      assert pending[i..][0] == pending[i] && pending[i..][1..] == pending[i + 1..];
    }

    method Feed(d: Diff) returns (r: Outcome)
      modifies this
      ensures (View(), r) == OrderBookSync.Feed(old(View()), d)
    {
      if !synced {
        buffer := buffer + [d];
        return Buffered;
      }
      r := Process(d);
    }
  }
}
