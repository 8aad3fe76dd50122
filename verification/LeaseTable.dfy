/** The table of leases as an object (fbot/core/lease.py), proved to compute the functions of `Leases`. */
module LeaseTables {
  import opened Common
  import opened Leases

  class LeaseTable {
    var leases: map<string, Lease>
    var conflicts: nat

    ghost function View(): Table
      reads this
    {
      Table(leases, conflicts)
    }

    constructor ()
      ensures View() == EMPTY
    {
      leases, conflicts := map[], 0;
    }

    method Acquire(symbol: string, strategy: string, now: int, ttl: int) returns (ok: bool)
      modifies this
      ensures (View(), ok) == Leases.Acquire(old(View()), symbol, strategy, now, ttl)
    {
      if symbol in leases {
        if leases[symbol].strategy != strategy {
          conflicts := conflicts + 1;
        }
        return false;
      }
      leases := leases[symbol := Lease(strategy, now, now + ttl, None)];
      return true;
    }

    method Bind(symbol: string, posId: string)
      modifies this
      ensures View() == Leases.Bind(old(View()), symbol, posId)
    {
      if symbol in leases {
        leases := leases[symbol := leases[symbol].(posId := Some(posId))];
      }
    }

    /** Deletes the symbols one at a time. */
    method Drop(gone: set<string>)
      modifies this
      ensures conflicts == old(conflicts)
      ensures leases == map s | s in old(leases) && s !in gone :: old(leases)[s]
    {
      var left := gone;
      while left != {}
        invariant left <= gone && conflicts == old(conflicts)
        invariant leases == map s | s in old(leases) && s !in gone - left :: old(leases)[s]
        decreases |left|
      {
        var s :| s in left;
        leases := leases - {s};
        left := left - {s};
      }
    }

    method Sweep(now: int) returns (gone: set<string>)
      modifies this
      ensures View() == Leases.Sweep(old(View()), now)
      ensures gone == old(leases).Keys - leases.Keys
    {
      gone := set s | s in leases && leases[s].posId.None? && leases[s].expiresNs <= now;
      Drop(gone);
    }

    method ReleasePosition(posId: string) returns (out: set<string>)
      modifies this
      ensures View() == Leases.ReleasePosition(old(View()), posId)
      ensures out == old(leases).Keys - leases.Keys
    {
      out := set s | s in leases && leases[s].posId == Some(posId);
      Drop(out);
    }

    method BusyFor(symbol: string, strategy: string) returns (why: Option<string>)
      ensures why == Leases.BusyFor(View(), symbol, strategy)
    {
      if symbol !in leases {
        return None;
      }
      var l := leases[symbol];
      if l.strategy != strategy {
        return Some("baska_strateji:" + l.strategy);
      }
      return Some(if l.posId.Some? && l.posId.value != "" then "pozisyon_acik" else "giris_ucusta");
    }
  }
}
