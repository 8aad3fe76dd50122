/** The engine's entry bookkeeping as an object (fbot/core/engine.py), proved to take the steps of
    `EntryProtocol`. Positions are held by value; `PositionManager` updates them in place. */
module CoreStates {
  import opened Common
  import opened EntryProtocol
  import opened Position
  import opened LeaseTables
  import Leases
  import Risk
  import RiskGate
  import opened Rounding
  import opened Totals

  class CoreState {
    var positions: map<string, Held>
    var bySymbol: map<string, set<string>>
    var pending: map<string, int>
    const leases: LeaseTable

    ghost function View(): Core
      reads this, leases
    {
      Core(positions, bySymbol, pending, leases.View())
    }

    constructor ()
      ensures View() == START && fresh(leases)
    {
      positions, bySymbol, pending := map[], map[], map[];
      leases := new LeaseTable();
    }

    /** Deletes the lapsed reservations one at a time. */
    method SweepPending(now: int)
      modifies this
      ensures View() == EntryProtocol.SweepPending(old(View()), now)
    {
      var left := set y | y in pending && pending[y] <= now;
      while left != {}
        invariant left <= old(pending).Keys && forall y <- left :: old(pending)[y] <= now
        invariant positions == old(positions) && bySymbol == old(bySymbol)
        invariant pending == map y | y in old(pending) && (old(pending)[y] > now || y in left) :: old(pending)[y]
        decreases |left|
      {
        var y :| y in left;
        pending := pending - {y};
        left := left - {y};
      }
    }

    method DropClosedOf(symbol: string)
      requires symbol in bySymbol
      modifies this`bySymbol
      ensures var live := LiveOf(old(View()), symbol);
        bySymbol == if live != {} then old(bySymbol)[symbol := live] else old(bySymbol) - {symbol}
    {
      var live := set p | p in bySymbol[symbol] && p in positions && positions[p].pos.state != Closed;
      assert live == LiveOf(View(), symbol);
      bySymbol := if live != {} then bySymbol[symbol := live] else bySymbol - {symbol};
    }

    /** Drops closed positions from the index, a symbol at a time. */
    method DropClosed()
      modifies this
      ensures View() == old(View()).(bySymbol := LiveIndex(old(View())))
    {
      ghost var s := View();
      var left := bySymbol.Keys;
      while left != {}
        invariant left <= s.bySymbol.Keys && View() == s.(bySymbol := IndexBut(s, left))
        decreases |left|
      {
        var y :| y in left;
        IndexOne(s, left, y);
        DropClosedOf(y);
        left := left - {y};
      }
    }

    /** Gives back the leases of finished positions, a position at a time. */
    method ReleaseFinished()
      modifies leases
      ensures View() == old(View()).(table := EntryProtocol.ReleaseFinished(old(View())))
    {
      var left := positions.Keys;
      while left != {}
        invariant left <= positions.Keys
        invariant leases.View() == ReleasedBut(old(View()), left)
        decreases |left|
      {
        var p :| p in left;
        if positions[p].pos.state == Closed && positions[p].pos.active == {} {
          var released := leases.ReleasePosition(p);
        }
        left := left - {p};
      }
    }

    method Reindex()
      modifies this, leases
      ensures View() == EntryProtocol.Reindex(old(View()))
    {
      DropClosed();
      ReleaseFinished();
    }

    method Tick(now: int)
      modifies this, leases
      ensures View() == EntryProtocol.OnTick(old(View()), now)
    {
      SweepPending(now);
      var gone := leases.Sweep(now);
      Reindex();
    }

    method OnEntryFill(setup: Setup, f: Filled)
      requires setup.Valid()
      modifies this, leases
      ensures View() == OnFill(setup, old(View()), f)
    {
      if f.symbol !in setup.filters {
        return;
      }
      positions := positions[f.posId := HeldFrom(f, setup.filters[f.symbol])];
      bySymbol := bySymbol[f.symbol := (if f.symbol in bySymbol then bySymbol[f.symbol] else {}) + {f.posId}];
      pending := pending - {f.symbol};
      leases.Bind(f.symbol, f.posId);
    }

    method EntryGone(symbol: string)
      modifies this
      ensures View() == old(View()).(pending := old(pending) - {symbol})
    {
      pending := pending - {symbol};
    }

    /** Adds up the open positions one at a time. */
    method AddGross() returns (gross: real)
      ensures gross == Gross(View())
    {
      gross := 0.0;
      var left := map p | p in positions && positions[p].pos.state != Closed
        :: Times(positions[p].pos.qty, positions[p].pos.entry.price);
      assert left == OpenValues(View());
      while left != map[]
        invariant gross + Total(left) == Gross(View())
        decreases |left|
      {
        var p :| p in left;
        TotalWithout(left, p);
        gross := gross + left[p];
        left := left - {p};
      }
    }

    method Ask(setup: Setup, i: Risk.Intent, view: Risk.Inputs) returns (v: Risk.Verdict)
      requires Askable(setup, View(), i, view)
      ensures v == Asked(setup, View(), i, view)
    {
      var busy := leases.BusyFor(i.symbol, setup.strategy);
      var open := map p | p in positions && positions[p].pos.state != Closed :: positions[p].symbol;
      assert open == OpenPositions(View());
      var gross := AddGross();
      var seen := Passed(setup, i.symbol, view).(openPositions := open, pendingEntries := pending.Keys, gross := gross,
                        leaseBusy := busy, filters := setup.filters);
      assert seen == Seen(setup, View(), i.symbol, view);
      v := RiskGate.AssessIntent(i, seen, setup.risk);
    }

    /** Reserves the symbol, then takes its lease. */
    method Reserve(symbol: string, strategy: string, now: int, ttl: int)
      modifies this, leases
      ensures View() == EntryProtocol.Reserve(old(View()), symbol, strategy, now, ttl)
    {
      pending := pending[symbol := now + ttl];
      var ok := leases.Acquire(symbol, strategy, now, ttl);
    }

    /** Asks the gate and, unless it refuses, reserves the symbol; gives the quantity to order. */
    method Decide(setup: Setup, i: Risk.Intent, view: Risk.Inputs, strategy: string, now: int) returns (order: Option<real>)
      requires setup.Valid() && Askable(setup, View(), i, view)
      modifies this, leases
      ensures View() == if order.Some? then EntryProtocol.Reserve(old(View()), i.symbol, strategy, now, setup.ttlNs)
                        else old(View())
      ensures order == if Accepts(setup, old(View()), i, view) then Asked(setup, old(View()), i, view).qty else None
    {
      var v := Ask(setup, i, view);
      if v.kind == Risk.Reject || v.qty.None? || v.qty.value <= 0.0 {
        return None;
      }
      Reserve(i.symbol, strategy, now, setup.ttlNs);
      return v.qty;
    }

    /** Hands an event to one position. */
    method Notify(setup: Setup, posId: string, e: Event)
      requires setup.Valid() && Sound(View())
      modifies this
      ensures View() == EntryProtocol.Notify(setup, old(View()), posId, e)
    {
      if posId in positions {
        var h := positions[posId];
        positions := positions[posId := h.(pos := Step(setup.position, h.pos, e).0)];
      }
    }
  }

  /** The index once every symbol outside `left` was looked at. */
  ghost function IndexBut(s: Core, left: set<string>): map<string, set<string>> {
    map y | y in s.bySymbol && (y in left || LiveOf(s, y) != {}) :: if y in left then s.bySymbol[y] else LiveOf(s, y)
  }

  lemma IndexOne(s: Core, left: set<string>, y: string)
    requires y in left && left <= s.bySymbol.Keys
    ensures y in IndexBut(s, left) && LiveOf(s.(bySymbol := IndexBut(s, left)), y) == LiveOf(s, y)
    ensures IndexBut(s, left - {y})
      == if LiveOf(s, y) != {} then IndexBut(s, left)[y := LiveOf(s, y)] else IndexBut(s, left) - {y}
  {
  }

  /** The leases once every position outside `left` was looked at. */
  ghost function ReleasedBut(s: Core, left: set<string>): Leases.Table {
    s.table.(leases := map y | y in s.table.leases && !(
      var l := s.table.leases[y];
      l.posId.Some? && l.posId.value in s.positions && l.posId.value !in left && Finished(s.positions[l.posId.value]))
      :: s.table.leases[y])
  }
}
