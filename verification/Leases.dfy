/** Symbol leases (fbot/core/lease.py): at any time a symbol has one owner. */
module Leases {
  import opened Common

  /** An unbound lease lapses at `expiresNs`; one bound to a position does not. */
  datatype Lease = Lease(strategy: string, acquiredNs: int, expiresNs: int, posId: Option<string>)

  /** Leases by symbol, and how often one strategy ran into another's lease. */
  datatype Table = Table(leases: map<string, Lease>, conflicts: nat)

  const EMPTY := Table(map[], 0)

  function Acquire(t: Table, symbol: string, strategy: string, now: int, ttl: int): (Table, bool) {
    if symbol in t.leases then
      (if t.leases[symbol].strategy != strategy then t.(conflicts := t.conflicts + 1) else t, false)
    else
      (t.(leases := t.leases[symbol := Lease(strategy, now, now + ttl, None)]), true)
  }

  function Bind(t: Table, symbol: string, posId: string): Table {
    if symbol in t.leases then t.(leases := t.leases[symbol := t.leases[symbol].(posId := Some(posId))]) else t
  }

  predicate Lapsed(l: Lease, now: int) {
    l.posId.None? && l.expiresNs <= now
  }

  function Sweep(t: Table, now: int): Table {
    t.(leases := map s | s in t.leases && !Lapsed(t.leases[s], now) :: t.leases[s])
  }

  function ReleasePosition(t: Table, posId: string): Table {
    t.(leases := map s | s in t.leases && t.leases[s].posId != Some(posId) :: t.leases[s])
  }

  /** Why a strategy may not enter the symbol. */
  function BusyFor(t: Table, symbol: string, strategy: string): Option<string> {
    if symbol !in t.leases then None
    else
      var l := t.leases[symbol];
      if l.strategy != strategy then Some("baska_strateji:" + l.strategy)
      else if l.posId.Some? && l.posId.value != "" then Some("pozisyon_acik")
      else Some("giris_ucusta")
  }

  /** A symbol is free for a strategy exactly when acquiring it succeeds, whoever asks. The answer
      never is the empty text, which the risk gate would read as free. */
  lemma FreeIffAcquirable(t: Table, symbol: string, strategy: string, other: string, now: int, ttl: int)
    ensures BusyFor(t, symbol, strategy) in {None, Some("")} <==> Acquire(t, symbol, other, now, ttl).1
  {
    if symbol in t.leases {
      assert |"baska_strateji:" + t.leases[symbol].strategy| > 0;
    }
  }
}
