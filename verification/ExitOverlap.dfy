/** Two promises of the position code that hold only conditionally.
    The in-flight lock is meant to keep the exit orders that are out from exceeding the position; the
    partial exit does not take the lock. And a position frozen while its protections are being
    acknowledged is not promoted; only callers outside the engine freeze positions. */
module ExitOverlap {
  import opened Common
  import opened Rounding
  import opened Ids
  import opened Position
  import opened ProtectionLedger
  import opened ExitDiscipline

  /** Total quantity of all exit orders sent. */
  function ExitTotal(cmds: seq<Command>): real {
    if cmds == [] then 0.0 else (if cmds[0].PlaceOrder? then cmds[0].qty else 0.0) + ExitTotal(cmds[1..])
  }

  lemma {:induction false} TotalConcat(a: seq<Command>, b: seq<Command>)
    ensures ExitTotal(a + b) == ExitTotal(a) + ExitTotal(b)
  {
    if a == [] {
      assert a + b == b;
    } else {
      assert (a + b)[0] == a[0] && (a + b)[1..] == a[1..] + b;
      TotalConcat(a[1..], b);
    }
  }

  lemma {:induction false} NoOrdersNoTotal(cmds: seq<Command>)
    ensures (forall c <- cmds :: !c.PlaceOrder?) ==> ExitTotal(cmds) == 0.0
  {
    if cmds != [] {
      NoOrdersNoTotal(cmds[1..]);
    }
  }

  /** The partial exit is off, or reduces nothing. */
  predicate NoPartial(cfg: Config)
    requires cfg.Complete()
  {
    cfg.tp1Pct.None? || cfg.tp1Frac.value <= 0.0
  }

  lemma NoneTaken(cfg: Config, p: Pos)
    requires Gridded(p) && p.qty >= 0.0 && cfg.tp1Frac.Some? && cfg.tp1Frac.value <= 0.0
    ensures PartialQty(cfg, p) <= 0.0
  {
    var f := -cfg.tp1Frac.value;
    NotPositive(p.qty, f);
    var wanted := Times(p.qty, f);
    assert Times(p.qty, cfg.tp1Frac.value) == -wanted;
    NegDiv(wanted, p.StepSize());
    assert wanted / p.StepSize() >= 0.0;
    assert Trunc(-(wanted / p.StepSize())) <= 0;
    var n := Trunc(-(wanted / p.StepSize()));
    assert Units(n, p.StepSize()) <= 0.0 by {
      NotPositive(-(n as real), p.StepSize());
    }
  }

  lemma NotPositive(a: real, b: real)
    requires a >= 0.0 && b >= 0.0
    ensures Times(a, b) >= 0.0 && a * b >= 0.0
  {
  }

  lemma TickTotal(cfg: Config, p: Pos, e: Event)
    requires Inv(p) && cfg.Complete() && Later(e) && e.Tick? && NoPartial(cfg)
    ensures ExitTotal(Step(cfg, p, e).1) <= (if MayExit(p) && !MayExit(Step(cfg, p, e).0) then p.qty else 0.0)
  {
    ExitQtyWithin(p);
    assert ExitTotal([]) == 0.0;
    assert forall c: Command :: ExitTotal([c]) == if c.PlaceOrder? then c.qty else 0.0;
    if e.mode != Full || p.state != Managed || Degraded(cfg, p, e.regime) || Crossed(p, e.mark) {
    } else {
      var p0 := p.(stop := p.stop.(crossedNs := None));
      ExitQtyWithin(p0);
      var net := NetPct(cfg, p0, e.mark);
      if !HeldTooLong(cfg, p0, e.at, net) {
        var (p1, partial) := TakePartial(cfg, p0, e.at, e.mark, net);
        if cfg.tp1Pct.Some? {
          NoneTaken(cfg, p0);
        }
        assert ExitTotal(partial) <= 0.0;
        var replace := Ratchet(cfg, p1, e.at, e.mark, net).1;
        NoOrdersNoTotal(replace);
        TotalConcat(partial, replace);
        TickEffect(cfg, p, e);
      }
    }
  }

  lemma {:induction false} RunTotal(cfg: Config, p: Pos, events: seq<Event>)
    requires Inv(p) && cfg.Complete() && NoPartial(cfg)
    requires forall e <- events :: Later(e)
    ensures ExitTotal(Run(cfg, p, events).1) <= (if MayExit(p) then p.qty else 0.0)
    decreases |events|
  {
    if events != [] {
      var e := events[0];
      StepEffect(cfg, p, e);
      var (q, cmds) := Step(cfg, p, e);
      if e.Tick? {
        TickTotal(cfg, p, e);
      } else {
        NoOrdersNoTotal(cmds);
      }
      RunTotal(cfg, q, events[1..]);
      TotalConcat(cmds, Run(cfg, q, events[1..]).1);
    }
  }

  /** No life of any position sends exit orders for more than was entered. */
  ghost predicate NeverOversells(cfg: Config)
    requires cfg.Complete()
  {
    forall p: Pos, fill: Event, events: seq<Event> | ValidEntry(p, fill) && forall e <- events :: Later(e) ::
      ExitTotal(Life(cfg, p, fill, events).1) <= fill.qty
  }

  lemma EntryTotal(cfg: Config, p: Pos, fill: Event)
    requires ValidEntry(p, fill) && cfg.Complete()
    ensures ExitTotal(Step(cfg, p, fill).1) == 0.0
  {
    NoOrdersNoTotal(Step(cfg, p, fill).1);
  }

  // ---- the run that oversells

  lemma LengthBound(s: set<Option<string>>) returns (n: nat)
    ensures forall x <- s :: x.Some? ==> |x.value| < n
  {
    n := 0;
    if s != {} {
      var x :| x in s;
      var m := LengthBound(s - {x});
      n := if x.Some? && |x.value| >= m then |x.value| + 1 else m;
      assert forall y <- s :: y == x || y in s - {x};
    }
  }

  /** An entry regime that no degradation rule names. */
  lemma FreshRegime(s: set<Option<string>>) returns (r: Option<string>)
    ensures r !in s
  {
    var n := LengthBound(s);
    r := Some(seq(n, i => 'a'));
  }

  /** A managed long position of one unit, entered at 100 with its stop at 90, in deep profit. */
  predicate Ready(cfg: Config, p: Pos) {
    && cfg.Complete() && cfg.tp1Pct.Some?
    && p.who.side == Long && p.who.filters == Filters(cfg.tp1Frac.value, 0.0, 0.0, 1.0) && p.who.posId == "p"
    && p.state == Managed && p.qty == 1.0 && p.entry.price == 100.0 && p.entry.regime !in cfg.degradeMap
    && p.exits == Exits(0, false, None, None) && p.stop.price == 90.0
    && CostPct(cfg, p) == -Max(cfg.tp1Pct.value, 1.0)
  }

  lemma BecomesReady(cfg: Config, p: Pos, fill: Event)
    requires cfg.Complete() && cfg.tp1Pct.Some? && cfg.tp1Frac.value > 0.0
    requires fill.EntryFill? && fill.regime !in cfg.degradeMap
    requires p == New(Who("p", Long, Filters(cfg.tp1Frac.value, 0.0, 0.0, 1.0)))
    requires fill == EntryFill(100.0, 1.0, 90.0, 200.0, 0, false, fill.regime)
    ensures ValidEntry(p, fill) && Inv(Step(cfg, p, fill).0)
    ensures var p0 := Step(cfg, p, fill).0;
      Ready(cfg, Step(cfg, Step(cfg, Step(cfg, p0, AckStop()).0, AckTarget()).0, Fund(cfg)).0)
  {
    EntryInv(cfg, p, fill);
    var p0 := Step(cfg, p, fill).0;
    assert p0.stop.price == 90.0 by {
      assert 90.0 / 1.0 == 90.0;
    }
  }

  function AckStop(): Event { AlgoAck(AlgoId("p", SL, 1)) }
  function AckTarget(): Event { AlgoAck(AlgoId("p", TP, 1)) }
  function Fund(cfg: Config): Event
    requires cfg.tp1Pct.Some?
  {
    Funding(-2.0 * cfg.takerFeePct - Max(cfg.tp1Pct.value, 1.0))
  }

  lemma PartialFires(cfg: Config, p: Pos)
    requires Ready(cfg, p) && Inv(p) && 0.0 < cfg.tp1Frac.value
    ensures var (q, cmds) := Step(cfg, p, Tick(0, 100.0, None, Full));
      && Inv(q) && q.state == Managed && q.qty == 1.0 && q.who == p.who && q.entry == p.entry
      && q.stop.price >= 90.0 && q.stop.crossedNs.None?
      && ExitTotal(cmds) == cfg.tp1Frac.value
  {
    var e := Tick(0, 100.0, None, Full);
    TickEffect(cfg, p, e);
    var p0 := p.(stop := p.stop.(crossedNs := None));
    var net := NetPct(cfg, p0, 100.0);
    assert net == Max(cfg.tp1Pct.value, 1.0);
    var (p1, partial) := TakePartial(cfg, p0, 0, 100.0, net);
    var f := cfg.tp1Frac.value;
    assert PartialQty(cfg, p0) == f by {
      assert Times(1.0, f) == f;
      OneUnit(f);
    }
    assert partial == [PlaceOrder(f, ExitId("p", TP1, 1))];
    PartialEffect(cfg, p0, 0, 100.0, net);
    RatchetEffect(cfg, p1, 0, 100.0, net);
    var (p2, replace) := Ratchet(cfg, p1, 0, 100.0, net);
    assert p2.stop.price >= 90.0 by {
      if replace != [] {
        assert Units(90, 1.0) == 90.0;
        TriggerAwayFromMarket(DesiredStop(cfg, p1, 100.0).value, 1.0, Long, SL, 90.0);
      }
    }
    NoOrdersNoTotal(replace);
    TotalConcat(partial, replace);
    assert ExitTotal(partial) == f;
  }

  lemma BackupStopFires(cfg: Config, p: Pos)
    requires Inv(p) && cfg.Complete() && p.state == Managed && p.qty == 1.0 && p.who.side == Long
    requires p.who.filters.minQty == 0.0 && p.stop.price >= 90.0 && p.stop.crossedNs.None?
    requires p.entry.regime !in cfg.degradeMap
    ensures var r := Run(cfg, p, [Tick(0, 1.0, None, Full), Tick(cfg.tBackupMs * MS + 1, 1.0, None, Full)]);
      ExitTotal(r.1) > 1.0 - p.StepSize()
  {
    var e1, e2 := Tick(0, 1.0, None, Full), Tick(cfg.tBackupMs * MS + 1, 1.0, None, Full);
    var (q, c1) := Step(cfg, p, e1);
    assert q == p.(stop := p.stop.(crossedNs := Some(0))) && c1 == [];
    TickEffect(cfg, p, e1);
    FloorStepIsGreatest(1.0, p.StepSize(), 0.0);
    var (r, c2) := Step(cfg, q, e2);
    assert c2 == [PlaceOrder(ExitQty(q), ExitId(q.who.posId, X, q.exits.count + 1))];
    assert ExitTotal(c2) == ExitQty(q);
    StepKeepsEntry(cfg, q, e2);
    assert [e1, e2][1..] == [e2];
    assert Run(cfg, r, []).1 == [];
    assert Run(cfg, q, [e2]).1 == c2 + [] == c2;
    assert Run(cfg, p, [e1, e2]).1 == c1 + c2;
    assert c1 + c2 == c2;
  }

  lemma TotalCons(cfg: Config, p: Pos, e: Event, rest: seq<Event>)
    requires Open(p) && cfg.Complete() && Later(e) && forall d <- rest :: Later(d)
    ensures Open(Step(cfg, p, e).0)
    ensures ExitTotal(Run(cfg, p, [e] + rest).1)
      == ExitTotal(Step(cfg, p, e).1) + ExitTotal(Run(cfg, Step(cfg, p, e).0, rest).1)
  {
    StepKeepsEntry(cfg, p, e);
    assert ([e] + rest)[1..] == rest;
    TotalConcat(Step(cfg, p, e).1, Run(cfg, Step(cfg, p, e).0, rest).1);
  }

  /** With the partial on, a position can be sold for more than it holds: the partial is still out
      when the backup stop sends the full quantity, because it never took the in-flight lock. */
  lemma Oversells(cfg: Config)
    requires cfg.Complete() && !NoPartial(cfg)
    ensures !NeverOversells(cfg)
  {
    var regime := FreshRegime(cfg.degradeMap.Keys);
    var f := cfg.tp1Frac.value;
    var p := New(Who("p", Long, Filters(f, 0.0, 0.0, 1.0)));
    var fill := EntryFill(100.0, 1.0, 90.0, 200.0, 0, false, regime);
    var gain := Tick(0, 100.0, None, Full);
    var fall := [Tick(0, 1.0, None, Full), Tick(cfg.tBackupMs * MS + 1, 1.0, None, Full)];
    BecomesReady(cfg, p, fill);
    var p0 := Step(cfg, p, fill).0;
    StepEffect(cfg, p0, AckStop());
    var p1 := Step(cfg, p0, AckStop()).0;
    StepEffect(cfg, p1, AckTarget());
    var p2 := Step(cfg, p1, AckTarget()).0;
    StepEffect(cfg, p2, Fund(cfg));
    var p3 := Step(cfg, p2, Fund(cfg)).0;
    PartialFires(cfg, p3);
    BackupStopFires(cfg, Step(cfg, p3, gain).0);
    TotalCons(cfg, p3, gain, fall);
    TotalCons(cfg, p2, Fund(cfg), [gain] + fall);
    TotalCons(cfg, p1, AckTarget(), [Fund(cfg)] + ([gain] + fall));
    TotalCons(cfg, p0, AckStop(), [AckTarget()] + ([Fund(cfg)] + ([gain] + fall)));
    var events := [AckStop()] + ([AckTarget()] + ([Fund(cfg)] + ([gain] + fall)));
    assert ExitTotal(Run(cfg, p0, events).1) > 1.0;
    EntryTotal(cfg, p, fill);
    TotalConcat(Step(cfg, p, fill).1, Run(cfg, p0, events).1);
    assert ExitTotal(Life(cfg, p, fill, events).1) > fill.qty;
  }

  /** The exit orders of a life stay within the entered quantity exactly when the partial exit is
      off or reduces nothing. */
  lemma NeverOversellsIff(cfg: Config)
    requires cfg.Complete()
    ensures NeverOversells(cfg) <==> NoPartial(cfg)
  {
    if NoPartial(cfg) {
      forall p: Pos, fill: Event, events: seq<Event> | ValidEntry(p, fill) && forall e <- events :: Later(e)
        ensures ExitTotal(Life(cfg, p, fill, events).1) <= fill.qty
      {
        EntryInv(cfg, p, fill);
        EntryTotal(cfg, p, fill);
        var (q, cmds) := Step(cfg, p, fill);
        RunTotal(cfg, q, events);
        TotalConcat(cmds, Run(cfg, q, events).1);
      }
    } else {
      Oversells(cfg);
    }
  }

  // ---- acknowledgements while frozen

  predicate Confirmed(p: Pos) {
    p.SlId() in p.acked && p.TpId() in p.acked
  }

  /** A position waits for protections only while one is unconfirmed. */
  predicate WaitsOnlyIfUnconfirmed(p: Pos) {
    p.state == Protecting ==> !Confirmed(p)
  }

  /** The one step that breaks it: thawing a position whose protections were confirmed while frozen. */
  predicate ThawsConfirmed(p: Pos, e: Event) {
    e.Unfreeze? && p.state == Frozen && p.Phase() == Protecting && Confirmed(p)
  }

  lemma WaitingKeptIff(cfg: Config, p: Pos, e: Event)
    requires Inv(p) && cfg.Complete() && Later(e) && WaitsOnlyIfUnconfirmed(p)
    ensures WaitsOnlyIfUnconfirmed(Step(cfg, p, e).0) <==> !ThawsConfirmed(p, e)
  {
    if e.Tick? {
      TickAlgos(cfg, p, e.at, e.mark, e.regime, e.mode);
      TickEffect(cfg, p, e);
      TickStaysWaiting(cfg, p, e);
    }
  }

  lemma TickStaysWaiting(cfg: Config, p: Pos, e: Event)
    requires Inv(p) && cfg.Complete() && Later(e) && e.Tick?
    ensures Step(cfg, p, e).0.state == Protecting ==> Step(cfg, p, e).0 == p
  {
    if p.state == Managed && e.mode == Full && !Degraded(cfg, p, e.regime) && !Crossed(p, e.mark) {
      var p0 := p.(stop := p.stop.(crossedNs := None));
      var net := NetPct(cfg, p0, e.mark);
      if !HeldTooLong(cfg, p0, e.at, net) {
        PartialEffect(cfg, p0, e.at, e.mark, net);
        RatchetEffect(cfg, TakePartial(cfg, p0, e.at, e.mark, net).0, e.at, e.mark, net);
      }
    }
  }

  /** Whatever the parameters: if both protections are acknowledged while the position is frozen,
      the first full tick after the deadline closes it in an emergency. */
  lemma FrozenAcksEndInEmergency(cfg: Config, p: Pos, fill: Event, late: Event)
    requires ValidEntry(p, fill) && cfg.Complete()
    requires late.Tick? && late.mark > 0.0 && late.mode == Full && late.at - fill.now > cfg.tProtectMs * MS
    ensures var q := Step(cfg, p, fill).0;
      var r := Run(cfg, q, [Freeze, AlgoAck(q.SlId()), AlgoAck(q.TpId()), Unfreeze]).0;
      Confirmed(r) && Step(cfg, r, late).0.state == Emergency && FullExits(Step(cfg, r, late).1) == 1
  {
    EntryInv(cfg, p, fill);
    var q := Step(cfg, p, fill).0;
    var q1 := Step(cfg, q, Freeze).0;
    var q2 := Step(cfg, q1, AlgoAck(q.SlId())).0;
    var q3 := Step(cfg, q2, AlgoAck(q.TpId())).0;
    var q4 := Step(cfg, q3, Unfreeze).0;
    assert q4 == q.(acked := q.acked + {q.SlId()} + {q.TpId()}, prevState := Some(Protecting));
    var events := [Freeze, AlgoAck(q.SlId()), AlgoAck(q.TpId()), Unfreeze];
    assert events[1..][1..] == [events[2], events[3]];
    assert events[1..][1..][1..] == [Unfreeze];
    assert Run(cfg, q4, []).0 == q4;
    assert Run(cfg, q3, [Unfreeze]).0 == q4;
    assert Run(cfg, q2, [events[2], Unfreeze]).0 == q4;
    assert Run(cfg, q, events).0 == q4;
    TimeoutAlwaysExits(cfg, q4, late);
  }
}
