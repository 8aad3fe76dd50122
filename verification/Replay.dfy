/** Live trading and replay (fbot/paper/trader.py, fbot/replay/harness.py, fbot/core/engine.py).
    The live trader steps its engine on some events and records those and others of its own making;
    replay steps a fresh engine on everything recorded. What the engine does with market data,
    execution results and clock ticks is a parameter: the results hold for every such logic. */
module Replay {
  import opened Common

  datatype Event = Event(cat: string, stream: string, raw: string, recvNs: int)

  datatype Cmd =
    | StalenessChanged(cat: string, stale: bool, ageMs: int)
    | StateChange(text: string)
    | Order(text: string)   // placing or cancelling
    | BarClosed(text: string)

  // ---- staleness

  const CHECK_NS := 100_000_000

  /** Reception time and flag by category, and when the flags were last checked. */
  datatype Watch = Watch(lastRecv: map<string, int>, stale: map<string, bool>, lastCheck: int)

  /** Thresholds in milliseconds, in the order of the configuration. */
  type Limits = seq<(string, int)>

  predicate Distinct(limits: Limits) {
    forall i, j :: 0 <= i < j < |limits| ==> limits[i].0 != limits[j].0
  }

  predicate AnyStale(w: Watch) {
    exists c <- w.stale :: w.stale[c]
  }

  function Flag(w: Watch, cat: string): bool {
    cat in w.stale && w.stale[cat]
  }

  function AgeMs(w: Watch, cat: string, now: int): int
    requires cat in w.lastRecv
  {
    (now - w.lastRecv[cat]) / MS
  }

  /** Whether the category's flag is what its age asks for. */
  predicate Current(w: Watch, limit: (string, int), now: int) {
    limit.0 in w.lastRecv ==> Flag(w, limit.0) == (AgeMs(w, limit.0, now) > limit.1)
  }

  predicate Settled(limits: Limits, w: Watch, now: int) {
    forall k :: 0 <= k < |limits| ==> Current(w, limits[k], now)
  }

  function CheckOne(w: Watch, limit: (string, int), now: int): (Watch, seq<Cmd>) {
    if Current(w, limit, now) then (w, [])
    else
      var age := AgeMs(w, limit.0, now);
      var late := age > limit.1;
      (w.(stale := w.stale[limit.0 := late]), [StalenessChanged(limit.0, late, if late then age else 0)])
  }

  function CheckAll(limits: Limits, w: Watch, now: int): (Watch, seq<Cmd>)
    decreases |limits|
  {
    if limits == [] then (w, [])
    else
      var (w1, c1) := CheckAll(limits[..|limits| - 1], w, now);
      var (w2, c2) := CheckOne(w1, limits[|limits| - 1], now);
      (w2, c1 + c2)
  }

  /** While nothing is stale the check runs at most every 100 ms. */
  predicate Throttled(w: Watch, now: int) {
    !AnyStale(w) && w.lastCheck != 0 && now - w.lastCheck < CHECK_NS
  }

  function Staleness(limits: Limits, w: Watch, now: int): (Watch, seq<Cmd>) {
    if Throttled(w, now) then (w, []) else CheckAll(limits, w.(lastCheck := now), now)
  }

  lemma {:induction false} CheckAllSettles(limits: Limits, w: Watch, now: int)
    requires Distinct(limits)
    ensures var (v, cmds) := CheckAll(limits, w, now);
      && Settled(limits, v, now) && v.lastRecv == w.lastRecv && v.lastCheck == w.lastCheck
      && (forall c :: (forall k :: 0 <= k < |limits| ==> limits[k].0 != c) ==> Flag(v, c) == Flag(w, c))
      && (forall c <- cmds :: c.StalenessChanged?)
    decreases |limits|
  {
    if limits != [] {
      var n := |limits| - 1;
      CheckAllSettles(limits[..n], w, now);
      var (w1, c1) := CheckAll(limits[..n], w, now);
      var (v, c2) := CheckOne(w1, limits[n], now);
      forall k | 0 <= k < |limits| ensures Current(v, limits[k], now) {
        if k < n {
          assert limits[..n][k] == limits[k];
          assert Current(w1, limits[k], now);
        }
      }
      forall c | forall k :: 0 <= k < |limits| ==> limits[k].0 != c ensures Flag(v, c) == Flag(w, c) {
        assert limits[n].0 != c;
        forall k | 0 <= k < n ensures limits[..n][k].0 != c {
          assert limits[k].0 != c;
        }
      }
    }
  }

  /** Flags that are current already stay as they are, and nothing is announced. */
  lemma {:induction false} CheckSettled(limits: Limits, w: Watch, now: int)
    requires Settled(limits, w, now)
    ensures CheckAll(limits, w, now) == (w, [])
    decreases |limits|
  {
    if limits != [] {
      var n := |limits| - 1;
      forall k | 0 <= k < n ensures Current(w, limits[..n][k], now) {
        assert limits[..n][k] == limits[k] && Current(w, limits[k], now);
      }
      CheckSettled(limits[..n], w, now);
      assert Current(w, limits[n], now);
      var (w1, c1) := CheckAll(limits[..n], w, now);
      var (w2, c2) := CheckOne(w1, limits[n], now);
      assert w1 == w2 == w && c1 == c2 == [] && c1 + c2 == [];
      assert CheckAll(limits, w, now) == (w2, c1 + c2);
    }
  }

  /** Nothing announced means everything was current. */
  lemma {:induction false} SilentIsSettled(limits: Limits, w: Watch, now: int)
    requires CheckAll(limits, w, now).1 == []
    ensures Settled(limits, w, now) && CheckAll(limits, w, now).0 == w
    decreases |limits|
  {
    if limits != [] {
      var n := |limits| - 1;
      SilentIsSettled(limits[..n], w, now);
      forall k | 0 <= k < |limits| ensures Current(w, limits[k], now) {
        if k < n {
          assert limits[..n][k] == limits[k];
        }
      }
    }
  }

  /** A second check at the same time changes nothing and announces nothing. */
  lemma StalenessIdempotent(limits: Limits, w: Watch, now: int)
    requires Distinct(limits)
    ensures var v := Staleness(limits, w, now).0; Staleness(limits, v, now) == (v, [])
  {
    if !Throttled(w, now) {
      CheckAllSettles(limits, w.(lastCheck := now), now);
      var v := Staleness(limits, w, now).0;
      CheckSettled(limits, v, now);
    }
  }

  /** A further check changes nothing exactly when it is throttled, or the flags are current and
      were checked at this very time. */
  lemma InertIff(limits: Limits, w: Watch, now: int)
    requires Distinct(limits)
    ensures Staleness(limits, w, now) == (w, []) <==>
      Throttled(w, now) || (Settled(limits, w, now) && w.lastCheck == now)
  {
    if !Throttled(w, now) {
      var u := w.(lastCheck := now);
      CheckAllSettles(limits, u, now);
      if Staleness(limits, w, now) == (w, []) {
        SilentIsSettled(limits, u, now);
        assert u == w;
      } else if Settled(limits, w, now) && w.lastCheck == now {
        assert u == w;
        CheckSettled(limits, w, now);
      }
    }
  }

  // ---- one step

  /** What the engine does apart from bookkeeping; R is everything else it remembers. The logic sees
      the staleness flags, and none of the counters. */
  datatype Logic<!R> = Logic(
    connected: string -> Option<string>,
    route: (R, map<string, bool>, string, int) -> (R, seq<Cmd>),
    exec: (R, string, string, int) -> (R, seq<Cmd>),
    sweep: (R, int) -> R,
    tick: (R, map<string, bool>, int) -> (R, seq<Cmd>),
    register: (R, Cmd, int) -> R)

  datatype Counters = Counters(events: nat, ctrl: map<string, nat>, private: nat)

  datatype Core<R> = Core(rest: R, watch: Watch, counters: Counters)

  function Count(c: Counters, ev: Event): Counters {
    Counters(c.events + 1,
      if ev.cat == "ctrl" then c.ctrl[ev.stream := (if ev.stream in c.ctrl then c.ctrl[ev.stream] else 0) + 1] else c.ctrl,
      if ev.cat == "private" then c.private + 1 else c.private)
  }

  function Heard(w: Watch, cat: string, at: int): Watch {
    w.(lastRecv := w.lastRecv[cat := at])
  }

  predicate Watched(limits: Limits, cat: string) {
    exists k :: 0 <= k < |limits| && limits[k].0 == cat
  }

  /** Every order of the list enters the registry. */
  function RegisterAll<R>(l: Logic<R>, r: R, cmds: seq<Cmd>, now: int): R
    decreases |cmds|
  {
    if cmds == [] then r
    else
      var r1 := RegisterAll(l, r, cmds[..|cmds| - 1], now);
      var c := cmds[|cmds| - 1];
      if c.Order? then l.register(r1, c, now) else r1
  }

  /** The common end of a step: the staleness check, then the registry. */
  function Finish<R>(l: Logic<R>, limits: Limits, r: R, w: Watch, k: Counters, cmds: seq<Cmd>, now: int): (Core<R>, seq<Cmd>) {
    var (w1, late) := Staleness(limits, w, now);
    (Core(RegisterAll(l, r, cmds + late, now), w1, k), cmds + late)
  }

  function Step<R>(l: Logic<R>, limits: Limits, s: Core<R>, ev: Event, now: int): (Core<R>, seq<Cmd>) {
    var k := Count(s.counters, ev);
    if ev.cat == "ctrl" then
      if ev.stream == "connect" then
        var cat := l.connected(ev.raw);
        var w := if cat.Some? && Watched(limits, cat.value) then Heard(s.watch, cat.value, ev.recvNs) else s.watch;
        Finish(l, limits, s.rest, w, k, [], now)
      else if ev.stream == "tick" then
        var (w, late) := Staleness(limits, s.watch, now);
        var (r, cmds) := l.tick(l.sweep(s.rest, now), w.stale, now);
        (Core(r, w, k), late + cmds)
      else Finish(l, limits, s.rest, s.watch, k, [], now)
    else if ev.cat == "private" then (s.(counters := k), [])
    else if ev.cat == "exec" then
      var (r, cmds) := l.exec(s.rest, ev.stream, ev.raw, now);
      Finish(l, limits, r, s.watch, k, cmds, now)
    else
      var (r, cmds) := l.route(s.rest, s.watch.stale, ev.raw, now);
      Finish(l, limits, r, Heard(s.watch, ev.cat, ev.recvNs), k, cmds, now)
  }

  // ---- the live trader

  /** What the trader records about its own commands. */
  function Echo(cmds: seq<Cmd>, now: int): seq<Event>
    decreases |cmds|
  {
    if cmds == [] then []
    else
      var c := cmds[|cmds| - 1];
      Echo(cmds[..|cmds| - 1], now)
      + if c.StateChange? then [Event("ctrl", "state_changed", c.text, now)]
        else if c.Order? then [Event("ctrl", "command", c.text, now)]
        else []
  }

  /** One turn: an event of the feed or a clock tick, and what the simulator answers to it. */
  datatype Turn =
    | FromFeed(ev: Event, answers: seq<(string, string)>)
    | FromClock(now: int, answers: seq<(string, string)>)
  {
    function First(): Event {
      if FromFeed? then ev else Event("ctrl", "tick", "{\"src\":\"paper\"}", now)
    }
    function At(): int {
      First().recvNs
    }
    /** The events the engine is stepped on in this turn. */
    function Stepped(): seq<Event> {
      [First()] + Executions(answers, At())
    }
  }

  function Executions(answers: seq<(string, string)>, now: int): seq<Event>
    decreases |answers|
  {
    if answers == [] then []
    else
      Executions(answers[..|answers| - 1], now)
      + [Event("exec", answers[|answers| - 1].0, answers[|answers| - 1].1, now)]
  }

  function AllStepped(turns: seq<Turn>): seq<Event>
    decreases |turns|
  {
    if turns == [] then [] else AllStepped(turns[..|turns| - 1]) + turns[|turns| - 1].Stepped()
  }

  function Blank(n: nat): seq<seq<Cmd>> {
    seq(n, _ => [])
  }

  /** A run: the engine's state, everything recorded, and for each recorded event the commands the
      engine gave on it, none on those the trader wrote itself. */
  datatype Trace<R> = Trace(core: Core<R>, record: seq<Event>, given: seq<seq<Cmd>>)

  function LiveOne<R>(l: Logic<R>, limits: Limits, t: Trace<R>, ev: Event): Trace<R> {
    var (s, cmds) := Step(l, limits, t.core, ev, ev.recvNs);
    var echo := Echo(cmds, ev.recvNs);
    Trace(s, t.record + [ev] + echo, t.given + [cmds] + Blank(|echo|))
  }

  function LiveFrom<R>(l: Logic<R>, limits: Limits, t: Trace<R>, events: seq<Event>): Trace<R>
    decreases |events|
  {
    if events == [] then t
    else LiveOne(l, limits, LiveFrom(l, limits, t, events[..|events| - 1]), events[|events| - 1])
  }

  function Live<R>(l: Logic<R>, limits: Limits, start: Core<R>, events: seq<Event>): Trace<R> {
    LiveFrom(l, limits, Trace(start, [], []), events)
  }

  // ---- replay

  /** The replay clock never goes back. */
  function Clock(clock: int, recv: int): int {
    if recv > clock then recv else clock
  }

  datatype Tape<R> = Tape(core: Core<R>, clock: int, given: seq<seq<Cmd>>)

  function ReplayOne<R>(l: Logic<R>, limits: Limits, p: Tape<R>, ev: Event): Tape<R> {
    var now := Clock(p.clock, ev.recvNs);
    var (s, cmds) := Step(l, limits, p.core, ev, now);
    Tape(s, now, p.given + [cmds])
  }

  function ReplayAll<R>(l: Logic<R>, limits: Limits, p: Tape<R>, record: seq<Event>): Tape<R>
    decreases |record|
  {
    if record == [] then p
    else ReplayOne(l, limits, ReplayAll(l, limits, p, record[..|record| - 1]), record[|record| - 1])
  }

  // ---- agreement

  /** Equal but for the counters. */
  ghost predicate Same<R>(a: Core<R>, b: Core<R>) {
    a.rest == b.rest && a.watch == b.watch
  }

  lemma CountersDoNotMatter<R>(l: Logic<R>, limits: Limits, a: Core<R>, b: Core<R>, ev: Event, now: int)
    requires Same(a, b)
    ensures var (s, c) := Step(l, limits, a, ev, now); var (t, d) := Step(l, limits, b, ev, now);
      Same(s, t) && c == d
  {
  }

  predicate Echoed(e: Event) {
    e.cat == "ctrl" && (e.stream == "command" || e.stream == "state_changed")
  }

  /** Whether a further check at `now` would do anything. */
  ghost predicate Checked<R>(limits: Limits, s: Core<R>, now: int) {
    Staleness(limits, s.watch, now) == (s.watch, [])
  }

  /** After a step that gave commands, the staleness check was made. */
  lemma StepChecks<R>(l: Logic<R>, limits: Limits, s: Core<R>, ev: Event, now: int)
    requires Distinct(limits) && Step(l, limits, s, ev, now).1 != []
    ensures Checked(limits, Step(l, limits, s, ev, now).0, now)
  {
    StalenessIdempotent(limits, s.watch, now);
    StalenessIdempotent(limits, Heard(s.watch, ev.cat, ev.recvNs), now);
    if ev.cat == "ctrl" && ev.stream == "connect" {
      var cat := l.connected(ev.raw);
      if cat.Some? {
        StalenessIdempotent(limits, Heard(s.watch, cat.value, ev.recvNs), now);
      }
    }
  }

  /** An event the trader wrote itself is inert on a checked state. */
  lemma EchoInert<R>(l: Logic<R>, limits: Limits, s: Core<R>, ev: Event, now: int)
    requires Echoed(ev) && Checked(limits, s, now)
    ensures var (t, cmds) := Step(l, limits, s, ev, now); Same(s, t) && cmds == []
  {
    assert RegisterAll(l, s.rest, [], now) == s.rest;
  }

  /** An event that was recorded but never stepped live is harmless in replay exactly when the check
      it causes is throttled or finds the flags current at the very time of the last check. */
  lemma ForeignInertIff<R>(l: Logic<R>, limits: Limits, s: Core<R>, ev: Event, now: int)
    requires Distinct(limits) && ev.cat == "ctrl" && ev.stream != "connect" && ev.stream != "tick"
    ensures var (t, cmds) := Step(l, limits, s, ev, now);
      (Same(s, t) && cmds == [] <==>
        Throttled(s.watch, now) || (Settled(limits, s.watch, now) && s.watch.lastCheck == now))
  {
    InertIff(limits, s.watch, now);
    assert RegisterAll(l, s.rest, [], now) == s.rest;
  }

  function Fresh<R>(r: R): Core<R> {
    Core(r, Watch(map[], map[], 0), Counters(0, map[], 0))
  }

  /** After the first market event of a run its category is current and was checked just now. */
  lemma FirstHeard<R>(l: Logic<R>, limits: Limits, r: R, k: nat, raw: string, t: int)
    requires Distinct(limits) && k < |limits| && limits[k].1 >= 0 && t > 0
    requires limits[k].0 !in {"ctrl", "private", "exec"}
    ensures var w := Step(l, limits, Fresh(r), Event(limits[k].0, "", raw, t), t).0.watch;
      w == Watch(map[limits[k].0 := t], map[], t)
  {
    var w := Watch(map[limits[k].0 := t], map[], 0);
    CheckSettled(limits, w.(lastCheck := t), t);
  }

  /** A run in which an event only replay sees is not harmless: any watched category is heard once,
      and the event is recorded when that category has meanwhile gone stale. It is announced. */
  lemma ForeignMatters<R>(l: Logic<R>, limits: Limits, r: R, k: nat, raw: string, t: int, alarm: string)
    requires Distinct(limits) && k < |limits| && limits[k].1 >= 0 && t > 0
    requires limits[k].0 !in {"ctrl", "private", "exec"}
    ensures var s := Step(l, limits, Fresh(r), Event(limits[k].0, "", raw, t), t).0;
      var now := Aged(limits[k].1, t);
      Step(l, limits, s, Event("ctrl", "alarm", alarm, now), now).1 != []
  {
    var s := Step(l, limits, Fresh(r), Event(limits[k].0, "", raw, t), t).0;
    var now := Aged(limits[k].1, t);
    FirstHeard(l, limits, r, k, raw, t);
    AgedIsAnnounced(limits, s.watch, k, now);
  }

  /** When a category heard at `t` is stale and the next check is due. */
  function Aged(limitMs: int, t: int): int {
    t + CHECK_NS + (limitMs + 1) * MS
  }

  lemma AgedIsAnnounced(limits: Limits, w: Watch, k: nat, now: int)
    requires k < |limits| && !Throttled(w, now) && !Current(w, limits[k], now)
    ensures Staleness(limits, w, now).1 != []
  {
    var u := w.(lastCheck := now);
    assert !Current(u, limits[k], now);
    if CheckAll(limits, u, now).1 == [] {
      SilentIsSettled(limits, u, now);
    }
  }

  lemma {:induction false} EchoShape(cmds: seq<Cmd>, now: int)
    ensures forall e <- Echo(cmds, now) :: Echoed(e) && e.recvNs == now
    decreases |cmds|
  {
    if cmds != [] {
      EchoShape(cmds[..|cmds| - 1], now);
    }
  }

  /** Replaying a block of own events at one time gives nothing and changes nothing. */
  lemma {:induction false} BlockInert<R>(l: Logic<R>, limits: Limits, p: Tape<R>, block: seq<Event>)
    requires forall e <- block :: Echoed(e) && e.recvNs == p.clock
    requires block == [] || Checked(limits, p.core, p.clock)
    ensures var q := ReplayAll(l, limits, p, block);
      Same(p.core, q.core) && q.clock == p.clock && q.given == p.given + Blank(|block|)
    decreases |block|
  {
    if block == [] {
      assert p.given + Blank(0) == p.given;
    } else {
      var n := |block| - 1;
      forall e | e in block[..n] ensures Echoed(e) && e.recvNs == p.clock {
        assert e in block;
      }
      BlockInert(l, limits, p, block[..n]);
      var q := ReplayAll(l, limits, p, block[..n]);
      assert block[n] in block;
      EchoInert(l, limits, q.core, block[n], p.clock);
      assert Blank(n) + [[]] == Blank(n + 1);
    }
  }

  lemma {:induction false} ReplayConcat<R>(l: Logic<R>, limits: Limits, p: Tape<R>, a: seq<Event>, b: seq<Event>)
    ensures ReplayAll(l, limits, p, a + b) == ReplayAll(l, limits, ReplayAll(l, limits, p, a), b)
    decreases |b|
  {
    if b == [] {
      assert a + b == a;
    } else {
      var n := |b| - 1;
      assert (a + b)[..|a + b| - 1] == a + b[..n];
      ReplayConcat(l, limits, p, a, b[..n]);
    }
  }

  predicate InOrder(events: seq<Event>) {
    forall i, j :: 0 <= i <= j < |events| ==> events[i].recvNs <= events[j].recvNs
  }

  function Clocks(clock: int, events: seq<Event>): seq<int>
    decreases |events|
  {
    if events == [] then [] else
      var c := Clock(clock, events[0].recvNs);
      [c] + Clocks(c, events[1..])
  }

  lemma {:induction false} ClocksClimb(clock: int, events: seq<Event>)
    ensures var cs := Clocks(clock, events);
      && |cs| == |events| && (forall i :: 0 <= i < |cs| ==> clock <= cs[i])
      && (forall i, j :: 0 <= i <= j < |cs| ==> cs[i] <= cs[j])
    decreases |events|
  {
    if events != [] {
      ClocksClimb(Clock(clock, events[0].recvNs), events[1..]);
    }
  }

  lemma {:induction false} OrderedClocks(clock: int, events: seq<Event>)
    requires InOrder(events) && (events != [] ==> clock <= events[0].recvNs)
    ensures |Clocks(clock, events)| == |events|
    ensures forall i :: 0 <= i < |events| ==> Clocks(clock, events)[i] == events[i].recvNs
    decreases |events|
  {
    if events != [] {
      var rest := events[1..];
      assert rest != [] ==> events[0].recvNs <= events[1].recvNs;
      OrderedClocks(events[0].recvNs, rest);
      forall i | 1 <= i < |events| ensures Clocks(clock, events)[i] == events[i].recvNs {
        assert Clocks(clock, events)[i] == Clocks(events[0].recvNs, rest)[i - 1] && rest[i - 1] == events[i];
      }
    }
  }

  /** The replay clock shows every event its own time exactly when the times never go back. */
  lemma ClockAgreesIff(clock: int, events: seq<Event>)
    ensures |Clocks(clock, events)| == |events|
    ensures (forall i :: 0 <= i < |events| ==> Clocks(clock, events)[i] == events[i].recvNs)
      <==> InOrder(events) && (events != [] ==> clock <= events[0].recvNs)
  {
    ClocksClimb(clock, events);
    if InOrder(events) && (events != [] ==> clock <= events[0].recvNs) {
      OrderedClocks(clock, events);
    }
  }

  /** How far replay has come when live has taken `events`. */
  ghost predicate Follows<R>(t: Trace<R>, p: Tape<R>, events: seq<Event>, start: int) {
    && Same(t.core, p.core) && p.given == t.given
    && p.clock == if events == [] then start else events[|events| - 1].recvNs
  }

  lemma ReplayFirst<R>(l: Logic<R>, limits: Limits, p: Tape<R>, ev: Event, rest: seq<Event>)
    ensures ReplayAll(l, limits, p, [ev] + rest) == ReplayAll(l, limits, ReplayOne(l, limits, p, ev), rest)
  {
    ReplayConcat(l, limits, p, [ev], rest);
    assert [ev][..0] == [];
    assert ReplayAll(l, limits, p, [ev]) == ReplayOne(l, limits, p, ev);
  }

  lemma ReplayOneStep<R>(l: Logic<R>, limits: Limits, t: Trace<R>, p: Tape<R>, ev: Event)
    requires Distinct(limits) && Same(t.core, p.core) && p.given == t.given && p.clock <= ev.recvNs
    ensures var u := LiveOne(l, limits, t, ev);
      var echo := u.record[|t.record|..];
      var q := ReplayAll(l, limits, p, echo);
      u.record == t.record + echo && Same(u.core, q.core) && q.given == u.given && q.clock == ev.recvNs
  {
    var now := ev.recvNs;
    var (s, cmds) := Step(l, limits, t.core, ev, now);
    var echo := Echo(cmds, now);
    var u := LiveOne(l, limits, t, ev);
    assert u.record[|t.record|..] == [ev] + echo;
    ReplayFirst(l, limits, p, ev, echo);
    var q := ReplayOne(l, limits, p, ev);
    CountersDoNotMatter(l, limits, t.core, p.core, ev, now);
    EchoShape(cmds, now);
    if cmds != [] {
      StepChecks(l, limits, p.core, ev, now);
    }
    BlockInert(l, limits, q, echo);
  }

  /** Replaying the record gives, event by event, the commands that were given live. */
  lemma {:induction false} ReplayFollowsLive<R>(l: Logic<R>, limits: Limits, start: Core<R>, clock: int, events: seq<Event>)
    requires Distinct(limits) && InOrder(events)
    requires events != [] ==> clock <= events[0].recvNs
    ensures var t := Live(l, limits, start, events);
      Follows(t, ReplayAll(l, limits, Tape(start, clock, []), t.record), events, clock)
    decreases |events|
  {
    if events != [] {
      var n := |events| - 1;
      var before := events[..n];
      ReplayFollowsLive(l, limits, start, clock, before);
      var t := Live(l, limits, start, before);
      var u := Live(l, limits, start, events);
      var p := ReplayAll(l, limits, Tape(start, clock, []), t.record);
      assert n > 0 ==> before[n - 1] == events[n - 1];
      ReplayOneStep(l, limits, t, p, events[n]);
      ReplayConcat(l, limits, Tape(start, clock, []), t.record, u.record[|t.record|..]);
    }
  }

  function Flatten(given: seq<seq<Cmd>>): seq<Cmd>
    decreases |given|
  {
    if given == [] then [] else Flatten(given[..|given| - 1]) + given[|given| - 1]
  }

  /** For every logic, every feed, every simulator answer: a fresh engine replaying the record gives
      the live commands, each on the same recorded event, when the record's times never go back. */
  lemma ReplayReproducesLive<R>(l: Logic<R>, limits: Limits, start: Core<R>, turns: seq<Turn>)
    requires Distinct(limits) && InOrder(AllStepped(turns))
    requires AllStepped(turns) != [] ==> AllStepped(turns)[0].recvNs >= 0
    ensures var t := Live(l, limits, start, AllStepped(turns));
      var p := ReplayAll(l, limits, Tape(start, 0, []), t.record);
      p.given == t.given && |t.given| == |t.record| && Same(p.core, t.core)
  {
    ReplayFollowsLive(l, limits, start, 0, AllStepped(turns));
    OneListPerEvent(l, limits, start, AllStepped(turns));
  }

  lemma {:induction false} OneListPerEvent<R>(l: Logic<R>, limits: Limits, start: Core<R>, events: seq<Event>)
    ensures var t := Live(l, limits, start, events); |t.given| == |t.record|
    decreases |events|
  {
    if events != [] {
      OneListPerEvent(l, limits, start, events[..|events| - 1]);
    }
  }

  lemma LiveSingle<R>(l: Logic<R>, limits: Limits, start: Core<R>, ev: Event)
    ensures Live(l, limits, start, [ev]) == LiveOne(l, limits, Trace(start, [], []), ev)
    ensures Live(l, limits, start, [ev]).core == Step(l, limits, start, ev, ev.recvNs).0
  {
    assert [ev][..0] == [];
    assert LiveFrom(l, limits, Trace(start, [], []), []) == Trace(start, [], []);
  }

  /** And so replay can differ from what happened: the trader hears a watched category once and writes
      an alarm it never steps on when the category has gone stale; live nothing was commanded then, the
      replay of the record announces it. */
  lemma ForeignBreaksReplay<R>(l: Logic<R>, limits: Limits, r: R, k: nat, raw: string, t: int, alarm: string)
    requires Distinct(limits) && k < |limits| && limits[k].1 >= 0 && t > 0
    requires limits[k].0 !in {"ctrl", "private", "exec"}
    ensures var live := Live(l, limits, Fresh(r), [Event(limits[k].0, "", raw, t)]);
      var unstepped := Event("ctrl", "alarm", alarm, Aged(limits[k].1, t));
      ReplayAll(l, limits, Tape(Fresh(r), 0, []), live.record + [unstepped]).given != live.given + [[]]
  {
    var heard, unstepped := Event(limits[k].0, "", raw, t), Event("ctrl", "alarm", alarm, Aged(limits[k].1, t));
    var live := Live(l, limits, Fresh(r), [heard]);
    var p := ReplayAll(l, limits, Tape(Fresh(r), 0, []), live.record);
    ReplayFollowsLive(l, limits, Fresh(r), 0, [heard]);
    LiveSingle(l, limits, Fresh(r), heard);
    ForeignMatters(l, limits, r, k, raw, t, alarm);
    CountersDoNotMatter(l, limits, live.core, p.core, unstepped, unstepped.recvNs);
    assert (live.record + [unstepped])[..|live.record|] == live.record;
    assert ReplayAll(l, limits, Tape(Fresh(r), 0, []), live.record + [unstepped]) == ReplayOne(l, limits, p, unstepped);
    var cmds := Step(l, limits, p.core, unstepped, unstepped.recvNs).1;
    assert (live.given + [cmds])[|live.given|] == cmds && (live.given + [[]])[|live.given|] == [];
  }
}
