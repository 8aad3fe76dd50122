/** The engine's step and the paper trader around it as objects (fbot/core/engine.py,
    fbot/paper/trader.py), proved to produce the traces of `Replay`. */
module PaperTraders {
  import opened Common
  import opened Replay

  class EngineState<R> {
    var rest: R
    var lastRecv: map<string, int>
    var stale: map<string, bool>
    var lastCheck: int
    var events: nat
    var ctrlCounts: map<string, nat>
    var privateEvents: nat

    ghost function View(): Core<R>
      reads this
    {
      Core(rest, Watch(lastRecv, stale, lastCheck), Counters(events, ctrlCounts, privateEvents))
    }

    constructor (rest: R)
      ensures View() == Core(rest, Watch(map[], map[], 0), Counters(0, map[], 0))
    {
      this.rest := rest;
      lastRecv, stale, lastCheck := map[], map[], 0;
      events, ctrlCounts, privateEvents := 0, map[], 0;
    }
  }

  class Engine<R> {
    const logic: Logic<R>
    const limits: Limits

    constructor (logic: Logic<R>, limits: Limits)
      ensures this.logic == logic && this.limits == limits
    {
      this.logic, this.limits := logic, limits;
    }

    /** Compares every category's age with its threshold; announces the flags that change. */
    method Staleness(state: EngineState<R>, now: int) returns (out: seq<Cmd>)
      modifies state
      ensures var (w, cmds) := Replay.Staleness(limits, old(state.View()).watch, now);
        state.View() == old(state.View()).(watch := w) && out == cmds
    {
      out := [];
      if !(exists c <- state.stale :: state.stale[c]) && state.lastCheck != 0 && now - state.lastCheck < CHECK_NS {
        return;
      }
      state.lastCheck := now;
      ghost var start := state.View();
      for k := 0 to |limits|
        invariant state.View() == start.(watch := CheckAll(limits[..k], start.watch, now).0)
        invariant out == CheckAll(limits[..k], start.watch, now).1
      {
        assert limits[..k + 1][..k] == limits[..k];
        var (cat, limit) := limits[k];
        if cat in state.lastRecv {
          var age := (now - state.lastRecv[cat]) / MS;
          var isStale := age > limit;
          if isStale != (cat in state.stale && state.stale[cat]) {
            state.stale := state.stale[cat := isStale];
            out := out + [StalenessChanged(cat, isStale, if isStale then age else 0)];
          }
        }
      }
      assert limits[..|limits|] == limits;
    }

    method RegisterOrders(state: EngineState<R>, cmds: seq<Cmd>, now: int)
      modifies state
      ensures state.View() == old(state.View()).(rest := RegisterAll(logic, old(state.rest), cmds, now))
    {
      ghost var start := state.View();
      for k := 0 to |cmds|
        invariant state.View() == start.(rest := RegisterAll(logic, start.rest, cmds[..k], now))
      {
        assert cmds[..k + 1][..k] == cmds[..k];
        if cmds[k].Order? {
          state.rest := logic.register(state.rest, cmds[k], now);
        }
      }
      assert cmds[..|cmds|] == cmds;
    }

    method Finish(state: EngineState<R>, given: seq<Cmd>, now: int) returns (cmds: seq<Cmd>)
      modifies state
      ensures var s := old(state.View());
        (state.View(), cmds) == Replay.Finish(logic, limits, s.rest, s.watch, s.counters, given, now)
    {
      var late := Staleness(state, now);
      cmds := given + late;
      RegisterOrders(state, cmds, now);
    }

    method Step(state: EngineState<R>, ev: Event, now: int) returns (cmds: seq<Cmd>)
      modifies state
      ensures (state.View(), cmds) == Replay.Step(logic, limits, old(state.View()), ev, now)
    {
      state.events := state.events + 1;
      cmds := [];
      if ev.cat == "ctrl" {
        var seen := if ev.stream in state.ctrlCounts then state.ctrlCounts[ev.stream] else 0;
        state.ctrlCounts := state.ctrlCounts[ev.stream := seen + 1];
        if ev.stream == "connect" {
          var cat := logic.connected(ev.raw);
          if cat.Some? && exists k :: 0 <= k < |limits| && limits[k].0 == cat.value {
            state.lastRecv := state.lastRecv[cat.value := ev.recvNs];
          }
        } else if ev.stream == "tick" {
          state.rest := logic.sweep(state.rest, now);
          var late := Staleness(state, now);
          var (rest, more) := logic.tick(state.rest, state.stale, now);
          state.rest := rest;
          return late + more;
        }
      } else if ev.cat == "private" {
        state.privateEvents := state.privateEvents + 1;
        return [];
      } else if ev.cat == "exec" {
        var (rest, more) := logic.exec(state.rest, ev.stream, ev.raw, now);
        state.rest, cmds := rest, more;
      } else {
        state.lastRecv := state.lastRecv[ev.cat := ev.recvNs];
        var (rest, more) := logic.route(state.rest, state.stale, ev.raw, now);
        state.rest, cmds := rest, more;
      }
      cmds := Finish(state, cmds, now);
    }
  }

  /** Keeps its commands and everything it had recorded; `given` remembers which event gave which. */
  class PaperTrader<R> {
    const engine: Engine<R>
    const state: EngineState<R>
    var commands: seq<Cmd>
    var record: seq<Event>
    ghost var given: seq<seq<Cmd>>

    ghost function View(): Trace<R>
      reads this, state
    {
      Trace(state.View(), record, given)
    }

    /** The kept commands are those given, in order. */
    ghost predicate Valid()
      reads this
    {
      commands == Flatten(given)
    }

    constructor (engine: Engine<R>, state: EngineState<R>)
      ensures Valid() && this.engine == engine && this.state == state
      ensures View() == Trace(state.View(), [], [])
    {
      this.engine, this.state := engine, state;
      commands, record, given := [], [], [];
    }

    /** Keeps the commands and records those it echoes. */
    method Keep(cmds: seq<Cmd>, now: int)
      modifies this`record, this`commands
      ensures record == old(record) + Echo(cmds, now) && commands == old(commands) + cmds
    {
      for k := 0 to |cmds|
        invariant record == old(record) + Echo(cmds[..k], now) && commands == old(commands) + cmds[..k]
      {
        assert cmds[..k + 1][..k] == cmds[..k] && cmds[..k + 1] == cmds[..k] + [cmds[k]];
        commands := commands + [cmds[k]];
        match cmds[k]
        case StateChange(text) => record := record + [Event("ctrl", "state_changed", text, now)];
        case Order(text) => record := record + [Event("ctrl", "command", text, now)];
        case StalenessChanged(_, _, _) =>
        case BarClosed(_) =>
      }
      assert cmds[..|cmds|] == cmds;
    }

    /** Steps the engine on a recorded event and keeps what it gives. */
    method Step(ev: Event)
      requires Valid()
      modifies this, state
      ensures Valid() && View() == LiveOne(engine.logic, engine.limits, old(View()), ev)
    {
      record := record + [ev];
      var cmds := engine.Step(state, ev, ev.recvNs);
      Keep(cmds, ev.recvNs);
      given := given + [cmds] + Blank(|Echo(cmds, ev.recvNs)|);
      FlattenBlock(old(given), cmds, |Echo(cmds, ev.recvNs)|);
    }

    /** Steps the engine on the simulator's answers, each recorded as an execution event. */
    method Drain(answers: seq<(string, string)>, now: int)
      requires Valid()
      modifies this, state
      ensures Valid()
      ensures View() == LiveFrom(engine.logic, engine.limits, old(View()), Executions(answers, now))
    {
      for k := 0 to |answers|
        invariant Valid()
        invariant View() == LiveFrom(engine.logic, engine.limits, old(View()), Executions(answers[..k], now))
      {
        assert answers[..k + 1][..k] == answers[..k];
        var more := Executions(answers[..k + 1], now);
        var ev := Event("exec", answers[k].0, answers[k].1, now);
        assert more[..|more| - 1] == Executions(answers[..k], now) && more[|more| - 1] == ev;
        Step(ev);
      }
      assert answers[..|answers|] == answers;
    }

    method OnEvent(ev: Event, answers: seq<(string, string)>)
      requires Valid()
      modifies this, state
      ensures Valid()
      ensures View() == LiveFrom(engine.logic, engine.limits, old(View()), FromFeed(ev, answers).Stepped())
    {
      Step(ev);
      Drain(answers, ev.recvNs);
      FirstThen(engine.logic, engine.limits, old(View()), ev, Executions(answers, ev.recvNs));
    }

    method OnTick(now: int, answers: seq<(string, string)>)
      requires Valid()
      modifies this, state
      ensures Valid()
      ensures View() == LiveFrom(engine.logic, engine.limits, old(View()), FromClock(now, answers).Stepped())
    {
      var ev := Event("ctrl", "tick", "{\"src\":\"paper\"}", now);
      Step(ev);
      Drain(answers, now);
      FirstThen(engine.logic, engine.limits, old(View()), ev, Executions(answers, now));
    }
  }

  lemma {:induction false} FlattenBlanks(given: seq<seq<Cmd>>, n: nat)
    ensures Flatten(given + Blank(n)) == Flatten(given)
  {
    if n == 0 {
      assert given + Blank(0) == given;
    } else {
      FlattenBlanks(given, n - 1);
      var all := given + Blank(n);
      assert all[..|all| - 1] == given + Blank(n - 1) && all[|all| - 1] == [];
    }
  }

  lemma FlattenBlock(given: seq<seq<Cmd>>, cmds: seq<Cmd>, n: nat)
    ensures Flatten(given + [cmds] + Blank(n)) == Flatten(given) + cmds
  {
    FlattenBlanks(given + [cmds], n);
    assert (given + [cmds])[..|given|] == given;
  }

  lemma {:induction false} FirstThen<R>(l: Logic<R>, limits: Limits, t: Trace<R>, ev: Event, rest: seq<Event>)
    ensures LiveFrom(l, limits, t, [ev] + rest) == LiveFrom(l, limits, LiveOne(l, limits, t, ev), rest)
    decreases |rest|
  {
    if rest == [] {
      assert [ev] + rest == [ev] && [ev][..0] == [];
    } else {
      var n := |rest| - 1;
      assert ([ev] + rest)[..|[ev] + rest| - 1] == [ev] + rest[..n];
      FirstThen(l, limits, t, ev, rest[..n]);
    }
  }
}
