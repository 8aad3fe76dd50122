/** The order-rate limiter (fbot/core/rate_limit.py) as the gateway uses it
    (fbot/gateway/testnet.py): every order passes the gate and is then counted. */
module RateLimit {
  import opened Common

  /** Counted events (time, amount) of a sliding window; `reported` is the usage an exchange header
      last gave. */
  datatype Window = Window(spanMs: nat, limit: int, events: seq<(int, int)>, reported: Option<int>)

  function Trim(events: seq<(int, int)>, now: int, span: nat): seq<(int, int)> {
    if events != [] && now - events[0].0 > span then Trim(events[1..], now, span) else events
  }

  function Total(events: seq<(int, int)>): int {
    if events == [] then 0 else Total(events[..|events| - 1]) + events[|events| - 1].1
  }

  function Trimmed(w: Window, now: int): Window {
    w.(events := Trim(w.events, now, w.spanMs))
  }

  function Used(w: Window, now: int): int {
    var estimate := Total(Trim(w.events, now, w.spanMs));
    if w.reported.Some? && w.reported.value > estimate then w.reported.value else estimate
  }

  function Remaining(w: Window, now: int): int {
    if w.limit - Used(w, now) > 0 then w.limit - Used(w, now) else 0
  }

  function Counted(w: Window, now: int, n: int): Window {
    w.(events := Trim(w.events, now, w.spanMs) + [(now, n)],
       reported := if w.reported.Some? then Some(w.reported.value + n) else None)
  }

  datatype Limiter = Limiter(reserve: nat, o10: Window, o1m: Window, backoffUntilMs: int, banned: bool)

  function New(orders10s: int, orders1m: int, reserve: nat): Limiter {
    Limiter(reserve, Window(10_000, orders10s, [], None), Window(60_000, orders1m, [], None), 0, false)
  }

  /** Asking trims the windows it looks at. */
  function Gate(l: Limiter, now: int, entry: bool): (Limiter, bool) {
    if l.banned || now < l.backoffUntilMs then (l, false)
    else
      var kept := if entry then l.reserve else 0;
      var l1 := l.(o10 := Trimmed(l.o10, now));
      if Remaining(l.o10, now) <= kept then (l1, false)
      else (l1.(o1m := Trimmed(l.o1m, now)), Remaining(l.o1m, now) > kept)
  }

  function OnOrder(l: Limiter, now: int): Limiter {
    l.(o10 := Counted(l.o10, now, 1), o1m := Counted(l.o1m, now, 1))
  }

  // ---- runs

  datatype Action =
    | Place(at: int, entry: bool)                           // place_order, place_algo
    | Sync(used10s: Option<int>, used1m: Option<int>)       // usage from headers or a socket answer
    | Refused(status: int, at: int, retryMs: int)           // answers with status 429 or 418

  datatype Sent = Sent(at: int, entry: bool)

  /** The limiter, every order sent so far, and the latest time it was asked at. */
  datatype World = World(limiter: Limiter, sent: seq<Sent>, clock: int)

  function Override(w: Window, used: Option<int>): Window {
    if used.Some? then w.(reported := used) else w
  }

  function OnResponse(l: Limiter, status: int, now: int, retryMs: int): Limiter {
    if status == 418 then
      l.(banned := true, backoffUntilMs := if now + retryMs > l.backoffUntilMs then now + retryMs else l.backoffUntilMs)
    else if status == 429 then l.(backoffUntilMs := now + retryMs)
    else l
  }

  function Act(s: World, a: Action): World {
    match a
    case Place(at, entry) =>
      var (l, allowed) := Gate(s.limiter, at, entry);
      if allowed then World(OnOrder(l, at), s.sent + [Sent(at, entry)], at) else World(l, s.sent, at)
    case Sync(used10s, used1m) =>
      s.(limiter := s.limiter.(o10 := Override(s.limiter.o10, used10s), o1m := Override(s.limiter.o1m, used1m)))
    case Refused(status, at, retryMs) => s.(limiter := OnResponse(s.limiter, status, at, retryMs))
  }

  function Run(s: World, actions: seq<Action>): World
    decreases |actions|
  {
    if actions == [] then s else Act(Run(s, actions[..|actions| - 1]), actions[|actions| - 1])
  }

  /** Time does not go back between orders. */
  predicate Timely(s: World, actions: seq<Action>)
    decreases |actions|
  {
    actions != [] ==>
      var before, a := actions[..|actions| - 1], actions[|actions| - 1];
      Timely(s, before) && (a.Place? ==> Run(s, before).clock <= a.at)
  }

  // ---- what a window holds

  function Marks(sent: seq<Sent>): seq<(int, int)> {
    if sent == [] then [] else [(sent[0].at, 1)] + Marks(sent[1..])
  }

  predicate InOrder(sent: seq<Sent>, clock: int) {
    && (forall i, j :: 0 <= i <= j < |sent| ==> sent[i].at <= sent[j].at)
    && (forall i :: 0 <= i < |sent| ==> sent[i].at <= clock)
  }

  /** How many orders were sent at `from` or later. */
  function SentSince(sent: seq<Sent>, from: int): nat {
    if sent == [] then 0
    else SentSince(sent[..|sent| - 1], from) + if sent[|sent| - 1].at >= from then 1 else 0
  }

  /** The window holds the sent orders from index `k` on; those before have left it for good. */
  predicate Holds(w: Window, sent: seq<Sent>, clock: int, k: nat) {
    k <= |sent| && w.events == Marks(sent[k..]) && forall i :: 0 <= i < k ==> clock - sent[i].at > w.spanMs
  }

  ghost predicate Tracks(w: Window, sent: seq<Sent>, clock: int) {
    exists k: nat :: Holds(w, sent, clock, k)
  }

  lemma {:induction false} MarksAt(sent: seq<Sent>)
    ensures |Marks(sent)| == |sent| && forall i :: 0 <= i < |sent| ==> Marks(sent)[i] == (sent[i].at, 1)
  {
    if sent != [] {
      MarksAt(sent[1..]);
    }
  }

  lemma {:induction false} TotalOfOnes(events: seq<(int, int)>)
    requires forall i :: 0 <= i < |events| ==> events[i].1 == 1
    ensures Total(events) == |events|
  {
    if events != [] {
      TotalOfOnes(events[..|events| - 1]);
    }
  }

  /** Trimming moves the start of the window forward to the first order still inside. */
  lemma {:induction false} TrimHolds(w: Window, sent: seq<Sent>, clock: int, k: nat, now: int) returns (m: nat)
    requires Holds(w, sent, clock, k) && clock <= now
    ensures Holds(Trimmed(w, now), sent, now, m)
    ensures m < |sent| ==> now - sent[m].at <= w.spanMs
    decreases |sent| - k
  {
    if k < |sent| && now - sent[k].at > w.spanMs {
      assert sent[k..][1..] == sent[k + 1..] && sent[k..][0] == sent[k];
      var later := w.(events := Marks(sent[k + 1..]));
      assert w.events[1..] == later.events;
      m := TrimHolds(later, sent, now, k + 1, now);
    } else {
      m := k;
      assert k < |sent| ==> w.events[0] == (sent[k].at, 1);
    }
  }

  /** In a list in order, the orders since `from` are the last ones. */
  lemma {:induction false} SinceIsSuffix(sent: seq<Sent>, from: int, m: nat)
    requires forall i, j :: 0 <= i <= j < |sent| ==> sent[i].at <= sent[j].at
    requires m <= |sent| && (m > 0 ==> sent[m - 1].at < from) && (m < |sent| ==> sent[m].at >= from)
    ensures SentSince(sent, from) == |sent| - m
    decreases |sent|
  {
    if sent != [] {
      var n := |sent| - 1;
      if m <= n {
        assert sent[m].at <= sent[n].at;
        SinceIsSuffix(sent[..n], from, m);
      } else {
        assert forall i :: 0 <= i <= n ==> sent[i].at <= sent[n].at;
        NoneSince(sent, from);
      }
    }
  }

  lemma {:induction false} NoneSince(sent: seq<Sent>, from: int)
    requires forall i :: 0 <= i < |sent| ==> sent[i].at < from
    ensures SentSince(sent, from) == 0
  {
    if sent != [] {
      NoneSince(sent[..|sent| - 1], from);
    }
  }

  /** The window's own count is the number of orders sent in the last span. */
  lemma EstimateIsExact(w: Window, sent: seq<Sent>, clock: int, now: int)
    requires Tracks(w, sent, clock) && InOrder(sent, clock) && clock <= now
    ensures Total(Trim(w.events, now, w.spanMs)) == SentSince(sent, now - w.spanMs)
    ensures Tracks(Trimmed(w, now), sent, now)
  {
    var k: nat :| Holds(w, sent, clock, k);
    var m := TrimHolds(w, sent, clock, k, now);
    MarksAt(sent[m..]);
    TotalOfOnes(Marks(sent[m..]));
    SinceIsSuffix(sent, now - w.spanMs, m);
  }

  lemma {:induction false} MarksAppend(sent: seq<Sent>, s: Sent)
    ensures Marks(sent + [s]) == Marks(sent) + [(s.at, 1)]
  {
    if sent != [] {
      assert (sent + [s])[1..] == sent[1..] + [s];
      MarksAppend(sent[1..], s);
    }
  }

  lemma CountedTracks(w: Window, sent: seq<Sent>, clock: int, s: Sent)
    requires Tracks(w, sent, clock) && InOrder(sent, clock) && clock <= s.at
    ensures Tracks(Counted(w, s.at, 1), sent + [s], s.at)
  {
    var k: nat :| Holds(w, sent, clock, k);
    var m := TrimHolds(w, sent, clock, k, s.at);
    assert (sent + [s])[m..] == sent[m..] + [s];
    MarksAppend(sent[m..], s);
    assert Holds(Counted(w, s.at, 1), sent + [s], s.at, m);
  }

  lemma LaterTracks(w: Window, sent: seq<Sent>, clock: int, now: int)
    requires Tracks(w, sent, clock) && clock <= now
    ensures Tracks(w, sent, now)
  {
    var k: nat :| Holds(w, sent, clock, k);
    assert Holds(w, sent, now, k);
  }

  // ---- the bound

  function Bound(limit: int, reserve: nat, entry: bool): int {
    if entry then limit - reserve else limit
  }

  /** In the span ending with any order there are, itself included, at most the limit of orders; in
      one ending with an entry order at most the limit without the reserve. */
  predicate Spaced(sent: seq<Sent>, span: nat, limit: int, reserve: nat) {
    sent != [] ==>
      var s := sent[|sent| - 1];
      Spaced(sent[..|sent| - 1], span, limit, reserve) && SentSince(sent, s.at - span) <= Bound(limit, reserve, s.entry)
  }

  ghost predicate Fits(w: Window, sent: seq<Sent>, clock: int, span: nat, limit: int, reserve: nat) {
    w.spanMs == span && w.limit == limit && Tracks(w, sent, clock) && Spaced(sent, span, limit, reserve)
  }

  ghost predicate Inv(s: World, orders10s: int, orders1m: int) {
    && InOrder(s.sent, s.clock)
    && Fits(s.limiter.o10, s.sent, s.clock, 10_000, orders10s, s.limiter.reserve)
    && Fits(s.limiter.o1m, s.sent, s.clock, 60_000, orders1m, s.limiter.reserve)
  }

  lemma SpacedMore(sent: seq<Sent>, span: nat, limit: int, reserve: nat, s: Sent)
    requires Spaced(sent, span, limit, reserve) && SentSince(sent, s.at - span) < Bound(limit, reserve, s.entry)
    ensures Spaced(sent + [s], span, limit, reserve)
  {
    assert (sent + [s])[..|sent|] == sent && (sent + [s])[|sent|] == s;
    assert SentSince(sent + [s], s.at - span) == SentSince(sent, s.at - span) + 1;
  }

  /** A window that was asked, and left trimmed, while time went on. */
  lemma AskedFits(w: Window, sent: seq<Sent>, clock: int, span: nat, limit: int, reserve: nat, now: int)
    requires Fits(w, sent, clock, span, limit, reserve) && InOrder(sent, clock) && clock <= now
    ensures Fits(w, sent, now, span, limit, reserve)
    ensures Fits(Trimmed(w, now), sent, now, span, limit, reserve)
    ensures Remaining(Trimmed(w, now), now) == Remaining(w, now)
  {
    LaterTracks(w, sent, clock, now);
    EstimateIsExact(w, sent, clock, now);
    EstimateIsExact(Trimmed(w, now), sent, now, now);
  }

  /** A window in which an order is counted. */
  lemma SentFits(w: Window, sent: seq<Sent>, span: nat, limit: int, reserve: nat, s: Sent)
    requires Fits(w, sent, s.at, span, limit, reserve) && InOrder(sent, s.at)
    requires Remaining(w, s.at) > if s.entry then reserve else 0
    ensures Fits(Counted(w, s.at, 1), sent + [s], s.at, span, limit, reserve)
  {
    EstimateIsExact(w, sent, s.at, s.at);
    SpacedMore(sent, span, limit, reserve, s);
    CountedTracks(w, sent, s.at, s);
  }

  lemma SyncFits(w: Window, sent: seq<Sent>, clock: int, span: nat, limit: int, reserve: nat, used: Option<int>)
    requires Fits(w, sent, clock, span, limit, reserve)
    ensures Fits(Override(w, used), sent, clock, span, limit, reserve)
  {
    var k: nat :| Holds(w, sent, clock, k);
    assert Holds(Override(w, used), sent, clock, k);
  }

  lemma GateKeeps(s: World, at: int, entry: bool, orders10s: int, orders1m: int)
    requires Inv(s, orders10s, orders1m) && s.clock <= at
    ensures var (l, allowed) := Gate(s.limiter, at, entry);
      && l.reserve == s.limiter.reserve && Inv(World(l, s.sent, at), orders10s, orders1m)
      && (allowed ==> Remaining(l.o10, at) > (if entry then l.reserve else 0)
                      && Remaining(l.o1m, at) > (if entry then l.reserve else 0))
  {
    AskedFits(s.limiter.o10, s.sent, s.clock, 10_000, orders10s, s.limiter.reserve, at);
    AskedFits(s.limiter.o1m, s.sent, s.clock, 60_000, orders1m, s.limiter.reserve, at);
  }

  lemma InOrderMore(sent: seq<Sent>, s: Sent)
    requires InOrder(sent, s.at)
    ensures InOrder(sent + [s], s.at)
  {
  }

  lemma OrderKeeps(l: Limiter, sent: seq<Sent>, s: Sent, orders10s: int, orders1m: int)
    requires Inv(World(l, sent, s.at), orders10s, orders1m)
    requires Remaining(l.o10, s.at) > if s.entry then l.reserve else 0
    requires Remaining(l.o1m, s.at) > if s.entry then l.reserve else 0
    ensures Inv(World(OnOrder(l, s.at), sent + [s], s.at), orders10s, orders1m)
  {
    InOrderMore(sent, s);
    SentFits(l.o10, sent, 10_000, orders10s, l.reserve, s);
    SentFits(l.o1m, sent, 60_000, orders1m, l.reserve, s);
  }

  lemma ActKeeps(s: World, a: Action, orders10s: int, orders1m: int)
    requires Inv(s, orders10s, orders1m) && (a.Place? ==> s.clock <= a.at)
    ensures Inv(Act(s, a), orders10s, orders1m) && Act(s, a).limiter.reserve == s.limiter.reserve
  {
    match a
    case Place(at, entry) =>
      GateKeeps(s, at, entry, orders10s, orders1m);
      var (l, allowed) := Gate(s.limiter, at, entry);
      if allowed {
        OrderKeeps(l, s.sent, Sent(at, entry), orders10s, orders1m);
      }
    case Sync(used10s, used1m) =>
      SyncFits(s.limiter.o10, s.sent, s.clock, 10_000, orders10s, s.limiter.reserve, used10s);
      SyncFits(s.limiter.o1m, s.sent, s.clock, 60_000, orders1m, s.limiter.reserve, used1m);
    case Refused(_, _, _) =>
  }

  function Start(orders10s: int, orders1m: int, reserve: nat, clock: int): World {
    World(New(orders10s, orders1m, reserve), [], clock)
  }

  lemma StartInv(orders10s: int, orders1m: int, reserve: nat, clock: int)
    ensures Inv(Start(orders10s, orders1m, reserve, clock), orders10s, orders1m)
  {
    var s := Start(orders10s, orders1m, reserve, clock);
    assert s.sent[0..] == [] && Holds(s.limiter.o10, s.sent, clock, 0) && Holds(s.limiter.o1m, s.sent, clock, 0);
  }

  lemma {:induction false} RunKeeps(start: World, orders10s: int, orders1m: int, actions: seq<Action>)
    requires Inv(start, orders10s, orders1m) && Timely(start, actions)
    ensures Inv(Run(start, actions), orders10s, orders1m)
    ensures Run(start, actions).limiter.reserve == start.limiter.reserve
    decreases |actions|
  {
    if actions != [] {
      var before := actions[..|actions| - 1];
      RunKeeps(start, orders10s, orders1m, before);
      ActKeeps(Run(start, before), actions[|actions| - 1], orders10s, orders1m);
    }
  }

  /** Orders, and entry orders, sent in the closed interval from `from` to `until`. */
  function CountIn(sent: seq<Sent>, from: int, until: int, entriesOnly: bool): nat {
    if sent == [] then 0
    else
      var s := sent[|sent| - 1];
      CountIn(sent[..|sent| - 1], from, until, entriesOnly)
      + if from <= s.at <= until && (entriesOnly ==> s.entry) then 1 else 0
  }

  lemma {:induction false} CountWithin(sent: seq<Sent>, from: int, until: int, entriesOnly: bool)
    ensures CountIn(sent, from, until, entriesOnly) <= SentSince(sent, from)
  {
    if sent != [] {
      CountWithin(sent[..|sent| - 1], from, until, entriesOnly);
    }
  }

  lemma {:induction false} SinceGrows(sent: seq<Sent>, from: int, earlier: int)
    requires earlier <= from
    ensures SentSince(sent, from) <= SentSince(sent, earlier)
  {
    if sent != [] {
      SinceGrows(sent[..|sent| - 1], from, earlier);
    }
  }

  /** Spaced orders never crowd an interval: look back from the last order inside it. */
  lemma {:induction false} SpacedBounds(sent: seq<Sent>, span: nat, limit: int, reserve: nat, from: int, entriesOnly: bool)
    requires Spaced(sent, span, limit, reserve)
    ensures var bound := Bound(limit, reserve, entriesOnly);
      CountIn(sent, from, from + span, entriesOnly) <= if bound > 0 then bound else 0
    decreases |sent|
  {
    if sent != [] {
      var s := sent[|sent| - 1];
      if from <= s.at <= from + span && (entriesOnly ==> s.entry) {
        CountWithin(sent, from, from + span, entriesOnly);
        SinceGrows(sent, from, s.at - span);
      } else {
        SpacedBounds(sent[..|sent| - 1], span, limit, reserve, from, entriesOnly);
      }
    }
  }

  /** Whatever the headers report: in every run, any closed 10 s interval holds at most the 10 s
      limit of orders and any closed 60 s interval the one-minute limit; and of entry orders at most
      that without the reserve. */
  lemma IntervalsAreBounded(orders10s: int, orders1m: int, reserve: nat, clock: int, actions: seq<Action>, from: int)
    requires Timely(Start(orders10s, orders1m, reserve, clock), actions) && orders10s >= 0 && orders1m >= 0
    ensures var sent := Run(Start(orders10s, orders1m, reserve, clock), actions).sent;
      && CountIn(sent, from, from + 10_000, false) <= orders10s
      && CountIn(sent, from, from + 60_000, false) <= orders1m
      && CountIn(sent, from, from + 10_000, true) <= (if orders10s > reserve then orders10s - reserve else 0)
      && CountIn(sent, from, from + 60_000, true) <= (if orders1m > reserve then orders1m - reserve else 0)
  {
    StartInv(orders10s, orders1m, reserve, clock);
    RunKeeps(Start(orders10s, orders1m, reserve, clock), orders10s, orders1m, actions);
    var sent := Run(Start(orders10s, orders1m, reserve, clock), actions).sent;
    SpacedBounds(sent, 10_000, orders10s, reserve, from, false);
    SpacedBounds(sent, 60_000, orders1m, reserve, from, false);
    SpacedBounds(sent, 10_000, orders10s, reserve, from, true);
    SpacedBounds(sent, 60_000, orders1m, reserve, from, true);
  }

  /** And the gate is no stricter than that: while no header reports more than was sent, it refuses
      an order exactly when the system is banned or backing off, or one of the two spans ending now
      has no more room than the reserve. */
  lemma RefusesIff(s: World, orders10s: int, orders1m: int, now: int, entry: bool)
    requires Inv(s, orders10s, orders1m) && s.clock <= now
    requires s.limiter.o10.reported.None? && s.limiter.o1m.reported.None?
    ensures var kept := if entry then s.limiter.reserve else 0;
      (!Gate(s.limiter, now, entry).1 <==>
        || s.limiter.banned || now < s.limiter.backoffUntilMs
        || SentSince(s.sent, now - 10_000) + kept >= orders10s
        || SentSince(s.sent, now - 60_000) + kept >= orders1m)
  {
    EstimateIsExact(s.limiter.o10, s.sent, s.clock, now);
    EstimateIsExact(s.limiter.o1m, s.sent, s.clock, now);
  }

  /** Nothing is sent after a ban. */
  lemma {:induction false} BannedSendsNothing(s: World, actions: seq<Action>)
    requires s.limiter.banned
    ensures Run(s, actions).limiter.banned && Run(s, actions).sent == s.sent
    decreases |actions|
  {
    if actions != [] {
      BannedSendsNothing(s, actions[..|actions| - 1]);
    }
  }
}
