/** The order registry (fbot/core/oms.py): what is known of every order, however its messages
    arrive. */
module Oms {
  import opened Common

  datatype Role = Entry | Exit | Protective | Partial

  datatype OrderState = Pending | Acked | PartiallyFilled | Filled | Done | Unknown

  datatype Ref = Ref(posId: string, role: Role, symbol: string, submittedNs: int, state: OrderState,
                     orderId: Option<int>, intentKey: Option<string>)
  {
    predicate IsTerminal() {
      state == Filled || state == Done
    }
  }

  /** Orders by client id, the last order of each logical intent, and those whose execution is unknown. */
  datatype Registry = Registry(refs: map<string, Ref>, byIntent: map<string, string>, unknown: set<string>)

  const EMPTY := Registry(map[], map[], {})

  function Rank(s: OrderState): nat {
    match s
    case Pending => 0
    case Acked => 1
    case PartiallyFilled => 2
    case Unknown => 2
    case Filled => 3
    case Done => 3
  }

  function OfStatus(status: string): Option<OrderState> {
    if status == "NEW" then Some(Acked)
    else if status == "PARTIALLY_FILLED" then Some(PartiallyFilled)
    else if status == "FILLED" then Some(Filled)
    else if status in ["CANCELED", "EXPIRED", "EXPIRED_IN_MATCH", "REJECTED"] then Some(Done)
    else None
  }

  function OfKind(kind: string): Option<OrderState> {
    if kind == "order_fill" || kind == "algo_triggered" then Some(PartiallyFilled)
    else if kind == "algo_ack" then Some(Acked)
    else if kind in ["algo_canceled", "algo_rejected", "algo_finished"] then Some(Done)
    else None
  }

  datatype Message =
    | Update(id: string, status: string, kind: string, orderId: Option<int>)
    | MarkUnknown(id: string)

  /** The state a message asks for; the status counts before the kind. */
  function Wanted(m: Message): Option<OrderState> {
    match m
    case Update(_, status, kind, _) => if OfStatus(status).Some? then OfStatus(status) else OfKind(kind)
    case MarkUnknown(_) => Some(Unknown)
  }

  function Register(g: Registry, id: string, ref: Ref): Registry {
    if id in g.refs then g
    else
      Registry(g.refs[id := ref.(state := Pending, orderId := None)],
        if ref.intentKey.Some? then g.byIntent[ref.intentKey.value := id] else g.byIntent, g.unknown)
  }

  /** A state never falls back to a lower rank. */
  function Raised(ref: Ref, wanted: Option<OrderState>): Ref {
    if wanted.Some? && Rank(wanted.value) >= Rank(ref.state) then ref.(state := wanted.value) else ref
  }

  function OnEvent(g: Registry, id: string, wanted: Option<OrderState>, orderId: Option<int>): Registry {
    if id !in g.refs then g
    else
      var ref := g.refs[id];
      var named := if orderId.Some? then ref.(orderId := orderId) else ref;
      var raised := Raised(named, wanted);
      g.(refs := g.refs[id := raised], unknown := if raised.IsTerminal() then g.unknown - {id} else g.unknown)
  }

  function Mark(g: Registry, id: string): Registry {
    if id !in g.refs || g.refs[id].IsTerminal() then g
    else g.(refs := g.refs[id := g.refs[id].(state := Unknown)], unknown := g.unknown + {id})
  }

  predicate Silent(g: Registry, id: string, now: int, ttl: int) {
    id in g.refs && g.refs[id].state == Pending && now - g.refs[id].submittedNs >= ttl
  }

  function SilentOnes(g: Registry, now: int, ttl: int): set<string> {
    set id | id in g.refs && Silent(g, id, now, ttl)
  }

  function Sweep(g: Registry, now: int, ttl: int): Registry {
    Registry(map id | id in g.refs :: if Silent(g, id, now, ttl) then g.refs[id].(state := Unknown) else g.refs[id],
      g.byIntent, g.unknown + SilentOnes(g, now, ttl))
  }

  /** Whether the intent still has an order that is not terminal. */
  predicate IntentOpen(g: Registry, key: string) {
    key in g.byIntent && g.byIntent[key] in g.refs && !g.refs[g.byIntent[key]].IsTerminal()
  }

  // ---- every reachable registry

  datatype Action =
    | Place(id: string, ref: Ref)
    | Receive(message: Message)
    | Clock(now: int, ttl: int)

  function Take(g: Registry, m: Message): Registry {
    if m.Update? then OnEvent(g, m.id, Wanted(m), m.orderId) else Mark(g, m.id)
  }

  function Act(g: Registry, a: Action): Registry {
    match a
    case Place(id, ref) => Register(g, id, ref)
    case Receive(m) => Take(g, m)
    case Clock(now, ttl) => Sweep(g, now, ttl)
  }

  function Run(g: Registry, actions: seq<Action>): Registry
    decreases |actions|
  {
    if actions == [] then g else Act(Run(g, actions[..|actions| - 1]), actions[|actions| - 1])
  }

  /** Every order in state Unknown is listed, and only orders that are not terminal are. */
  predicate UnknownRight(g: Registry) {
    && (forall id <- g.refs :: g.refs[id].state == Unknown ==> id in g.unknown)
    && (forall id <- g.unknown :: id in g.refs && !g.refs[id].IsTerminal())
  }

  predicate IntentsRight(g: Registry) {
    forall key <- g.byIntent :: g.byIntent[key] in g.refs && g.refs[g.byIntent[key]].intentKey == Some(key)
  }

  lemma OnEventKeeps(g: Registry, id: string, wanted: Option<OrderState>, orderId: Option<int>)
    requires UnknownRight(g) && IntentsRight(g) && wanted != Some(Unknown)
    ensures var h := OnEvent(g, id, wanted, orderId); UnknownRight(h) && IntentsRight(h)
  {
  }

  lemma MarkKeeps(g: Registry, id: string)
    requires UnknownRight(g) && IntentsRight(g)
    ensures UnknownRight(Mark(g, id)) && IntentsRight(Mark(g, id))
  {
  }

  lemma TakeKeeps(g: Registry, m: Message)
    requires UnknownRight(g) && IntentsRight(g)
    ensures UnknownRight(Take(g, m)) && IntentsRight(Take(g, m))
  {
    if m.Update? {
      OnEventKeeps(g, m.id, Wanted(m), m.orderId);
    } else {
      MarkKeeps(g, m.id);
    }
  }

  lemma SweepKeeps(g: Registry, now: int, ttl: int)
    requires UnknownRight(g) && IntentsRight(g)
    ensures UnknownRight(Sweep(g, now, ttl)) && IntentsRight(Sweep(g, now, ttl))
  {
  }

  /** In every reachable registry: {state Unknown} is within `unknown`, which is within the orders
      that are not terminal; and every intent points at an order placed for it. */
  lemma {:induction false} ReachableIsRight(actions: seq<Action>)
    ensures UnknownRight(Run(EMPTY, actions)) && IntentsRight(Run(EMPTY, actions))
    decreases |actions|
  {
    if actions != [] {
      var n := |actions| - 1;
      ReachableIsRight(actions[..n]);
      var g := Run(EMPTY, actions[..n]);
      match actions[n]
      case Place(_, _) =>
      case Receive(m) => TakeKeeps(g, m);
      case Clock(now, ttl) => SweepKeeps(g, now, ttl);
    }
  }

  /** Whatever happens, a terminal order stays terminal and no order falls in rank. */
  lemma {:induction false} RankNeverFalls(g: Registry, actions: seq<Action>, id: string)
    requires id in g.refs
    ensures var h := Run(g, actions);
      && id in h.refs && Rank(h.refs[id].state) >= Rank(g.refs[id].state)
      && (g.refs[id].IsTerminal() ==> h.refs[id].IsTerminal())
    decreases |actions|
  {
    if actions != [] {
      RankNeverFalls(g, actions[..|actions| - 1], id);
    }
  }

  /** After a sweep no order has been silent for the whole time it is given. */
  lemma SweepLeavesNoneSilent(g: Registry, now: int, ttl: int)
    ensures SilentOnes(Sweep(g, now, ttl), now, ttl) == {}
    ensures forall id <- SilentOnes(g, now, ttl) :: id in Sweep(g, now, ttl).unknown
  {
  }

  // ---- messages in any order

  function TakeAll(g: Registry, ms: seq<Message>): Registry
    decreases |ms|
  {
    if ms == [] then g else Take(TakeAll(g, ms[..|ms| - 1]), ms[|ms| - 1])
  }

  function WantedRank(m: Message, id: string): nat {
    if m.id == id && Wanted(m).Some? then Rank(Wanted(m).value) else 0
  }

  /** The highest rank any message asks for. */
  function HighestRank(ms: seq<Message>, id: string): nat
    decreases |ms|
  {
    if ms == [] then 0
    else
      var before, last := HighestRank(ms[..|ms| - 1], id), WantedRank(ms[|ms| - 1], id);
      if last > before then last else before
  }

  predicate EverMarked(ms: seq<Message>, id: string) {
    MarkUnknown(id) in ms
  }

  lemma TakeRank(g: Registry, m: Message, id: string)
    requires id in g.refs && UnknownRight(g)
    ensures var h := Take(g, m);
      && id in h.refs
      && Rank(h.refs[id].state) == (if WantedRank(m, id) > Rank(g.refs[id].state) then WantedRank(m, id) else Rank(g.refs[id].state))
      && (id in h.unknown <==> (id in g.unknown || m == MarkUnknown(id)) && Rank(h.refs[id].state) < 3)
  {
  }

  /** The rank of an order is the highest of its own and of all its messages; it is listed as
      unknown exactly when it was ever marked and no message made it terminal. */
  lemma {:induction false} RankIsHighest(g: Registry, ms: seq<Message>, id: string)
    requires id in g.refs && UnknownRight(g) && IntentsRight(g)
    ensures var h, highest := TakeAll(g, ms), HighestRank(ms, id);
      && id in h.refs && UnknownRight(h) && IntentsRight(h)
      && Rank(h.refs[id].state) == (if highest > Rank(g.refs[id].state) then highest else Rank(g.refs[id].state))
      && (id in h.unknown <==> (id in g.unknown || EverMarked(ms, id)) && Rank(h.refs[id].state) < 3)
    decreases |ms|
  {
    if ms != [] {
      var n := |ms| - 1;
      var before := ms[..n];
      RankIsHighest(g, before, id);
      var h := TakeAll(g, before);
      TakeRank(h, ms[n], id);
      TakeKeeps(h, ms[n]);
      assert ms == before + [ms[n]];
      assert EverMarked(ms, id) <==> EverMarked(before, id) || ms[n] == MarkUnknown(id);
    }
  }

  lemma {:induction false} HighestIsReached(ms: seq<Message>, id: string)
    ensures forall m <- ms :: WantedRank(m, id) <= HighestRank(ms, id)
    ensures HighestRank(ms, id) > 0 ==> exists m <- ms :: WantedRank(m, id) == HighestRank(ms, id)
    decreases |ms|
  {
    if ms != [] {
      var n := |ms| - 1;
      HighestIsReached(ms[..n], id);
      assert ms == ms[..n] + [ms[n]] && ms[n] in ms;
      assert forall m <- ms[..n] :: m in ms;
      assert forall m <- ms :: m in ms[..n] || m == ms[n];
    }
  }

  lemma HighestWithin(ms: seq<Message>, ns: seq<Message>, id: string)
    requires forall m <- ms :: m in ns
    ensures HighestRank(ms, id) <= HighestRank(ns, id)
  {
    HighestIsReached(ms, id);
    HighestIsReached(ns, id);
  }

  /** Messages and UNKNOWN marks may arrive in any order, and repeatedly: the same messages leave
      every order at the same rank, and the same orders listed as unknown. */
  lemma OrderDoesNotMatter(g: Registry, ms: seq<Message>, ns: seq<Message>, id: string)
    requires id in g.refs && UnknownRight(g) && IntentsRight(g)
    requires forall m :: m in ms <==> m in ns
    ensures id in TakeAll(g, ms).refs && id in TakeAll(g, ns).refs
    ensures Rank(TakeAll(g, ms).refs[id].state) == Rank(TakeAll(g, ns).refs[id].state)
    ensures id in TakeAll(g, ms).unknown <==> id in TakeAll(g, ns).unknown
  {
    RankIsHighest(g, ms, id);
    RankIsHighest(g, ns, id);
    HighestWithin(ms, ns, id);
    HighestWithin(ns, ms, id);
  }

  /** The exact state is another matter: the last message of the highest rank decides between
      Filled and Done. */
  lemma LastOfEqualRankWins(g: Registry, a: Message, b: Message)
    requires a.Update? && b.Update? && a.id in g.refs && a.id == b.id
    requires Wanted(a) == Some(Filled) && Wanted(b) == Some(Done)
    ensures a.id in Take(Take(g, a), b).refs && Take(Take(g, a), b).refs[a.id].state == Done
    ensures a.id in Take(Take(g, b), a).refs && Take(Take(g, b), a).refs[a.id].state == Filled
  {
    TakesItsState(g, a);
    TakesItsState(g, b);
    TakesItsState(Take(g, a), b);
    TakesItsState(Take(g, b), a);
  }

  lemma TakesItsState(g: Registry, m: Message)
    requires m.Update? && m.id in g.refs && Wanted(m).Some? && Rank(Wanted(m).value) == 3
    ensures m.id in Take(g, m).refs && Take(g, m).refs[m.id].state == Wanted(m).value
  {
  }

  /** The order a message concerns ends the same either way. */
  ghost predicate SameOrder(g: Registry, h: Registry, id: string) {
    (id in g.refs <==> id in h.refs) && (id in g.refs && id in h.refs ==> g.refs[id] == h.refs[id])
    && (id in g.unknown <==> id in h.unknown)
  }

  /** A mark and a sweep commute. */
  lemma MarkedOrder(g: Registry, id: string, now: int, ttl: int)
    requires id in g.refs
    ensures SameOrder(Mark(Sweep(g, now, ttl), id), Sweep(Mark(g, id), now, ttl), id)
  {
  }

  lemma BusyOrder(g: Registry, m: Message, now: int, ttl: int)
    requires m.id in g.refs && m.Update? && !Silent(g, m.id, now, ttl)
    ensures SameOrder(Take(Sweep(g, now, ttl), m), Sweep(Take(g, m), now, ttl), m.id)
  {
  }

  lemma SilentOrderIff(g: Registry, m: Message, now: int, ttl: int)
    requires m.id in g.refs && m.Update? && UnknownRight(g) && Silent(g, m.id, now, ttl)
    ensures SameOrder(Take(Sweep(g, now, ttl), m), Sweep(Take(g, m), now, ttl), m.id)
      <==> WantedRank(m, m.id) != Rank(Acked) && (Wanted(m) != Some(PartiallyFilled) || m.id in g.unknown)
  {
    var a, b := Take(Sweep(g, now, ttl), m), Sweep(Take(g, m), now, ttl);
    if Wanted(m).Some? {
      assert Wanted(m).value != Unknown;
      assert WantedRank(m, m.id) == 3 ==> a.refs[m.id] == b.refs[m.id] && m.id !in a.unknown && m.id !in b.unknown;
    }
  }

  lemma OtherOrders(g: Registry, m: Message, id: string, now: int, ttl: int)
    requires id != m.id
    ensures SameOrder(Take(Sweep(g, now, ttl), m), Sweep(Take(g, m), now, ttl), id)
  {
  }

  lemma SameByOrders(g: Registry, h: Registry)
    requires g.byIntent == h.byIntent
    ensures g == h <==> forall id :: SameOrder(g, h, id)
  {
    if forall id :: SameOrder(g, h, id) {
      forall id ensures (id in g.refs <==> id in h.refs) && (id in g.unknown <==> id in h.unknown)
        && (id in g.refs ==> g.refs[id] == h.refs[id])
      {
        assert SameOrder(g, h, id);
      }
      assert g.refs == h.refs && g.unknown == h.unknown;
    }
  }

  /** Sweeps are the exception: one commutes with a message exactly when the order it concerns is not
      silent; or the message neither acknowledges the order nor, unless the order is listed as unknown
      already, reports a partial fill. */
  lemma SweepCommutesIff(g: Registry, m: Message, now: int, ttl: int)
    requires UnknownRight(g)
    ensures Take(Sweep(g, now, ttl), m) == Sweep(Take(g, m), now, ttl)
      <==> !Silent(g, m.id, now, ttl)
           || (WantedRank(m, m.id) != Rank(Acked) && (Wanted(m) != Some(PartiallyFilled) || m.id in g.unknown))
  {
    var a, b := Take(Sweep(g, now, ttl), m), Sweep(Take(g, m), now, ttl);
    if m.id in g.refs {
      SameByOrders(a, b);
      if m.MarkUnknown? {
        MarkedOrder(g, m.id, now, ttl);
      } else if Silent(g, m.id, now, ttl) {
        SilentOrderIff(g, m, now, ttl);
      } else {
        BusyOrder(g, m, now, ttl);
      }
      forall id | id != m.id ensures SameOrder(a, b, id) {
        OtherOrders(g, m, id, now, ttl);
      }
    }
  }

  /** No order that is still pending is listed as unknown. */
  predicate PendingUnlisted(g: Registry) {
    forall id <- g.unknown :: id in g.refs && g.refs[id].state != Pending
  }

  lemma ActKeepsUnlisted(g: Registry, a: Action)
    requires PendingUnlisted(g)
    ensures PendingUnlisted(Act(g, a))
  {
  }

  lemma {:induction false} RunsAreUnlisted(actions: seq<Action>)
    ensures PendingUnlisted(Run(EMPTY, actions))
    decreases |actions|
  {
    if actions != [] {
      RunsAreUnlisted(actions[..|actions| - 1]);
      ActKeepsUnlisted(Run(EMPTY, actions[..|actions| - 1]), actions[|actions| - 1]);
    }
  }

  /** So after any run a sweep commutes with a message exactly when the order is not silent, or the
      message asks neither for an acknowledgement nor for a partial fill. */
  lemma SweepCommutesInRunsIff(actions: seq<Action>, m: Message, now: int, ttl: int)
    ensures var g := Run(EMPTY, actions);
      Take(Sweep(g, now, ttl), m) == Sweep(Take(g, m), now, ttl)
      <==> !Silent(g, m.id, now, ttl) || (Wanted(m) != Some(Acked) && Wanted(m) != Some(PartiallyFilled))
  {
    ReachableIsRight(actions);
    RunsAreUnlisted(actions);
    SweepCommutesIff(Run(EMPTY, actions), m, now, ttl);
  }

  /** The rank of the order alone suffers only from acknowledgements. */
  lemma SweepRankIff(g: Registry, m: Message, now: int, ttl: int)
    requires m.id in g.refs && UnknownRight(g)
    ensures Rank(Take(Sweep(g, now, ttl), m).refs[m.id].state) == Rank(Sweep(Take(g, m), now, ttl).refs[m.id].state)
      <==> !Silent(g, m.id, now, ttl) || WantedRank(m, m.id) != Rank(Acked)
  {
    SweepCommutesIff(g, m, now, ttl);
  }

  /** An order placed at 0 and swept at 10: its partial fill lists it as unknown or not, depending on
      which came first. */
  lemma PartialFillDoesNotCommute(ref: Ref)
    requires ref.submittedNs == 0
    ensures var g, m := Run(EMPTY, [Place("a", ref)]), Update("a", "PARTIALLY_FILLED", "order_fill", None);
      "a" in Take(Sweep(g, 10, 5), m).unknown && "a" !in Sweep(Take(g, m), 10, 5).unknown
  {
    assert [Place("a", ref)][..0] == [];
    var g := Register(EMPTY, "a", ref);
    assert Run(EMPTY, [Place("a", ref)]) == g;
    assert Silent(g, "a", 10, 5);
  }
}
