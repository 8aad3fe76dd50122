/** The gross cap over whole runs. The gate adds up open positions only (fbot/core/engine.py:444), so
    reservations made side by side can each claim the same room; and it values an order at the price
    of the intent, while the market order that is sent fills at any price (fbot/core/engine.py:427, 191). */
module GrossCap {
  import opened Common
  import opened Rounding
  import opened Products
  import opened Position
  import opened EntryProtocol
  import opened Totals
  import opened OpenGates
  import opened Ids
  import ProtectionLedger
  import LateFill
  import Features
  import Risk

  /** The engine's state with the most each reserved symbol's order may still cost. */
  datatype Book = Book(core: Core, reserved: map<string, real>)

  const NOTHING := Book(START, map[])

  ghost function Exposed(b: Book): real {
    Gross(b.core) + Total(b.reserved)
  }

  /** What the accepted order is worth at the intent's price. */
  ghost function Worth(setup: Setup, s: Core, e: Input): real
    requires e.Wanted? && Askable(setup, s, e.intent, e.view) && Accepts(setup, s, e.intent, e.view)
  {
    Times(Asked(setup, s, e.intent, e.view).qty.value, e.intent.price)
  }

  ghost predicate Taking(setup: Setup, s: Core, e: Input) {
    e.Wanted? && Askable(setup, s, e.intent, e.view) && Accepts(setup, s, e.intent, e.view)
  }

  /** The most the order may cost when fills cost at most `k` times what was accepted. */
  ghost function Claim(setup: Setup, k: real, s: Core, e: Input): real
    requires Taking(setup, s, e)
  {
    Times(k, Worth(setup, s, e))
  }

  /** The exchange fills an order for no more than `k` times what it was worth. */
  ghost predicate Allowed(setup: Setup, k: real, b: Book, e: Input) {
    && May(setup, b.core, e)
    && (e.EntryFilled? ==> e.fill.symbol in b.reserved && Times(e.fill.qty, e.fill.price) <= b.reserved[e.fill.symbol])
  }

  function Left(worth: map<string, real>, pending: map<string, int>): map<string, real> {
    map y | y in worth && y in pending :: worth[y]
  }

  ghost function Turn(setup: Setup, k: real, b: Book, e: Input): Book
    requires setup.Valid() && Sound(b.core) && Allowed(setup, k, b, e)
  {
    var t := Next(setup, b.core, e);
    var worth := if Taking(setup, b.core, e) then b.reserved[e.intent.symbol := Claim(setup, k, b.core, e)] else b.reserved;
    Book(t, Left(worth, t.pending))
  }

  /** The run of `events` from `b` ends in `t`. */
  ghost predicate Leads(setup: Setup, k: real, b: Book, events: seq<Input>, t: Book)
    decreases |events|
  {
    if events == [] then t == b
    else
      && setup.Valid() && Sound(b.core) && Allowed(setup, k, b, events[0])
      && Leads(setup, k, Turn(setup, k, b, events[0]), events[1..], t)
  }

  // ---- one order

  /** What the gate accepts fits beside the open positions. */
  lemma TakenFitsRoom(setup: Setup, s: Core, e: Input, cap: real)
    requires Taking(setup, s, e) && setup.risk.grossCap == Some(cap)
    ensures 0.0 < Worth(setup, s, e) <= cap - Gross(s)
  {
    var x := Seen(setup, s, e.intent.symbol, e.view);
    Risk.AcceptedMeetsAllLimits(e.intent, x, setup.risk);
    StrictProduct(0.0, Asked(setup, s, e.intent, e.view).qty.value, e.intent.price);
  }

  /** Every value is positive and at most `most`; each reservation has one. */
  ghost predicate Tallied(b: Book, most: real) {
    && b.reserved.Keys == b.core.pending.Keys
    && (forall y <- b.reserved :: 0.0 < b.reserved[y] <= most)
    && (forall p <- b.core.positions :: b.core.positions[p].pos.qty >= 0.0)
    && (forall p <- OpenValues(b.core) :: 0.0 <= OpenValues(b.core)[p] <= most)
  }

  lemma ReserveExposes(b: Book, symbol: string, strategy: string, now: int, ttl: int, worth: real, most: real)
    requires Tallied(b, most) && symbol !in b.core.pending
    ensures var t := Book(Reserve(b.core, symbol, strategy, now, ttl), b.reserved[symbol := worth]);
      && Gross(t.core) == Gross(b.core) && Total(t.reserved) == worth + Total(b.reserved)
      && (0.0 < worth <= most ==> Tallied(t, most))
  {
    var t := Book(Reserve(b.core, symbol, strategy, now, ttl), b.reserved[symbol := worth]);
    assert OpenValues(t.core) == OpenValues(b.core);
    TotalWith(b.reserved, symbol, worth);
  }

  lemma TakenTurn(setup: Setup, k: real, b: Book, e: Input)
    requires setup.Valid() && Sound(b.core) && b.reserved.Keys == b.core.pending.Keys
    requires Allowed(setup, k, b, e) && Taking(setup, b.core, e)
    ensures e.intent.symbol !in b.core.pending
    ensures Turn(setup, k, b, e) == Book(Reserve(b.core, e.intent.symbol, e.strategy, e.now, setup.ttlNs),
                                      b.reserved[e.intent.symbol := Claim(setup, k, b.core, e)])
  {
    AcceptedIsFree(setup, b.core, e.intent, e.view);
  }

  lemma TakenExposes(setup: Setup, k: real, b: Book, e: Input, most: real)
    requires setup.Valid() && Sound(b.core) && Tallied(b, most) && Allowed(setup, k, b, e) && Taking(setup, b.core, e)
    ensures var t := Turn(setup, k, b, e);
      && Gross(t.core) == Gross(b.core) && Total(t.reserved) == Claim(setup, k, b.core, e) + Total(b.reserved)
      && (0.0 < Claim(setup, k, b.core, e) <= most ==> Tallied(t, most))
  {
    TakenTurn(setup, k, b, e);
    ReserveExposes(b, e.intent.symbol, e.strategy, e.now, setup.ttlNs, Claim(setup, k, b.core, e), most);
  }

  /** Accepting an order keeps what is open and what is reserved together within the cap exactly when
      the most it may cost fits beside both; the gate itself only sees to it that its value at the
      intent's price fits beside the first. */
  lemma AcceptKeepsCapIff(setup: Setup, k: real, b: Book, e: Input, most: real, cap: real)
    requires setup.Valid() && Inv(setup, b.core) && Tallied(b, most) && Allowed(setup, k, b, e) && Taking(setup, b.core, e)
    requires setup.risk.grossCap == Some(cap)
    ensures Gross(b.core) + Worth(setup, b.core, e) <= cap
    ensures Exposed(Turn(setup, k, b, e)) <= cap <==> Claim(setup, k, b.core, e) <= cap - Gross(b.core) - Total(b.reserved)
  {
    TakenFitsRoom(setup, b.core, e, cap);
    TakenExposes(setup, k, b, e, most);
  }

  /** So with nothing reserved it brings the two to at most `k` times the cap. */
  lemma ClaimFits(setup: Setup, k: real, s: Core, e: Input, cap: real)
    requires Taking(setup, s, e) && setup.risk.grossCap == Some(cap) && k >= 1.0 && Gross(s) >= 0.0
    ensures 0.0 < Claim(setup, k, s, e) && Gross(s) + Claim(setup, k, s, e) <= Times(k, cap)
  {
    TakenFitsRoom(setup, s, e, cap);
    ClaimWithin(k, Worth(setup, s, e), cap, Gross(s));
  }

  lemma ClaimWithin(k: real, worth: real, cap: real, gross: real)
    requires k >= 1.0 && 0.0 < worth <= cap - gross && gross >= 0.0
    ensures 0.0 < Times(k, worth) && gross + Times(k, worth) <= Times(k, cap)
  {
    SignOfProduct(k, cap - gross - worth);
    SignOfProduct(k - 1.0, gross);
    StrictProduct(0.0, worth, k);
    TimesCommutes(k, worth);
    assert Times(k, cap - gross - worth) == Times(k, cap) - Times(k, gross) - Times(k, worth);
    assert Times(k - 1.0, gross) == Times(k, gross) - gross;
  }

  // ---- the other steps never add anything

  lemma AdmitExposes(b: Book, posId: string, held: Held, most: real)
    requires Tallied(b, most) && posId !in b.core.positions && held.symbol in b.reserved && Live(held)
    requires held.pos.qty >= 0.0 && 0.0 <= Value(held) <= b.reserved[held.symbol]
    ensures var t := Book(Admit(b.core, posId, held), b.reserved - {held.symbol});
      && Tallied(t, most) && Gross(t.core) == Gross(b.core) + Value(held)
      && Total(t.reserved) == Total(b.reserved) - b.reserved[held.symbol]
  {
    var t := Book(Admit(b.core, posId, held), b.reserved - {held.symbol});
    assert OpenValues(t.core) == OpenValues(b.core)[posId := Value(held)];
    TotalWith(OpenValues(b.core), posId, Value(held));
    TotalWithout(b.reserved, held.symbol);
  }

  lemma FillExposes(setup: Setup, k: real, b: Book, f: Filled, most: real)
    requires setup.Valid() && Sound(b.core) && Tallied(b, most) && Allowed(setup, k, b, EntryFilled(f))
    ensures var t := Turn(setup, k, b, EntryFilled(f));
      && Tallied(t, most) && Exposed(t) <= Exposed(b)
      && (f.symbol in setup.filters ==>
            Gross(t.core) == Gross(b.core) + Times(f.qty, f.price) && t.reserved == b.reserved - {f.symbol})
  {
    var t := Turn(setup, k, b, EntryFilled(f));
    assert t.reserved == Left(b.reserved, t.core.pending);
    if f.symbol in setup.filters {
      StrictProduct(0.0, f.qty, f.price);
      assert t.reserved == b.reserved - {f.symbol};
      AdmitExposes(b, f.posId, HeldFrom(f, setup.filters[f.symbol]), most);
    } else {
      assert t.reserved == b.reserved;
    }
  }

  /** Later events only reduce a position, and its entry price stays. */
  lemma StepValue(cfg: Config, p: Pos, e: Event)
    requires Open(p) && cfg.Complete() && Later(e) && p.qty >= 0.0
    ensures var q := Step(cfg, p, e).0;
      q.qty >= 0.0 && Times(0.0, p.entry.price) <= Times(q.qty, q.entry.price) <= Times(p.qty, p.entry.price)
  {
    StepKeepsEntry(cfg, p, e);
    if e.Tick? {
      ProtectionLedger.TickQty(cfg, p, e);
    }
    var q := Step(cfg, p, e).0;
    Risk.Scaled(q.qty, p.qty, p.entry.price);
  }

  /** Steps that only drop or reduce. */
  ghost predicate Lighter(b: Book, t: Book) {
    && OpenValues(t.core).Keys <= OpenValues(b.core).Keys && t.reserved.Keys <= b.reserved.Keys
    && (forall p <- OpenValues(t.core) :: 0.0 <= OpenValues(t.core)[p] <= OpenValues(b.core)[p])
    && (forall y <- t.reserved :: t.reserved[y] == b.reserved[y])
    && t.reserved.Keys == t.core.pending.Keys
    && (forall p <- t.core.positions :: t.core.positions[p].pos.qty >= 0.0)
  }

  lemma LighterExposes(b: Book, t: Book, most: real)
    requires Tallied(b, most) && Lighter(b, t)
    ensures Tallied(t, most) && Exposed(t) <= Exposed(b)
  {
    TotalShrinks(OpenValues(t.core), OpenValues(b.core));
    TotalShrinks(t.reserved, b.reserved);
  }

  lemma NotifyIsLighter(setup: Setup, b: Book, posId: string, e: Event, most: real)
    requires setup.Valid() && Sound(b.core) && Tallied(b, most) && Later(e)
    ensures Lighter(b, Book(Notify(setup, b.core, posId, e), b.reserved))
  {
    if posId in b.core.positions {
      var h := b.core.positions[posId];
      StepKept(setup.position, h.pos, e);
      StepValue(setup.position, h.pos, e);
    }
  }

  lemma DropIsLighter(b: Book, core: Core, most: real)
    requires Tallied(b, most) && core.positions == b.core.positions && core.pending.Keys <= b.core.pending.Keys
    ensures Lighter(b, Book(core, Left(b.reserved, core.pending)))
  {
    assert OpenValues(core) == OpenValues(b.core);
  }

  lemma OtherIsLighter(setup: Setup, k: real, b: Book, e: Input, most: real)
    requires setup.Valid() && Sound(b.core) && Tallied(b, most) && Allowed(setup, k, b, e)
    requires !Taking(setup, b.core, e) && !e.EntryFilled?
    ensures Lighter(b, Turn(setup, k, b, e))
  {
    var core := Next(setup, b.core, e);
    assert Turn(setup, k, b, e) == Book(core, Left(b.reserved, core.pending));
    if e.ForPosition? {
      NotifyIsLighter(setup, b, e.posId, e.event, most);
      assert core.pending == b.core.pending && Left(b.reserved, core.pending) == b.reserved;
    } else {
      DropIsLighter(b, core, most);
    }
  }

  lemma TurnExposes(setup: Setup, k: real, b: Book, e: Input, most: real, cap: real)
    requires setup.Valid() && Inv(setup, b.core) && Tallied(b, most) && Allowed(setup, k, b, e)
    requires setup.risk.grossCap == Some(cap) && k >= 1.0 && Times(k, cap) <= most
    ensures Inv(setup, Turn(setup, k, b, e).core) && Tallied(Turn(setup, k, b, e), most)
    ensures Taking(setup, b.core, e) || Exposed(Turn(setup, k, b, e)) <= Exposed(b)
  {
    NextKeeps(setup, b.core, e);
    if Taking(setup, b.core, e) {
      TotalNotNegative(OpenValues(b.core));
      ClaimFits(setup, k, b.core, e, cap);
      TakenExposes(setup, k, b, e, most);
    } else if e.EntryFilled? {
      FillExposes(setup, k, b, e.fill, most);
    } else {
      OtherIsLighter(setup, k, b, e, most);
      LighterExposes(b, Turn(setup, k, b, e), most);
    }
  }

  // ---- every run

  lemma {:induction false} RunTallies(setup: Setup, k: real, b: Book, events: seq<Input>, t: Book, most: real, cap: real)
    requires setup.Valid() && Inv(setup, b.core) && Tallied(b, most) && Leads(setup, k, b, events, t)
    requires setup.risk.grossCap == Some(cap) && k >= 1.0 && Times(k, cap) <= most
    ensures Inv(setup, t.core) && Tallied(t, most)
    decreases |events|
  {
    if events != [] {
      TurnExposes(setup, k, b, events[0], most, cap);
      RunTallies(setup, k, Turn(setup, k, b, events[0]), events[1..], t, most, cap);
    }
  }

  function Slots(setup: Setup): nat {
    if setup.risk.maxPositions > 0 then setup.risk.maxPositions else 0
  }

  lemma SameSizes(b: Book)
    requires b.reserved.Keys == b.core.pending.Keys
    ensures |OpenValues(b.core)| == |LiveIds(b.core)| && |b.reserved| == |b.core.pending|
  {
    assert OpenValues(b.core).Keys == LiveIds(b.core);
    assert |b.reserved.Keys| == |b.core.pending.Keys|;
  }

  lemma TallyBound(b: Book, most: real, slots: nat)
    requires Tallied(b, most) && most >= 0.0 && |LiveIds(b.core)| + |b.core.pending| <= slots
    ensures Gross(b.core) <= Exposed(b) <= Repeated(most, slots)
  {
    SameSizes(b);
    TwoTotals(OpenValues(b.core), b.reserved, most, slots);
  }

  lemma NothingTallied(setup: Setup, most: real)
    ensures Inv(setup, START) && Tallied(NOTHING, most) && Exposed(NOTHING) == 0.0
  {
    assert OpenValues(START) == map[];
  }

  /** The most a single order may cost. */
  function Most(k: real, cap: real): real {
    Times(k, Max(cap, 0.0))
  }

  lemma MostIsEnough(k: real, cap: real)
    requires k >= 1.0
    ensures 0.0 <= Max(cap, 0.0) <= Most(k, cap) && Times(k, cap) <= Most(k, cap) && (cap <= 0.0 ==> Most(k, cap) == 0.0)
  {
    SignOfProduct(k - 1.0, Max(cap, 0.0));
    assert Times(k - 1.0, Max(cap, 0.0)) == Times(k, Max(cap, 0.0)) - Max(cap, 0.0);
    SignOfProduct(k, cap);
    assert Times(k, 0.0) == 0.0;
  }

  /** In every run whose fills cost at most `k` times what was accepted, what is open and what is
      reserved together are at most `k` times the cap for each position allowed. */
  lemma ExposureBound(setup: Setup, k: real, events: seq<Input>, t: Book, cap: real)
    requires setup.Valid() && Leads(setup, k, NOTHING, events, t) && setup.risk.grossCap == Some(cap) && k >= 1.0
    ensures Gross(t.core) <= Exposed(t) <= Times(Most(k, cap), Slots(setup) as real)
  {
    MostIsEnough(k, cap);
    NothingTallied(setup, Most(k, cap));
    RunTallies(setup, k, NOTHING, events, t, Most(k, cap), cap);
    TallyBound(t, Most(k, cap), Slots(setup));
    RepeatedIsProduct(Most(k, cap), Slots(setup));
  }

  /** No order is accepted while another waits for its fill. */
  ghost predicate OneAtATime(setup: Setup, k: real, b: Book, events: seq<Input>)
    decreases |events|
  {
    events != [] && setup.Valid() && Sound(b.core) && Allowed(setup, k, b, events[0]) ==>
      && (Taking(setup, b.core, events[0]) ==> b.reserved == map[])
      && OneAtATime(setup, k, Turn(setup, k, b, events[0]), events[1..])
  }

  lemma {:induction false} SerialFrom(setup: Setup, k: real, b: Book, events: seq<Input>, t: Book, cap: real)
    requires setup.Valid() && Inv(setup, b.core) && Tallied(b, Most(k, cap)) && setup.risk.grossCap == Some(cap) && k >= 1.0
    requires Leads(setup, k, b, events, t) && OneAtATime(setup, k, b, events) && Exposed(b) <= Most(k, cap)
    ensures Exposed(t) <= Most(k, cap)
    decreases |events|
  {
    if events != [] {
      MostIsEnough(k, cap);
      TurnExposes(setup, k, b, events[0], Most(k, cap), cap);
      if Taking(setup, b.core, events[0]) {
        TotalNotNegative(OpenValues(b.core));
        ClaimFits(setup, k, b.core, events[0], cap);
        TakenExposes(setup, k, b, events[0], Most(k, cap));
      }
      SerialFrom(setup, k, Turn(setup, k, b, events[0]), events[1..], t, cap);
    }
  }

  /** Taken one at a time, orders whose fills cost at most `k` times what was accepted never bring what
      is open and what is reserved over `k` times the cap. */
  lemma SerialKeepsCap(setup: Setup, k: real, events: seq<Input>, t: Book, cap: real)
    requires setup.Valid() && Leads(setup, k, NOTHING, events, t) && OneAtATime(setup, k, NOTHING, events)
    requires setup.risk.grossCap == Some(cap) && k >= 1.0
    ensures Exposed(t) <= Most(k, cap)
  {
    MostIsEnough(k, cap);
    NothingTallied(setup, Most(k, cap));
    SerialFrom(setup, k, NOTHING, events, t, cap);
  }

  // ---- the bound is reached

  lemma LeadsFirst(setup: Setup, k: real, b: Book, e: Input, rest: seq<Input>, t: Book)
    requires setup.Valid() && Sound(b.core) && Allowed(setup, k, b, e) && Leads(setup, k, Turn(setup, k, b, e), rest, t)
    ensures Leads(setup, k, b, [e] + rest, t)
  {
    assert ([e] + rest)[1..] == rest;
  }

  /** Nothing is open yet and every reservation claims the same. */
  ghost predicate Stacked(b: Book, claim: real) {
    && b.core.positions == map[] && b.reserved.Keys == b.core.pending.Keys == b.core.table.leases.Keys
    && forall y <- b.reserved :: b.reserved[y] == claim
  }

  ghost predicate Tradable(setup: Setup, symbols: set<string>) {
    forall y <- symbols :: y in setup.filters && setup.filters[y] == WHOLE && SEP !in y
  }

  ghost predicate Stackable(setup: Setup, cap: real) {
    setup.Valid() && Working(setup) && setup.risk.grossCap == Some(cap) && cap > 0.0
  }

  function Asking(setup: Setup, symbol: string, cap: real): Input
    requires Leveraged(setup.risk)
  {
    Wanted(One(symbol, cap), Calm(setup.risk, symbol, cap), setup.strategy, 0)
  }

  function Filling(symbol: string, cap: real): Filled {
    Filled(symbol, symbol, Long, cap, 1.0, cap, cap, 0, false, None)
  }

  /** Every reservation is still to be filled, for all it claims. */
  ghost predicate Waiting(setup: Setup, b: Book, cap: real) {
    && Sound(b.core) && Tallied(b, cap) && Tradable(setup, b.reserved.Keys)
    && b.reserved.Keys !! b.core.positions.Keys && forall y <- b.reserved :: b.reserved[y] == cap
  }

  lemma FillOne(setup: Setup, k: real, b: Book, y: string, cap: real)
    requires setup.Valid() && cap > 0.0 && Waiting(setup, b, cap) && y in b.reserved
    ensures var e := EntryFilled(Filling(y, cap));
      && Allowed(setup, k, b, e) && Waiting(setup, Turn(setup, k, b, e), cap)
      && Turn(setup, k, b, e).reserved == b.reserved - {y} && Exposed(Turn(setup, k, b, e)) == Exposed(b)
  {
    var e := EntryFilled(Filling(y, cap));
    assert Times(1.0, cap) == cap;
    NextSound(setup, b.core, e);
    FillExposes(setup, k, b, e.fill, cap);
    TotalWithout(b.reserved, y);
    assert Turn(setup, k, b, e).core.positions.Keys == b.core.positions.Keys + {y};
  }

  lemma {:induction false} FillAll(setup: Setup, k: real, b: Book, cap: real) returns (events: seq<Input>, t: Book)
    requires setup.Valid() && cap > 0.0 && Waiting(setup, b, cap)
    ensures Leads(setup, k, b, events, t) && Gross(t.core) == Exposed(b)
    decreases |b.reserved|
  {
    if b.reserved == map[] {
      events, t := [], b;
    } else {
      var y :| y in b.reserved;
      var e := EntryFilled(Filling(y, cap));
      FillOne(setup, k, b, y, cap);
      var next := Turn(setup, k, b, e);
      events, t := FillAll(setup, k, next, cap);
      LeadsFirst(setup, k, b, e, events, t);
      events := [e] + events;
    }
  }

  lemma StackAsk(setup: Setup, k: real, b: Book, y: string, cap: real)
    requires Stackable(setup, cap) && Stacked(b, Times(k, cap)) && Tradable(setup, {y}) && y !in b.reserved
    requires |b.core.pending| < setup.risk.maxPositions
    ensures Sound(b.core) && Allowed(setup, k, b, Asking(setup, y, cap)) && Taking(setup, b.core, Asking(setup, y, cap))
    ensures Claim(setup, k, b.core, Asking(setup, y, cap)) == Times(k, cap)
  {
    assert OpenValues(b.core) == map[] && OpenPositions(b.core) == map[];
    assert y in {y};
    CalmAccepts(setup, b.core, y, cap);
    assert Worth(setup, b.core, Asking(setup, y, cap)) == cap;
  }

  lemma ReserveStacks(b: Book, y: string, strategy: string, now: int, ttl: int, cap: real)
    requires Stacked(b, cap) && y !in b.reserved
    ensures var t := Book(Reserve(b.core, y, strategy, now, ttl), b.reserved[y := cap]);
      Stacked(t, cap) && t.reserved.Keys == b.reserved.Keys + {y}
  {
  }

  lemma StackOne(setup: Setup, k: real, b: Book, y: string, cap: real)
    requires Stackable(setup, cap) && Stacked(b, Times(k, cap)) && Tradable(setup, {y}) && y !in b.reserved
    requires |b.core.pending| < setup.risk.maxPositions
    ensures Sound(b.core) && Allowed(setup, k, b, Asking(setup, y, cap))
    ensures var t := Turn(setup, k, b, Asking(setup, y, cap));
      Stacked(t, Times(k, cap)) && t.reserved.Keys == b.reserved.Keys + {y}
  {
    StackAsk(setup, k, b, y, cap);
    TakenTurn(setup, k, b, Asking(setup, y, cap));
    ReserveStacks(b, y, setup.strategy, 0, setup.ttlNs, Times(k, cap));
  }

  /** Reserves every free symbol and then fills them all. */
  lemma {:induction false} StackAll(setup: Setup, k: real, b: Book, free: set<string>, cap: real, n: nat)
    returns (events: seq<Input>, t: Book)
    requires Stackable(setup, cap) && Times(k, cap) > 0.0 && Stacked(b, Times(k, cap))
    requires Tradable(setup, free + b.reserved.Keys) && free !! b.reserved.Keys
    requires |b.core.pending| + |free| == n <= setup.risk.maxPositions
    ensures Leads(setup, k, b, events, t) && Gross(t.core) == Repeated(Times(k, cap), n)
    decreases |free|
  {
    if free == {} {
      StackWorth(setup, b, Times(k, cap));
      events, t := FillAll(setup, k, b, Times(k, cap));
    } else {
      var y :| y in free;
      StackOne(setup, k, b, y, cap);
      var next := Turn(setup, k, b, Asking(setup, y, cap));
      StackCount(b, next, free, y);
      events, t := StackAll(setup, k, next, free - {y}, cap, n);
      LeadsFirst(setup, k, b, Asking(setup, y, cap), events, t);
      events := [Asking(setup, y, cap)] + events;
    }
  }

  lemma StackCount(b: Book, next: Book, free: set<string>, y: string)
    requires b.reserved.Keys == b.core.pending.Keys && next.reserved.Keys == next.core.pending.Keys == b.reserved.Keys + {y}
    requires y in free && y !in b.reserved
    ensures |next.core.pending| + |free - {y}| == |b.core.pending| + |free|
    ensures free - {y} + next.reserved.Keys == free + b.reserved.Keys
  {
    assert |next.core.pending.Keys| == |b.core.pending.Keys| + 1;
  }

  lemma StackWorth(setup: Setup, b: Book, cap: real)
    requires setup.Valid() && cap > 0.0 && Stacked(b, cap) && Tradable(setup, b.reserved.Keys)
    ensures Waiting(setup, b, cap) && Exposed(b) == Repeated(cap, |b.core.pending|)
  {
    assert OpenValues(b.core) == map[];
    assert |b.reserved.Keys| == |b.core.pending.Keys|;
    TotalOfEqual(b.reserved, cap, |b.core.pending|);
  }

  lemma ClaimIsPositive(k: real, cap: real)
    requires k >= 1.0 && cap > 0.0
    ensures Times(k, cap) == Most(k, cap) > 0.0
  {
    StrictProduct(0.0, cap, k);
    TimesCommutes(k, cap);
  }

  /** And the bound is reached, in open positions alone: as many orders as there are positions
      allowed, each worth the whole cap, are all accepted before the first is filled. */
  lemma BoundIsReached(setup: Setup, k: real, symbols: set<string>, cap: real) returns (events: seq<Input>, t: Book)
    requires Stackable(setup, cap) && Tradable(setup, symbols) && |symbols| <= setup.risk.maxPositions && k >= 1.0
    ensures Leads(setup, k, NOTHING, events, t) && Gross(t.core) == Times(Most(k, cap), |symbols| as real)
  {
    ClaimIsPositive(k, cap);
    assert symbols + NOTHING.reserved.Keys == symbols;
    events, t := StackAll(setup, k, NOTHING, symbols, cap, |symbols|);
    RepeatedIsProduct(Times(k, cap), |symbols|);
  }

  /** The open positions of every run whose fills cost at most `k` times what was accepted keep `k`
      times the gross cap. */
  ghost predicate CapHolds(risk: Risk.RiskConfig, bars: Features.Config, k: real, cap: real) {
    forall setup: Setup, events: seq<Input>, t: Book ::
      setup.risk == risk && setup.bars == bars && setup.Valid() && Leads(setup, k, NOTHING, events, t) ==>
        Gross(t.core) <= Most(k, cap)
  }

  lemma {:induction false} RefusingFrom(setup: Setup, k: real, b: Book, events: seq<Input>, t: Book, most: real, cap: real)
    requires setup.Valid() && Inv(setup, b.core) && Tallied(b, most) && Leads(setup, k, b, events, t)
    requires setup.risk.grossCap == Some(cap) && k >= 1.0 && Times(k, cap) <= most && Refusing(setup.risk, setup.bars)
    ensures Exposed(t) <= Exposed(b)
    decreases |events|
  {
    if events != [] {
      TurnExposes(setup, k, b, events[0], most, cap);
      if Taking(setup, b.core, events[0]) {
        RefusesAll(setup, b.core, events[0].intent, events[0].view);
      }
      RefusingFrom(setup, k, Turn(setup, k, b, events[0]), events[1..], t, most, cap);
    }
  }

  /** Parameters under which the cap cannot be exceeded. */
  predicate Guarded(risk: Risk.RiskConfig, bars: Features.Config, cap: real) {
    risk.maxPositions <= 1 || cap <= 0.0 || Refusing(risk, bars)
  }

  lemma GuardedRun(setup: Setup, k: real, events: seq<Input>, t: Book, cap: real)
    requires setup.Valid() && Leads(setup, k, NOTHING, events, t) && setup.risk.grossCap == Some(cap) && k >= 1.0
    requires Guarded(setup.risk, setup.bars, cap)
    ensures Gross(t.core) <= Most(k, cap)
  {
    MostIsEnough(k, cap);
    ExposureBound(setup, k, events, t, cap);
    if Refusing(setup.risk, setup.bars) {
      NothingTallied(setup, Most(k, cap));
      RefusingFrom(setup, k, NOTHING, events, t, Most(k, cap), cap);
    } else {
      AtMostOne(Most(k, cap), Slots(setup));
    }
  }

  lemma GuardedHolds(risk: Risk.RiskConfig, bars: Features.Config, k: real, cap: real)
    requires risk.grossCap == Some(cap) && Guarded(risk, bars, cap) && k >= 1.0
    ensures CapHolds(risk, bars, k, cap)
  {
    forall setup: Setup, events: seq<Input>, t: Book
      | setup.risk == risk && setup.bars == bars && setup.Valid() && Leads(setup, k, NOTHING, events, t)
      ensures Gross(t.core) <= Most(k, cap)
    {
      GuardedRun(setup, k, events, t, cap);
    }
  }

  lemma AtMostOne(most: real, n: nat)
    requires most >= 0.0 && (n <= 1 || most == 0.0)
    ensures Times(most, n as real) <= most
  {
  }

  function Pair(risk: Risk.RiskConfig, bars: Features.Config, position: Config): Setup {
    Setup(risk, position, bars, map["A" := WHOLE, "B" := WHOLE], 0, "")
  }

  lemma PairTrades(risk: Risk.RiskConfig, bars: Features.Config, position: Config, cap: real)
    requires Leveraged(risk) && !Refusing(risk, bars) && position.Complete() && risk.grossCap == Some(cap) && cap > 0.0
    ensures Stackable(Pair(risk, bars, position), cap) && Tradable(Pair(risk, bars, position), {"A", "B"})
  {
  }

  lemma Exceeds(setup: Setup, k: real, events: seq<Input>, t: Book, cap: real)
    requires setup.Valid() && Leads(setup, k, NOTHING, events, t) && Most(k, cap) > 0.0
    requires Gross(t.core) == Times(Most(k, cap), 2.0)
    ensures !CapHolds(setup.risk, setup.bars, k, cap)
  {
    StrictProduct(1.0, 2.0, Most(k, cap));
    TimesCommutes(Most(k, cap), 2.0);
  }

  lemma SeveralFail(risk: Risk.RiskConfig, bars: Features.Config, position: Config, k: real, cap: real)
    requires Leveraged(risk) && position.Complete() && risk.grossCap == Some(cap) && !Guarded(risk, bars, cap) && k >= 1.0
    ensures !CapHolds(risk, bars, k, cap)
  {
    PairTrades(risk, bars, position, cap);
    ClaimIsPositive(k, cap);
    assert |{"A", "B"}| == 2;
    var events, t := BoundIsReached(Pair(risk, bars, position), k, {"A", "B"}, cap);
    Exceeds(Pair(risk, bars, position), k, events, t, cap);
  }

  /** Where fills cost at most `k` times what was accepted, open positions keep `k` times the cap in
      every run exactly if one position at a time is allowed, or the cap leaves no room, or nothing is
      let through. */
  lemma CapHoldsIff(risk: Risk.RiskConfig, bars: Features.Config, position: Config, k: real, cap: real)
    requires Leveraged(risk) && position.Complete() && risk.grossCap == Some(cap) && k >= 1.0
    ensures CapHolds(risk, bars, k, cap) <==> risk.maxPositions <= 1 || cap <= 0.0 || Refusing(risk, bars)
  {
    if Guarded(risk, bars, cap) {
      GuardedHolds(risk, bars, k, cap);
    } else {
      SeveralFail(risk, bars, position, k, cap);
    }
  }

  // ---- fills at any price

  /** The open positions of every run keep the gross cap, whatever their orders were filled at. */
  ghost predicate CapKept(risk: Risk.RiskConfig, bars: Features.Config, cap: real) {
    forall setup: Setup, events: seq<Input> ::
      setup.risk == risk && setup.bars == bars && setup.Valid() && Possible(setup, START, events) ==>
        Gross(After(setup, START, events)) <= Max(cap, 0.0)
  }

  /** Nothing was ever accepted. */
  predicate Untraded(s: Core) {
    s.positions == map[] && s.pending == map[]
  }

  /** Parameters under which nothing is ever accepted. */
  predicate NeverOpen(risk: Risk.RiskConfig, bars: Features.Config, cap: real) {
    risk.maxPositions <= 0 || cap <= 0.0 || Refusing(risk, bars)
  }

  lemma NothingTaken(setup: Setup, s: Core, e: Input, cap: real)
    requires setup.risk.grossCap == Some(cap) && NeverOpen(setup.risk, setup.bars, cap) && Untraded(s)
    ensures !Taking(setup, s, e)
  {
    if Taking(setup, s, e) {
      assert OpenValues(s) == map[];
      TakenFitsRoom(setup, s, e, cap);
      AcceptedIsFree(setup, s, e.intent, e.view);
      if Refusing(setup.risk, setup.bars) {
        RefusesAll(setup, s, e.intent, e.view);
      }
    }
  }

  lemma {:induction false} StaysUntraded(setup: Setup, s: Core, events: seq<Input>, cap: real)
    requires setup.Valid() && Sound(s) && Possible(setup, s, events) && Untraded(s)
    requires setup.risk.grossCap == Some(cap) && NeverOpen(setup.risk, setup.bars, cap)
    ensures Untraded(After(setup, s, events))
    decreases |events|
  {
    if events != [] {
      NothingTaken(setup, s, events[0], cap);
      NextSound(setup, s, events[0]);
      StaysUntraded(setup, Next(setup, s, events[0]), events[1..], cap);
    }
  }

  /** A single accepted order can bring the open positions above any amount. */
  lemma AnyAmountIsExceeded(setup: Setup, strategy: string, amount: real) returns (events: seq<Input>)
    requires LateFill.Enterable(setup) && amount > 0.0
    ensures Possible(setup, START, events) && Gross(After(setup, START, events)) > amount
  {
    var ask, fill := LateFill.Asking(setup.risk, strategy, 0), EntryFilled(LateFill.Fill("b", 2.0 * amount));
    var s := Reserve(START, LateFill.SYMBOL, strategy, 0, setup.ttlNs);
    LateFill.FirstAccepted(setup, strategy, 0);
    NextSound(setup, s, fill);
    LateFill.PlayFirst(setup, s, fill, []);
    LateFill.PlayFirst(setup, START, ask, [fill] + []);
    FilledGross(setup, s, fill.fill);
    events := [ask] + ([fill] + []);
  }

  lemma FilledGross(setup: Setup, s: Core, f: Filled)
    requires setup.Valid() && s.positions == map[] && f.symbol in setup.filters
    ensures Gross(OnFill(setup, s, f)) == Times(f.qty, f.price)
  {
    var t := OnFill(setup, s, f);
    assert OpenValues(t) == map[][f.posId := Times(f.qty, f.price)];
    TotalWith(map[], f.posId, Times(f.qty, f.price));
  }

  function Single(risk: Risk.RiskConfig, bars: Features.Config, position: Config): Setup {
    Setup(risk, position, bars, map[LateFill.SYMBOL := WHOLE], 0, "")
  }

  lemma NeverOpenKeeps(setup: Setup, events: seq<Input>, cap: real)
    requires setup.Valid() && Possible(setup, START, events)
    requires setup.risk.grossCap == Some(cap) && NeverOpen(setup.risk, setup.bars, cap)
    ensures Gross(After(setup, START, events)) == 0.0
  {
    StaysUntraded(setup, START, events, cap);
    assert OpenValues(After(setup, START, events)) == map[];
  }

  lemma OneRunExceeds(setup: Setup, events: seq<Input>, cap: real)
    requires setup.Valid() && Possible(setup, START, events) && Gross(After(setup, START, events)) > cap > 0.0
    ensures !CapKept(setup.risk, setup.bars, cap)
  {
  }

  lemma OpenExceeds(setup: Setup, cap: real)
    requires LateFill.Enterable(setup) && setup.risk.grossCap == Some(cap) && cap > 0.0
    ensures !CapKept(setup.risk, setup.bars, cap)
  {
    var events := AnyAmountIsExceeded(setup, "", cap);
    OneRunExceeds(setup, events, cap);
  }

  lemma SingleEnters(risk: Risk.RiskConfig, bars: Features.Config, position: Config, cap: real)
    requires Leveraged(risk) && position.Complete() && risk.grossCap == Some(cap) && !NeverOpen(risk, bars, cap)
    ensures LateFill.Enterable(Single(risk, bars, position))
  {
  }

  /** With no assumption on the price of fills, exactly the configurations that never accept an order
      keep the cap. */
  lemma CapKeptIff(risk: Risk.RiskConfig, bars: Features.Config, position: Config, cap: real)
    requires Leveraged(risk) && position.Complete() && risk.grossCap == Some(cap)
    ensures CapKept(risk, bars, cap) <==> risk.maxPositions <= 0 || cap <= 0.0 || Refusing(risk, bars)
  {
    if NeverOpen(risk, bars, cap) {
      forall setup: Setup, events: seq<Input>
        | setup.risk == risk && setup.bars == bars && setup.Valid() && Possible(setup, START, events)
        ensures Gross(After(setup, START, events)) <= Max(cap, 0.0)
      {
        NeverOpenKeeps(setup, events, cap);
      }
    } else {
      SingleEnters(risk, bars, position, cap);
      OpenExceeds(Single(risk, bars, position), cap);
    }
  }
}
