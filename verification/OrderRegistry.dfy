/** The order registry as an object (fbot/core/oms.py), proved to compute the functions of `Oms`. */
module OrderRegistries {
  import opened Common
  import opened Oms

  class OrderRegistry {
    var refs: map<string, Ref>
    var byIntent: map<string, string>
    var unknown: set<string>

    ghost function View(): Registry
      reads this
    {
      Registry(refs, byIntent, unknown)
    }

    constructor ()
      ensures View() == EMPTY
    {
      refs, byIntent, unknown := map[], map[], {};
    }

    /** An id already known keeps its entry. */
    method Register(id: string, posId: string, role: Role, symbol: string, now: int, intentKey: Option<string>) returns (ref: Ref)
      modifies this
      ensures View() == Oms.Register(old(View()), id, Ref(posId, role, symbol, now, Pending, None, intentKey))
      ensures id in refs && ref == refs[id]
    {
      if id in refs {
        return refs[id];
      }
      ref := Ref(posId, role, symbol, now, Pending, None, intentKey);
      refs := refs[id := ref];
      if intentKey.Some? {
        byIntent := byIntent[intentKey.value := id];
      }
    }

    method OnEvent(m: Message) returns (ref: Option<Ref>)
      requires m.Update?
      modifies this
      ensures View() == Take(old(View()), m)
      ensures ref == if m.id in refs then Some(refs[m.id]) else None
    {
      if m.id !in refs {
        return None;
      }
      if m.orderId.Some? {
        refs := refs[m.id := refs[m.id].(orderId := m.orderId)];
      }
      var state := OfStatus(m.status);
      if state.None? {
        state := OfKind(m.kind);
      }
      if state.Some? && Rank(state.value) >= Rank(refs[m.id].state) {
        refs := refs[m.id := refs[m.id].(state := state.value)];
      }
      if refs[m.id].IsTerminal() {
        unknown := unknown - {m.id};
      }
      return Some(refs[m.id]);
    }

    method MarkUnknown(id: string)
      modifies this
      ensures View() == Mark(old(View()), id)
    {
      if id !in refs || refs[id].IsTerminal() {
        return;
      }
      refs := refs[id := refs[id].(state := Unknown)];
      unknown := unknown + {id};
    }

    method MarkIfSilent(id: string, now: int, ttl: int) returns (silent: bool)
      requires id in refs
      modifies this
      ensures silent <==> Silent(old(View()), id, now, ttl)
      ensures View() == if silent then Mark(old(View()), id) else old(View())
    {
      silent := refs[id].state == Pending && now - refs[id].submittedNs >= ttl;
      if silent {
        MarkUnknown(id);
      }
    }

    method Visit(id: string, now: int, ttl: int, ghost start: Registry, ghost left: set<string>) returns (silent: bool)
      requires id in left && left <= start.refs.Keys && View() == SweptBut(start, left, now, ttl)
      modifies this
      ensures View() == SweptBut(start, left - {id}, now, ttl)
      ensures SilentOnes(start, now, ttl) - (left - {id})
        == (SilentOnes(start, now, ttl) - left) + (if silent then {id} else {})
    {
      SweepOne(start, left, id, now, ttl);
      silent := MarkIfSilent(id, now, ttl);
    }

    /** Visits every order once. */
    method Sweep(now: int, ttl: int) returns (out: set<string>)
      modifies this
      ensures View() == Oms.Sweep(old(View()), now, ttl)
      ensures out == SilentOnes(old(View()), now, ttl)
    {
      ghost var start := View();
      var left := refs.Keys;
      SweptEnds(start, now, ttl);
      out := {};
      while left != {}
        invariant left <= start.refs.Keys && View() == SweptBut(start, left, now, ttl)
        invariant out == SilentOnes(start, now, ttl) - left
        decreases |left|
      {
        var id :| id in left;
        var silent := Visit(id, now, ttl, start, left);
        if silent {
          out := out + {id};
        }
        left := left - {id};
      }
    }

    method HasOpenIntent(key: string) returns (open: bool)
      ensures open <==> IntentOpen(View(), key)
    {
      if key !in byIntent {
        return false;
      }
      var id := byIntent[key];
      return id in refs && !refs[id].IsTerminal();
    }
  }

  /** The registry once every order outside `left` was visited. */
  ghost function SweptBut(g: Registry, left: set<string>, now: int, ttl: int): Registry {
    Registry(map id | id in g.refs :: if Silent(g, id, now, ttl) && id !in left then g.refs[id].(state := Unknown) else g.refs[id],
      g.byIntent, g.unknown + (SilentOnes(g, now, ttl) - left))
  }

  lemma SweptEnds(g: Registry, now: int, ttl: int)
    ensures SweptBut(g, g.refs.Keys, now, ttl) == g && SweptBut(g, {}, now, ttl) == Oms.Sweep(g, now, ttl)
    ensures SilentOnes(g, now, ttl) <= g.refs.Keys
  {
    assert SilentOnes(g, now, ttl) - g.refs.Keys == {};
    assert SweptBut(g, g.refs.Keys, now, ttl).refs == g.refs;
  }

  lemma SweepOne(g: Registry, left: set<string>, id: string, now: int, ttl: int)
    requires id in left && left <= g.refs.Keys
    ensures var s, t := SweptBut(g, left, now, ttl), SweptBut(g, left - {id}, now, ttl);
      && id in s.refs && (Silent(s, id, now, ttl) <==> Silent(g, id, now, ttl))
      && t == (if Silent(g, id, now, ttl) then Mark(s, id) else s)
      && SilentOnes(g, now, ttl) - (left - {id})
         == (SilentOnes(g, now, ttl) - left) + (if Silent(g, id, now, ttl) then {id} else {})
  {
    var s, t := SweptBut(g, left, now, ttl), SweptBut(g, left - {id}, now, ttl);
    assert SilentOnes(g, now, ttl) - (left - {id})
      == (SilentOnes(g, now, ttl) - left) + (if Silent(g, id, now, ttl) then {id} else {});
    if Silent(g, id, now, ttl) {
      assert t.refs == s.refs[id := s.refs[id].(state := Unknown)];
    } else {
      assert t.refs == s.refs;
    }
  }
}
