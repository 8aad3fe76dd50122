/** The limiter and its sliding windows as objects (fbot/core/rate_limit.py), proved to compute the
    functions of `RateLimit`. */
module RateLimiters {
  import opened Common
  import opened RateLimit

  class SlidingWindow {
    const spanMs: nat
    const limit: int
    var events: seq<(int, int)>
    var reported: Option<int>

    ghost function View(): Window
      reads this
    {
      Window(spanMs, limit, events, reported)
    }

    constructor (spanMs: nat, limit: int)
      ensures View() == Window(spanMs, limit, [], None)
    {
      this.spanMs, this.limit := spanMs, limit;
      events, reported := [], None;
    }

    /** Pops the oldest events while they are outside the span. */
    method Trim(now: int)
      modifies this`events
      ensures events == RateLimit.Trim(old(events), now, spanMs)
    {
      while events != [] && now - events[0].0 > spanMs
        invariant RateLimit.Trim(events, now, spanMs) == RateLimit.Trim(old(events), now, spanMs)
        decreases |events|
      {
        events := events[1..];
      }
    }

    method Used(now: int) returns (r: int)
      modifies this`events
      ensures r == RateLimit.Used(old(View()), now) && events == RateLimit.Trim(old(events), now, spanMs)
    {
      Trim(now);
      var estimate := 0;
      for k := 0 to |events|
        invariant events == RateLimit.Trim(old(events), now, spanMs) && estimate == Total(events[..k])
      {
        assert events[..k + 1][..k] == events[..k];
        estimate := estimate + events[k].1;
      }
      assert events[..|events|] == events;
      r := if reported.Some? && reported.value > estimate then reported.value else estimate;
    }

    method Add(now: int, n: int)
      modifies this
      ensures View() == Counted(old(View()), now, n)
    {
      Trim(now);
      events := events + [(now, n)];
      if reported.Some? {
        reported := Some(reported.value + n);
      }
    }

    method Remaining(now: int) returns (r: int)
      modifies this`events
      ensures r == RateLimit.Remaining(old(View()), now) && events == RateLimit.Trim(old(events), now, spanMs)
    {
      var used := Used(now);
      r := if limit - used > 0 then limit - used else 0;
    }

    method Report(used: int)
      modifies this`reported
      ensures View() == Override(old(View()), Some(used))
    {
      reported := Some(used);
    }
  }

  class RateLimiter {
    const reserveOrders: nat
    const o10: SlidingWindow
    const o1m: SlidingWindow
    var backoffUntilMs: int
    var banned: bool

    ghost predicate Valid()
      reads this
    {
      o10 != o1m
    }

    ghost function View(): Limiter
      reads this, o10, o1m
    {
      Limiter(reserveOrders, o10.View(), o1m.View(), backoffUntilMs, banned)
    }

    constructor (orders10s: int, orders1m: int, reserve: nat)
      ensures Valid() && View() == New(orders10s, orders1m, reserve) && fresh(o10) && fresh(o1m)
    {
      reserveOrders, backoffUntilMs, banned := reserve, 0, false;
      o10 := new SlidingWindow(10_000, orders10s);
      o1m := new SlidingWindow(60_000, orders1m);
    }

    method AllowOrder(now: int, entry: bool) returns (ok: bool)
      requires Valid()
      modifies o10, o1m
      ensures (View(), ok) == Gate(old(View()), now, entry)
    {
      if banned || now < backoffUntilMs {
        return false;
      }
      var res := if entry then reserveOrders else 0;
      var left := o10.Remaining(now);
      if left <= res {
        return false;
      }
      left := o1m.Remaining(now);
      return left > res;
    }

    method OnOrder(now: int)
      requires Valid()
      modifies o10, o1m
      ensures View() == RateLimit.OnOrder(old(View()), now)
    {
      o10.Add(now, 1);
      o1m.Add(now, 1);
    }

    /** Places an order: refused, or counted before it is sent. */
    method Place(now: int, entry: bool) returns (sent: bool)
      requires Valid()
      modifies o10, o1m
      ensures var (l, allowed) := Gate(old(View()), now, entry);
        sent == allowed && View() == if allowed then RateLimit.OnOrder(l, now) else l
    {
      sent := AllowOrder(now, entry);
      if sent {
        OnOrder(now);
      }
    }

    method Sync(used10s: Option<int>, used1m: Option<int>)
      requires Valid()
      modifies o10, o1m
      ensures View() == old(View()).(o10 := Override(old(o10.View()), used10s), o1m := Override(old(o1m.View()), used1m))
    {
      if used10s.Some? {
        o10.Report(used10s.value);
      }
      if used1m.Some? {
        o1m.Report(used1m.value);
      }
    }

    method OnResponse(status: int, now: int, retryMs: int)
      requires Valid()
      modifies this
      ensures View() == RateLimit.OnResponse(old(View()), status, now, retryMs)
    {
      if status == 418 {
        banned := true;
        backoffUntilMs := if now + retryMs > backoffUntilMs then now + retryMs else backoffUntilMs;
      } else if status == 429 {
        backoffUntilMs := now + retryMs;
      }
    }
  }
}
