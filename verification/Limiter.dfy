/** The fixed-window limiter: one call run on its own. */
module Limiters {
  import opened Wrappers
  import opened Decimal
  import opened TimedStore
  import opened MemStores

  // int(d.Seconds()) for a duration in nanoseconds: truncated toward zero.
  function Seconds(d: int): int {
    if d < 0 then -(-d / SECOND) else d / SECOND
  }

  datatype Verdict = Verdict(allowed: bool, retryAfter: int)

  // The clock readings of the three store calls, in the order they are taken.
  datatype Readings = Readings(incr: int, expire: (int, int), ttl: (int, int))

  predicate InOrder(c: Readings) {
    c.incr <= c.expire.0 <= c.expire.1 <= c.ttl.0 <= c.ttl.1
  }

  // What the limiter makes of the answer of TTL.
  function Denial(ttl: int, window: int): Verdict {
    Verdict(false, Seconds(if ttl < 0 then window else ttl))
  }

  function AllowStep<K>(m: Store<K>, k: K, max: int, window: int, c: Readings): (Store<K>, Verdict) {
    var (m1, out) := Step(m, At(Op.Incr(k), c.incr));
    var m2 := if out.n == 1 then Step(m1, Event(Op.Expire(k, window), c.expire.0, c.expire.1)).0 else m1;
    if out.n <= max then (m2, Verdict(true, 0))
    else
      var (m3, left) := Step(m2, Event(Op.TTL(k), c.ttl.0, c.ttl.1));
      (m3, Denial(left.ttl, window))
  }

  // So many events were counted, and the counter has not expired.
  ghost predicate CountIs<K>(m: Store<K>, k: K, n: int, now: int) {
    Live(m, k, now) && 1 <= n <= MAX_INT64 && m[k].value == FormatInt(n)
  }

  // The first event of a window is let through exactly when the cap allows any, and the
  // window ends its length after; the event after the n-th exactly when n + 1 are within
  // the cap, in the same window.
  lemma AllowExact<K>(m: Store<K>, k: K, max: int, window: int, c: Readings)
    ensures var (m', v) := AllowStep(m, k, max, window, c);
      && (!Live(m, k, c.incr) ==>
            (v.allowed <==> 1 <= max) && m' == m[k := Binding("1", Some(c.expire.1 + window))])
      && (forall n | CountIs(m, k, n, c.incr) && n < MAX_INT64 ::
            (v.allowed <==> n + 1 <= max) && m' == m[k := Binding(FormatInt(n + 1), m[k].deadline)])
      && (v.allowed ==> v.retryAfter == 0)
  {
    forall n | CountIs(m, k, n, c.incr) && n < MAX_INT64
      ensures ParseInt(m[k].value) == n && Decimal.Next(n) == n + 1
    {
      ParseFormat(n);
    }
  }

  class Limiter {
    const kv: MemStore
    const window: int

    constructor (kv: MemStore, window: int)
      ensures this.kv == kv && this.window == window
    {
      this.kv, this.window := kv, window;
    }

    method Allow(key: string, max: int, c: Readings) returns (v: Verdict)
      requires kv.Valid()
      modifies kv.Repr
      ensures kv.Valid() && fresh(kv.Repr - old(kv.Repr))
      ensures (kv.Model(), v) == AllowStep(old(kv.Model()), key, max, window, c)
      ensures !Live(old(kv.Model()), key, c.incr) ==>
                && (v.allowed <==> 1 <= max)
                && kv.Model() == old(kv.Model())[key := Binding("1", Some(c.expire.1 + window))]
      ensures forall n | CountIs(old(kv.Model()), key, n, c.incr) && n < MAX_INT64 ::
                && (v.allowed <==> n + 1 <= max)
                && kv.Model() == old(kv.Model())[key := Binding(FormatInt(n + 1), old(kv.Model())[key].deadline)]
      ensures v.allowed ==> v.retryAfter == 0
    {
      AllowExact(kv.Model(), key, max, window, c);
      var count := kv.Incr(key, c.incr);
      if count == 1 {
        kv.Expire(key, window, c.expire.0, c.expire.1);
      }
      if count <= max {
        return Verdict(true, 0);
      }
      var ttl := kv.TTL(key, c.ttl.0, c.ttl.1);
      if ttl < 0 {
        ttl := window;
      }
      v := Verdict(false, Seconds(ttl));
    }
  }

  // A counter that is counting down its window.
  ghost predicate Counting<K>(m: Store<K>, k: K, n: int, now: int) {
    CountIs(m, k, n, now) && m[k].deadline.Some?
  }

  // A call is let through by the count it gets.
  lemma AllowedByCount<K>(m: Store<K>, k: K, max: int, window: int, c: Readings, n: int)
    requires Counting(m, k, n, c.incr) && Decimal.Next(n) <= max
    ensures AllowStep(m, k, max, window, c).1 == Verdict(true, 0)
  {
    ParseFormat(n);
  }

  // The event after the largest count is let through: the counter wraps.
  lemma WrapLetsThrough<K>(m: Store<K>, k: K, max: int, window: int, c: Readings, n: int)
    requires Counting(m, k, n, c.incr) && n == MAX_INT64 && max >= 0
    ensures AllowStep(m, k, max, window, c).1 == Verdict(true, 0)
  {
    assert Decimal.Next(n) == MIN_INT64;
    AllowedByCount(m, k, max, window, c, n);
  }

  // When the window of a call ends: n events were counted in it before the call.
  function WindowEnd<K>(m: Store<K>, k: K, n: nat, window: int, c: Readings): int
    requires n > 0 ==> k in m && m[k].deadline.Some?
  {
    if n > 0 then m[k].deadline.value else c.expire.1 + window
  }

  // Run on its own, a denied call leaves n + 1 events in its window. If its last
  // reading was still in the window, a retry after the reported whole seconds is
  // always counted in the same window and denied, a retry after one second more
  // always opens a new one. If that reading was already past the window, any retry
  // opens a new one.
  lemma RetryAfterExact<K>(m: Store<K>, k: K, max: int, window: int, c: Readings, n: nat, again: Readings)
    requires if n > 0 then Counting(m, k, n, c.incr) else !Live(m, k, c.incr)
    requires window > 0 && n < MAX_INT64 - 1 && InOrder(c) && InOrder(again) && again.incr >= c.ttl.1
    requires !AllowStep(m, k, max, window, c).1.allowed
    ensures var (m', v) := AllowStep(m, k, max, window, c);
      var end := WindowEnd(m, k, n, window, c);
      && 0 <= v.retryAfter
      && (c.ttl.1 <= end && again.incr <= c.ttl.1 + v.retryAfter * SECOND ==>
            Counting(m', k, n + 1, again.incr) && !AllowStep(m', k, max, window, again).1.allowed)
      && (c.ttl.1 > end || again.incr >= c.ttl.1 + (v.retryAfter + 1) * SECOND ==>
            Step(m', At(Op.Incr(k), again.incr)).1 == Count(1)
            && (AllowStep(m', k, max, window, again).1.allowed <==> max >= 1))
  {
    var (m', v) := AllowStep(m, k, max, window, c);
    ParseFormat(n);
    ParseFormat(n + 1);
    var end := WindowEnd(m, k, n, window, c);
    assert m'[k] == Binding(FormatInt(n + 1), Some(end)) by {
      assert FormatInt(1) == "1";
    }
    if c.ttl.1 <= end {
      var left := end - c.ttl.1;
      assert v.retryAfter == left / SECOND;
      assert v.retryAfter * SECOND <= left < (v.retryAfter + 1) * SECOND;
    }
  }
}
