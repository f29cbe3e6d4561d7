/** What the key-value store does, one operation at a time, as functions on a map
    of bindings with optional deadlines, and why nobody can observe when expired
    bindings are physically removed.

    An operation carries the readings of the clock it takes: `t0` when it tests
    expiry, `t1` when it reads the clock a second time. */
module TimedStore {
  import opened Wrappers
  import opened Decimal

  // Durations and clock readings are in nanoseconds.
  const SECOND: int := 1_000_000_000

  datatype Binding = Binding(value: string, deadline: Option<int>)

  type Store<K> = map<K, Binding>

  // Expiry is strict: a binding is still there at its deadline.
  predicate Expired(b: Binding, now: int) {
    b.deadline.Some? && now > b.deadline.value
  }

  predicate Live<K>(m: Store<K>, k: K, now: int) {
    k in m && !Expired(m[k], now)
  }

  datatype Op<!K> =
    | Get(key: K)
    | Set(key: K, value: string, ttl: int)
    | GetDel(key: K)
    | Del(key: K)
    | Incr(key: K)
    | Expire(key: K, ttl: int)
    | TTL(key: K)
    | Sweep(readings: K -> int)  // the background eviction, with the reading taken for each entry

  datatype Out = NotFound | Found(value: string) | Ok | Count(n: int) | Remaining(ttl: int)

  datatype Event<!K> = Event(op: Op<K>, t0: int, t1: int)

  // A single reading of the clock.
  function At<K>(op: Op<K>, now: int): Event<K> {
    Event(op, now, now)
  }

  function Swept<K>(m: Store<K>, readings: K -> int): Store<K> {
    map k | k in m && !Expired(m[k], readings(k)) :: m[k]
  }

  function Put<K>(m: Store<K>, k: K, value: string, ttl: int, now: int): Store<K> {
    m[k := Binding(value, if ttl > 0 then Some(now + ttl) else None)]
  }

  function Incremented(b: Binding): Binding {
    b.(value := FormatInt(Next(ParseInt(b.value))))
  }

  function Step<K>(m: Store<K>, e: Event<K>): (Store<K>, Out) {
    match e.op
    case Get(k) =>
      if Live(m, k, e.t0) then (m, Found(m[k].value)) else (m - {k}, NotFound)
    case Set(k, value, ttl) =>
      (Put(m, k, value, ttl, e.t0), Ok)
    case GetDel(k) =>
      (m - {k}, if Live(m, k, e.t0) then Found(m[k].value) else NotFound)
    case Del(k) =>
      (m - {k}, Ok)
    case Incr(k) =>
      if Live(m, k, e.t0) then (m[k := Incremented(m[k])], Count(Next(ParseInt(m[k].value))))
      else (m[k := Binding("1", None)], Count(1))
    case Expire(k, ttl) =>
      if Live(m, k, e.t0) then (m[k := m[k].(deadline := Some(e.t1 + ttl))], Ok) else (m, Ok)
    case TTL(k) =>
      if Live(m, k, e.t0) && m[k].deadline.Some? then (m, Remaining(m[k].deadline.value - e.t1))
      else (m, Remaining(-1))
    case Sweep(readings) =>
      (Swept(m, readings), Ok)
  }

  // What the callers see of a run; the eviction answers nobody.
  function Run<K>(m: Store<K>, es: seq<Event<K>>): seq<Out>
    decreases |es|
  {
    if es == [] then []
    else
      var (m', out) := Step(m, es[0]);
      if es[0].op.Sweep? then Run(m', es[1..]) else [out] + Run(m', es[1..])
  }

  function WithoutSweeps<K>(es: seq<Event<K>>): seq<Event<K>> {
    if es == [] then []
    else if es[0].op.Sweep? then WithoutSweeps(es[1..])
    else [es[0]] + WithoutSweeps(es[1..])
  }

  // Clock readings never go back, neither inside an operation nor from one to the next.
  ghost predicate Timed<K(!new)>(e: Event<K>, from: int) {
    from <= e.t0 <= e.t1 &&
    (e.op.Sweep? ==> forall k: K :: e.t0 <= e.op.readings(k) <= e.t1)
  }

  ghost predicate Ordered<K(!new)>(es: seq<Event<K>>, from: int) {
    es == [] || (Timed(es[0], from) && Ordered(es[1..], es[0].t1))
  }

  // The two stores answer every question about the present alike.
  ghost predicate Agree<K(!new)>(m: Store<K>, n: Store<K>, now: int) {
    forall k: K :: Live(m, k, now) || Live(n, k, now) ==>
      Live(m, k, now) && Live(n, k, now) && m[k] == n[k]
  }

  lemma AgreeLater<K(!new)>(m: Store<K>, n: Store<K>, now: int, later: int)
    requires now <= later && Agree(m, n, now)
    ensures Agree(m, n, later)
  {
    forall k: K | Live(m, k, later) || Live(n, k, later)
      ensures Live(m, k, later) && Live(n, k, later) && m[k] == n[k]
    {
      assert Live(m, k, now) || Live(n, k, now);
    }
  }

  lemma StepAgree<K(!new)>(m: Store<K>, n: Store<K>, e: Event<K>, from: int)
    requires Agree(m, n, from) && Timed(e, from)
    ensures e.op.Sweep? ==> Agree(Step(m, e).0, n, e.t1)
    ensures !e.op.Sweep? ==> Step(m, e).1 == Step(n, e).1 && Agree(Step(m, e).0, Step(n, e).0, e.t1)
  {
    AgreeLater(m, n, from, e.t0);
    AgreeLater(m, n, from, e.t1);
    if !e.op.Sweep? {
      assert Live(m, e.op.key, e.t0) == Live(n, e.op.key, e.t0);
      var m', n' := Step(m, e).0, Step(n, e).0;
      forall k: K | Live(m', k, e.t1) || Live(n', k, e.t1)
        ensures Live(m', k, e.t1) && Live(n', k, e.t1) && m'[k] == n'[k]
      {
        if k != e.op.key {
          assert Live(m, k, e.t1) || Live(n, k, e.t1);
        }
      }
    } else {
      var m' := Step(m, e).0;
      forall k: K | Live(m', k, e.t1) || Live(n, k, e.t1)
        ensures Live(m', k, e.t1) && Live(n, k, e.t1) && m'[k] == n[k]
      {
        assert Live(m, k, e.t1) || Live(n, k, e.t1);
        assert e.t0 <= e.op.readings(k) <= e.t1;
      }
    }
  }

  // Sweeps may be inserted or removed anywhere: no caller can tell.
  lemma {:induction false} EvictionInvisible<K(!new)>(m: Store<K>, n: Store<K>, es: seq<Event<K>>, from: int)
    requires Agree(m, n, from) && Ordered(es, from)
    ensures Run(m, es) == Run(n, WithoutSweeps(es))
    decreases |es|
  {
    if es != [] {
      var e, m' := es[0], Step(m, es[0]).0;
      StepAgree(m, n, e, from);
      if e.op.Sweep? {
        EvictionInvisible(m', n, es[1..], e.t1);
      } else {
        EvictionInvisible(m', Step(n, e).0, es[1..], e.t1);
        assert WithoutSweeps(es)[1..] == WithoutSweeps(es[1..]);
      }
    }
  }

  // Two schedules that differ only in their sweeps give the same answers.
  lemma SchedulesIndistinguishable<K(!new)>(m: Store<K>, es: seq<Event<K>>, fs: seq<Event<K>>, from: int)
    requires Ordered(es, from) && Ordered(fs, from) && WithoutSweeps(es) == WithoutSweeps(fs)
    ensures Run(m, es) == Run(m, fs)
  {
    EvictionInvisible(m, m, es, from);
    EvictionInvisible(m, m, fs, from);
  }

  // --- The simple timed map: bindings vanish at their deadlines ---

  function Vanish<K>(m: Store<K>, now: int): Store<K> {
    map k | k in m && !Expired(m[k], now) :: m[k]
  }

  // The same operations on a map that never holds anything expired, so that
  // presence is the only test left. Nothing is removed on reading.
  function IdealStep<K>(m: Store<K>, e: Event<K>): (Store<K>, Out)
    requires !e.op.Sweep?
  {
    var n := Vanish(m, e.t0);
    match e.op
    case Get(k) => (n, if k in n then Found(n[k].value) else NotFound)
    case Set(k, value, ttl) => (Put(n, k, value, ttl, e.t0), Ok)
    case GetDel(k) => (n - {k}, if k in n then Found(n[k].value) else NotFound)
    case Del(k) => (n - {k}, Ok)
    case Incr(k) =>
      if k in n then (n[k := Incremented(n[k])], Count(Next(ParseInt(n[k].value))))
      else (n[k := Binding("1", None)], Count(1))
    case Expire(k, ttl) =>
      (if k in n then n[k := n[k].(deadline := Some(e.t1 + ttl))] else n, Ok)
    case TTL(k) =>
      (n, Remaining(if k in n && n[k].deadline.Some? then n[k].deadline.value - e.t1 else -1))
  }

  function IdealRun<K>(m: Store<K>, es: seq<Event<K>>): seq<Out>
    decreases |es|
  {
    if es == [] then []
    else if es[0].op.Sweep? then IdealRun(m, es[1..])
    else
      var (m', out) := IdealStep(m, es[0]);
      [out] + IdealRun(m', es[1..])
  }

  lemma IdealStepAgree<K(!new)>(m: Store<K>, n: Store<K>, e: Event<K>, from: int)
    requires Agree(m, n, from) && Timed(e, from) && !e.op.Sweep?
    ensures Step(m, e).1 == IdealStep(n, e).1 && Agree(Step(m, e).0, IdealStep(n, e).0, e.t1)
  {
    var v := Vanish(n, e.t0);
    AgreeLater(m, n, from, e.t0);
    assert Agree(m, v, e.t0) by {
      forall k: K | Live(m, k, e.t0) || Live(v, k, e.t0)
        ensures Live(m, k, e.t0) && Live(v, k, e.t0) && m[k] == v[k]
      {
        assert Live(v, k, e.t0) ==> Live(n, k, e.t0);
      }
    }
    assert Live(m, e.op.key, e.t0) <==> e.op.key in v by {
      assert e.op.key in v ==> Live(v, e.op.key, e.t0);
    }
    AgreeLater(m, v, e.t0, e.t1);
    var m', v' := Step(m, e).0, IdealStep(n, e).0;
    forall k: K | Live(m', k, e.t1) || Live(v', k, e.t1)
      ensures Live(m', k, e.t1) && Live(v', k, e.t1) && m'[k] == v'[k]
    {
      if k != e.op.key {
        assert Live(m, k, e.t1) || Live(v, k, e.t1);
      }
    }
  }

  // The store with its lazy eviction and its sweeps refines the simple timed map.
  lemma {:induction false} RefinesIdeal<K(!new)>(m: Store<K>, n: Store<K>, es: seq<Event<K>>, from: int)
    requires Agree(m, n, from) && Ordered(es, from)
    ensures Run(m, es) == IdealRun(n, es)
    decreases |es|
  {
    if es != [] {
      var e, m' := es[0], Step(m, es[0]).0;
      StepAgree(m, n, e, from);
      if e.op.Sweep? {
        RefinesIdeal(m', n, es[1..], e.t1);
      } else {
        IdealStepAgree(m, n, e, from);
        RefinesIdeal(m', IdealStep(n, e).0, es[1..], e.t1);
      }
    }
  }
}
