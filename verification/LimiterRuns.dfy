/** The fixed-window limiter under concurrency. A call of Allow takes the store's
    lock up to three times, so any number of calls for one key interleave between
    their Incr, Expire and TTL, with other traffic on the same store and with sweeps. */
module LimiterRuns {
  import opened Wrappers
  import opened Decimal
  import opened TimedStore
  import opened Limiters

  // One key, its cap and its window; every call for the key uses the same ones.
  datatype Params<K> = Params(key: K, max: int, window: int)

  datatype Pc =
    | OwesExpire               // counted 1: the next store call is Expire
    | OwesTTL                  // over the cap: the next store call is TTL
    | Returned(verdict: Verdict)

  // One Incr: which call did it, when, and the count it was given.
  datatype Hit = Hit(call: nat, at: int, count: int)

  datatype State<K> = State(store: Store<K>, now: int, calls: map<nat, Pc>, hits: seq<Hit>)

  datatype Action<!K> =
    | Incr(call: nat, t: int)
    | Expire(call: nat, t0: int, t1: int)
    | TTL(call: nat, t0: int, t1: int)
    | Other(e: Event<K>)  // any other operation of the server, or a sweep

  ghost predicate Init<K>(p: Params<K>, s: State<K>) {
    p.window > 0 && p.key !in s.store && s.calls == map[] && s.hits == []
  }

  ghost predicate Enabled<K(!new)>(p: Params<K>, s: State<K>, a: Action<K>) {
    match a
    case Incr(call, t) => call !in s.calls && s.now <= t
    case Expire(call, t0, t1) => call in s.calls && s.calls[call].OwesExpire? && s.now <= t0 <= t1
    case TTL(call, t0, t1) => call in s.calls && s.calls[call].OwesTTL? && s.now <= t0 <= t1
    case Other(e) => Timed(e, s.now) && (!e.op.Sweep? ==> e.op.key != p.key)
  }

  // What is left to do once the cap has been compared with the count.
  function Compared<K>(p: Params<K>, count: int): Pc {
    if count <= p.max then Returned(Verdict(true, 0)) else OwesTTL
  }

  function Next<K>(p: Params<K>, s: State<K>, a: Action<K>): State<K>
    requires a.Expire? || a.TTL? ==> a.call in s.calls
  {
    match a
    case Incr(call, t) =>
      var (m, out) := Step(s.store, At(Op.Incr(p.key), t));
      State(m, t, s.calls[call := if out.n == 1 then OwesExpire else Compared(p, out.n)],
            s.hits + [Hit(call, t, out.n)])
    case Expire(call, t0, t1) =>
      State(Step(s.store, Event(Op.Expire(p.key, p.window), t0, t1)).0, t1, s.calls[call := Compared(p, 1)], s.hits)
    case TTL(call, t0, t1) =>
      var (m, out) := Step(s.store, Event(Op.TTL(p.key), t0, t1));
      State(m, t1, s.calls[call := Returned(Denial(out.ttl, p.window))], s.hits)
    case Other(e) =>
      s.(store := Step(s.store, e).0, now := e.t1)
  }

  // A call run on its own is this machine's: Incr, then Expire and TTL where they are owed.
  lemma AllowIsMachine<K(!new)>(p: Params<K>, s: State<K>, call: nat, c: Readings)
    requires call !in s.calls && s.now <= c.incr && InOrder(c)
    ensures var incr, expire, ttl := Action<K>.Incr(call, c.incr), Action<K>.Expire(call, c.expire.0, c.expire.1),
                                     Action<K>.TTL(call, c.ttl.0, c.ttl.1);
      var s1 := Next(p, s, incr);
      var s2 := if s1.calls[call].OwesExpire? then Next(p, s1, expire) else s1;
      var s3 := if s2.calls[call].OwesTTL? then Next(p, s2, ttl) else s2;
      && Enabled(p, s, incr)
      && (s1.calls[call].OwesExpire? ==> Enabled(p, s1, expire))
      && (s2.calls[call].OwesTTL? ==> Enabled(p, s2, ttl))
      && AllowStep(s.store, p.key, p.max, p.window, c).0 == s3.store
      && Returned(AllowStep(s.store, p.key, p.max, p.window, c).1) == s3.calls[call]
  {
  }

  // No event was counted after a count of MAX_INT64: there the counter wraps, and the
  // next event is counted MIN_INT64.
  ghost predicate NoWrap(hits: seq<Hit>) {
    forall i :: 0 <= i < |hits| ==> hits[i].count >= 1
  }

  // A hit opens a window or goes on from the one before it, in int64 arithmetic.
  ghost predicate Tally(hits: seq<Hit>) {
    && (forall i :: 0 <= i < |hits| ==> IsInt64(hits[i].count))
    && (hits != [] ==> hits[0].count == 1)
    && (forall i :: 0 < i < |hits| ==> hits[i].count == 1 || hits[i].count == Decimal.Next(hits[i - 1].count))
  }

  // Where the current window begins.
  function Opening(hits: seq<Hit>): int
    requires hits != []
  {
    |hits| - hits[|hits| - 1].count
  }

  // A hit opens a window or continues the one of the hit before it.
  ghost predicate Counted(hits: seq<Hit>) {
    && (forall i :: 0 <= i < |hits| ==> hits[i].count >= 1)
    && (forall i :: 0 < i < |hits| ==> hits[i].count == 1 || hits[i].count == hits[i - 1].count + 1)
    && (hits != [] ==>
          0 <= Opening(hits) && forall i :: Opening(hits) <= i < |hits| ==> hits[i].count == i - Opening(hits) + 1)
  }

  ghost predicate Chronological(hits: seq<Hit>) {
    forall i, j :: 0 <= i <= j < |hits| ==> hits[i].at <= hits[j].at
  }

  // Windows are opened more than a window's length apart.
  ghost predicate Spaced(hits: seq<Hit>, window: int) {
    forall i, j :: 0 <= i < j < |hits| && hits[i].count == 1 && hits[j].count == 1 ==>
      hits[i].at + window < hits[j].at
  }

  ghost predicate Windows(hits: seq<Hit>, window: int) {
    Counted(hits) && Chronological(hits) && Spaced(hits, window)
  }

  // The hit that opened the current window.
  function Opener(hits: seq<Hit>): Option<Hit> {
    if hits == [] || !(0 <= Opening(hits) < |hits|) then None else Some(hits[Opening(hits)])
  }

  ghost predicate Owing(s: State, call: nat) {
    call in s.calls && s.calls[call].OwesExpire?
  }

  ghost predicate Unarmed<K>(p: Params<K>, s: State<K>) {
    Live(s.store, p.key, s.now) && s.store[p.key].deadline.None?
  }

  // The live counter is the current window's; it lacks a deadline exactly while the
  // call that opened the window, and no other, has yet to set it.
  ghost predicate CounterInv<K>(p: Params<K>, s: State<K>) {
    var opener := Opener(s.hits);
    && (opener.Some? ==> opener.value.at <= s.now)
    && (Live(s.store, p.key, s.now) ==>
          opener.Some? && s.store[p.key].value == FormatInt(s.hits[|s.hits| - 1].count))
    && (Live(s.store, p.key, s.now) && s.store[p.key].deadline.Some? ==>
          opener.value.at + p.window <= s.store[p.key].deadline.value <= s.now + p.window)
    && (!Live(s.store, p.key, s.now) && opener.Some? ==> opener.value.at + p.window < s.now)
    && (Unarmed(p, s) ==> Owing(s, opener.value.call))
    && (forall call :: Owing(s, call) ==> Unarmed(p, s) && call == opener.value.call)
  }

  // What a call returns, or still owes, is decided by the count its Incr got.
  ghost predicate Decided(max: int, pc: Pc, count: int) {
    match pc
    case OwesExpire => count == 1
    case OwesTTL => count > max
    case Returned(v) => v.allowed <==> count <= max
  }

  ghost predicate CallsInv<K>(p: Params<K>, s: State<K>) {
    && (forall i :: 0 <= i < |s.hits| ==> s.hits[i].call in s.calls)
    && (forall i :: 0 <= i < |s.hits| ==> Decided(p.max, s.calls[s.hits[i].call], s.hits[i].count))
    && (forall i, j :: 0 <= i < j < |s.hits| ==> s.hits[i].call != s.hits[j].call)
    && (forall c :: c in s.calls && s.calls[c].Returned? ==> 0 <= s.calls[c].verdict.retryAfter <= Seconds(p.window))
  }

  // A live counter holds the last count and never more than a window of time.
  ghost predicate CounterHolds<K>(p: Params<K>, s: State<K>) {
    Live(s.store, p.key, s.now) ==>
      && s.hits != [] && s.store[p.key].value == FormatInt(s.hits[|s.hits| - 1].count)
      && (s.store[p.key].deadline.Some? ==> s.store[p.key].deadline.value <= s.now + p.window)
  }

  // What holds whether or not the counter wraps ...
  ghost predicate Base<K>(p: Params<K>, s: State<K>) {
    p.window > 0 && Tally(s.hits) && CallsInv(p, s) && CounterHolds(p, s)
  }

  // ... and what holds until it does.
  ghost predicate Inv<K>(p: Params<K>, s: State<K>) {
    && Base(p, s)
    && (forall i :: 0 <= i < |s.hits| ==> s.hits[i].at <= s.now)
    && Windows(s.hits, p.window)
    && CounterInv(p, s)
  }

  // Counting one more event in a live window, or opening a new one.
  lemma IncrCounts<K(!new)>(p: Params<K>, s: State<K>, a: Action<K>)
    requires Base(p, s) && a.Incr? && Enabled(p, s, a)
    ensures var s' := Next(p, s, a); var n := |s.hits|;
      && s'.hits == s.hits + [Hit(a.call, a.t, s'.hits[n].count)]
      && p.key in s'.store && s'.store[p.key].value == FormatInt(s'.hits[n].count)
      && (if Live(s.store, p.key, a.t)
          then n > 0 && s'.hits[n].count == Decimal.Next(s.hits[n - 1].count)
               && s'.store[p.key].deadline == s.store[p.key].deadline
          else s'.hits[n].count == 1 && s'.store[p.key].deadline == None)
  {
    if Live(s.store, p.key, a.t) {
      assert Live(s.store, p.key, s.now);
      ParseFormat(s.hits[|s.hits| - 1].count);
    } else {
      assert FormatInt(1) == "1";
    }
  }

  lemma IncrBase<K(!new)>(p: Params<K>, s: State<K>, a: Action<K>)
    requires Base(p, s) && a.Incr? && Enabled(p, s, a)
    ensures Base(p, Next(p, s, a))
  {
    IncrCounts(p, s, a);
    CallsSnoc(p, s, Next(p, s, a), Next(p, s, a).hits[|s.hits|]);
  }

  lemma ExpireBase<K(!new)>(p: Params<K>, s: State<K>, a: Action<K>)
    requires Base(p, s) && a.Expire? && Enabled(p, s, a)
    ensures Base(p, Next(p, s, a))
  {
  }

  lemma TTLBase<K(!new)>(p: Params<K>, s: State<K>, a: Action<K>)
    requires Base(p, s) && a.TTL? && Enabled(p, s, a)
    ensures Base(p, Next(p, s, a))
  {
  }

  lemma OtherBase<K(!new)>(p: Params<K>, s: State<K>, a: Action<K>)
    requires Base(p, s) && a.Other? && Enabled(p, s, a)
    ensures Base(p, Next(p, s, a))
  {
    var s' := Next(p, s, a);
    assert Live(s'.store, p.key, s'.now) ==> Live(s.store, p.key, s.now) && s'.store[p.key] == s.store[p.key];
  }

  lemma BaseKept<K(!new)>(p: Params<K>, s: State<K>, a: Action<K>)
    requires Base(p, s) && Enabled(p, s, a)
    ensures Base(p, Next(p, s, a))
  {
    match a
    case Incr(_, _) => IncrBase(p, s, a);
    case Expire(_, _, _) => ExpireBase(p, s, a);
    case TTL(_, _, _) => TTLBase(p, s, a);
    case Other(_) => OtherBase(p, s, a);
  }

  lemma CountedSnoc(hits: seq<Hit>, h: Hit)
    requires Counted(hits)
    requires h.count == 1 || (hits != [] && h.count == hits[|hits| - 1].count + 1)
    ensures Counted(hits + [h])
    ensures Opening(hits + [h]) == if h.count == 1 then |hits| else Opening(hits)
  {
  }

  lemma SpacedSnoc(hits: seq<Hit>, window: int, h: Hit)
    requires Windows(hits, window) && (hits != [] ==> hits[Opening(hits)].at + window < h.at)
    ensures Spaced(hits + [h], window)
  {
    if hits != [] {
      var o := Opening(hits);
      assert forall i :: 0 <= i < |hits| && hits[i].count == 1 ==> i <= o;
      assert forall i :: 0 <= i < |hits| && hits[i].count == 1 ==> hits[i].at <= hits[o].at;
    }
  }

  lemma IncrWindows<K(!new)>(p: Params<K>, s: State<K>, a: Action<K>)
    requires Inv(p, s) && a.Incr? && Enabled(p, s, a) && NoWrap(Next(p, s, a).hits)
    ensures Windows(Next(p, s, a).hits, p.window)
  {
    IncrCounts(p, s, a);
    var h := Next(p, s, a).hits[|s.hits|];
    CountedSnoc(s.hits, h);
    if h.count == 1 {
      SpacedSnoc(s.hits, p.window, h);
    }
  }

  lemma CallsSnoc<K>(p: Params<K>, s: State<K>, s': State<K>, h: Hit)
    requires p.window > 0 && CallsInv(p, s) && h.call !in s.calls && s'.hits == s.hits + [h]
    requires s'.calls == s.calls[h.call := if h.count == 1 then OwesExpire else Compared(p, h.count)]
    ensures CallsInv(p, s')
  {
  }

  lemma IncrCounter<K(!new)>(p: Params<K>, s: State<K>, a: Action<K>)
    requires Inv(p, s) && a.Incr? && Enabled(p, s, a) && NoWrap(Next(p, s, a).hits)
    ensures CounterInv(p, Next(p, s, a))
  {
    IncrCounts(p, s, a);
    var s', n := Next(p, s, a), |s.hits|;
    CountedSnoc(s.hits, s'.hits[n]);
    if Live(s.store, p.key, a.t) {
      assert Opener(s'.hits) == Opener(s.hits);
      CounterGoesOn(p, s, s', a.call);
    } else {
      CounterOpens(p, s, s', a.call);
    }
  }

  lemma CounterGoesOn<K(!new)>(p: Params<K>, s: State<K>, s': State<K>, call: nat)
    requires CounterInv(p, s) && s.now <= s'.now && call !in s.calls && Live(s.store, p.key, s'.now)
    requires s'.hits != [] && Opener(s'.hits) == Opener(s.hits) && s'.hits[|s'.hits| - 1].count > 1
    requires s'.calls == s.calls[call := Compared(p, s'.hits[|s'.hits| - 1].count)]
    requires p.key in s'.store
    requires s'.store[p.key] == Binding(FormatInt(s'.hits[|s'.hits| - 1].count), s.store[p.key].deadline)
    ensures CounterInv(p, s')
  {
    assert Live(s.store, p.key, s.now);
    assert forall c :: Owing(s', c) <==> Owing(s, c);
  }

  lemma CounterOpens<K(!new)>(p: Params<K>, s: State<K>, s': State<K>, call: nat)
    requires CounterInv(p, s) && s.now <= s'.now && !Live(s.store, p.key, s'.now)
    requires |s'.hits| == |s.hits| + 1 && s'.hits[|s.hits|] == Hit(call, s'.now, 1)
    requires s'.calls == s.calls[call := OwesExpire]
    requires p.key in s'.store && s'.store[p.key] == Binding(FormatInt(1), None)
    ensures CounterInv(p, s')
  {
    assert Opening(s'.hits) == |s.hits|;
    assert Owing(s', call);
    assert forall c :: Owing(s', c) && c != call ==> Owing(s, c);
  }

  lemma ExpireKeeps<K(!new)>(p: Params<K>, s: State<K>, a: Action<K>)
    requires p.window > 0 && CounterInv(p, s) && a.Expire? && Enabled(p, s, a)
    ensures CounterInv(p, Next(p, s, a))
  {
    var s' := Next(p, s, a);
    assert Owing(s, a.call);
    assert s'.store[p.key] == s.store[p.key].(deadline := Some(a.t1 + p.window));
    assert forall c :: Owing(s', c) ==> Owing(s, c);
  }

  lemma TTLKeeps<K(!new)>(p: Params<K>, s: State<K>, a: Action<K>)
    requires p.window > 0 && CounterInv(p, s) && a.TTL? && Enabled(p, s, a)
    ensures CounterInv(p, Next(p, s, a))
  {
    var s' := Next(p, s, a);
    assert forall c :: Owing(s', c) <==> Owing(s, c);
  }

  lemma OtherKeeps<K(!new)>(p: Params<K>, s: State<K>, a: Action<K>)
    requires CounterInv(p, s) && a.Other? && Enabled(p, s, a)
    ensures CounterInv(p, Next(p, s, a))
  {
    var s' := Next(p, s, a);
    assert Live(s'.store, p.key, s'.now) ==> Live(s.store, p.key, s.now) && s'.store[p.key] == s.store[p.key];
    assert forall c :: Owing(s', c) <==> Owing(s, c);
  }

  lemma StepKeeps<K(!new)>(p: Params<K>, s: State<K>, a: Action<K>)
    requires Inv(p, s) && Enabled(p, s, a) && NoWrap(Next(p, s, a).hits)
    ensures Inv(p, Next(p, s, a))
  {
    BaseKept(p, s, a);
    match a
    case Incr(_, _) =>
      IncrCounts(p, s, a);
      IncrWindows(p, s, a);
      IncrCounter(p, s, a);
    case Expire(_, _, _) => ExpireKeeps(p, s, a);
    case TTL(_, _, _) => TTLKeeps(p, s, a);
    case Other(_) => OtherKeeps(p, s, a);
  }

  // --- Whole runs ---

  ghost predicate IsRun<K(!new)>(p: Params<K>, ss: seq<State<K>>, acts: seq<Action<K>>) {
    && |ss| == |acts| + 1 && Init(p, ss[0])
    && (forall i :: 0 <= i < |acts| ==> Enabled(p, ss[i], acts[i]) && ss[i + 1] == Next(p, ss[i], acts[i]))
  }

  lemma {:induction false} RunBase<K(!new)>(p: Params<K>, ss: seq<State<K>>, acts: seq<Action<K>>, n: nat)
    requires IsRun(p, ss, acts) && n < |ss|
    ensures Base(p, ss[n])
  {
    if n > 0 {
      RunBase(p, ss, acts, n - 1);
      BaseKept(p, ss[n - 1], acts[n - 1]);
    }
  }

  // Hits are only ever appended.
  lemma {:induction false} RunInv<K(!new)>(p: Params<K>, ss: seq<State<K>>, acts: seq<Action<K>>, n: nat)
    requires IsRun(p, ss, acts) && n < |ss| && NoWrap(ss[n].hits)
    ensures Inv(p, ss[n])
  {
    if n > 0 {
      assert ss[n] == Next(p, ss[n - 1], acts[n - 1]);
      assert ss[n - 1].hits <= ss[n].hits;
      assert NoWrap(ss[n - 1].hits);
      RunInv(p, ss, acts, n - 1);
      StepKeeps(p, ss[n - 1], acts[n - 1]);
    }
  }

  // In every interleaving the live counter lacks a deadline if and only if exactly
  // one call, the one that opened the window, has yet to set it.
  lemma UnarmedIffOwed<K(!new)>(p: Params<K>, ss: seq<State<K>>, acts: seq<Action<K>>, n: nat)
    requires IsRun(p, ss, acts) && n < |ss| && NoWrap(ss[n].hits)
    ensures Unarmed(p, ss[n]) <==> exists call :: Owing(ss[n], call)
    ensures forall c, d :: Owing(ss[n], c) && Owing(ss[n], d) ==> c == d
  {
    RunInv(p, ss, acts, n);
  }

  // Every denial, in every interleaving, reports whole seconds between none and the window.
  lemma RetryAfterSound<K(!new)>(p: Params<K>, ss: seq<State<K>>, acts: seq<Action<K>>, n: nat, call: nat)
    requires IsRun(p, ss, acts) && n < |ss|
    requires call in ss[n].calls && ss[n].calls[call].Returned?
    ensures 0 <= ss[n].calls[call].verdict.retryAfter <= Seconds(p.window)
  {
    RunBase(p, ss, acts, n);
  }

  // --- Exactness within one window ---

  // The hits from i up to, not including, j are one window: i opens it, and j is the
  // end of the record or opens the next.
  ghost predicate IsWindow(hits: seq<Hit>, i: nat, j: nat) {
    && i < j <= |hits| && hits[i].count == 1
    && (forall k :: i < k < j ==> hits[k].count != 1)
    && (j < |hits| ==> hits[j].count == 1)
  }

  predicate LetThrough(pc: Pc) {
    pc.Returned? && pc.verdict.allowed
  }

  // The calls among hits [i, j) that were let through.
  function AllowedCalls<K>(p: Params<K>, s: State<K>, i: nat, j: nat): set<nat>
    requires i <= j <= |s.hits|
  {
    set k | i <= k < j && s.hits[k].call in s.calls
            && LetThrough(s.calls[s.hits[k].call]) :: s.hits[k].call
  }

  function Min(a: int, b: int): int {
    if a < b then a else b
  }

  lemma {:induction false} CountsInWindow(hits: seq<Hit>, i: nat, j: nat, k: nat)
    requires Tally(hits) && IsWindow(hits, i, j) && i <= k < j && k - i <= MAX_INT64
    ensures hits[k].count == if k - i < MAX_INT64 then k - i + 1 else MIN_INT64
  {
    if k > i {
      CountsInWindow(hits, i, j, k - 1);
    }
  }

  lemma {:induction false} CardOfCalls(hits: seq<Hit>, i: nat, j: nat)
    requires i <= j <= |hits|
    requires forall k, l :: 0 <= k < l < |hits| ==> hits[k].call != hits[l].call
    ensures |set k | i <= k < j :: hits[k].call| == j - i
  {
    var all := set k | i <= k < j :: hits[k].call;
    if i < j {
      CardOfCalls(hits, i, j - 1);
      var fewer := set k | i <= k < j - 1 :: hits[k].call;
      assert all == fewer + {hits[j - 1].call};
    } else {
      assert all == {};
    }
  }

  lemma WindowDecides<K>(p: Params<K>, s: State<K>, i: nat, j: nat, k: nat)
    requires Base(p, s) && IsWindow(s.hits, i, j) && i <= k < j && k - i <= MAX_INT64
    requires s.calls[s.hits[k].call].Returned? && 0 <= p.max <= MAX_INT64
    ensures LetThrough(s.calls[s.hits[k].call]) <==> k - i < p.max || k - i == MAX_INT64
  {
    CountsInWindow(s.hits, i, j, k);
    assert Decided(p.max, s.calls[s.hits[k].call], s.hits[k].count);
  }

  lemma ExactWithin<K>(p: Params<K>, s: State<K>, i: nat, j: nat)
    requires Base(p, s) && IsWindow(s.hits, i, j) && j - i <= MAX_INT64 && 0 <= p.max <= MAX_INT64
    requires forall k :: i <= k < j ==> s.calls[s.hits[k].call].Returned?
    ensures |AllowedCalls(p, s, i, j)| == Min(j - i, p.max)
  {
    var m := i + Min(j - i, p.max);
    forall k | i <= k < j
      ensures LetThrough(s.calls[s.hits[k].call]) <==> k < m
    {
      WindowDecides(p, s, i, j, k);
    }
    assert AllowedCalls(p, s, i, j) == set k | i <= k < m :: s.hits[k].call;
    CardOfCalls(s.hits, i, m);
  }

  // n different calls, and one more that comes after them.
  lemma OneMoreCall(hits: seq<Hit>, i: nat, m: nat, w: nat, all: set<nat>)
    requires i <= m <= w < |hits|
    requires forall k, l :: 0 <= k < l < |hits| ==> hits[k].call != hits[l].call
    requires hits[w].call in all && forall k :: i <= k < m ==> hits[k].call in all
    ensures |all| > m - i
  {
    var first := set k | i <= k < m :: hits[k].call;
    CardOfCalls(hits, i, m);
    assert hits[w].call !in first;
    SubsetCard(first + {hits[w].call}, all);
  }

  // The event after the largest count is let through on top of the others.
  lemma OneTooMany<K>(p: Params<K>, s: State<K>, i: nat, j: nat)
    requires Base(p, s) && IsWindow(s.hits, i, j) && j - i > MAX_INT64 && 0 <= p.max <= MAX_INT64
    requires forall k :: i <= k < j ==> s.calls[s.hits[k].call].Returned?
    ensures |AllowedCalls(p, s, i, j)| > p.max
  {
    forall k | i <= k < i + p.max || k == i + MAX_INT64
      ensures s.hits[k].call in AllowedCalls(p, s, i, j)
    {
      WindowDecides(p, s, i, j, k);
    }
    OneMoreCall(s.hits, i, i + p.max, i + MAX_INT64, AllowedCalls(p, s, i, j));
  }

  lemma {:induction false} SubsetCard(a: set<nat>, b: set<nat>)
    requires a <= b
    ensures |a| <= |b|
  {
    if a != {} {
      var x :| x in a;
      SubsetCard(a - {x}, b - {x});
    }
  }

  // If n calls hit one window and none of them is still in flight, exactly min(n, max)
  // of them were let through, whatever the interleaving, if and only if n is at most
  // the largest int64: the event after that is counted negative and let through.
  lemma ExactlyMax<K(!new)>(p: Params<K>, ss: seq<State<K>>, acts: seq<Action<K>>, n: nat, i: nat, j: nat)
    requires IsRun(p, ss, acts) && n < |ss| && 0 <= p.max <= MAX_INT64 && IsWindow(ss[n].hits, i, j)
    requires forall k :: i <= k < j && ss[n].hits[k].call in ss[n].calls ==> ss[n].calls[ss[n].hits[k].call].Returned?
    ensures |AllowedCalls(p, ss[n], i, j)| == Min(j - i, p.max) <==> j - i <= MAX_INT64
  {
    RunBase(p, ss, acts, n);
    if j - i <= MAX_INT64 {
      ExactWithin(p, ss[n], i, j);
    } else {
      OneTooMany(p, ss[n], i, j);
    }
  }

  // --- Any interval of time ---

  predicate Within(h: Hit, a: int, b: int) {
    a <= h.at <= b
  }

  // Hits among the first n that fall in [a, b] and stay within the cap.
  function Passed(hits: seq<Hit>, max: int, a: int, b: int, n: nat): nat
    requires n <= |hits|
  {
    if n == 0 then 0
    else Passed(hits, max, a, b, n - 1) + if Within(hits[n - 1], a, b) && hits[n - 1].count <= max then 1 else 0
  }

  // Windows opened in [a, b] by the first n hits.
  function Opened(hits: seq<Hit>, a: int, b: int, n: nat): nat
    requires n <= |hits|
  {
    if n == 0 then 0
    else Opened(hits, a, b, n - 1) + if Within(hits[n - 1], a, b) && hits[n - 1].count == 1 then 1 else 0
  }

  // Each window opened inside the interval passes at most max, and so does the one
  // that was open when the interval began.
  lemma {:induction false} PassedPerWindow(hits: seq<Hit>, window: int, max: nat, a: int, b: int, n: nat)
    requires Windows(hits, window) && n <= |hits|
    ensures Passed(hits, max, a, b, n) <= max * (Opened(hits, a, b, n) + 1)
    ensures n > 0 && hits[n - 1].at < a ==> Passed(hits, max, a, b, n) == 0
    ensures n > 0 && hits[n - 1].at <= b ==>
              Passed(hits, max, a, b, n) <= max * Opened(hits, a, b, n) + Min(max, hits[n - 1].count)
  {
    if n > 0 {
      PassedPerWindow(hits, window, max, a, b, n - 1);
      var before, now := Opened(hits, a, b, n - 1), Opened(hits, a, b, n);
      assert now == before + 1 ==> max * (now + 1) == max * (before + 1) + max && max * now == max * before + max;
      if n > 1 {
        assert hits[n - 2].at <= hits[n - 1].at;
      }
    }
  }

  // k * step, by repeated addition.
  function Times(k: nat, step: int): int {
    if k == 0 then 0 else Times(k - 1, step) + step
  }

  lemma {:induction false} TimesIsProduct(k: nat, step: int)
    ensures Times(k, step) == k * step
  {
    if k > 0 {
      TimesIsProduct(k - 1, step);
      assert k * step == (k - 1) * step + step;
    }
  }

  // Windows opened in [a, b] lie more than a window's length apart, so that few fit
  // before any moment x that is itself that far after the last of them.
  lemma {:induction false} OpenedApart(hits: seq<Hit>, window: int, a: int, b: int, n: nat, x: int)
    requires Windows(hits, window) && window > 0 && n <= |hits| && a <= x
    requires forall i :: 0 <= i < n && hits[i].count == 1 ==> hits[i].at + window < x
    ensures a + Times(Opened(hits, a, b, n), window + 1) <= x
  {
    if n > 0 {
      var h := hits[n - 1];
      if Within(h, a, b) && h.count == 1 {
        OpenedApart(hits, window, a, b, n - 1, h.at);
      } else {
        OpenedApart(hits, window, a, b, n - 1, x);
      }
    }
  }

  lemma {:induction false} OpenedFit(hits: seq<Hit>, window: int, a: int, b: int, n: nat)
    requires Windows(hits, window) && window > 0 && n <= |hits| && a <= b
    ensures Opened(hits, a, b, n) > 0 ==> a + Times(Opened(hits, a, b, n) - 1, window + 1) <= b
  {
    if n > 0 {
      var h := hits[n - 1];
      if Within(h, a, b) && h.count == 1 {
        OpenedApart(hits, window, a, b, n - 1, h.at);
      } else {
        OpenedFit(hits, window, a, b, n - 1);
      }
    }
  }

  // The hits in [a, b] whose calls were let through, by position in the record.
  function LetThroughBetween<K>(s: State<K>, a: int, b: int, n: nat): set<nat>
    requires n <= |s.hits|
  {
    set k | 0 <= k < n && Within(s.hits[k], a, b) && s.hits[k].call in s.calls && LetThrough(s.calls[s.hits[k].call])
  }

  lemma LetThroughSnoc<K>(s: State<K>, a: int, b: int, n: nat)
    requires n < |s.hits|
    ensures var h := s.hits[n];
      LetThroughBetween(s, a, b, n + 1) == LetThroughBetween(s, a, b, n)
        + if Within(h, a, b) && h.call in s.calls && LetThrough(s.calls[h.call]) then {n} else {}
  {
  }

  lemma {:induction false} LetThroughPassed<K>(p: Params<K>, s: State<K>, a: int, b: int, n: nat)
    requires CallsInv(p, s) && n <= |s.hits|
    ensures |LetThroughBetween(s, a, b, n)| <= Passed(s.hits, p.max, a, b, n)
  {
    if n > 0 {
      LetThroughPassed(p, s, a, b, n - 1);
      LetThroughSnoc(s, a, b, n - 1);
      assert Decided(p.max, s.calls[s.hits[n - 1].call], s.hits[n - 1].count);
    } else {
      assert LetThroughBetween(s, a, b, n) == {};
    }
  }

  lemma FitsIn(k: nat, step: int, length: nat)
    requires step > 0 && (k > 0 ==> (k - 1) * step <= length)
    ensures k <= length / step + 1
    ensures length < step ==> k <= 1
  {
    if k > 0 {
      QuotientAtLeast(k - 1, step, length);
    }
  }

  lemma QuotientAtLeast(q: nat, step: int, length: nat)
    requires step > 0 && q * step <= length
    ensures q <= length / step
  {
    if q > length / step {
      Scale(step, length / step + 1, q);  // would exceed length
    }
  }

  lemma Scale(c: nat, x: int, y: int)
    requires x <= y
    ensures c * x <= c * y
  {
  }

  // Whatever the interleaving of calls, sweeps, other traffic and time: the calls for
  // the key that are counted in [a, a + length] and let through number at most max
  // for every window that fits, and two more. That is 2 * max when the interval is no
  // longer than the window.
  lemma IntervalBound<K(!new)>(p: Params<K>, ss: seq<State<K>>, acts: seq<Action<K>>, n: nat, a: int, length: nat)
    requires IsRun(p, ss, acts) && n < |ss| && NoWrap(ss[n].hits) && p.max >= 0
    ensures |LetThroughBetween(ss[n], a, a + length, |ss[n].hits|)| <= p.max * (length / (p.window + 1) + 2)
    ensures length <= p.window ==> |LetThroughBetween(ss[n], a, a + length, |ss[n].hits|)| <= 2 * p.max
  {
    RunInv(p, ss, acts, n);
    StateBound(p, ss[n], a, length);
  }

  lemma StateBound<K>(p: Params<K>, s: State<K>, a: int, length: nat)
    requires p.window > 0 && p.max >= 0 && Windows(s.hits, p.window) && CallsInv(p, s)
    ensures |LetThroughBetween(s, a, a + length, |s.hits|)| <= p.max * (length / (p.window + 1) + 2)
    ensures length <= p.window ==> |LetThroughBetween(s, a, a + length, |s.hits|)| <= 2 * p.max
  {
    var b, all := a + length, |s.hits|;
    LetThroughPassed(p, s, a, b, all);
    PassedPerWindow(s.hits, p.window, p.max, a, b, all);
    OpenedFit(s.hits, p.window, a, b, all);
    var openings := Opened(s.hits, a, b, all);
    if openings > 0 {
      TimesIsProduct(openings - 1, p.window + 1);
    }
    FitsIn(openings, p.window + 1, length);
    Scale(p.max, openings + 1, length / (p.window + 1) + 2);
    if length <= p.window {
      Scale(p.max, openings + 1, 2);
    }
  }
}
