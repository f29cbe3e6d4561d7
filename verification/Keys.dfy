/** One string-keyed store holds everything short-lived. This module gives every
    kind of key its own constructor, shows that the key builders keep the kinds
    apart, and concludes that the string store behaves as one store keyed by these
    constructors. */
module Keys {
  import opened Wrappers
  import opened Text
  import opened TimedStore

  datatype Key =
    | Location(user: string)
    | Activity(user: string, kind: string)
    | WebCode(code: string)
    | Auth(hash: string)
    | Webhook(user: string)
    | OpenClaw(user: string)
    | OAuthCode(code: string)
    | SignInRate(ip: string)
    | GetRate(user: string)
    | PostRate(user: string)

  function Prefix(k: Key): string {
    match k
    case Location(_) => "loc:"
    case Activity(_, _) => "intg:"
    case WebCode(_) => "webcode:"
    case Auth(_) => "auth:"
    case Webhook(_) => "wh:"
    case OpenClaw(_) => "oc:"
    case OAuthCode(_) => "oauth:code:"
    case SignInRate(_) => "rl:ip:"
    case GetRate(_) => "rl:loc:get:"
    case PostRate(_) => "rl:loc:post:"
  }

  function Suffix(k: Key): string {
    match k
    case Location(u) => u
    case Activity(u, kind) => u + ":" + kind
    case WebCode(c) => c
    case Auth(h) => h
    case Webhook(u) => u
    case OpenClaw(u) => u
    case OAuthCode(c) => c
    case SignInRate(ip) => ip
    case GetRate(u) => u
    case PostRate(u) => u
  }

  function Render(k: Key): string {
    Prefix(k) + Suffix(k)
  }

  // Integration kinds are fixed words; none contains the separator.
  predicate WellFormedKey(k: Key) {
    k.Activity? ==> k.kind in {"mcp", "webhook", "openclaw", "chatgpt", "api"}
  }

  ghost predicate SameKind(j: Key, k: Key) {
    Prefix(j) == Prefix(k)
  }

  // No builder's prefix starts another builder's keys: the kinds are told apart by
  // one of the characters at positions 0, 1, 3 and 7.
  lemma PrefixesApart(j: Key, k: Key)
    requires Render(j) == Render(k)
    ensures SameKind(j, k)
  {
    var s := Render(j);
    assert forall i :: 0 <= i < |Prefix(j)| ==> s[i] == Prefix(j)[i];
    assert forall i :: 0 <= i < |Prefix(k)| ==> s[i] == Prefix(k)[i];
    assert s[0] == Prefix(j)[0] == Prefix(k)[0];
    assert s[1] == Prefix(j)[1] == Prefix(k)[1];
    if j.SignInRate? || j.GetRate? || j.PostRate? {
      assert s[3] == Prefix(j)[3] == Prefix(k)[3];
      if j.GetRate? || j.PostRate? {
        assert s[7] == Prefix(j)[7] == Prefix(k)[7];
      }
    }
  }

  lemma SuffixDetermined(j: Key, k: Key)
    requires Render(j) == Render(k) && SameKind(j, k)
    ensures Suffix(j) == Suffix(k)
  {
    assert Suffix(j) == Render(j)[|Prefix(j)|..];
    assert Suffix(k) == Render(k)[|Prefix(k)|..];
  }

  lemma RenderInjective(j: Key, k: Key)
    requires WellFormedKey(j) && WellFormedKey(k) && Render(j) == Render(k)
    ensures j == k
  {
    PrefixesApart(j, k);
    SuffixDetermined(j, k);
    if j.Activity? {
      assert Free(j.kind, ':') && Free(k.kind, ':');
      LastSplit(j.user, ':', j.kind, Suffix(j));
      LastSplit(k.user, ':', k.kind, Suffix(k));
    }
  }

  // --- The string store refines a store with typed keys ---

  ghost predicate WellFormedStore(m: Store<Key>) {
    forall k :: k in m ==> WellFormedKey(k)
  }

  ghost predicate Represents(s: Store<string>, m: Store<Key>) {
    && WellFormedStore(m)
    && (forall k :: k in m ==> Render(k) in s && s[Render(k)] == m[k])
    && (forall t :: t in s ==> exists k :: k in m && Render(k) == t)
  }

  function RenderOp(op: Op<Key>): Op<string>
    requires !op.Sweep?
  {
    match op
    case Get(k) => Op.Get(Render(k))
    case Set(k, value, ttl) => Op.Set(Render(k), value, ttl)
    case GetDel(k) => Op.GetDel(Render(k))
    case Del(k) => Op.Del(Render(k))
    case Incr(k) => Op.Incr(Render(k))
    case Expire(k, ttl) => Op.Expire(Render(k), ttl)
    case TTL(k) => Op.TTL(Render(k))
  }

  lemma RendersOnlyItself(s: Store<string>, m: Store<Key>, k: Key)
    requires Represents(s, m) && WellFormedKey(k)
    ensures Render(k) in s <==> k in m
    ensures forall j | WellFormedKey(j) && Render(j) == Render(k) :: j == k
  {
    forall j | WellFormedKey(j) && Render(j) == Render(k)
      ensures j == k
    {
      RenderInjective(j, k);
    }
    if Render(k) in s {
      var j :| j in m && Render(j) == Render(k);
    }
  }

  lemma RepresentsPut(s: Store<string>, m: Store<Key>, k: Key, b: Binding)
    requires Represents(s, m) && WellFormedKey(k)
    ensures Represents(s[Render(k) := b], m[k := b])
  {
    RendersOnlyItself(s, m, k);
    var s', m' := s[Render(k) := b], m[k := b];
    forall t | t in s'
      ensures exists j :: j in m' && Render(j) == t
    {
      if t == Render(k) {
        assert k in m';
      } else {
        var j :| j in m && Render(j) == t;
        assert j in m';
      }
    }
  }

  lemma RepresentsDrop(s: Store<string>, m: Store<Key>, k: Key)
    requires Represents(s, m) && WellFormedKey(k)
    ensures Represents(s - {Render(k)}, m - {k})
  {
    RendersOnlyItself(s, m, k);
    var s', m' := s - {Render(k)}, m - {k};
    forall t | t in s'
      ensures exists j :: j in m' && Render(j) == t
    {
      var j :| j in m && Render(j) == t;
      assert j in m';
    }
  }

  lemma SameBinding(s: Store<string>, m: Store<Key>, k: Key)
    requires Represents(s, m) && WellFormedKey(k)
    ensures Render(k) in s <==> k in m
    ensures k in m ==> s[Render(k)] == m[k]
  {
    RendersOnlyItself(s, m, k);
  }

  // What a step on a built key does to the string store, it does to the typed one, and
  // it answers the same.
  ghost predicate Mirrors(s: Store<string>, m: Store<Key>, op: Op<Key>, t0: int, t1: int)
    requires !op.Sweep?
  {
    var (s', a) := Step(s, Event(RenderOp(op), t0, t1));
    var (m', b) := Step(m, Event(op, t0, t1));
    a == b && Represents(s', m')
  }

  lemma ReadMirrors(s: Store<string>, m: Store<Key>, op: Op<Key>, t0: int, t1: int)
    requires Represents(s, m) && (op.Get? || op.TTL?) && WellFormedKey(op.key)
    ensures Mirrors(s, m, op, t0, t1)
  {
    SameBinding(s, m, op.key);
    if op.Get? {
      RepresentsDrop(s, m, op.key);
    }
  }

  lemma DeleteMirrors(s: Store<string>, m: Store<Key>, op: Op<Key>, t0: int, t1: int)
    requires Represents(s, m) && (op.GetDel? || op.Del?) && WellFormedKey(op.key)
    ensures Mirrors(s, m, op, t0, t1)
  {
    SameBinding(s, m, op.key);
    RepresentsDrop(s, m, op.key);
  }

  lemma SetMirrors(s: Store<string>, m: Store<Key>, op: Op<Key>, t0: int, t1: int)
    requires Represents(s, m) && op.Set? && WellFormedKey(op.key)
    ensures Mirrors(s, m, op, t0, t1)
  {
    RepresentsPut(s, m, op.key, Put(m, op.key, op.value, op.ttl, t0)[op.key]);
  }

  lemma IncrMirrors(s: Store<string>, m: Store<Key>, op: Op<Key>, t0: int, t1: int)
    requires Represents(s, m) && op.Incr? && WellFormedKey(op.key)
    ensures Mirrors(s, m, op, t0, t1)
  {
    var k := op.key;
    SameBinding(s, m, k);
    RepresentsPut(s, m, k, if Live(m, k, t0) then Incremented(m[k]) else Binding("1", None));
  }

  lemma ExpireMirrors(s: Store<string>, m: Store<Key>, op: Op<Key>, t0: int, t1: int)
    requires Represents(s, m) && op.Expire? && WellFormedKey(op.key)
    ensures Mirrors(s, m, op, t0, t1)
  {
    var k := op.key;
    SameBinding(s, m, k);
    var f, e := Event(RenderOp(op), t0, t1), Event(op, t0, t1);
    if Live(m, k, t0) {
      var b := m[k].(deadline := Some(t1 + op.ttl));
      assert Step(s, f) == (s[Render(k) := b], Ok) && Step(m, e) == (m[k := b], Ok);
      RepresentsPut(s, m, k, b);
    } else {
      assert Step(s, f) == (s, Ok) && Step(m, e) == (m, Ok);
    }
  }

  // No builder's key is ever touched through another builder: every operation on a
  // built key is mirrored by the store with typed keys.
  lemma StringStoreRefinesTyped(s: Store<string>, m: Store<Key>, op: Op<Key>, t0: int, t1: int)
    requires Represents(s, m) && !op.Sweep? && WellFormedKey(op.key)
    ensures Mirrors(s, m, op, t0, t1)
  {
    if op.Get? || op.TTL? {
      ReadMirrors(s, m, op, t0, t1);
    } else if op.GetDel? || op.Del? {
      DeleteMirrors(s, m, op, t0, t1);
    } else if op.Set? {
      SetMirrors(s, m, op, t0, t1);
    } else if op.Incr? {
      IncrMirrors(s, m, op, t0, t1);
    } else {
      ExpireMirrors(s, m, op, t0, t1);
    }
  }

  function KeyReadings(readings: string -> int): Key -> int {
    k => readings(Render(k))
  }

  // A sweep of the string store is a sweep of the typed one.
  lemma SweepRefinesTyped(s: Store<string>, m: Store<Key>, readings: string -> int)
    requires Represents(s, m)
    ensures Represents(Swept(s, readings), Swept(m, KeyReadings(readings)))
  {
    var s', m' := Swept(s, readings), Swept(m, KeyReadings(readings));
    forall t | t in s'
      ensures exists k :: k in m' && Render(k) == t
    {
      var k :| k in m && Render(k) == t;
      assert k in m';
    }
  }

  // --- Whole sequences ---

  function Final<K>(m: Store<K>, es: seq<Event<K>>): Store<K>
    decreases |es|
  {
    if es == [] then m else Final(Step(m, es[0]).0, es[1..])
  }

  // The same operation on the two stores, at the same readings of the clock.
  ghost predicate SameEvent(f: Event<string>, e: Event<Key>) {
    && f.t0 == e.t0 && f.t1 == e.t1
    && if e.op.Sweep? then f.op.Sweep? && forall k :: e.op.readings(k) == f.op.readings(Render(k))
       else WellFormedKey(e.op.key) && f.op == RenderOp(e.op)
  }

  lemma EventRefinesTyped(s: Store<string>, m: Store<Key>, f: Event<string>, e: Event<Key>)
    requires Represents(s, m) && SameEvent(f, e)
    ensures Represents(Step(s, f).0, Step(m, e).0) && Step(s, f).1 == Step(m, e).1
  {
    if e.op.Sweep? {
      SweepRefinesTyped(s, m, f.op.readings);
      assert Swept(m, KeyReadings(f.op.readings)) == Swept(m, e.op.readings);
    } else {
      StringStoreRefinesTyped(s, m, e.op, e.t0, e.t1);
    }
  }

  // For every sequence of operations on built keys, by any handlers in any order and with
  // sweeps anywhere, the string store answers as the store with typed keys, and the two
  // still correspond at the end.
  lemma {:induction false} RunRefinesTyped(s: Store<string>, m: Store<Key>, fs: seq<Event<string>>, es: seq<Event<Key>>)
    requires Represents(s, m) && |fs| == |es| && forall i :: 0 <= i < |es| ==> SameEvent(fs[i], es[i])
    ensures Run(s, fs) == Run(m, es) && Represents(Final(s, fs), Final(m, es))
    decreases |es|
  {
    if es != [] {
      EventRefinesTyped(s, m, fs[0], es[0]);
      RunRefinesTyped(Step(s, fs[0]).0, Step(m, es[0]).0, fs[1..], es[1..]);
    }
  }
}
