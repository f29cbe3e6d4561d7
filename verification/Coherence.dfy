/** When the server with its caches stands for the server without them, and what
    keeps it so. */
module Coherence {
  import opened Wrappers
  import opened TimedStore
  import opened Keys
  import opened Database
  import opened Codecs
  import opened Server
  import opened Staleness
  import Reference
  import History

  // Every live cache entry holds the text of what the tables hold now.
  ghost predicate AuthCoherent(db: Tables, m: Store<Key>, now: int) {
    forall hash :: Live(m, Auth(hash), now) ==> hash in db.tokens && m[Auth(hash)].value == AuthText(db.tokens[hash])
  }

  ghost predicate HookCoherent(db: Tables, m: Store<Key>, now: int) {
    forall user :: Live(m, Webhook(user), now) ==> m[Webhook(user)].value == HookText(Lookup(db.hooks, user))
  }

  ghost predicate DestCoherent(json: Json, db: Tables, m: Store<Key>, now: int) {
    forall user :: Live(m, OpenClaw(user), now) ==> m[OpenClaw(user)].value == DestText(json, Lookup(db.dests, user))
  }

  // Apart from the caches the two stores answer alike.
  ghost predicate SameData(m: Store<Key>, n: Store<Key>, now: int) {
    forall k: Key {:trigger Live(m, k, now)} {:trigger Live(n, k, now)} :: !CacheKey(k) ==>
      (Live(m, k, now) <==> Live(n, k, now)) && (Live(m, k, now) ==> m[k] == n[k])
  }

  ghost predicate Stands(json: Json, db: Tables, m: Store<Key>, r: Reference.Ref, now: int) {
    && db == r.db && Reference.TablesOk(db)
    && AuthCoherent(db, m, now) && HookCoherent(db, m, now) && DestCoherent(json, db, m, now)
    && SameData(m, r.mem, now)
  }

  // What the uncached server does not have, this one does not either.
  lemma AbsentStands(json: Json, db: Tables, m: Store<Key>, r: Reference.Ref, k: Key, now: int)
    requires Stands(json, db, m, r, now) && !CacheKey(k) && k !in r.mem
    ensures !Live(m, k, now)
  {
  }

  // What is left of a binding made earlier.
  function Lasting(value: string, at: int, ttl: int, now: int): Option<Binding> {
    if now <= at + ttl then Some(Binding(value, Some(at + ttl))) else None
  }

  function OneDay(value: string, at: int, now: int): Option<Binding> {
    Lasting(value, at, History.ONE_DAY, now)
  }

  lemma LocationStands(json: Json, db: Tables, m: Store<Key>, r: Reference.Ref, user: string, body: string, at: int,
                       now: int)
    requires Stands(json, db, m, Reference.Do(r, Op.Set(Location(user), body, LOCATION_TTL), at), now)
    ensures (if Live(m, Location(user), now) then Some(m[Location(user)]) else None) == OneDay(body, at, now)
  {
    var r' := Reference.Do(r, Op.Set(Location(user), body, LOCATION_TTL), at);
    assert Live(m, Location(user), now) <==> Live(r'.mem, Location(user), now);
  }

  // What a live copy reads back as.
  lemma HookCopy(json: Json, db: Tables, m: Store<Key>, r: Reference.Ref, user: string, now: int)
    requires Stands(json, db, m, r, now) && Live(m, Webhook(user), now)
    ensures ParseHook(m[Webhook(user)].value) == Some(Lookup(db.hooks, user))
  {
    HookReadsBack(Lookup(db.hooks, user));
  }

  lemma DestCopy(json: Json, db: Tables, m: Store<Key>, r: Reference.Ref, user: string, now: int)
    requires Stands(json, db, m, r, now) && Live(m, OpenClaw(user), now) && Faithful(json)
    ensures ParseDest(json, m[OpenClaw(user)].value) == Some(Lookup(db.dests, user))
  {
    DestRoundTrip(json, Lookup(db.dests, user));
  }

  // Between the two stores these keys were dropped, and nothing else happened but that
  // expired bindings may have gone.
  ghost predicate Lost(m: Store<Key>, m': Store<Key>, now: int, dropped: set<Key>) {
    && (forall k :: k in m' ==> k in m && m'[k] == m[k] && k !in dropped)
    && (forall k :: k in m && Live(m, k, now) && k !in dropped ==> k in m')
  }

  lemma LostTransitive(m: Store<Key>, m': Store<Key>, m'': Store<Key>, now: int, later: int, d: set<Key>, e: set<Key>)
    requires Lost(m, m', now, d) && Lost(m', m'', later, e) && now <= later
    ensures Lost(m, m'', later, d + e)
  {
    forall k | k in m && Live(m, k, later) && k !in d + e
      ensures k in m''
    {
      assert Live(m, k, now) && Live(m', k, later);
    }
  }

  lemma DelLost(m: Store<Key>, k: Key, now: int)
    ensures Lost(m, m - {k}, now, {k})
  {
  }

  lemma GetLost(m: Store<Key>, k: Key, now: int)
    ensures Lost(m, Step(m, At(Op.Get(k), now)).0, now, {})
  {
  }

  lemma SweepLost(m: Store<Key>, readings: string -> int, now: int)
    requires forall t :: readings(t) <= now
    ensures Lost(m, Swept(m, KeyReadings(readings)), now, {})
  {
    assert forall k :: KeyReadings(readings)(k) == readings(Render(k));
  }

  ghost predicate CacheKeys(keys: set<Key>) {
    forall k :: k in keys ==> CacheKey(k)
  }

  lemma LostStands(json: Json, db: Tables, m: Store<Key>, m': Store<Key>, r: Reference.Ref, now: int, dropped: set<Key>)
    requires Stands(json, db, m, r, now) && Lost(m, m', now, dropped) && CacheKeys(dropped)
    ensures Stands(json, db, m', r, now)
  {
    assert forall k :: Live(m', k, now) ==> Live(m, k, now);
  }

  lemma LaterStands(json: Json, db: Tables, m: Store<Key>, r: Reference.Ref, now: int, later: int)
    requires Stands(json, db, m, r, now) && now <= later
    ensures Stands(json, db, m, r, later)
  {
    assert forall k :: Live(m, k, later) ==> Live(m, k, now);
    assert forall k :: Live(r.mem, k, later) ==> Live(r.mem, k, now);
  }

  // An operation on a key that is no cache entry, done to both.
  lemma SameStepStands(json: Json, db: Tables, m: Store<Key>, r: Reference.Ref, op: Op<Key>, now: int)
    requires Stands(json, db, m, r, now) && (op.Get? || op.Set? || op.GetDel? || op.Del?) && !CacheKey(op.key)
    ensures Stands(json, db, Step(m, At(op, now)).0, Reference.Do(r, op, now), now)
    ensures Step(m, At(op, now)).1 == Step(r.mem, At(op, now)).1
  {
    assert Live(m, op.key, now) <==> Live(r.mem, op.key, now);
    var m', n' := Step(m, At(op, now)).0, Step(r.mem, At(op, now)).0;
    assert forall k :: k != op.key ==> (Live(m', k, now) <==> Live(m, k, now));
    assert forall k :: k != op.key ==> (Live(n', k, now) <==> Live(r.mem, k, now));
  }

  lemma AuthFillStands(json: Json, db: Tables, m: Store<Key>, r: Reference.Ref, hash: string, now: int)
    requires Stands(json, db, m, r, now) && hash in db.tokens
    ensures Stands(json, db, Put(m, Auth(hash), AuthText(db.tokens[hash]), CACHE_TTL, now), r, now)
  {
    var m' := Put(m, Auth(hash), AuthText(db.tokens[hash]), CACHE_TTL, now);
    assert forall k :: k != Auth(hash) ==> (Live(m', k, now) <==> Live(m, k, now));
  }

  lemma HookFillStands(json: Json, db: Tables, m: Store<Key>, r: Reference.Ref, user: string, text: string, now: int)
    requires Stands(json, db, m, r, now) && text == HookText(Lookup(db.hooks, user))
    ensures Stands(json, db, Put(m, Webhook(user), text, CACHE_TTL, now), r, now)
  {
    var m' := Put(m, Webhook(user), text, CACHE_TTL, now);
    assert forall k :: k != Webhook(user) ==> (Live(m', k, now) <==> Live(m, k, now));
  }

  lemma DestFillStands(json: Json, db: Tables, m: Store<Key>, r: Reference.Ref, user: string, text: string, now: int)
    requires Stands(json, db, m, r, now) && text == DestText(json, Lookup(db.dests, user))
    ensures Stands(json, db, Put(m, OpenClaw(user), text, CACHE_TTL, now), r, now)
  {
    var m' := Put(m, OpenClaw(user), text, CACHE_TTL, now);
    assert forall k :: k != OpenClaw(user) ==> (Live(m', k, now) <==> Live(m, k, now));
  }

  // The tables change, and with them every cache entry about a row that changed is
  // dropped: what is left still stands for the changed tables.
  lemma ChangeStands(json: Json, db: Tables, m: Store<Key>, db': Tables, m': Store<Key>, r: Reference.Ref, now: int,
                     dropped: set<Key>)
    requires Stands(json, db, m, r, now) && Lost(m, m', now, dropped) && CacheKeys(dropped) && Reference.TablesOk(db')
    requires forall hash :: Auth(hash) !in dropped && hash in db.tokens ==>
               Lookup(db'.tokens, hash) == Lookup(db.tokens, hash)
    requires forall user :: Webhook(user) !in dropped ==> Lookup(db'.hooks, user) == Lookup(db.hooks, user)
    requires forall user :: OpenClaw(user) !in dropped ==> Lookup(db'.dests, user) == Lookup(db.dests, user)
    ensures Stands(json, db', m', r.(db := db'), now)
  {
    LostStands(json, db, m, m', r, now, dropped);
    assert forall k :: Live(m', k, now) ==> Live(m, k, now) && k !in dropped;
  }

  function AuthKeys(hashes: set<string>): set<Key> {
    set h | h in hashes :: Auth(h)
  }

  lemma RotateStands(json: Json, db: Tables, m: Store<Key>, m': Store<Key>, r: Reference.Ref, row: TokenRow,
                     hash: string, now: int)
    requires Stands(json, db, m, r, now) && Rotate(db, row, hash).Some?
    requires Lost(m, m', now, AuthKeys(HashesOf(db, row)))
    ensures Stands(json, Rotate(db, row, hash).value, m', Reference.Issue(r, row, hash).0, now)
  {
    RotateExact(db, row, hash);
    ChangeStands(json, db, m, Rotate(db, row, hash).value, m', r, now, AuthKeys(HashesOf(db, row)));
  }

  function CopiesOf(db: Tables, user: string): set<Key> {
    AuthKeys(TokensOf(db, user)) + {Webhook(user)} + {OpenClaw(user)}
  }

  // DeleteAccount: the user's cache entries, then the location, then the row.
  lemma RemoveStands(json: Json, db: Tables, m: Store<Key>, m1: Store<Key>, m': Store<Key>, r: Reference.Ref,
                     user: string, now: int, later: int)
    requires Stands(json, db, m, r, now) && now <= later
    requires Lost(m, m1, now, CopiesOf(db, user)) && Lost(m1, m', later, {Location(user)})
    ensures Stands(json, RemoveUser(db, user), m',
                   Reference.Do(r.(db := RemoveUser(r.db, user)), Op.Del(Location(user)), later), later)
  {
    var db' := RemoveUser(db, user);
    RemoveUserExact(db, user);
    ChangeStands(json, db, m, db', m1, r, now, CopiesOf(db, user));
    LaterStands(json, db', m1, r.(db := db'), now, later);
    SameStepStands(json, db', m1, r.(db := db'), Op.Del(Location(user)), later);
    var r' := Reference.Do(r.(db := db'), Op.Del(Location(user)), later);
    assert Lost(m1 - {Location(user)}, m', later, {});
    LostStands(json, db', m1 - {Location(user)}, m', r', later, {});
  }

  lemma HookChangeStands(json: Json, db: Tables, m: Store<Key>, db': Tables, m': Store<Key>, r: Reference.Ref,
                         user: string, now: int)
    requires Stands(json, db, m, r, now) && Reference.TablesOk(db') && Lost(m, m', now, {Webhook(user)})
    requires db' == db.(hooks := db'.hooks) && forall u :: u != user ==> Lookup(db'.hooks, u) == Lookup(db.hooks, u)
    ensures Stands(json, db', m', r.(db := db'), now)
  {
    ChangeStands(json, db, m, db', m', r, now, {Webhook(user)});
  }

  lemma DestChangeStands(json: Json, db: Tables, m: Store<Key>, db': Tables, m': Store<Key>, r: Reference.Ref,
                         user: string, now: int)
    requires Stands(json, db, m, r, now) && Reference.TablesOk(db') && Lost(m, m', now, {OpenClaw(user)})
    requires db' == db.(dests := db'.dests) && forall u :: u != user ==> Lookup(db'.dests, u) == Lookup(db.dests, u)
    ensures Stands(json, db', m', r.(db := db'), now)
  {
    ChangeStands(json, db, m, db', m', r, now, {OpenClaw(user)});
  }

  // New users and identities are cached nowhere.
  lemma AccountChangeStands(json: Json, db: Tables, m: Store<Key>, db': Tables, r: Reference.Ref, now: int)
    requires Stands(json, db, m, r, now) && Reference.TablesOk(db')
    requires db'.tokens == db.tokens && db'.hooks == db.hooks && db'.dests == db.dests
    ensures Stands(json, db', m, r.(db := db'), now)
  {
    ChangeStands(json, db, m, db', m, r, now, {});
  }
}
