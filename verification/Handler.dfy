/** The handlers, run one request after another on mutable tables and the mutable
    store, with their caches. Time passes, and the background eviction may run, before
    every single store call. Each handler is proved to answer what the uncached server
    of `Reference` answers, for any state of the caches it may find. */
module Handlers {
  import opened Wrappers
  import opened TimedStore
  import opened Keys
  import opened KeyedStores
  import opened Database
  import opened Codecs
  import opened Server
  import opened Staleness
  import opened Coherence
  import opened Reference
  import opened WebCodes
  import opened History

  // What happens before a store call: time passes, and the store may be swept, the
  // expiry of each entry being tested some time before the pause ends.
  datatype Pause = Pause(wait: nat, sweep: Option<string -> nat>)

  // A text that says something is in the store.
  predicate HeldText(m: Store<Key>, k: Key, now: int) {
    Live(m, k, now) && m[k].value != ""
  }

  // The tables with this user, bound to this identity.
  function Joined(t: Tables, id: Identity, user: string): Tables {
    if id in t.identities then t
    else t.(users := t.users + {user}, identities := t.identities[id := user])
  }

  // The times of successive requests, within an interval.
  predicate InOrder(ts: seq<Times>, from: int, to: int) {
    && from <= to
    && (forall i :: 0 <= i < |ts| ==> from <= ts[i].first <= ts[i].second <= to)
    && (forall i, j :: 0 <= i < j < |ts| ==> ts[i].second <= ts[j].first)
  }

  lemma InOrderSnoc(ts: seq<Times>, t: Times, from: int, mid: int, to: int)
    requires InOrder(ts, from, mid) && mid <= t.first <= t.second <= to
    ensures InOrder(ts + [t], from, to)
  {
  }

  lemma ServedSnoc(cfg: Config, r: Ref, qs: seq<Request>, i: nat, ts: seq<Times>, t: Times, at: Ref,
                   responses: seq<Response>)
    requires i < |qs| && |ts| == i && HandleAll(cfg, r, qs[..i], ts) == (at, responses)
    ensures var (at', response) := Reference.Handle(cfg, at, qs[i], t);
      HandleAll(cfg, r, qs[..i + 1], ts + [t]) == (at', responses + [response])
  {
    HandleAllSnoc(cfg, r, qs[..i], ts, qs[i], t);
    assert qs[..i] + [qs[i]] == qs[..i + 1];
  }

  class Handler {
    const cfg: Config
    const kv: KeyedStore
    const schedule: nat -> Pause  // the environment's choices
    var db: Tables
    var now: int                  // the last reading of the clock
    var pauses: nat               // how many there have been

    ghost predicate Valid()
      reads this, kv, kv.store, kv.store.Repr
    {
      kv.Valid() && this !in kv.Footprint() && Faithful(cfg.json)
    }

    // This server, with whatever its caches hold, stands for the uncached one.
    ghost predicate StandsFor(r: Ref)
      requires Valid()
      reads this, kv, kv.store, kv.store.Repr
    {
      Stands(cfg.json, db, kv.typed, r, now)
    }

    // What a reader of the store would find now.
    ghost function Held(k: Key): Option<Binding>
      reads this, kv
    {
      if Live(kv.typed, k, now) then Some(kv.typed[k]) else None
    }

    constructor (cfg: Config, kv: KeyedStore, schedule: nat -> Pause, db: Tables, now: int)
      requires kv.Valid() && kv.typed == map[] && Faithful(cfg.json)
      requires WellFormed(db) && OnePerKind(db)
      ensures Valid() && this.cfg == cfg && this.kv == kv && this.schedule == schedule
      ensures this.db == db && this.now == now
      ensures StandsFor(Ref(db, map[]))
    {
      this.cfg, this.kv, this.schedule, this.db, this.now, this.pauses := cfg, kv, schedule, db, now, 0;
    }

    // --- Store calls, each after a pause ---

    method Wait()
      requires Valid()
      modifies `now, `pauses, kv.Footprint()
      ensures Valid() && fresh(kv.Footprint() - old(kv.Footprint())) && old(now) <= now
      ensures Lost(old(kv.typed), kv.typed, now, {})
    {
      var p := schedule(pauses);
      var at := now + p.wait;
      now, pauses := at, pauses + 1;
      if p.sweep.Some? {
        var before := p.sweep.value;
        var readings: string -> int := t => at - before(t);
        SweepLost(kv.typed, readings, at);
        kv.Cleanup(readings);
      }
    }

    method Read(k: Key) returns (value: Option<string>)
      requires Valid() && WellFormedKey(k)
      modifies `now, `pauses, kv.Footprint()
      ensures Valid() && fresh(kv.Footprint() - old(kv.Footprint())) && old(now) <= now
      ensures Lost(old(kv.typed), kv.typed, now, {}) && value == Reference.Sees(old(kv.typed), k, now)
    {
      ghost var m := kv.typed;
      Wait();
      assert Live(kv.typed, k, now) <==> Live(m, k, now);
      GetLost(kv.typed, k, now);
      LostTransitive(m, kv.typed, Step(kv.typed, At(Op.Get(k), now)).0, now, now, {}, {});
      value := kv.Get(k, now);
    }

    method Drop(k: Key)
      requires Valid() && WellFormedKey(k)
      modifies `now, `pauses, kv.Footprint()
      ensures Valid() && fresh(kv.Footprint() - old(kv.Footprint())) && old(now) <= now
      ensures Lost(old(kv.typed), kv.typed, now, {k})
    {
      ghost var m := kv.typed;
      Wait();
      DelLost(kv.typed, k, now);
      LostTransitive(m, kv.typed, kv.typed - {k}, now, now, {}, {k});
      kv.Del(k);
    }

    // One more key dropped, since the store was `m`.
    method DropAlso(k: Key, ghost m: Store<Key>, ghost dropped: set<Key>)
      requires Valid() && WellFormedKey(k) && Lost(m, kv.typed, now, dropped)
      modifies `now, `pauses, kv.Footprint()
      ensures Valid() && fresh(kv.Footprint() - old(kv.Footprint())) && old(now) <= now
      ensures Lost(m, kv.typed, now, dropped + {k})
    {
      ghost var between, before := kv.typed, now;
      Drop(k);
      LostTransitive(m, between, kv.typed, before, now, dropped, {k});
    }

    // Nothing but time and eviction: the server stands for what it stood for.
    method WaitFor(ghost r: Ref)
      requires Valid() && StandsFor(r)
      modifies `now, `pauses, kv.Footprint()
      ensures Valid() && fresh(kv.Footprint() - old(kv.Footprint())) && old(now) <= now && StandsFor(r)
    {
      ghost var m, before := kv.typed, now;
      Wait();
      LaterStands(cfg.json, db, m, r, before, now);
      LostStands(cfg.json, db, m, kv.typed, r, now, {});
    }

    // A read that the uncached server does not do at all.
    method ReadCopy(k: Key, ghost r: Ref) returns (value: Option<string>)
      requires Valid() && StandsFor(r) && WellFormedKey(k)
      modifies `now, `pauses, kv.Footprint()
      ensures Valid() && fresh(kv.Footprint() - old(kv.Footprint())) && old(now) <= now && StandsFor(r)
      ensures value == Reference.Sees(old(kv.typed), k, now)
    {
      ghost var m, before := kv.typed, now;
      value := Read(k);
      LaterStands(cfg.json, db, m, r, before, now);
      LostStands(cfg.json, db, m, kv.typed, r, now, {});
    }

    // --- The three cached lookups ---

    // requireAuthKinds
    method RequireAuth(bearer: string, kinds: set<string>, ghost r: Ref) returns (result: AuthResult)
      requires Valid() && StandsFor(r)
      modifies `now, `pauses, kv.Footprint()
      ensures Valid() && fresh(kv.Footprint() - old(kv.Footprint())) && old(now) <= now && StandsFor(r)
      ensures result == Authenticate(db, bearer, kinds)
      ensures result == Denied(Unauthorized) <==> bearer !in db.tokens
      ensures result == Denied(Forbidden) <==> bearer in db.tokens && kinds != {} && db.tokens[bearer].kind !in kinds
      ensures result.Allowed? <==> bearer in db.tokens && (kinds == {} || db.tokens[bearer].kind in kinds)
      ensures result.Allowed? ==> result.row == db.tokens[bearer]
    {
      var row: Option<TokenRow> := None;
      ghost var m, before := kv.typed, now;
      var cached := ReadCopy(Auth(bearer), r);
      if cached.Some? && cached.value != "" {
        LaterStands(cfg.json, db, m, r, before, now);
        KindsColonFree(db.tokens[bearer]);
        row := ParseAuth(cached.value);
      }
      if row.None? {
        if bearer !in db.tokens {
          return Denied(Unauthorized);
        }
        row := Some(db.tokens[bearer]);
        WaitFor(r);
        AuthFillStands(cfg.json, db, kv.typed, r, bearer, now);
        kv.Set(Auth(bearer), AuthText(row.value), CACHE_TTL, now);
      }
      if kinds != {} && row.value.kind !in kinds {
        return Denied(Forbidden);
      }
      result := Allowed(row.value);
    }

    method LookupWebhook(user: string, ghost r: Ref) returns (hook: Option<Hook>)
      requires Valid() && StandsFor(r)
      modifies `now, `pauses, kv.Footprint()
      ensures Valid() && fresh(kv.Footprint() - old(kv.Footprint())) && old(now) <= now && StandsFor(r)
      ensures hook == Lookup(db.hooks, user)
    {
      ghost var m, before := kv.typed, now;
      var cached := ReadCopy(Webhook(user), r);
      if cached.Some? {
        LaterStands(cfg.json, db, m, r, before, now);
        HookCopy(cfg.json, db, m, r, user, now);
        var parsed := ParseHook(cached.value);
        if parsed.Some? {
          return parsed.value;
        }
      }
      hook := Lookup(db.hooks, user);
      WaitFor(r);
      HookFillStands(cfg.json, db, kv.typed, r, user, HookText(hook), now);
      kv.Set(Webhook(user), HookText(hook), CACHE_TTL, now);
    }

    method LookupGateway(user: string, ghost r: Ref) returns (dest: Option<Dest>)
      requires Valid() && StandsFor(r)
      modifies `now, `pauses, kv.Footprint()
      ensures Valid() && fresh(kv.Footprint() - old(kv.Footprint())) && old(now) <= now && StandsFor(r)
      ensures dest == Lookup(db.dests, user)
    {
      ghost var m, before := kv.typed, now;
      var cached := ReadCopy(OpenClaw(user), r);
      if cached.Some? {
        LaterStands(cfg.json, db, m, r, before, now);
        DestCopy(cfg.json, db, m, r, user, now);
        var parsed := ParseDest(cfg.json, cached.value);
        if parsed.Some? {
          return parsed.value;
        }
      }
      dest := Lookup(db.dests, user);
      WaitFor(r);
      DestFillStands(cfg.json, db, kv.typed, r, user, DestText(cfg.json, dest), now);
      kv.Set(OpenClaw(user), DestText(cfg.json, dest), CACHE_TTL, now);
    }

    // --- The writers ---

    // Drops the cached entries of these tokens, one by one.
    method DropAuth(hashes: seq<string>, ghost all: set<string>)
      requires Valid() && forall h :: h in hashes <==> h in all
      modifies `now, `pauses, kv.Footprint()
      ensures Valid() && fresh(kv.Footprint() - old(kv.Footprint())) && old(now) <= now
      ensures Lost(old(kv.typed), kv.typed, now, AuthKeys(all))
    {
      ghost var done: set<string> := {};
      for i := 0 to |hashes|
        invariant Valid() && fresh(kv.Footprint() - old(kv.Footprint())) && old(now) <= now
        invariant forall h :: h in done <==> h in hashes[..i]
        invariant Lost(old(kv.typed), kv.typed, now, AuthKeys(done))
      {
        DropAlso(Auth(hashes[i]), old(kv.typed), AuthKeys(done));
        assert AuthKeys(done) + {Auth(hashes[i])} == AuthKeys(done + {hashes[i]});
        done := done + {hashes[i]};
      }
      assert done == all;
    }

    // The rows of a SELECT, collected in whatever order they come.
    method Collect(rows: set<string>) returns (hashes: seq<string>)
      ensures forall h :: h in hashes <==> h in rows
    {
      hashes := [];
      var rest := rows;
      while rest != {}
        invariant rest <= rows && forall h :: h in hashes <==> h in rows - rest
        decreases |rest|
      {
        var h :| h in rest;
        rest := rest - {h};
        hashes := hashes + [h];
      }
    }

    // rotateToken: the old hashes are collected first, so that their cache entries can
    // be dropped once the transaction has committed.
    method RotateToken(row: TokenRow, hash: string, ghost r: Ref) returns (response: Response)
      requires Valid() && StandsFor(r)
      modifies this, kv.Footprint()
      ensures Valid() && fresh(kv.Footprint() - old(kv.Footprint())) && old(now) <= now
      ensures StandsFor(Issue(r, row, hash).0) && response == Issue(r, row, hash).1
      ensures response == if row.user !in old(db).users || !IsKind(row.kind)
                             || (hash in old(db).tokens && old(db).tokens[hash] != row) then Failed
                          else ServedAs(row.user, Credential(hash, row.kind))
      ensures if response == Failed then db == old(db) else Reissued(old(db), db, row, hash)
      ensures forall k :: old(Held(k)).None? ==> Held(k).None?
    {
      RotateExact(db, row, hash);
      var oldHashes := Collect(HashesOf(db, row));
      var committed := Rotate(db, row, hash);
      if committed.None? {
        return Failed;
      }
      ghost var m, t, before := kv.typed, db, now;
      db := committed.value;
      DropAuth(oldHashes, HashesOf(t, row));
      LaterStands(cfg.json, t, m, r, before, now);
      RotateStands(cfg.json, t, m, kv.typed, r, row, hash, now);
      response := ServedAs(row.user, Credential(hash, row.kind));
    }

    // The first half of DeleteAccount: every cached copy of the user's rows is dropped.
    method DropCopies(user: string)
      requires Valid()
      modifies `now, `pauses, kv.Footprint()
      ensures Valid() && fresh(kv.Footprint() - old(kv.Footprint())) && old(now) <= now
      ensures Lost(old(kv.typed), kv.typed, now, CopiesOf(db, user))
    {
      var hashes := Collect(TokensOf(db, user));
      DropAuth(hashes, TokensOf(db, user));
      DropAlso(Webhook(user), old(kv.typed), AuthKeys(TokensOf(db, user)));
      DropAlso(OpenClaw(user), old(kv.typed), AuthKeys(TokensOf(db, user)) + {Webhook(user)});
    }

    // DeleteAccount: every cached copy first, then the location, the user row last.
    method Close(user: string, ghost r: Ref)
      requires Valid() && StandsFor(r)
      modifies this, kv.Footprint()
      ensures Valid() && fresh(kv.Footprint() - old(kv.Footprint())) && old(now) <= now
      ensures StandsFor(Reference.Do(r.(db := RemoveUser(r.db, user)), Op.Del(Location(user)), now))
      ensures db == RemoveUser(old(db), user) && Held(Location(user)).None?
    {
      ghost var m, before := kv.typed, now;
      DropCopies(user);
      LaterStands(cfg.json, db, m, r, before, now);
      ghost var m1, t1 := kv.typed, now;
      Drop(Location(user));
      RemoveStands(cfg.json, db, m, m1, kv.typed, r, user, t1, now);
      db := RemoveUser(db, user);
    }

    method PutWebhook(user: string, given: Hook, valid: bool, ghost r: Ref) returns (response: Response)
      requires Valid() && StandsFor(r) && (valid ==> NewlineFree(Trim(given.url)))
      modifies this, kv.Footprint()
      ensures Valid() && fresh(kv.Footprint() - old(kv.Footprint())) && old(now) <= now
      ensures forall bearer, t :: var (r', expected) := UserStep(r, Request.PutWebhook(bearer, given, valid), user, t);
                StandsFor(r') && response == expected
      ensures var hook := Hook(Trim(given.url), Trim(given.secret));
              && response == (if hook.url == "" || hook.secret == "" || !valid then BadRequest
                              else if user !in old(db).users then Failed
                              else ServedAs(user, WebhookIs(Some(hook))))
              && db == (if response.ServedAs? then old(db).(hooks := old(db).hooks[user := hook]) else old(db))
    {
      var hook := Hook(Trim(given.url), Trim(given.secret));
      if hook.url == "" || hook.secret == "" || !valid {
        return BadRequest;
      }
      var written := PutHook(db, user, hook);
      if written.None? {
        return Failed;
      }
      ghost var m, t, before := kv.typed, db, now;
      db := written.value;
      Drop(Webhook(user));
      LaterStands(cfg.json, t, m, r, before, now);
      HookChangeStands(cfg.json, t, m, db, kv.typed, r, user, now);
      response := ServedAs(user, WebhookIs(Some(hook)));
    }

    method DeleteWebhook(user: string, ghost r: Ref)
      requires Valid() && StandsFor(r)
      modifies this, kv.Footprint()
      ensures Valid() && fresh(kv.Footprint() - old(kv.Footprint())) && old(now) <= now
      ensures StandsFor(r.(db := DropHook(r.db, user))) && db == old(db).(hooks := old(db).hooks - {user})
    {
      ghost var m, t, before := kv.typed, db, now;
      db := DropHook(db, user);
      Drop(Webhook(user));
      LaterStands(cfg.json, t, m, r, before, now);
      HookChangeStands(cfg.json, t, m, db, kv.typed, r, user, now);
    }

    method StoreGateway(user: string, dest: Dest, ghost r: Ref) returns (stored: bool)
      requires Valid() && StandsFor(r)
      modifies this, kv.Footprint()
      ensures Valid() && fresh(kv.Footprint() - old(kv.Footprint())) && old(now) <= now
      ensures stored <==> PutDest(r.db, user, dest).Some?
      ensures StandsFor(if stored then r.(db := PutDest(r.db, user, dest).value) else r)
      ensures stored <==> user in old(db).users && (dest.action == "wake" || dest.action == "agent")
      ensures db == if stored then old(db).(dests := old(db).dests[user := dest]) else old(db)
    {
      var written := PutDest(db, user, dest);
      if written.None? {
        return false;
      }
      ghost var m, t, before := kv.typed, db, now;
      db := written.value;
      Drop(OpenClaw(user));
      LaterStands(cfg.json, t, m, r, before, now);
      DestChangeStands(cfg.json, t, m, db, kv.typed, r, user, now);
      stored := true;
    }

    method RegisterGateway(user: string, form: Form, valid: bool, probe: Option<int>, suffix: string, ghost r: Ref)
      returns (response: Response)
      requires Valid() && StandsFor(r)
      modifies this, kv.Footprint()
      ensures Valid() && fresh(kv.Footprint() - old(kv.Footprint())) && old(now) <= now
      ensures forall bearer, t ::
                var (r', expected) := UserStep(r, Request.PutGateway(bearer, form, valid, probe, suffix), user, t);
                StandsFor(r') && response == expected
      ensures var dest := GatewayOf(form, suffix);
              && response == (if Malformed(dest, valid) then BadRequest
                              else if probe.None? || probe.value >= 300 then Unverified
                              else if user !in old(db).users then Failed
                              else ServedAs(user, GatewayIs(Some(dest))))
              && db == (if response.ServedAs? then old(db).(dests := old(db).dests[user := dest]) else old(db))
    {
      var dest := Prepared(form, suffix);
      if dest.gatewayURL == "" || !valid || dest.hookToken == "" {
        return BadRequest;
      }
      if !IsHookPath(dest.hookPath) || !IsAction(dest.action) {
        return BadRequest;
      }
      if probe.None? || probe.value == 401 || probe.value >= 300 {
        return Unverified;
      }
      var stored := StoreGateway(user, dest, r);
      response := if stored then ServedAs(user, GatewayIs(Some(dest))) else Failed;
    }

    method DeleteGateway(user: string, ghost r: Ref)
      requires Valid() && StandsFor(r)
      modifies this, kv.Footprint()
      ensures Valid() && fresh(kv.Footprint() - old(kv.Footprint())) && old(now) <= now
      ensures StandsFor(r.(db := DropDest(r.db, user))) && db == old(db).(dests := old(db).dests - {user})
    {
      ghost var m, t, before := kv.typed, db, now;
      db := DropDest(db, user);
      Drop(OpenClaw(user));
      LaterStands(cfg.json, t, m, r, before, now);
      DestChangeStands(cfg.json, t, m, db, kv.typed, r, user, now);
    }

    // --- Data that is no copy of a row ---

    method ReadLocation(user: string, ghost r: Ref) returns (body: Option<string>)
      requires Valid() && StandsFor(r)
      modifies `now, `pauses, kv.Footprint()
      ensures Valid() && fresh(kv.Footprint() - old(kv.Footprint())) && old(now) <= now && StandsFor(r)
      ensures body == Reference.Sees(r.mem, Location(user), now) == Reference.Sees(old(kv.typed), Location(user), now)
    {
      ghost var m, before := kv.typed, now;
      body := ReadCopy(Location(user), r);
      LaterStands(cfg.json, db, m, r, before, now);
      assert Live(m, Location(user), now) <==> Live(r.mem, Location(user), now);
    }

    // A write or a consuming read of a key that is no cache entry.
    method SetData(k: Key, value: string, ttl: int, ghost r: Ref)
      requires Valid() && StandsFor(r) && WellFormedKey(k) && !CacheKey(k)
      modifies `now, `pauses, kv.Footprint()
      ensures Valid() && fresh(kv.Footprint() - old(kv.Footprint())) && old(now) <= now
      ensures StandsFor(Reference.Do(r, Op.Set(k, value, ttl), now))
    {
      WaitFor(r);
      SameStepStands(cfg.json, db, kv.typed, r, Op.Set(k, value, ttl), now);
      kv.Set(k, value, ttl, now);
    }

    method TakeData(k: Key, ghost r: Ref) returns (value: Option<string>)
      requires Valid() && StandsFor(r) && WellFormedKey(k) && !CacheKey(k)
      modifies `now, `pauses, kv.Footprint()
      ensures Valid() && fresh(kv.Footprint() - old(kv.Footprint())) && old(now) <= now
      ensures StandsFor(Reference.Do(r, Op.GetDel(k), now)) && value == Reference.Sees(r.mem, k, now)
      ensures value == Reference.Sees(old(kv.typed), k, now) && k !in kv.typed
    {
      WaitFor(r);
      LaterStands(cfg.json, db, old(kv.typed), r, old(now), now);
      assert Live(old(kv.typed), k, now) <==> Live(r.mem, k, now);
      SameStepStands(cfg.json, db, kv.typed, r, Op.GetDel(k), now);
      value := kv.GetDel(k, now);
    }

    // --- The public endpoints ---

    method WebLogin(typed: string, hash: string, ghost r: Ref) returns (response: Response, ghost t: Times)
      requires Valid() && StandsFor(r)
      modifies this, kv.Footprint()
      ensures Valid() && fresh(kv.Footprint() - old(kv.Footprint())) && old(now) <= t.first <= t.second <= now
      ensures var (r', expected) := LoginStep(r, Login(typed, hash), t); StandsFor(r') && response == expected
      ensures var code := Normalize(typed);
              && (code != "" ==> Held(WebCode(code)).None?)
              && (response == Unauthorized <==> code == "" || !HeldText(old(kv.typed), WebCode(code), t.first))
              && (response.ServedAs? ==>
                    var row := TokenRow(old(kv.typed)[WebCode(code)].value, "web_session");
                    response == ServedAs(row.user, Credential(hash, row.kind)) && Reissued(old(db), db, row, hash))
              && (!response.ServedAs? ==> db == old(db))
    {
      t := Times(now, now);
      var code := Normalize(typed);
      if code == "" {
        return Unauthorized, t;
      }
      var user := TakeData(WebCode(code), r);
      t := Times(now, now);
      if user.None? || user.value == "" {
        return Unauthorized, t;
      }
      ghost var r1 := Reference.Do(r, Op.GetDel(WebCode(code)), now);
      response := RotateToken(TokenRow(user.value, WEB_SESSION), hash, r1);
    }

    // OAuth is configured, with this client and, if one is configured, this address.
    predicate Configured(clientID: string, redirectURI: string) {
      && cfg.clientID != "" && clientID == cfg.clientID && redirectURI != ""
      && (cfg.redirectURI == "" || redirectURI == cfg.redirectURI)
    }

    // The phone code is consumed, and for its user a grant is stored under a new code.
    method Approve(code: string, redirectURI: string, clientID: string, granted: string, ghost r: Ref)
      returns (response: Response, ghost t: Times)
      requires Valid() && StandsFor(r)
      modifies `now, `pauses, kv.Footprint()
      ensures Valid() && fresh(kv.Footprint() - old(kv.Footprint())) && old(now) <= t.first <= t.second <= now
      ensures Held(WebCode(code)).None?
      ensures response == if HeldText(old(kv.typed), WebCode(code), t.first) then Redirected(granted) else AskAgain
      ensures response.Redirected? ==>
                var text := cfg.json.grantText(Grant(old(kv.typed)[WebCode(code)].value, redirectURI, clientID));
                Held(OAuthCode(granted)) == Lasting(text, t.second, FIVE_MINUTES, now)
      ensures var user := Reference.Sees(r.mem, WebCode(code), t.first);
              var r1 := Reference.Do(r, Op.GetDel(WebCode(code)), t.first);
              if user.None? || user.value == "" then StandsFor(r1) && response == AskAgain
              else
                var text := cfg.json.grantText(Grant(user.value, redirectURI, clientID));
                && StandsFor(Reference.Do(r1, Op.Set(OAuthCode(granted), text, CODE_TTL), t.second))
                && response == Redirected(granted)
    {
      var user := TakeData(WebCode(code), r);
      t := Times(now, now);
      if user.None? || user.value == "" {
        return AskAgain, t;
      }
      ghost var r1 := Reference.Do(r, Op.GetDel(WebCode(code)), now);
      SetData(OAuthCode(granted), cfg.json.grantText(Grant(user.value, redirectURI, clientID)), CODE_TTL, r1);
      assert Held(WebCode(code)).None? by {
        var text := cfg.json.grantText(Grant(user.value, redirectURI, clientID));
        var r2 := Reference.Do(r1, Op.Set(OAuthCode(granted), text, CODE_TTL), now);
        AbsentStands(cfg.json, db, kv.typed, r2, WebCode(code), now);
      }
      t := Times(t.first, now);
      response := Redirected(granted);
    }

    // The POST branch of the authorization endpoint, with the checks both branches share.
    method OAuthAuthorize(query: Query, typed: string, redirectURI: string, clientID: string, granted: string,
                          ghost r: Ref)
      returns (response: Response, ghost t: Times)
      requires Valid() && StandsFor(r)
      modifies `now, `pauses, kv.Footprint()
      ensures Valid() && fresh(kv.Footprint() - old(kv.Footprint())) && old(now) <= t.first <= t.second <= now
      ensures var (r', expected) := AuthorizeStep(cfg, r, Authorize(query, typed, redirectURI, clientID, granted), t);
                StandsFor(r') && response == expected
      ensures var code := Normalize(typed);
              && (response == AskAgain || response.Redirected? ==> code == "" || Held(WebCode(code)).None?)
              && (response.Redirected? <==>
                    && Configured(query.clientID, query.redirectURI) && Configured(clientID, redirectURI)
                    && query.responseType == "code" && code != "" && HeldText(old(kv.typed), WebCode(code), t.first))
              && (response.Redirected? ==>
                    var text := cfg.json.grantText(Grant(old(kv.typed)[WebCode(code)].value, redirectURI, clientID));
                    && response.granted == granted
                    && Held(OAuthCode(granted)) == Lasting(text, t.second, FIVE_MINUTES, now))
    {
      t := Times(now, now);
      if cfg.clientID == "" {
        return Unavailable, t;
      }
      if query.clientID != cfg.clientID || query.responseType != "code" || query.redirectURI == "" {
        return BadRequest, t;
      }
      if cfg.redirectURI != "" && query.redirectURI != cfg.redirectURI {
        return BadRequest, t;
      }
      var code := Normalize(typed);
      if clientID != cfg.clientID || (cfg.redirectURI != "" && redirectURI != cfg.redirectURI) || redirectURI == "" {
        return BadRequest, t;
      }
      if code == "" {
        return AskAgain, t;
      }
      response, t := Approve(code, redirectURI, clientID, granted, r);
    }

    // The code is consumed, and when its grant names this client and address, the grant's
    // user gets an API key.
    method RedeemGrant(code: string, clientID: string, redirectURI: string, hash: string, ghost r: Ref)
      returns (response: Response, ghost t: Times)
      requires Valid() && StandsFor(r) && clientID == cfg.clientID
      modifies this, kv.Footprint()
      ensures Valid() && fresh(kv.Footprint() - old(kv.Footprint())) && old(now) <= t.first <= t.second <= now
      ensures Held(OAuthCode(code)).None?
      ensures response != Unauthorized && (!response.ServedAs? ==> db == old(db))
      ensures response.ServedAs? ==>
                && HeldText(old(kv.typed), OAuthCode(code), t.first)
                && var grant := cfg.json.parseGrant(old(kv.typed)[OAuthCode(code)].value);
                && grant.Some? && grant.value.clientID == clientID && grant.value.redirectURI == redirectURI
                && response == ServedAs(grant.value.user, Credential(hash, "api_key"))
                && Reissued(old(db), db, TokenRow(grant.value.user, "api_key"), hash)
      ensures var q := Exchange("authorization_code", code, clientID, cfg.clientSecret, redirectURI, hash);
              var (r', expected) := ExchangeStep(cfg, r, q, t); StandsFor(r') && response == expected
    {
      var raw := TakeData(OAuthCode(code), r);
      t := Times(now, now);
      if raw.None? || raw.value == "" {
        return BadRequest, t;
      }
      var stored := cfg.json.parseGrant(raw.value);
      if stored.None? {
        return Failed, t;
      }
      if stored.value.clientID != clientID || stored.value.redirectURI != redirectURI {
        return BadRequest, t;
      }
      ghost var r1 := Reference.Do(r, Op.GetDel(OAuthCode(code)), now);
      response := RotateToken(TokenRow(stored.value.user, API_KEY), hash, r1);
    }

    method OAuthToken(grantType: string, code: string, clientID: string, clientSecret: string, redirectURI: string,
                      hash: string, ghost r: Ref)
      returns (response: Response, ghost t: Times)
      requires Valid() && StandsFor(r)
      modifies this, kv.Footprint()
      ensures Valid() && fresh(kv.Footprint() - old(kv.Footprint())) && old(now) <= t.first <= t.second <= now
      ensures var q := Exchange(grantType, code, clientID, clientSecret, redirectURI, hash);
              var (r', expected) := ExchangeStep(cfg, r, q, t); StandsFor(r') && response == expected
      ensures var asked := grantType == "authorization_code";
              var known := clientID == cfg.clientID && clientSecret == cfg.clientSecret;
              && (asked && known ==> Held(OAuthCode(code)).None?)
              && (!asked ==> response == BadRequest)
              && (response == Unauthorized <==> asked && !known)
              && (response.ServedAs? ==>
                    && asked && known && HeldText(old(kv.typed), OAuthCode(code), t.first)
                    && var grant := cfg.json.parseGrant(old(kv.typed)[OAuthCode(code)].value);
                    && grant.Some? && grant.value.clientID == clientID && grant.value.redirectURI == redirectURI
                    && response == ServedAs(grant.value.user, Credential(hash, "api_key"))
                    && Reissued(old(db), db, TokenRow(grant.value.user, "api_key"), hash))
              && (!response.ServedAs? ==> db == old(db))
    {
      t := Times(now, now);
      if grantType != "authorization_code" {
        return BadRequest, t;
      }
      if clientID != cfg.clientID || clientSecret != cfg.clientSecret {
        return Unauthorized, t;
      }
      response, t := RedeemGrant(code, clientID, redirectURI, hash, r);
    }

    // findOrCreateSocialUser
    method FindOrCreate(id: Identity, suffix: string, ghost r: Ref) returns (user: Option<string>, ghost r': Ref)
      requires Valid() && StandsFor(r)
      modifies `db
      ensures Valid() && StandsFor(r')
      ensures forall kind, hash :: SignInStep(r, SignIn(id, kind, suffix, hash))
                == if user.Some? then Issue(r', TokenRow(user.value, kind), hash) else (r', Failed)
      ensures user == if id in old(db).identities then Some(old(db).identities[id])
                      else if "usr_" + suffix in old(db).users then None
                      else Some("usr_" + suffix)
      ensures db == if user.None? then old(db) else Joined(old(db), id, user.value)
    {
      r' := r;
      if id in db.identities {
        return Some(db.identities[id]), r';
      }
      var added := AddUser(db, UserId(suffix));
      if added.None? {
        return None, r';
      }
      AccountChangeStands(cfg.json, db, kv.typed, added.value, r, now);
      db := added.value;
      r' := r.(db := db);
      var bound := Bind(db, id, UserId(suffix));
      if bound.None? {
        return None, r';
      }
      AccountChangeStands(cfg.json, db, kv.typed, bound.value, r', now);
      db := bound.value;
      r' := r'.(db := db);
      user := Some(UserId(suffix));
    }

    // SocialAuth, once the provider has verified the identity.
    method SocialAuth(id: Identity, kind: string, suffix: string, hash: string, ghost r: Ref)
      returns (response: Response)
      requires Valid() && StandsFor(r)
      modifies this, kv.Footprint()
      ensures Valid() && fresh(kv.Footprint() - old(kv.Footprint())) && old(now) <= now
      ensures var (r', expected) := SignInStep(r, SignIn(id, kind, suffix, hash)); StandsFor(r') && response == expected
      ensures response.ServedAs? ==>
                var user := if id in old(db).identities then old(db).identities[id] else "usr_" + suffix;
                && response == ServedAs(user, Credential(hash, kind))
                && Reissued(Joined(old(db), id, user), db, TokenRow(user, kind), hash)
    {
      var user;
      ghost var r1;
      user, r1 := FindOrCreate(id, suffix, r);
      if user.None? {
        return Failed;
      }
      response := RotateToken(TokenRow(user.value, kind), hash, r1);
    }

    // --- The endpoints behind requireAuthKinds ---

    // PostLocation: stored for a day, then sent on to the webhook and the gateway.
    method StoreLocation(user: string, body: string, ghost r: Ref) returns (response: Response, ghost t: Times)
      requires Valid() && StandsFor(r)
      modifies `now, `pauses, kv.Footprint()
      ensures Valid() && fresh(kv.Footprint() - old(kv.Footprint())) && old(now) <= t.first <= t.second <= now
      ensures StandsFor(Reference.Do(r, Op.Set(Location(user), body, LOCATION_TTL), t.first))
      ensures response == ServedAs(user, Delivered(Lookup(db.hooks, user), Lookup(db.dests, user)))
      ensures Held(Location(user)) == OneDay(body, t.first, now)
    {
      SetData(Location(user), body, LOCATION_TTL, r);
      t := Times(now, now);
      ghost var r1 := Reference.Do(r, Op.Set(Location(user), body, LOCATION_TTL), t.first);
      var hook := LookupWebhook(user, r1);
      var dest := LookupGateway(user, r1);
      assert Held(Location(user)) == OneDay(body, t.first, now) by {
        LocationStands(cfg.json, db, kv.typed, r, user, body, t.first, now);
      }
      response := ServedAs(user, Delivered(hook, dest));
    }

    method Locate(q: Request, user: string, ghost r: Ref) returns (response: Response, ghost t: Times)
      requires Valid() && StandsFor(r) && (q.PostLocation? || q.GetLocation? || q.MCPLocation?)
      modifies `now, `pauses, kv.Footprint()
      ensures Valid() && fresh(kv.Footprint() - old(kv.Footprint())) && old(now) <= t.first <= t.second <= now
      ensures var (r', expected) := UserStep(r, q, user, t); StandsFor(r') && response == expected
    {
      if q.PostLocation? {
        response, t := StoreLocation(user, q.body, r);
      } else {
        var body := ReadLocation(user, r);
        t := Times(now, now);
        response := ServedAs(user, LocationIs(body));
      }
    }

    method Configure(q: Request, user: string, ghost r: Ref) returns (response: Response)
      requires Valid() && StandsFor(r) && Admissible(q)
      requires q.PutWebhook? || q.GetWebhook? || q.DeleteWebhook? || q.PutGateway? || q.GetGateway? || q.DeleteGateway?
      modifies this, kv.Footprint()
      ensures Valid() && fresh(kv.Footprint() - old(kv.Footprint())) && old(now) <= now
      ensures forall t :: var (r', expected) := UserStep(r, q, user, t); StandsFor(r') && response == expected
    {
      match q
      case PutWebhook(_, given, valid) =>
        response := this.PutWebhook(user, given, valid, r);
      case GetWebhook(_) =>
        var hook := LookupWebhook(user, r);
        response := ServedAs(user, WebhookIs(hook));
      case DeleteWebhook(_) =>
        this.DeleteWebhook(user, r);
        response := ServedAs(user, Nothing);
      case PutGateway(_, form, valid, probe, suffix) =>
        response := RegisterGateway(user, form, valid, probe, suffix, r);
      case GetGateway(_) =>
        var dest := LookupGateway(user, r);
        response := ServedAs(user, GatewayIs(dest));
      case DeleteGateway(_) =>
        this.DeleteGateway(user, r);
        response := ServedAs(user, Nothing);
    }

    method HandleUser(q: Request, user: string, ghost r: Ref) returns (response: Response, ghost t: Times)
      requires Valid() && StandsFor(r) && !Public(q) && Admissible(q)
      modifies this, kv.Footprint()
      ensures Valid() && fresh(kv.Footprint() - old(kv.Footprint())) && old(now) <= t.first <= t.second <= now
      ensures var (r', expected) := UserStep(r, q, user, t); StandsFor(r') && response == expected
    {
      if q.PostLocation? || q.GetLocation? || q.MCPLocation? {
        response, t := Locate(q, user, r);
        return;
      }
      if q.NewCode? {
        SetData(WebCode(q.code), user, CODE_TTL, r);
        response := ServedAs(user, PhoneCodeIs(q.code));
      } else if q.RotateKind? {
        response := RotateToken(TokenRow(user, q.kind), q.hash, r);
      } else if q.DeleteAccount? {
        Close(user, r);
        response := ServedAs(user, Nothing);
      } else {
        response := Configure(q, user, r);
      }
      t := Times(now, now);
    }

    // mcpAuthMiddleware reads the table itself and admits API keys only.
    method MCPAuth(bearer: string) returns (result: AuthResult)
      ensures result == Authenticate(db, bearer, {API_KEY})
      ensures result == Denied(Unauthorized) <==> bearer !in db.tokens
      ensures result == Denied(Forbidden) <==> bearer in db.tokens && db.tokens[bearer].kind != "api_key"
      ensures result.Allowed? <==> bearer in db.tokens && db.tokens[bearer].kind == "api_key"
      ensures result.Allowed? ==> result.row == db.tokens[bearer]
    {
      if bearer !in db.tokens {
        return Denied(Unauthorized);
      }
      if db.tokens[bearer].kind != API_KEY {
        return Denied(Forbidden);
      }
      result := Allowed(db.tokens[bearer]);
    }

    method HandlePublic(q: Request, ghost r: Ref) returns (response: Response, ghost t: Times)
      requires Valid() && StandsFor(r) && Public(q)
      modifies this, kv.Footprint()
      ensures Valid() && fresh(kv.Footprint() - old(kv.Footprint())) && old(now) <= t.first <= t.second <= now
      ensures var (r', expected) := PublicStep(cfg, r, q, t); StandsFor(r') && response == expected
    {
      match q
      case SignIn(id, kind, suffix, hash) =>
        response := SocialAuth(id, kind, suffix, hash, r);
        t := Times(now, now);
      case Login(typed, hash) => response, t := WebLogin(typed, hash, r);
      case Authorize(query, typed, redirectURI, clientID, granted) =>
        response, t := OAuthAuthorize(query, typed, redirectURI, clientID, granted, r);
      case Exchange(grantType, code, clientID, clientSecret, redirectURI, hash) =>
        response, t := OAuthToken(grantType, code, clientID, clientSecret, redirectURI, hash, r);
    }

    method Handle(q: Request, ghost r: Ref) returns (response: Response, ghost t: Times)
      requires Valid() && StandsFor(r) && Admissible(q)
      modifies this, kv.Footprint()
      ensures Valid() && fresh(kv.Footprint() - old(kv.Footprint())) && old(now) <= t.first <= t.second <= now
      ensures var (r', expected) := Reference.Handle(cfg, r, q, t); StandsFor(r') && response == expected
    {
      if Public(q) {
        response, t := HandlePublic(q, r);
        return;
      }
      var result;
      if q.MCPLocation? {
        result := MCPAuth(q.bearer);
      } else {
        result := RequireAuth(q.bearer, Kinds(q), r);
      }
      if result.Denied? {
        t := Times(now, now);
        return result.response, t;
      }
      response, t := HandleUser(q, result.row.user, r);
    }

    // Requests served one after another answer as the uncached server does.
    method ServeEach(qs: seq<Request>, ghost r: Ref) returns (responses: seq<Response>, ghost ts: seq<Times>)
      requires Valid() && StandsFor(r) && AllAdmissible(qs)
      modifies this, kv.Footprint()
      ensures Valid() && fresh(kv.Footprint() - old(kv.Footprint()))
      ensures |ts| == |qs| && InOrder(ts, old(now), now)
      ensures responses == HandleAll(cfg, r, qs, ts).1 && StandsFor(HandleAll(cfg, r, qs, ts).0)
    {
      responses, ts := [], [];
      ghost var at := r;
      for i := 0 to |qs|
        invariant Valid() && fresh(kv.Footprint() - old(kv.Footprint())) && StandsFor(at)
        invariant |ts| == i && InOrder(ts, old(now), now)
        invariant HandleAll(cfg, r, qs[..i], ts) == (at, responses)
      {
        ghost var before := now;
        var response;
        ghost var t;
        response, t := Handle(qs[i], at);
        InOrderSnoc(ts, t, old(now), before, now);
        ServedSnoc(cfg, r, qs, i, ts, t, at, responses);
        at := Reference.Handle(cfg, at, qs[i], t).0;
        responses, ts := responses + [response], ts + [t];
      }
      assert qs[..|qs|] == qs;
    }

    // The cached server refines the uncached one: for every sequence of requests and
    // every schedule of waits and sweeps before each store call, each response is the
    // one the server without caches gives, acting on its data at moments of the same
    // request; and every deletion of an account is final.
    method ServeAll(qs: seq<Request>, ghost r: Ref) returns (responses: seq<Response>, ghost ts: seq<Times>)
      requires Valid() && StandsFor(r) && AllAdmissible(qs)
      modifies this, kv.Footprint()
      ensures Valid() && fresh(kv.Footprint() - old(kv.Footprint()))
      ensures |ts| == |qs| && InOrder(ts, old(now), now)
      ensures responses == HandleAll(cfg, r, qs, ts).1 && StandsFor(HandleAll(cfg, r, qs, ts).0)
      ensures DeletionsFinal(qs, responses)
      ensures r.mem == map[] ==> Conversation(cfg, r, Turns(qs, ts, responses))
    {
      responses, ts := ServeEach(qs, r);
      DeletionIsFinal(cfg, r, qs, ts);
      SequenceHappened(cfg, r, qs, ts);
    }
  }
}
