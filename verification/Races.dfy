/** Three runs of the overlapping server, step by step. In two a deleted account lives on:
    its credential is accepted, and its location told, after the user row is gone. In the
    third a rotated credential is accepted after both overlapping rotations are answered. */
module Races {
  import opened Wrappers
  import opened TimedStore
  import opened Keys
  import opened Database
  import opened Codecs
  import opened Server

  ghost predicate CanReach(cfg: Config, s0: State, s: State) {
    exists ss, acts :: IsRun(cfg, ss, acts) && ss[0] == s0 && ss[|acts|] == s
  }

  ghost predicate Leads(cfg: Config, s: State, a: Action, s': State) {
    Enabled(cfg, s, a) && s' == Next(cfg, s, a)
  }

  lemma Extended(cfg: Config, ss: seq<State>, acts: seq<Action>, a: Action)
    returns (ss': seq<State>, acts': seq<Action>)
    requires IsRun(cfg, ss, acts) && Enabled(cfg, ss[|acts|], a)
    ensures IsRun(cfg, ss', acts') && |acts'| == |acts| + 1 && ss'[0] == ss[0]
    ensures ss'[|acts'|] == Next(cfg, ss[|acts|], a)
  {
    ss', acts' := ss + [Next(cfg, ss[|acts|], a)], acts + [a];
  }

  lemma Reached(cfg: Config, s0: State, s: State, a: Action, s': State)
    requires CanReach(cfg, s0, s) && Leads(cfg, s, a, s')
    ensures CanReach(cfg, s0, s')
  {
    var ss, acts :| IsRun(cfg, ss, acts) && ss[0] == s0 && ss[|acts|] == s;
    var ss', acts' := Extended(cfg, ss, acts, a);
  }

  // --- Single steps, all at time 0 ---

  lemma Misses(cfg: Config, s: State, tid: nat, hash: string) returns (s': State)
    requires s.now == 0 && tid !in s.threads && Auth(hash) !in s.kv
    ensures Leads(cfg, s, Action(tid, 0, AuthGet(hash)), s')
    ensures s' == s.(threads := s.threads[tid := AuthMissed(hash)])
  {
    s' := Next(cfg, s, Action(tid, 0, AuthGet(hash)));
    assert s.ids + {} == s.ids && s.kv - {Auth(hash)} == s.kv;
  }

  lemma Reads(cfg: Config, s: State, tid: nat, hash: string) returns (s': State)
    requires s.now == 0 && tid in s.threads && s.threads[tid] == AuthMissed(hash) && hash in s.db.tokens
    ensures Leads(cfg, s, Action(tid, 0, AuthRead), s')
    ensures s' == s.(threads := s.threads[tid := AuthFetched(hash, s.db.tokens[hash], 0)])
  {
    s' := Next(cfg, s, Action(tid, 0, AuthRead));
    assert s.ids + {} == s.ids;
  }

  lemma Fills(cfg: Config, s: State, tid: nat, hash: string, row: TokenRow) returns (s': State)
    requires s.now == 0 && tid in s.threads && s.threads[tid] == AuthFetched(hash, row, 0)
    ensures Leads(cfg, s, Action(tid, 0, AuthFill), s')
    ensures s'.now == 0 && s'.db == s.db && s'.log == s.log + [Accepted(hash, row, 0)]
    ensures s'.threads == s.threads[tid := Authed(hash, row.user, row.kind)]
    ensures s'.kv == s.kv[Auth(hash) := Binding(AuthText(row), Some(CACHE_TTL))]
  {
    s' := Next(cfg, s, Action(tid, 0, AuthFill));
  }

  lemma Selects(cfg: Config, s: State, tid: nat, hash: string, row: TokenRow) returns (s': State)
    requires s.now == 0 && tid in s.threads && s.threads[tid] == Authed(hash, row.user, PAIRING_TOKEN)
    requires s.db.tokens == map[hash := row]
    ensures Leads(cfg, s, Action(tid, 0, CloseSelect), s')
    ensures s'.now == 0 && s'.db == s.db && s'.log == s.log
    ensures s'.threads == s.threads[tid := Closing(row.user, {hash})]
  {
    s' := Next(cfg, s, Action(tid, 0, CloseSelect));
    assert TokensOf(s.db, row.user) == {hash};
  }

  // The deletion's step to the next of its program points.
  predicate ClosingStep(w: What, pc: Pc, pc': Pc) {
    || (pc.Closing? && w.CloseDrop? && w.hash in pc.stale && pc' == pc.(stale := pc.stale - {w.hash}))
    || (pc.Closing? && w.CloseHook? && pc.stale == {} && pc' == ClosingHook(pc.user))
    || (pc.ClosingHook? && w.CloseDest? && pc' == ClosingDest(pc.user))
    || (pc.ClosingDest? && w.CloseLocation? && pc' == ClosingLocation(pc.user))
  }

  lemma Closes(cfg: Config, s: State, tid: nat, w: What, pc: Pc) returns (s': State)
    requires s.now == 0 && tid in s.threads && ClosingStep(w, s.threads[tid], pc)
    ensures Leads(cfg, s, Action(tid, 0, w), s')
    ensures s'.now == 0 && s'.db == s.db && s'.threads == s.threads[tid := pc]
  {
    s' := Next(cfg, s, Action(tid, 0, w));
  }

  lemma Removes(cfg: Config, s: State, tid: nat, user: string) returns (s': State)
    requires s.now == 0 && tid in s.threads && s.threads[tid] == ClosingLocation(user)
    ensures Leads(cfg, s, Action(tid, 0, CloseRow), s')
    ensures s'.now == 0 && s'.kv == s.kv && s'.db == RemoveUser(s.db, user)
    ensures s'.threads == s.threads - {tid} && s'.log == s.log + [Removed(user, 0)]
  {
    s' := Next(cfg, s, Action(tid, 0, CloseRow));
  }

  lemma Writes(cfg: Config, s: State, tid: nat, hash: string, user: string, body: string) returns (s': State)
    requires s.now == 0 && tid in s.threads && s.threads[tid] == Authed(hash, user, PAIRING_TOKEN)
    ensures Leads(cfg, s, Action(tid, 0, LocationWrite(body)), s')
    ensures s'.now == 0 && s'.db == s.db && s'.log == s.log + [Located(user, body, 0)]
    ensures s'.threads == s.threads[tid := Served(user)]
    ensures s'.kv == s.kv[Location(user) := Binding(body, Some(LOCATION_TTL))]
  {
    s' := Next(cfg, s, Action(tid, 0, LocationWrite(body)));
  }

  lemma Tells(cfg: Config, s: State, tid: nat, user: string, body: string) returns (s': State)
    requires s.now == 0 && tid in s.threads && s.threads[tid] == Served(user)
    requires Location(user) in s.kv && s.kv[Location(user)] == Binding(body, Some(LOCATION_TTL))
    ensures Leads(cfg, s, Action(tid, 0, LocationRead), s')
    ensures s'.now == 0 && s'.db == s.db && s'.kv == s.kv && s'.log == s.log + [LocationAnswered(user, Some(body), 0)]
    ensures s'.threads == s.threads[tid := Served(user)]
  {
    s' := Next(cfg, s, Action(tid, 0, LocationRead));
  }

  lemma Finishes(cfg: Config, s: State, tid: nat) returns (s': State)
    requires s.now == 0 && tid in s.threads && MayFinish(s.threads[tid])
    ensures Leads(cfg, s, Action(tid, 0, Finish), s')
    ensures s'.now == 0 && s'.db == s.db && s'.kv == s.kv && s'.log == s.log && s'.threads == s.threads - {tid}
  {
    s' := Next(cfg, s, Action(tid, 0, Finish));
  }

  // --- The runs ---

  // What bootstrapLocalUser leaves.
  function BootTables(hash: string): Tables {
    Tables({LOCAL_USER}, map[], map[hash := TokenRow(LOCAL_USER, PAIRING_TOKEN)], map[], map[])
  }

  lemma Boots(cfg: Config, hash: string) returns (s0: State)
    requires Faithful(cfg.json)
    ensures CanReach(cfg, s0, s0) && s0.now == 0 && s0.kv == map[] && s0.threads == map[]
    ensures s0.db == BootTables(hash)
  {
    s0 := State(BootTables(hash), map[], 0, map[], [], {LOCAL_USER});
    var ss, acts: seq<Action> := [s0], [];
    assert IsRun(cfg, ss, acts) && ss[0] == s0 && ss[|acts|] == s0;
  }

  // A lookup that finds nothing cached and reads the row.
  lemma Fetched(cfg: Config, s0: State, s: State, tid: nat, hash: string) returns (s': State)
    requires CanReach(cfg, s0, s) && s.now == 0 && Auth(hash) !in s.kv && tid !in s.threads && hash in s.db.tokens
    ensures CanReach(cfg, s0, s')
    ensures s' == s.(threads := s.threads[tid := AuthFetched(hash, s.db.tokens[hash], 0)])
  {
    var s1 := Misses(cfg, s, tid, hash);
    Reached(cfg, s0, s, Action(tid, 0, AuthGet(hash)), s1);
    s' := Reads(cfg, s1, tid, hash);
    Reached(cfg, s0, s1, Action(tid, 0, AuthRead), s');
  }

  lemma Filled(cfg: Config, s0: State, s: State, tid: nat, hash: string, row: TokenRow) returns (s': State)
    requires CanReach(cfg, s0, s) && s.now == 0 && tid in s.threads && s.threads[tid] == AuthFetched(hash, row, 0)
    ensures CanReach(cfg, s0, s') && s'.now == 0 && s'.db == s.db && s'.log == s.log + [Accepted(hash, row, 0)]
    ensures s'.threads == s.threads[tid := Authed(hash, row.user, row.kind)]
    ensures s'.kv == s.kv[Auth(hash) := Binding(AuthText(row), Some(CACHE_TTL))]
  {
    s' := Fills(cfg, s, tid, hash, row);
    Reached(cfg, s0, s, Action(tid, 0, AuthFill), s');
  }

  lemma Closed(cfg: Config, s0: State, s: State, tid: nat, w: What, pc: Pc) returns (s': State)
    requires CanReach(cfg, s0, s) && s.now == 0 && tid in s.threads && ClosingStep(w, s.threads[tid], pc)
    ensures CanReach(cfg, s0, s') && s'.now == 0 && s'.db == s.db && s'.threads == s.threads[tid := pc]
  {
    s' := Closes(cfg, s, tid, w, pc);
    Reached(cfg, s0, s, Action(tid, 0, w), s');
  }

  // DeleteAccount up to its last step: everything cached is dropped.
  lemma Dropped(cfg: Config, s0: State, s: State, tid: nat, hash: string, row: TokenRow) returns (s': State)
    requires CanReach(cfg, s0, s) && s.now == 0 && s.db.tokens == map[hash := row]
    requires tid in s.threads && s.threads[tid] == Authed(hash, row.user, PAIRING_TOKEN)
    ensures CanReach(cfg, s0, s') && s'.now == 0 && s'.db == s.db
    ensures s'.threads == s.threads[tid := ClosingLocation(row.user)]
  {
    s' := Selects(cfg, s, tid, hash, row);
    Reached(cfg, s0, s, Action(tid, 0, CloseSelect), s');
    assert {hash} - {hash} == {};
    s' := Closed(cfg, s0, s', tid, CloseDrop(hash), Closing(row.user, {}));
    s' := Closed(cfg, s0, s', tid, CloseHook, ClosingHook(row.user));
    s' := Closed(cfg, s0, s', tid, CloseDest, ClosingDest(row.user));
    s' := Closed(cfg, s0, s', tid, CloseLocation, ClosingLocation(row.user));
  }

  // ... and the user row last.
  lemma Gone(cfg: Config, s0: State, s: State, tid: nat, user: string) returns (s': State)
    requires CanReach(cfg, s0, s) && s.now == 0 && tid in s.threads && s.threads[tid] == ClosingLocation(user)
    ensures CanReach(cfg, s0, s') && s'.now == 0 && s'.kv == s.kv && s'.db == RemoveUser(s.db, user)
    ensures s'.threads == s.threads - {tid} && s'.log == s.log + [Removed(user, 0)]
  {
    s' := Removes(cfg, s, tid, user);
    Reached(cfg, s0, s, Action(tid, 0, CloseRow), s');
  }

  ghost predicate RemovedThenAccepted(log: seq<Fact>, hash: string, row: TokenRow) {
    exists x, y :: 0 <= x < y < |log| && log[x].Removed? && log[x].user == row.user
                   && log[y].Accepted? && log[y].hash == hash && log[y].row == row
  }

  // From the bootstrap state: one request has read the credential's row when the same
  // credential deletes the account; the deletion runs to its end, and only then does
  // the first request cache the row and go through. So an account can act after its
  // deletion, for as long as AnswersAreRecent allows.
  lemma DeletionNotImmediate(cfg: Config, hash: string) returns (s0: State, s: State)
    requires Faithful(cfg.json)
    ensures CanReach(cfg, s0, s) && s0.db == BootTables(hash)
    ensures RemovedThenAccepted(s.log, hash, TokenRow(LOCAL_USER, PAIRING_TOKEN))
  {
    var row := TokenRow(LOCAL_USER, PAIRING_TOKEN);
    s0 := Boots(cfg, hash);
    s := Fetched(cfg, s0, s0, 0, hash);
    s := Fetched(cfg, s0, s, 1, hash);
    s := Filled(cfg, s0, s, 1, hash, row);
    s := Dropped(cfg, s0, s, 1, hash, row);
    var log := s.log;
    s := Gone(cfg, s0, s, 1, LOCAL_USER);
    s := Filled(cfg, s0, s, 0, hash, row);
    assert s.log == log + [Removed(LOCAL_USER, 0), Accepted(hash, row, 0)];
    assert s.log[|log|].Removed? && s.log[|log| + 1].Accepted?;
  }

  lemma Written(cfg: Config, s0: State, s: State, tid: nat, hash: string, user: string, body: string)
    returns (s': State)
    requires CanReach(cfg, s0, s) && s.now == 0
    requires tid in s.threads && s.threads[tid] == Authed(hash, user, PAIRING_TOKEN)
    ensures CanReach(cfg, s0, s') && s'.now == 0 && s'.db == s.db && s'.log == s.log + [Located(user, body, 0)]
    ensures s'.threads == s.threads[tid := Served(user)]
    ensures s'.kv == s.kv[Location(user) := Binding(body, Some(LOCATION_TTL))]
  {
    s' := Writes(cfg, s, tid, hash, user, body);
    Reached(cfg, s0, s, Action(tid, 0, LocationWrite(body)), s');
  }

  lemma Told(cfg: Config, s0: State, s: State, tid: nat, user: string, body: string) returns (s': State)
    requires CanReach(cfg, s0, s) && s.now == 0 && tid in s.threads && s.threads[tid] == Served(user)
    requires Location(user) in s.kv && s.kv[Location(user)] == Binding(body, Some(LOCATION_TTL))
    ensures CanReach(cfg, s0, s') && s'.db == s.db && s'.kv == s.kv && s'.threads == s.threads - {tid}
    ensures s'.log == s.log + [LocationAnswered(user, Some(body), 0)]
  {
    var s1 := Tells(cfg, s, tid, user, body);
    Reached(cfg, s0, s, Action(tid, 0, LocationRead), s1);
    s' := Finishes(cfg, s1, tid);
    Reached(cfg, s0, s1, Action(tid, 0, Finish), s');
  }

  // A user's location is written, the user removed, and then the location told.
  ghost predicate ToldAfterRemoval(log: seq<Fact>, user: string, body: string) {
    exists x, y, z :: 0 <= x < y < z < |log| && log[x].Located? && log[x].user == user
                      && log[y].Removed? && log[y].user == user
                      && log[z].LocationAnswered? && log[z].user == user && log[z].found == Some(body)
  }

  // A phone is past authentication, and its account is deleted but for the user row.
  lemma LateWriter(cfg: Config, hash: string) returns (s0: State, s: State)
    requires Faithful(cfg.json)
    ensures CanReach(cfg, s0, s) && s0.db == s.db == BootTables(hash) && s.now == 0
    ensures s.threads == map[0 := Authed(hash, LOCAL_USER, PAIRING_TOKEN), 1 := ClosingLocation(LOCAL_USER)]
  {
    var row := TokenRow(LOCAL_USER, PAIRING_TOKEN);
    s0 := Boots(cfg, hash);
    s := Fetched(cfg, s0, s0, 0, hash);
    s := Fetched(cfg, s0, s, 1, hash);
    s := Filled(cfg, s0, s, 0, hash, row);
    s := Filled(cfg, s0, s, 1, hash, row);
    s := Dropped(cfg, s0, s, 1, hash, row);
  }

  // From the bootstrap state: a phone is past authentication when its account is being
  // deleted, and posts its location after the old one was dropped and before the user
  // row goes. The location is told after the removal; and when no request is left, the
  // store still holds it for its twenty-four hours.
  lemma LocationOutlivesAccount(cfg: Config, hash: string, body: string) returns (s0: State, s: State)
    requires Faithful(cfg.json)
    ensures CanReach(cfg, s0, s) && s0.db == BootTables(hash)
    ensures s.threads == map[] && LOCAL_USER !in s.db.users && ToldAfterRemoval(s.log, LOCAL_USER, body)
    ensures Live(s.kv, Location(LOCAL_USER), LOCATION_TTL) && s.kv[Location(LOCAL_USER)].value == body
  {
    s0, s := LateWriter(cfg, hash);
    var n := |s.log|;
    s := Written(cfg, s0, s, 0, hash, LOCAL_USER, body);
    s := Gone(cfg, s0, s, 1, LOCAL_USER);
    s := Told(cfg, s0, s, 0, LOCAL_USER, body);
    assert s.log[n].Located? && s.log[n + 1].Removed? && s.log[n + 2].LocationAnswered?;
    assert s.threads == map[];
  }

  // --- Two rotations of one kind ---

  lemma StartsRotation(cfg: Config, s: State, tid: nat, hash: string, user: string) returns (s': State)
    requires s.now == 0 && tid in s.threads && s.threads[tid] == Authed(hash, user, PAIRING_TOKEN)
    ensures Leads(cfg, s, Action(tid, 0, RotateStart(API_KEY)), s')
    ensures s'.now == 0 && s'.db == s.db && s'.kv == s.kv && s'.log == s.log
    ensures s'.threads == s.threads[tid := Rotating(TokenRow(user, API_KEY), None)]
  {
    s' := Next(cfg, s, Action(tid, 0, RotateStart(API_KEY)));
  }

  lemma SelectsStale(cfg: Config, s: State, tid: nat, row: TokenRow) returns (s': State)
    requires s.now == 0 && tid in s.threads && s.threads[tid] == Rotating(row, None)
    ensures Leads(cfg, s, Action(tid, 0, RotateSelect), s')
    ensures s'.now == 0 && s'.db == s.db && s'.kv == s.kv && s'.log == s.log
    ensures s'.threads == s.threads[tid := Selected(row, HashesOf(s.db, row), None)]
  {
    s' := Next(cfg, s, Action(tid, 0, RotateSelect));
  }

  lemma Commits(cfg: Config, s: State, tid: nat, row: TokenRow, stale: set<string>, hash: string) returns (s': State)
    requires s.now == 0 && tid in s.threads && s.threads[tid] == Selected(row, stale, None)
    requires Rotate(s.db, row, hash).Some?
    ensures Leads(cfg, s, Action(tid, 0, RotateCommit(hash)), s')
    ensures s'.now == 0 && s'.db == Rotate(s.db, row, hash).value && s'.kv == s.kv
    ensures s'.log == s.log + [Minted(hash, row, 0, None)] && s'.threads == s.threads[tid := Dropping(stale)]
  {
    s' := Next(cfg, s, Action(tid, 0, RotateCommit(hash)));
  }

  lemma Hits(cfg: Config, s: State, tid: nat, hash: string, row: TokenRow) returns (s': State)
    requires s.now == 0 && tid !in s.threads && row.user != "" && IsKind(row.kind) && Auth(hash) in s.kv
    requires s.kv[Auth(hash)] == Binding(AuthText(row), Some(CACHE_TTL))
    ensures Leads(cfg, s, Action(tid, 0, AuthGet(hash)), s')
    ensures s'.db == s.db && s'.log == s.log + [Accepted(hash, row, 0)]
    ensures s'.threads == s.threads[tid := Authed(hash, row.user, row.kind)]
  {
    KindsColonFree(row);
    assert Live(s.kv, Auth(hash), 0);
    s' := Next(cfg, s, Action(tid, 0, AuthGet(hash)));
  }

  // A request of the local user asks for an API key and selects the old ones.
  lemma RotationSelected(cfg: Config, s0: State, s: State, tid: nat, hash: string) returns (s': State)
    requires CanReach(cfg, s0, s) && s.now == 0
    requires tid in s.threads && s.threads[tid] == Authed(hash, LOCAL_USER, PAIRING_TOKEN)
    ensures var row := TokenRow(LOCAL_USER, API_KEY);
      && CanReach(cfg, s0, s') && s'.now == 0 && s'.db == s.db && s'.kv == s.kv
      && s'.threads == s.threads[tid := Selected(row, HashesOf(s.db, row), None)]
  {
    var row := TokenRow(LOCAL_USER, API_KEY);
    var s1 := StartsRotation(cfg, s, tid, hash, LOCAL_USER);
    Reached(cfg, s0, s, Action(tid, 0, RotateStart(API_KEY)), s1);
    s' := SelectsStale(cfg, s1, tid, row);
    Reached(cfg, s0, s1, Action(tid, 0, RotateSelect), s');
  }

  lemma Answered(cfg: Config, s0: State, s: State, tid: nat) returns (s': State)
    requires CanReach(cfg, s0, s) && s.now == 0 && tid in s.threads && MayFinish(s.threads[tid])
    ensures CanReach(cfg, s0, s') && s'.now == 0 && s'.db == s.db && s'.kv == s.kv && s'.log == s.log
    ensures s'.threads == s.threads - {tid}
  {
    s' := Finishes(cfg, s, tid);
    Reached(cfg, s0, s, Action(tid, 0, Finish), s');
  }

  // It commits with nothing to drop, and is answered.
  lemma RotationDone(cfg: Config, s0: State, s: State, tid: nat, row: TokenRow, hash: string) returns (s': State)
    requires CanReach(cfg, s0, s) && s.now == 0 && Rotate(s.db, row, hash).Some?
    requires tid in s.threads && s.threads[tid] == Selected(row, {}, None)
    ensures CanReach(cfg, s0, s') && s'.now == 0 && s'.db == Rotate(s.db, row, hash).value && s'.kv == s.kv
    ensures s'.log == s.log + [Minted(hash, row, 0, None)] && s'.threads == s.threads - {tid}
  {
    var s1 := Commits(cfg, s, tid, row, {}, hash);
    Reached(cfg, s0, s, Action(tid, 0, RotateCommit(hash)), s1);
    s' := Answered(cfg, s0, s1, tid);
  }

  // Two requests have both selected the old API keys, of which there is none.
  lemma BothSelected(cfg: Config, hash: string) returns (s0: State, s: State)
    requires Faithful(cfg.json)
    ensures CanReach(cfg, s0, s) && s0.db == s.db == BootTables(hash) && s.now == 0
    ensures forall other :: other != hash ==> Auth(other) !in s.kv
    ensures var pc := Selected(TokenRow(LOCAL_USER, API_KEY), {}, None); s.threads == map[1 := pc, 2 := pc]
  {
    var row := TokenRow(LOCAL_USER, PAIRING_TOKEN);
    s0 := Boots(cfg, hash);
    s := Fetched(cfg, s0, s0, 1, hash);
    s := Fetched(cfg, s0, s, 2, hash);
    s := Filled(cfg, s0, s, 1, hash, row);
    s := Filled(cfg, s0, s, 2, hash, row);
    assert HashesOf(s.db, TokenRow(LOCAL_USER, API_KEY)) == {};
    s := RotationSelected(cfg, s0, s, 1, hash);
    s := RotationSelected(cfg, s0, s, 2, hash);
  }

  // The first of them commits ...
  lemma FirstKeyMinted(cfg: Config, hash: string, first: string) returns (s0: State, s: State)
    requires Faithful(cfg.json) && hash != first
    ensures var row := TokenRow(LOCAL_USER, API_KEY);
      && CanReach(cfg, s0, s) && s0.db == BootTables(hash) && s.now == 0 && Auth(first) !in s.kv
      && s.db == BootTables(hash).(tokens := BootTables(hash).tokens[first := row])
      && s.threads == map[2 := Selected(row, {}, None)]
  {
    var row := TokenRow(LOCAL_USER, API_KEY);
    s0, s := BothSelected(cfg, hash);
    assert HashesOf(s.db, row) == {};
    s := RotationDone(cfg, s0, s, 1, row, first);
  }

  // ... and its new key is used and so cached.
  lemma FirstKeyCached(cfg: Config, hash: string, first: string) returns (s0: State, s: State)
    requires Faithful(cfg.json) && hash != first
    ensures var row := TokenRow(LOCAL_USER, API_KEY);
      && CanReach(cfg, s0, s) && s0.db == BootTables(hash) && s.now == 0
      && s.db == BootTables(hash).(tokens := BootTables(hash).tokens[first := row])
      && s.threads == map[2 := Selected(row, {}, None)]
      && Auth(first) in s.kv && s.kv[Auth(first)] == Binding(AuthText(row), Some(CACHE_TTL))
  {
    var row := TokenRow(LOCAL_USER, API_KEY);
    s0, s := FirstKeyMinted(cfg, hash, first);
    s := Fetched(cfg, s0, s, 3, first);
    s := Filled(cfg, s0, s, 3, first, row);
    s := Answered(cfg, s0, s, 3);
    assert s.threads == map[2 := Selected(row, {}, None)];
  }

  // From the bootstrap state: of two overlapping rotations of one kind, the second takes
  // the first one's key out of the table, but it had selected the old keys before there
  // was that key. So it drops nothing, and when both rotations have been answered the
  // first key is still accepted, though its row is gone.
  lemma RotationOverlooksToken(cfg: Config, hash: string, first: string, second: string) returns (s0: State, s: State)
    requires Faithful(cfg.json) && hash != first && hash != second && first != second
    ensures var row := TokenRow(LOCAL_USER, API_KEY);
      && CanReach(cfg, s0, s) && s0.db == BootTables(hash) && first !in s.db.tokens
      && s.threads == map[4 := Authed(first, LOCAL_USER, API_KEY)]
      && MintedThenAccepted(s.log, second, first, row)
  {
    var row := TokenRow(LOCAL_USER, API_KEY);
    s0, s := FirstKeyCached(cfg, hash, first);
    assert HashesOf(s.db, row) == {first};
    var n := |s.log|;
    s := RotationDone(cfg, s0, s, 2, row, second);
    var s1 := Hits(cfg, s, 4, first, row);
    Reached(cfg, s0, s, Action(4, 0, AuthGet(first)), s1);
    s := s1;
    assert s.log[n] == Minted(second, row, 0, None) && s.log[n + 1] == Accepted(first, row, 0);
  }

  // One credential of the pair is minted, and afterwards another one accepted.
  ghost predicate MintedThenAccepted(log: seq<Fact>, minted: string, accepted: string, row: TokenRow) {
    exists x, y :: 0 <= x < y < |log| && log[x].Minted? && log[x].hash == minted && log[x].row == row
                   && log[y].Accepted? && log[y].hash == accepted && log[y].row == row
  }
}
