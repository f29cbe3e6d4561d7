/** The whole server under concurrency. Every request is a thread that takes its
    store operations and SQL statements one at a time; between any two of them other
    requests, the background eviction and the clock may move. */
module Server {
  import opened Wrappers
  import opened TimedStore
  import opened Keys
  import opened Database
  import opened Codecs

  const MINUTE: int := 60 * SECOND
  const CACHE_TTL: int := 5 * MINUTE   // credentials, webhooks and gateways alike
  const CODE_TTL: int := 5 * MINUTE    // phone codes and authorization codes alike
  const LOCATION_TTL: int := 24 * 60 * MINUTE

  // `delay` bounds the time between a lookup's table read and its cache fill.
  datatype Config = Config(
    json: Json, clientID: string, clientSecret: string, redirectURI: string, delay: nat)

  // Where a request is between two steps. `via` is the position in the log of the
  // single-use event that a credential or a grant about to be issued rests on.
  datatype Pc =
    | AuthMissed(hash: string)
    | AuthFetched(hash: string, row: TokenRow, readAt: int)
    | Authed(hash: string, user: string, kind: string)
    | Served(user: string)                    // answered in part; lookups may follow
    | Agent(user: string)                     // past mcpAuthMiddleware
    | HookMissed(user: string)
    | HookFetched(user: string, hook: Option<Hook>, readAt: int)
    | HookWritten(user: string)               // table changed, cache entry still to drop
    | DestMissed(user: string)
    | DestFetched(user: string, dest: Option<Dest>, readAt: int)
    | DestWritten(user: string)
    | Rotating(row: TokenRow, via: Option<nat>)
    | Selected(row: TokenRow, stale: set<string>, via: Option<nat>)
    | Dropping(stale: set<string>)              // committed; cache entries still to drop
    | Closing(user: string, stale: set<string>) // DeleteAccount, dropping auth entries
    | ClosingHook(user: string)
    | ClosingDest(user: string)
    | ClosingLocation(user: string)
    | Granting(grant: Grant, via: Option<nat>)
    | Registering(id: Identity, kind: string)               // identity unknown
    | Linking(id: Identity, user: string, kind: string)     // user row inserted

  // What the server did, for the record. Codes and hashes come first.
  datatype Fact =
    | Accepted(hash: string, row: TokenRow, at: int)
    | HookAnswered(user: string, hook: Option<Hook>, at: int)
    | DestAnswered(user: string, dest: Option<Dest>, at: int)
    | Issued(code: string, user: string, at: int)                        // phone code
    | Redeemed(code: string, user: string, at: int)
    | Granted(code: string, grant: Grant, at: int, via: Option<nat>)     // authorization code
    | Exchanged(code: string, grant: Grant, clientID: string, redirectURI: string, at: int)  // as presented
    | Minted(hash: string, row: TokenRow, at: int, via: Option<nat>)     // credential
    | SignedIn(id: Identity, user: string, at: int)
    | Removed(user: string, at: int)
    | Located(user: string, body: string, at: int)
    | LocationDropped(user: string, at: int)
    | LocationAnswered(user: string, found: Option<string>, at: int)

  // `ids` holds every user id ever used.
  datatype State = State(
    db: Tables, kv: Store<Key>, now: int, threads: map<nat, Pc>, log: seq<Fact>, ids: set<string>)

  datatype What =
    | AuthGet(hash: string) | AuthRead | AuthFill
    | AgentLookup(hash: string)
    | HookGet | HookRead | HookFill | HookPut(hook: Hook) | HookDelete | HookDrop
    | DestGet | DestRead | DestFill | DestPut(dest: Dest) | DestDelete | DestDrop
    | RotateStart(kind: string) | RotateSelect | RotateCommit(hash: string) | RotateDrop(hash: string)
    | CloseSelect | CloseDrop(hash: string) | CloseHook | CloseDest | CloseLocation | CloseRow
    | CodeIssue(code: string) | CodeLogin(code: string)
    | CodeAuthorize(code: string, redirectURI: string, clientID: string) | GrantStore(code: string)
    | CodeExchange(code: string, clientID: string, clientSecret: string, redirectURI: string)
    | SocialSelect(id: Identity, kind: string) | SocialInsert(suffix: string) | SocialBind
    | LocationWrite(body: string) | LocationRead
    | Finish
    | Background(e: TimedStore.Event<Key>)

  // The thread that moves, the clock reading of its step, and the step.
  datatype Action = Action(tid: nat, at: int, what: What)

  ghost predicate Init(s: State) {
    && WellFormed(s.db) && OnePerKind(s.db) && IdentitiesDistinct(s.db)
    && s.kv == map[] && s.threads == map[] && s.log == [] && s.ids == s.db.users
  }

  // --- Steps of a request ---

  // What a step does: at most one store operation, the tables after it, user ids it
  // uses up, where the request is then (nowhere when it is answered), and at most one
  // fact for the record.
  datatype Effect = Effect(op: Option<Op<Key>>, db: Tables, used: set<string>, pc: Option<Pc>, fact: Option<Fact>)

  // The request is answered and nothing else happens.
  function Ends(s: State): Effect {
    Effect(None, s.db, {}, None, None)
  }

  // The request goes on and nothing else happens.
  function Goes(s: State, pc: Pc): Effect {
    Ends(s).(pc := Some(pc))
  }

  function Performed(s: State, op: Option<Op<Key>>, at: int): Store<Key> {
    if op.None? then s.kv else Step(s.kv, At(op.value, at)).0
  }

  function Apply(s: State, a: Action, e: Effect): State {
    State(
      e.db,
      Performed(s, e.op, a.at),
      a.at,
      if e.pc.Some? then s.threads[a.tid := e.pc.value] else s.threads - {a.tid},
      if e.fact.Some? then s.log + [e.fact.value] else s.log,
      s.ids + e.used)
  }

  // What a Get or GetDel on the key answers.
  function Sees(s: State, k: Key, at: int): Option<string> {
    if Live(s.kv, k, at) then Some(s.kv[k].value) else None
  }

  predicate Starts(w: What) {
    w.AuthGet? || w.AgentLookup? || w.CodeLogin? || w.CodeAuthorize? || w.CodeExchange? || w.SocialSelect?
  }

  // The thread that moves exists, or is new when the step starts a request.
  predicate Moves(s: State, a: Action) {
    s.now <= a.at && (Starts(a.what) <==> a.tid !in s.threads)
  }

  // requireAuthKinds

  predicate AuthStep(w: What) { w.AuthGet? || w.AuthRead? || w.AuthFill? }

  predicate AuthEnabled(cfg: Config, s: State, a: Action) {
    && AuthStep(a.what) && Moves(s, a)
    && (a.what.AuthRead? ==> s.threads[a.tid].AuthMissed?)
    && (a.what.AuthFill? ==> s.threads[a.tid].AuthFetched? && a.at - s.threads[a.tid].readAt <= cfg.delay)
  }

  function AuthEffect(cfg: Config, s: State, a: Action): Effect
    requires AuthEnabled(cfg, s, a)
  {
    match a.what
    case AuthGet(hash) =>
      var cached := Sees(s, Auth(hash), a.at);
      var row := if cached.Some? then ParseAuth(cached.value) else None;
      Goes(s, if row.Some? then Authed(hash, row.value.user, row.value.kind) else AuthMissed(hash)).(
        op := Some(Op.Get(Auth(hash))),
        fact := if row.Some? then Some(Accepted(hash, row.value, a.at)) else None)
    case AuthRead =>
      var hash := s.threads[a.tid].hash;
      if hash in s.db.tokens then Goes(s, AuthFetched(hash, s.db.tokens[hash], a.at)) else Ends(s)
    case AuthFill =>
      var pc := s.threads[a.tid];
      Goes(s, Authed(pc.hash, pc.row.user, pc.row.kind)).(
        op := Some(Op.Set(Auth(pc.hash), AuthText(pc.row), CACHE_TTL)), fact := Some(Accepted(pc.hash, pc.row, a.at)))
  }

  // mcpAuthMiddleware reads the table itself and admits API keys only.

  predicate AgentStep(w: What) { w.AgentLookup? }

  predicate AgentEnabled(s: State, a: Action) {
    AgentStep(a.what) && Moves(s, a)
  }

  function AgentEffect(s: State, a: Action): Effect
    requires AgentEnabled(s, a)
  {
    var hash := a.what.hash;
    if hash in s.db.tokens && s.db.tokens[hash].kind == API_KEY then
      Goes(s, Agent(s.db.tokens[hash].user)).(fact := Some(Accepted(hash, s.db.tokens[hash], a.at)))
    else Ends(s)
  }

  // lookupWebhook and its writers. A write the table refuses ends the request.

  predicate HookStep(w: What) {
    w.HookGet? || w.HookRead? || w.HookFill? || w.HookPut? || w.HookDelete? || w.HookDrop?
  }

  predicate HookEnabled(cfg: Config, s: State, a: Action) {
    && HookStep(a.what) && Moves(s, a)
    && var pc := s.threads[a.tid];
    match a.what
    case HookGet => pc.Authed? || pc.Served?
    case HookRead => pc.HookMissed?
    case HookFill => pc.HookFetched? && a.at - pc.readAt <= cfg.delay
    case HookPut(hook) => pc.Authed? && hook.url != "" && NewlineFree(hook.url) && hook.secret != ""
    case HookDelete => pc.Authed?
    case HookDrop => pc.HookWritten?
  }

  function HookEffect(cfg: Config, s: State, a: Action): Effect
    requires HookEnabled(cfg, s, a)
  {
    var user := s.threads[a.tid].user;
    match a.what
    case HookGet =>
      var cached := Sees(s, Webhook(user), a.at);
      var hook := if cached.Some? then ParseHook(cached.value) else None;
      Goes(s, if hook.Some? then Served(user) else HookMissed(user)).(
        op := Some(Op.Get(Webhook(user))),
        fact := if hook.Some? then Some(HookAnswered(user, hook.value, a.at)) else None)
    case HookRead => Goes(s, HookFetched(user, Lookup(s.db.hooks, user), a.at))
    case HookFill =>
      var hook := s.threads[a.tid].hook;
      Goes(s, Served(user)).(
        op := Some(Op.Set(Webhook(user), HookText(hook), CACHE_TTL)), fact := Some(HookAnswered(user, hook, a.at)))
    case HookPut(hook) =>
      var db := PutHook(s.db, user, hook);
      if db.Some? then Goes(s, HookWritten(user)).(db := db.value) else Ends(s)
    case HookDelete => Goes(s, HookWritten(user)).(db := DropHook(s.db, user))
    case HookDrop => Ends(s).(op := Some(Op.Del(Webhook(user))))
  }

  // lookupOpenClawDest and its writers; the gateway has been probed before DestPut.

  predicate DestStep(w: What) {
    w.DestGet? || w.DestRead? || w.DestFill? || w.DestPut? || w.DestDelete? || w.DestDrop?
  }

  predicate DestEnabled(cfg: Config, s: State, a: Action) {
    && DestStep(a.what) && Moves(s, a)
    && var pc := s.threads[a.tid];
    match a.what
    case DestGet => pc.Authed? || pc.Served?
    case DestRead => pc.DestMissed?
    case DestFill => pc.DestFetched? && a.at - pc.readAt <= cfg.delay
    case DestPut(_) => pc.Authed?
    case DestDelete => pc.Authed?
    case DestDrop => pc.DestWritten?
  }

  function DestEffect(cfg: Config, s: State, a: Action): Effect
    requires DestEnabled(cfg, s, a)
  {
    var user := s.threads[a.tid].user;
    match a.what
    case DestGet =>
      var cached := Sees(s, OpenClaw(user), a.at);
      var dest := if cached.Some? then ParseDest(cfg.json, cached.value) else None;
      Goes(s, if dest.Some? then Served(user) else DestMissed(user)).(
        op := Some(Op.Get(OpenClaw(user))),
        fact := if dest.Some? then Some(DestAnswered(user, dest.value, a.at)) else None)
    case DestRead => Goes(s, DestFetched(user, Lookup(s.db.dests, user), a.at))
    case DestFill =>
      var dest := s.threads[a.tid].dest;
      Goes(s, Served(user)).(
        op := Some(Op.Set(OpenClaw(user), DestText(cfg.json, dest), CACHE_TTL)),
        fact := Some(DestAnswered(user, dest, a.at)))
    case DestPut(dest) =>
      var db := PutDest(s.db, user, dest);
      if db.Some? then Goes(s, DestWritten(user)).(db := db.value) else Ends(s)
    case DestDelete => Goes(s, DestWritten(user)).(db := DropDest(s.db, user))
    case DestDrop => Ends(s).(op := Some(Op.Del(OpenClaw(user))))
  }

  // rotateToken: select the old hashes, run the transaction, drop the old entries.

  predicate RotateStep(w: What) { w.RotateStart? || w.RotateSelect? || w.RotateCommit? || w.RotateDrop? }

  // Which kinds of credential may ask for what (RegisterRoutes).
  predicate MayRotate(held: string, wanted: string) {
    || (wanted == PAIRING_TOKEN && held == WEB_SESSION)
    || (wanted == API_KEY && held in {WEB_SESSION, PAIRING_TOKEN})
  }

  predicate RotateEnabled(s: State, a: Action) {
    && RotateStep(a.what) && Moves(s, a)
    && var pc := s.threads[a.tid];
    match a.what
    case RotateStart(kind) => pc.Authed? && MayRotate(pc.kind, kind)
    case RotateSelect => pc.Rotating?
    case RotateCommit(_) => pc.Selected?
    case RotateDrop(hash) => pc.Dropping? && hash in pc.stale
  }

  function RotateEffect(s: State, a: Action): Effect
    requires RotateEnabled(s, a)
  {
    var pc := s.threads[a.tid];
    match a.what
    case RotateStart(kind) => Goes(s, Rotating(TokenRow(pc.user, kind), None))
    case RotateSelect => Goes(s, Selected(pc.row, HashesOf(s.db, pc.row), pc.via))
    case RotateCommit(hash) =>
      var db := Rotate(s.db, pc.row, hash);
      if db.None? then Ends(s)
      else Goes(s, Dropping(pc.stale)).(db := db.value, fact := Some(Minted(hash, pc.row, a.at, pc.via)))
    case RotateDrop(hash) => Goes(s, Dropping(pc.stale - {hash})).(op := Some(Op.Del(Auth(hash))))
  }

  // DeleteAccount: all the cached copies first, the user row last.

  predicate CloseStep(w: What) {
    w.CloseSelect? || w.CloseDrop? || w.CloseHook? || w.CloseDest? || w.CloseLocation? || w.CloseRow?
  }

  predicate MayClose(held: string) {
    held in {WEB_SESSION, PAIRING_TOKEN}
  }

  predicate CloseEnabled(s: State, a: Action) {
    && CloseStep(a.what) && Moves(s, a)
    && var pc := s.threads[a.tid];
    match a.what
    case CloseSelect => pc.Authed? && MayClose(pc.kind)
    case CloseDrop(hash) => pc.Closing? && hash in pc.stale
    case CloseHook => pc.Closing? && pc.stale == {}
    case CloseDest => pc.ClosingHook?
    case CloseLocation => pc.ClosingDest?
    case CloseRow => pc.ClosingLocation?
  }

  function CloseEffect(s: State, a: Action): Effect
    requires CloseEnabled(s, a)
  {
    var user := s.threads[a.tid].user;
    match a.what
    case CloseSelect => Goes(s, Closing(user, TokensOf(s.db, user)))
    case CloseDrop(hash) => Goes(s, Closing(user, s.threads[a.tid].stale - {hash})).(op := Some(Op.Del(Auth(hash))))
    case CloseHook => Goes(s, ClosingHook(user)).(op := Some(Op.Del(Webhook(user))))
    case CloseDest => Goes(s, ClosingDest(user)).(op := Some(Op.Del(OpenClaw(user))))
    case CloseLocation =>
      Goes(s, ClosingLocation(user)).(op := Some(Op.Del(Location(user))), fact := Some(LocationDropped(user, a.at)))
    case CloseRow =>
      Ends(s).(db := RemoveUser(s.db, user), used := {user}, fact := Some(Removed(user, a.at)))
  }

  // WebCode, WebLogin, OAuthAuthorize and OAuthToken.

  predicate CodeStep(w: What) {
    w.CodeIssue? || w.CodeLogin? || w.CodeAuthorize? || w.GrantStore? || w.CodeExchange?
  }

  // The parameter checks of the two OAuth endpoints.
  predicate AuthorizeAccepts(cfg: Config, redirectURI: string, clientID: string) {
    && cfg.clientID != "" && clientID == cfg.clientID && redirectURI != ""
    && (cfg.redirectURI != "" ==> redirectURI == cfg.redirectURI)
  }

  predicate ExchangeAccepts(cfg: Config, clientID: string, clientSecret: string) {
    clientID == cfg.clientID && clientSecret == cfg.clientSecret
  }

  predicate MayIssueCode(held: string) {
    held in {WEB_SESSION, PAIRING_TOKEN}
  }

  predicate CodeEnabled(cfg: Config, s: State, a: Action) {
    && CodeStep(a.what) && Moves(s, a)
    && match a.what
       case CodeIssue(_) => s.threads[a.tid].Authed? && MayIssueCode(s.threads[a.tid].kind)
       case CodeLogin(_) => true
       case CodeAuthorize(_, redirectURI, clientID) => AuthorizeAccepts(cfg, redirectURI, clientID)
       case GrantStore(_) => s.threads[a.tid].Granting?
       case CodeExchange(_, clientID, clientSecret, _) => ExchangeAccepts(cfg, clientID, clientSecret)
  }

  function CodeEffect(cfg: Config, s: State, a: Action): Effect
    requires CodeEnabled(cfg, s, a)
  {
    match a.what
    case CodeIssue(code) =>
      var user := s.threads[a.tid].user;
      Ends(s).(op := Some(Op.Set(WebCode(code), user, CODE_TTL)), fact := Some(Issued(code, user, a.at)))
    case CodeLogin(code) =>
      var user := Sees(s, WebCode(code), a.at);
      if user.None? || user.value == "" then Ends(s).(op := Some(Op.GetDel(WebCode(code))))
      else
        Goes(s, Rotating(TokenRow(user.value, WEB_SESSION), Some(|s.log|))).(
          op := Some(Op.GetDel(WebCode(code))), fact := Some(Redeemed(code, user.value, a.at)))
    case CodeAuthorize(code, redirectURI, clientID) =>
      var user := Sees(s, WebCode(code), a.at);
      if user.None? || user.value == "" then Ends(s).(op := Some(Op.GetDel(WebCode(code))))
      else
        Goes(s, Granting(Grant(user.value, redirectURI, clientID), Some(|s.log|))).(
          op := Some(Op.GetDel(WebCode(code))), fact := Some(Redeemed(code, user.value, a.at)))
    case GrantStore(code) =>
      var pc := s.threads[a.tid];
      Ends(s).(
        op := Some(Op.Set(OAuthCode(code), cfg.json.grantText(pc.grant), CODE_TTL)),
        fact := Some(Granted(code, pc.grant, a.at, pc.via)))
    case CodeExchange(code, clientID, _, redirectURI) =>
      var raw := Sees(s, OAuthCode(code), a.at);
      var grant := if raw.Some? && raw.value != "" then cfg.json.parseGrant(raw.value) else None;
      var taken := Ends(s).(op := Some(Op.GetDel(OAuthCode(code))));
      if grant.None? then taken
      else
        var spent := taken.(fact := Some(Exchanged(code, grant.value, clientID, redirectURI, a.at)));
        if grant.value.clientID != clientID || grant.value.redirectURI != redirectURI then spent
        else spent.(pc := Some(Rotating(TokenRow(grant.value.user, API_KEY), Some(|s.log|))))
  }

  // findOrCreateSocialUser, then the token the client asked for.

  predicate SocialStep(w: What) { w.SocialSelect? || w.SocialInsert? || w.SocialBind? }

  predicate SocialEnabled(s: State, a: Action) {
    && SocialStep(a.what) && Moves(s, a)
    && match a.what
       case SocialSelect(_, kind) => kind == PAIRING_TOKEN || kind == WEB_SESSION
       case SocialInsert(suffix) => s.threads[a.tid].Registering? && UserId(suffix) !in s.ids
       case SocialBind => s.threads[a.tid].Linking?
  }

  function SocialEffect(s: State, a: Action): Effect
    requires SocialEnabled(s, a)
  {
    match a.what
    case SocialSelect(id, kind) =>
      if id in s.db.identities then
        var user := s.db.identities[id];
        Goes(s, Rotating(TokenRow(user, kind), None)).(fact := Some(SignedIn(id, user, a.at)))
      else Goes(s, Registering(id, kind))
    case SocialInsert(suffix) =>
      var pc, user := s.threads[a.tid], UserId(suffix);
      var db := AddUser(s.db, user);
      if db.None? then Ends(s)
      else Goes(s, Linking(pc.id, user, pc.kind)).(db := db.value, used := {user})
    case SocialBind =>
      var pc := s.threads[a.tid];
      var db := Bind(s.db, pc.id, pc.user);
      if db.None? then Ends(s)
      else
        Goes(s, Rotating(TokenRow(pc.user, pc.kind), None)).(
          db := db.value, fact := Some(SignedIn(pc.id, pc.user, a.at)))
  }

  // writeLocation and readLocation.

  predicate LocationStep(w: What) { w.LocationWrite? || w.LocationRead? }

  predicate MayReadLocation(pc: Pc) {
    pc.Authed? || pc.Served? || pc.Agent?
  }

  predicate LocationEnabled(s: State, a: Action) {
    && LocationStep(a.what) && Moves(s, a)
    && var pc := s.threads[a.tid];
    if a.what.LocationWrite? then pc.Authed? && pc.kind == PAIRING_TOKEN else MayReadLocation(pc)
  }

  function LocationEffect(s: State, a: Action): Effect
    requires LocationEnabled(s, a)
  {
    var pc := s.threads[a.tid];
    match a.what
    case LocationWrite(body) =>
      Goes(s, Served(pc.user)).(
        op := Some(Op.Set(Location(pc.user), body, LOCATION_TTL)), fact := Some(Located(pc.user, body, a.at)))
    case LocationRead =>
      Goes(s, if pc.Agent? then pc else Served(pc.user)).(
        op := Some(Op.Get(Location(pc.user))),
        fact := Some(LocationAnswered(pc.user, Sees(s, Location(pc.user), a.at), a.at)))
  }

  // A request is answered when it has nothing more to do; a rotation, when it has
  // dropped every entry it selected.
  predicate MayFinish(pc: Pc) {
    MayReadLocation(pc) || (pc.Dropping? && pc.stale == {})
  }

  predicate FinishEnabled(s: State, a: Action) {
    a.what.Finish? && Moves(s, a) && MayFinish(s.threads[a.tid])
  }

  // Everything else that uses the store: activity records, rate counters, sweeps.

  predicate BackgroundKey(k: Key) {
    k.Activity? || k.SignInRate? || k.GetRate? || k.PostRate?
  }

  ghost predicate BackgroundEnabled(s: State, a: Action) {
    && a.what.Background? && s.now <= a.at
    && Timed(a.what.e, s.now) && a.what.e.t1 == a.at
    && (!a.what.e.op.Sweep? ==> BackgroundKey(a.what.e.op.key))
  }

  // --- Any step ---

  ghost predicate Enabled(cfg: Config, s: State, a: Action) {
    var w := a.what;
    if AuthStep(w) then AuthEnabled(cfg, s, a)
    else if AgentStep(w) then AgentEnabled(s, a)
    else if HookStep(w) then HookEnabled(cfg, s, a)
    else if DestStep(w) then DestEnabled(cfg, s, a)
    else if RotateStep(w) then RotateEnabled(s, a)
    else if CloseStep(w) then CloseEnabled(s, a)
    else if CodeStep(w) then CodeEnabled(cfg, s, a)
    else if SocialStep(w) then SocialEnabled(s, a)
    else if LocationStep(w) then LocationEnabled(s, a)
    else if w.Finish? then FinishEnabled(s, a)
    else BackgroundEnabled(s, a)
  }

  ghost function EffectOf(cfg: Config, s: State, a: Action): Effect
    requires Enabled(cfg, s, a) && !a.what.Background?
  {
    var w := a.what;
    if AuthStep(w) then AuthEffect(cfg, s, a)
    else if AgentStep(w) then AgentEffect(s, a)
    else if HookStep(w) then HookEffect(cfg, s, a)
    else if DestStep(w) then DestEffect(cfg, s, a)
    else if RotateStep(w) then RotateEffect(s, a)
    else if CloseStep(w) then CloseEffect(s, a)
    else if CodeStep(w) then CodeEffect(cfg, s, a)
    else if SocialStep(w) then SocialEffect(s, a)
    else if LocationStep(w) then LocationEffect(s, a)
    else Ends(s)
  }

  ghost function Next(cfg: Config, s: State, a: Action): State
    requires Enabled(cfg, s, a)
  {
    if a.what.Background? then s.(now := a.at, kv := Step(s.kv, a.what.e).0)
    else Apply(s, a, EffectOf(cfg, s, a))
  }

  // --- Runs ---

  ghost predicate IsRun(cfg: Config, ss: seq<State>, acts: seq<Action>) {
    && |ss| == |acts| + 1 && Init(ss[0]) && Faithful(cfg.json)
    && (forall i :: 0 <= i < |acts| ==> Enabled(cfg, ss[i], acts[i]) && ss[i + 1] == Next(cfg, ss[i], acts[i]))
  }
}
