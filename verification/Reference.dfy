/** The server as a reader of the tables would describe it: one request at a time,
    every credential, webhook and gateway read from SQL, no caches. */
module Reference {
  import opened Wrappers
  import opened TimedStore
  import opened Keys
  import opened Database
  import opened Codecs
  import opened Server
  import opened WebCodes

  // The tables and the short-lived data that is not a copy of them: locations and codes.
  datatype Ref = Ref(db: Tables, mem: Store<Key>)

  // The query of an authorization request, and the form of a gateway registration.
  datatype Query = Query(clientID: string, redirectURI: string, responseType: string)
  datatype Form = Form(gatewayURL: string, hookToken: string, hookPath: string, action: string, sessionKey: string)

  // Verdicts and random choices come with the request: of the identity provider, of
  // URL validation, of the gateway probe (no status when it is unreachable).
  datatype Request =
    | SignIn(id: Identity, kind: string, suffix: string, hash: string)  // after the provider verified the identity
    | NewCode(bearer: string, code: string)
    | Login(typed: string, hash: string)
    | Authorize(query: Query, typed: string, redirectURI: string, clientID: string, granted: string)
    | Exchange(grantType: string, code: string, clientID: string, clientSecret: string, redirectURI: string,
               hash: string)
    | RotateKind(bearer: string, kind: string, hash: string)
    | DeleteAccount(bearer: string)
    | PutWebhook(bearer: string, given: Hook, valid: bool)
    | GetWebhook(bearer: string)
    | DeleteWebhook(bearer: string)
    | PutGateway(bearer: string, form: Form, valid: bool, probe: Option<int>, suffix: string)
    | GetGateway(bearer: string)
    | DeleteGateway(bearer: string)
    | PostLocation(bearer: string, body: string)
    | GetLocation(bearer: string)
    | MCPLocation(bearer: string)

  datatype Payload =
    | Nothing
    | Credential(hash: string, kind: string)
    | PhoneCodeIs(code: string)
    | WebhookIs(hook: Option<Hook>)
    | GatewayIs(dest: Option<Dest>)
    | LocationIs(body: Option<string>)
    | Delivered(hook: Option<Hook>, dest: Option<Dest>)  // where a posted location was sent on to

  datatype Response =
    | Unauthorized
    | Forbidden
    | BadRequest
    | Unverified           // the gateway probe failed
    | Unavailable          // OAuth is not configured
    | AskAgain             // the page for the code once more
    | Failed
    | Redirected(granted: string)
    | ServedAs(user: string, payload: Payload)

  datatype AuthResult = Denied(response: Response) | Allowed(row: TokenRow)

  // No kinds listed means any kind will do.
  function Authenticate(db: Tables, bearer: string, kinds: set<string>): AuthResult {
    if bearer !in db.tokens then Denied(Unauthorized)
    else if kinds != {} && db.tokens[bearer].kind !in kinds then Denied(Forbidden)
    else Allowed(db.tokens[bearer])
  }

  // The kinds of credential each endpoint admits.
  function Kinds(q: Request): set<string> {
    match q
    case NewCode(_, _) => {PAIRING_TOKEN, WEB_SESSION}
    case RotateKind(_, kind, _) => if kind == PAIRING_TOKEN then {WEB_SESSION} else {WEB_SESSION, PAIRING_TOKEN}
    case DeleteAccount(_) => {WEB_SESSION, PAIRING_TOKEN}
    case PostLocation(_, _) => {PAIRING_TOKEN}
    case MCPLocation(_) => {API_KEY}
    case _ => {}
  }

  predicate Public(q: Request) {
    q.SignIn? || q.Login? || q.Authorize? || q.Exchange?
  }

  function Sees(mem: Store<Key>, k: Key, now: int): Option<string> {
    if Live(mem, k, now) then Some(mem[k].value) else None
  }

  function Do(r: Ref, op: Op<Key>, now: int): Ref {
    r.(mem := Step(r.mem, At(op, now)).0)
  }

  // Issue a credential, or fail leaving the tables as they were.
  function Issue(r: Ref, row: TokenRow, hash: string): (Ref, Response) {
    var db := Rotate(r.db, row, hash);
    if db.None? then (r, Failed) else (r.(db := db.value), ServedAs(row.user, Credential(hash, row.kind)))
  }

  function SignInStep(r: Ref, q: Request): (Ref, Response)
    requires q.SignIn?
  {
    if q.id in r.db.identities then Issue(r, TokenRow(r.db.identities[q.id], q.kind), q.hash)
    else
      var user := UserId(q.suffix);
      var db := AddUser(r.db, user);
      if db.None? then (r, Failed)
      else
        var bound := Bind(db.value, q.id, user);
        if bound.None? then (r.(db := db.value), Failed)
        else Issue(r.(db := bound.value), TokenRow(user, q.kind), q.hash)
  }

  // The readings of the clock at which a request acts on the data in the store; no
  // request does so more than twice.
  datatype Times = Times(first: int, second: int)

  function LoginStep(r: Ref, q: Request, t: Times): (Ref, Response)
    requires q.Login?
  {
    var code := Normalize(q.typed);
    var user, r1 := Sees(r.mem, WebCode(code), t.first), Do(r, Op.GetDel(WebCode(code)), t.first);
    if code == "" then (r, Unauthorized)
    else if user.None? || user.value == "" then (r1, Unauthorized)
    else Issue(r1, TokenRow(user.value, WEB_SESSION), q.hash)
  }

  function AuthorizeStep(cfg: Config, r: Ref, q: Request, t: Times): (Ref, Response)
    requires q.Authorize?
  {
    var code := Normalize(q.typed);
    var user, r1 := Sees(r.mem, WebCode(code), t.first), Do(r, Op.GetDel(WebCode(code)), t.first);
    if cfg.clientID == "" then (r, Unavailable)
    else if !AuthorizeAccepts(cfg, q.query.redirectURI, q.query.clientID) || q.query.responseType != "code" then
      (r, BadRequest)
    else if !AuthorizeAccepts(cfg, q.redirectURI, q.clientID) then (r, BadRequest)
    else if code == "" then (r, AskAgain)
    else if user.None? || user.value == "" then (r1, AskAgain)
    else
      var text := cfg.json.grantText(Grant(user.value, q.redirectURI, q.clientID));
      (Do(r1, Op.Set(OAuthCode(q.granted), text, CODE_TTL), t.second), Redirected(q.granted))
  }

  function ExchangeStep(cfg: Config, r: Ref, q: Request, t: Times): (Ref, Response)
    requires q.Exchange?
  {
    var raw, r1 := Sees(r.mem, OAuthCode(q.code), t.first), Do(r, Op.GetDel(OAuthCode(q.code)), t.first);
    if q.grantType != "authorization_code" then (r, BadRequest)
    else if !ExchangeAccepts(cfg, q.clientID, q.clientSecret) then (r, Unauthorized)
    else if raw.None? || raw.value == "" then (r1, BadRequest)
    else
      var grant := cfg.json.parseGrant(raw.value);
      if grant.None? then (r1, Failed)
      else if grant.value.clientID != q.clientID || grant.value.redirectURI != q.redirectURI then (r1, BadRequest)
      else Issue(r1, TokenRow(grant.value.user, API_KEY), q.hash)
  }

  // What RegisterOpenClawDest stores for a form.
  function Prepared(form: Form, suffix: string): Dest {
    var path, action := Trim(form.hookPath), Trim(form.action);
    Dest("dest_" + suffix, Trim(TrimSlashes(Trim(form.gatewayURL))), Trim(form.hookToken),
         if path == "" then "pingclaw" else path, if action == "" then "wake" else action, Trim(form.sessionKey))
  }

  predicate Acceptable(dest: Dest, valid: bool) {
    dest.gatewayURL != "" && valid && dest.hookToken != "" && IsHookPath(dest.hookPath) && IsAction(dest.action)
  }

  predicate Reachable(probe: Option<int>) {
    probe.Some? && probe.value < 300
  }

  // Letters, digits and hyphens, with no hyphen in front.
  predicate IsHookPath(path: string) {
    path != "" && path[0] != '-' && forall i :: 0 <= i < |path| ==> IsPathChar(path[i])
  }

  predicate IsPathChar(c: char) {
    'a' <= c <= 'z' || 'A' <= c <= 'Z' || '0' <= c <= '9' || c == '-'
  }

  // A request of an authenticated user.
  function UserStep(r: Ref, q: Request, user: string, t: Times): (Ref, Response)
    requires !Public(q)
  {
    match q
    case NewCode(_, code) => (Do(r, Op.Set(WebCode(code), user, CODE_TTL), t.first), ServedAs(user, PhoneCodeIs(code)))
    case RotateKind(_, kind, hash) => Issue(r, TokenRow(user, kind), hash)
    case DeleteAccount(_) =>
      (Do(r.(db := RemoveUser(r.db, user)), Op.Del(Location(user)), t.first), ServedAs(user, Nothing))
    case PutWebhook(_, given, valid) =>
      var hook := Hook(Trim(given.url), Trim(given.secret));
      if hook.url == "" || hook.secret == "" || !valid then (r, BadRequest)
      else
        var db := PutHook(r.db, user, hook);
        if db.None? then (r, Failed) else (r.(db := db.value), ServedAs(user, WebhookIs(Some(hook))))
    case GetWebhook(_) => (r, ServedAs(user, WebhookIs(Lookup(r.db.hooks, user))))
    case DeleteWebhook(_) => (r.(db := DropHook(r.db, user)), ServedAs(user, Nothing))
    case PutGateway(_, form, valid, probe, suffix) =>
      var dest := Prepared(form, suffix);
      if !Acceptable(dest, valid) then (r, BadRequest)
      else if !Reachable(probe) then (r, Unverified)
      else
        var db := PutDest(r.db, user, dest);
        if db.None? then (r, Failed) else (r.(db := db.value), ServedAs(user, GatewayIs(Some(dest))))
    case GetGateway(_) => (r, ServedAs(user, GatewayIs(Lookup(r.db.dests, user))))
    case DeleteGateway(_) => (r.(db := DropDest(r.db, user)), ServedAs(user, Nothing))
    case PostLocation(_, body) =>
      (Do(r, Op.Set(Location(user), body, LOCATION_TTL), t.first),
       ServedAs(user, Delivered(Lookup(r.db.hooks, user), Lookup(r.db.dests, user))))
    case GetLocation(_) => (r, ServedAs(user, LocationIs(Sees(r.mem, Location(user), t.first))))
    case MCPLocation(_) => (r, ServedAs(user, LocationIs(Sees(r.mem, Location(user), t.first))))
  }

  function PublicStep(cfg: Config, r: Ref, q: Request, t: Times): (Ref, Response)
    requires Public(q)
  {
    match q
    case SignIn(_, _, _, _) => SignInStep(r, q)
    case Login(_, _) => LoginStep(r, q, t)
    case Authorize(_, _, _, _, _) => AuthorizeStep(cfg, r, q, t)
    case Exchange(_, _, _, _, _, _) => ExchangeStep(cfg, r, q, t)
  }

  function Handle(cfg: Config, r: Ref, q: Request, t: Times): (Ref, Response) {
    if Public(q) then PublicStep(cfg, r, q, t)
    else
      match Authenticate(r.db, q.bearer, Kinds(q))
      case Denied(response) => (r, response)
      case Allowed(row) => UserStep(r, q, row.user, t)
  }

  // A sequence of requests, each at its times, answered one by one.
  function HandleAll(cfg: Config, r: Ref, qs: seq<Request>, ts: seq<Times>): (out: (Ref, seq<Response>))
    requires |qs| == |ts|
    ensures |out.1| == |qs|
    decreases |qs|
  {
    if qs == [] then (r, [])
    else
      var (r1, response) := Handle(cfg, r, qs[0], ts[0]);
      var (r2, rest) := HandleAll(cfg, r1, qs[1..], ts[1..]);
      (r2, [response] + rest)
  }

  // One more request after the others.
  lemma {:induction false} HandleAllSnoc(cfg: Config, r: Ref, qs: seq<Request>, ts: seq<Times>, q: Request, t: Times)
    requires |qs| == |ts|
    ensures var (r1, before), (r2, all) := HandleAll(cfg, r, qs, ts), HandleAll(cfg, r, qs + [q], ts + [t]);
      var (r3, response) := Handle(cfg, r1, q, t);
      r2 == r3 && all == before + [response]
    decreases |qs|
  {
    if qs == [] {
      assert qs + [q] == [q] && ts + [t] == [t];
    } else {
      assert (qs + [q])[1..] == qs[1..] + [q] && (ts + [t])[1..] == ts[1..] + [t];
      HandleAllSnoc(cfg, Handle(cfg, r, qs[0], ts[0]).0, qs[1..], ts[1..], q, t);
    }
  }

  // What the handlers' validation promises: url.Parse refuses control characters, and
  // a sign-in asks for one of the two kinds its endpoint issues.
  predicate Admissible(q: Request) {
    && (q.PutWebhook? && q.valid ==> NewlineFree(Trim(q.given.url)))
    && (q.SignIn? ==> q.kind == PAIRING_TOKEN || q.kind == WEB_SESSION)
    && (q.RotateKind? ==> q.kind == PAIRING_TOKEN || q.kind == API_KEY)
  }

  predicate AllAdmissible(qs: seq<Request>) {
    forall i :: 0 <= i < |qs| ==> Admissible(qs[i])
  }

  ghost predicate TablesOk(db: Tables) {
    WellFormed(db) && OnePerKind(db)
  }

  lemma IssueKeeps(r: Ref, row: TokenRow, hash: string)
    requires TablesOk(r.db)
    ensures TablesOk(Issue(r, row, hash).0.db)
  {
    RotateExact(r.db, row, hash);
  }

  lemma SignInKeeps(r: Ref, q: Request)
    requires TablesOk(r.db) && q.SignIn?
    ensures TablesOk(SignInStep(r, q).0.db)
  {
    var user := UserId(q.suffix);
    if q.id in r.db.identities {
      IssueKeeps(r, TokenRow(r.db.identities[q.id], q.kind), q.hash);
    } else if AddUser(r.db, user).Some? && Bind(AddUser(r.db, user).value, q.id, user).Some? {
      IssueKeeps(r.(db := Bind(AddUser(r.db, user).value, q.id, user).value), TokenRow(user, q.kind), q.hash);
    }
  }

  lemma CodeStepsKeep(cfg: Config, r: Ref, q: Request, t: Times)
    requires TablesOk(r.db) && (q.Login? || q.Authorize? || q.Exchange?)
    ensures TablesOk(Handle(cfg, r, q, t).0.db)
  {
    forall r1: Ref, row: TokenRow | r1.db == r.db
      ensures q.Login? || q.Exchange? ==> TablesOk(Issue(r1, row, q.hash).0.db)
    {
      if q.Login? || q.Exchange? {
        IssueKeeps(r1, row, q.hash);
      }
    }
  }

  lemma HookKeeps(db: Tables, user: string, hook: Hook)
    requires TablesOk(db) && hook.url != "" && NewlineFree(hook.url)
    ensures PutHook(db, user, hook).Some? ==> TablesOk(PutHook(db, user, hook).value)
  {
  }

  lemma DestKeeps(db: Tables, user: string, dest: Dest)
    requires TablesOk(db)
    ensures PutDest(db, user, dest).Some? ==> TablesOk(PutDest(db, user, dest).value)
  {
  }

  lemma ConfigKeeps(r: Ref, q: Request, user: string, t: Times)
    requires TablesOk(r.db) && Admissible(q) && (q.PutWebhook? || q.PutGateway?)
    ensures TablesOk(UserStep(r, q, user, t).0.db)
  {
    if q.PutWebhook? {
      if Trim(q.given.url) == "" || !q.valid {
        return;
      }
      HookKeeps(r.db, user, Hook(Trim(q.given.url), Trim(q.given.secret)));
    } else {
      DestKeeps(r.db, user, Prepared(q.form, q.suffix));
    }
  }

  lemma UserStepKeeps(r: Ref, q: Request, user: string, t: Times)
    requires TablesOk(r.db) && !Public(q) && Admissible(q)
    ensures TablesOk(UserStep(r, q, user, t).0.db)
  {
    if q.DeleteAccount? {
      RemoveUserExact(r.db, user);
    } else if q.RotateKind? {
      IssueKeeps(r, TokenRow(user, q.kind), q.hash);
    } else if q.PutWebhook? || q.PutGateway? {
      ConfigKeeps(r, q, user, t);
    }
  }

  lemma HandleKeepsTables(cfg: Config, r: Ref, q: Request, t: Times)
    requires TablesOk(r.db) && Admissible(q)
    ensures TablesOk(Handle(cfg, r, q, t).0.db)
  {
    if q.SignIn? {
      SignInKeeps(r, q);
    } else if Public(q) {
      CodeStepsKeep(cfg, r, q, t);
    } else if Authenticate(r.db, q.bearer, Kinds(q)).Allowed? {
      UserStepKeeps(r, q, Authenticate(r.db, q.bearer, Kinds(q)).row.user, t);
    }
  }

  // --- Deletion is final ---

  // Nothing the server would ever serve is left of the user.
  ghost predicate Gone(r: Ref, user: string) {
    && user !in r.db.users
    && Location(user) !in r.mem
  }

  predicate Reuses(q: Request, user: string) {
    q.SignIn? && UserId(q.suffix) == user
  }

  lemma GonePublic(cfg: Config, r: Ref, q: Request, t: Times, user: string)
    requires WellFormed(r.db) && Gone(r, user) && !Reuses(q, user) && Public(q)
    ensures var (r', response) := PublicStep(cfg, r, q, t);
      Gone(r', user) && (response.ServedAs? ==> response.user != user)
  {
  }

  lemma GoneElse(r: Ref, q: Request, t: Times, user: string, other: string)
    requires Gone(r, user) && !Public(q) && other in r.db.users
    ensures var (r', response) := UserStep(r, q, other, t);
      Gone(r', user) && (response.ServedAs? ==> response.user != user)
  {
  }

  // A request cannot act for a user who is gone, and does not bring them back: phone
  // and authorization codes still pending for them are consumed without effect,
  // because the insert of the credential fails its foreign key.
  lemma GoneStays(cfg: Config, r: Ref, q: Request, t: Times, user: string)
    requires WellFormed(r.db) && Gone(r, user) && !Reuses(q, user)
    ensures var (r', response) := Handle(cfg, r, q, t);
      Gone(r', user) && (response.ServedAs? ==> response.user != user)
  {
    if Public(q) {
      GonePublic(cfg, r, q, t, user);
    } else if Authenticate(r.db, q.bearer, Kinds(q)).Allowed? {
      GoneElse(r, q, t, user, r.db.tokens[q.bearer].user);
    }
  }

  lemma DeletionRemoves(cfg: Config, r: Ref, q: Request, t: Times)
    requires WellFormed(r.db) && q.DeleteAccount? && Handle(cfg, r, q, t).1.ServedAs?
    ensures Gone(Handle(cfg, r, q, t).0, Handle(cfg, r, q, t).1.user)
  {
  }

  lemma {:induction false} GoneForever(cfg: Config, r: Ref, qs: seq<Request>, ts: seq<Times>, user: string, j: nat)
    requires |qs| == |ts| && TablesOk(r.db) && AllAdmissible(qs) && Gone(r, user)
    requires j < |qs| && forall k :: 0 <= k <= j ==> !Reuses(qs[k], user)
    ensures HandleAll(cfg, r, qs, ts).1[j].ServedAs? ==> HandleAll(cfg, r, qs, ts).1[j].user != user
    decreases |qs|
  {
    GoneStays(cfg, r, qs[0], ts[0], user);
    HandleKeepsTables(cfg, r, qs[0], ts[0]);
    if j > 0 {
      GoneForever(cfg, Handle(cfg, r, qs[0], ts[0]).0, qs[1..], ts[1..], user, j - 1);
    }
  }

  // Once DeleteAccount has answered, no later request is served as that user: none
  // authenticates, none is told a location, webhook or gateway, and no code still
  // pending yields a credential. Only a reuse of the random user id could.
  predicate DeletionsFinal(qs: seq<Request>, responses: seq<Response>)
    requires |qs| == |responses|
  {
    forall i, j | 0 <= i < j < |qs| && qs[i].DeleteAccount? && responses[i].ServedAs? && responses[j].ServedAs?
                  && (forall k :: i < k <= j ==> !Reuses(qs[k], responses[i].user)) ::
      responses[j].user != responses[i].user
  }

  lemma FirstDeletionFinal(cfg: Config, r: Ref, qs: seq<Request>, ts: seq<Times>, j: nat)
    requires |qs| == |ts| && TablesOk(r.db) && AllAdmissible(qs) && 0 < j < |qs|
    requires qs[0].DeleteAccount? && Handle(cfg, r, qs[0], ts[0]).1.ServedAs?
    requires forall k :: 0 < k <= j ==> !Reuses(qs[k], Handle(cfg, r, qs[0], ts[0]).1.user)
    ensures HandleAll(cfg, r, qs, ts).1[j].ServedAs? ==>
              HandleAll(cfg, r, qs, ts).1[j].user != Handle(cfg, r, qs[0], ts[0]).1.user
  {
    DeletionRemoves(cfg, r, qs[0], ts[0]);
    HandleKeepsTables(cfg, r, qs[0], ts[0]);
    var (r1, response) := Handle(cfg, r, qs[0], ts[0]);
    GoneForever(cfg, r1, qs[1..], ts[1..], response.user, j - 1);
  }

  // In every sequence of requests, every deletion is final.
  lemma {:induction false} DeletionIsFinal(cfg: Config, r: Ref, qs: seq<Request>, ts: seq<Times>)
    requires |qs| == |ts| && TablesOk(r.db) && AllAdmissible(qs)
    ensures DeletionsFinal(qs, HandleAll(cfg, r, qs, ts).1)
    decreases |qs|
  {
    if qs != [] {
      var responses, r1 := HandleAll(cfg, r, qs, ts).1, Handle(cfg, r, qs[0], ts[0]).0;
      HandleKeepsTables(cfg, r, qs[0], ts[0]);
      DeletionIsFinal(cfg, r1, qs[1..], ts[1..]);
      forall i, j | 0 <= i < j < |qs| && qs[i].DeleteAccount? && responses[i].ServedAs? && responses[j].ServedAs?
        && (forall k :: i < k <= j ==> !Reuses(qs[k], responses[i].user))
        ensures responses[j].user != responses[i].user
      {
        if i == 0 {
          FirstDeletionFinal(cfg, r, qs, ts, j);
        } else {
          LaterDeletionFinal(qs, responses, i, j);
        }
      }
    }
  }

  lemma LaterDeletionFinal(qs: seq<Request>, responses: seq<Response>, i: nat, j: nat)
    requires |qs| == |responses| && 0 < i < j < |qs| && DeletionsFinal(qs[1..], responses[1..])
    requires qs[i].DeleteAccount? && responses[i].ServedAs? && responses[j].ServedAs?
    requires forall k :: i < k <= j ==> !Reuses(qs[k], responses[i].user)
    ensures responses[j].user != responses[i].user
  {
    assert forall k :: 0 <= k < |qs| - 1 ==> qs[1..][k] == qs[k + 1] && responses[1..][k] == responses[k + 1];
    assert forall k :: i - 1 < k <= j - 1 ==> !Reuses(qs[1..][k], responses[1..][i - 1].user);
  }
}
