/** The server as its clients see it: a conversation of requests and responses. What each
    response must be is said in terms of the earlier ones alone: the last webhook put, the
    last location posted, the code not yet used. Nothing here names a step of the server,
    so that the laws hold the steps of `Reference`, and through `ServeAll` those of the
    handlers, to what clients were promised. */
module History {
  import opened Wrappers
  import opened TimedStore
  import opened Keys
  import opened Database
  import opened Codecs
  import opened Server
  import opened WebCodes
  import opened Reference

  const FIVE_MINUTES: int := 300_000_000_000      // nanoseconds
  const ONE_DAY: int := 86_400_000_000_000

  // A request, the moments at which it acted on the store, and its response.
  datatype Turn = Turn(q: Request, t: Times, response: Response)

  function Turns(qs: seq<Request>, ts: seq<Times>, responses: seq<Response>): seq<Turn>
    requires |qs| == |ts| == |responses|
  {
    seq(|qs|, i requires 0 <= i < |qs| => Turn(qs[i], ts[i], responses[i]))
  }

  function After(cfg: Config, r: Ref, turns: seq<Turn>): Ref {
    if turns == [] then r
    else
      var n := |turns| - 1;
      Handle(cfg, After(cfg, r, turns[..n]), turns[n].q, turns[n].t).0
  }

  // The conversation is one the uncached server has from this state.
  predicate Happened(cfg: Config, r: Ref, turns: seq<Turn>) {
    turns == [] ||
    var n := |turns| - 1;
    && Happened(cfg, r, turns[..n])
    && turns[n].response == Handle(cfg, After(cfg, r, turns[..n]), turns[n].q, turns[n].t).1
  }

  predicate AllSound(turns: seq<Turn>) {
    forall i :: 0 <= i < |turns| ==> Admissible(turns[i].q)
  }

  // From a server with an empty store.
  ghost predicate Conversation(cfg: Config, r: Ref, turns: seq<Turn>) {
    Faithful(cfg.json) && TablesOk(r.db) && r.mem == map[] && AllSound(turns) && Happened(cfg, r, turns)
  }

  lemma {:induction false} ConversationPrefix(cfg: Config, r: Ref, turns: seq<Turn>, n: nat)
    requires Conversation(cfg, r, turns) && n <= |turns|
    ensures Conversation(cfg, r, turns[..n])
    ensures n < |turns| ==> turns[n].response == Handle(cfg, After(cfg, r, turns[..n]), turns[n].q, turns[n].t).1
    decreases |turns|
  {
    if n == |turns| {
      assert turns[..n] == turns;
    } else if n < |turns| - 1 {
      var fewer := turns[..|turns| - 1];
      ConversationPrefix(cfg, r, fewer, n);
      assert fewer[..n] == turns[..n];
    }
  }

  lemma {:induction false} AfterTablesOk(cfg: Config, r: Ref, turns: seq<Turn>)
    requires TablesOk(r.db) && AllSound(turns)
    ensures TablesOk(After(cfg, r, turns).db)
    decreases |turns|
  {
    if turns != [] {
      var n := |turns| - 1;
      AfterTablesOk(cfg, r, turns[..n]);
      HandleKeepsTables(cfg, After(cfg, r, turns[..n]), turns[n].q, turns[n].t);
    }
  }

  lemma OneMoreTurn(cfg: Config, r: Ref, turns: seq<Turn>, q: Request, t: Times)
    requires Happened(cfg, r, turns)
    ensures var (r', response) := Handle(cfg, After(cfg, r, turns), q, t);
      var more := turns + [Turn(q, t, response)];
      Happened(cfg, r, more) && After(cfg, r, more) == r'
  {
    var more := turns + [Turn(q, t, Handle(cfg, After(cfg, r, turns), q, t).1)];
    assert more[..|more| - 1] == turns;
  }

  lemma TurnsSnoc(qs: seq<Request>, ts: seq<Times>, responses: seq<Response>, q: Request, t: Times, response: Response)
    requires |qs| == |ts| == |responses|
    ensures Turns(qs + [q], ts + [t], responses + [response]) == Turns(qs, ts, responses) + [Turn(q, t, response)]
  {
  }

  // A sequence of requests with its responses is a conversation.
  lemma {:induction false} SequenceHappened(cfg: Config, r: Ref, qs: seq<Request>, ts: seq<Times>)
    requires |qs| == |ts|
    ensures var turns := Turns(qs, ts, HandleAll(cfg, r, qs, ts).1);
      Happened(cfg, r, turns) && After(cfg, r, turns) == HandleAll(cfg, r, qs, ts).0
    decreases |qs|
  {
    if qs != [] {
      var qs1, ts1, q, t := qs[..|qs| - 1], ts[..|qs| - 1], qs[|qs| - 1], ts[|qs| - 1];
      assert qs1 + [q] == qs && ts1 + [t] == ts;
      var (at, responses) := HandleAll(cfg, r, qs1, ts1);
      SequenceHappened(cfg, r, qs1, ts1);
      HandleAllSnoc(cfg, r, qs1, ts1, q, t);
      OneMoreTurn(cfg, r, Turns(qs1, ts1, responses), q, t);
      TurnsSnoc(qs1, ts1, responses, q, t, Handle(cfg, at, q, t).1);
    }
  }

  // --- What the past says ---

  predicate ServedTo(turn: Turn, user: string) {
    turn.response.ServedAs? && turn.response.user == user
  }

  // What a response does to a credential.
  function TokenBy(turn: Turn, before: Option<TokenRow>, hash: string): Option<TokenRow> {
    if !turn.response.ServedAs? then before
    else if turn.response.payload.Credential? then
      var row := TokenRow(turn.response.user, turn.response.payload.kind);
      if turn.response.payload.hash == hash then Some(row) else if before == Some(row) then None else before
    else if turn.q.DeleteAccount? && before.Some? && before.value.user == turn.response.user then None
    else before
  }

  // The credential behind a bearer: the last one issued under this hash, unless a newer
  // one of its user and kind was issued or its user's account deleted.
  function TokenAfter(db: Tables, past: seq<Turn>, hash: string): Option<TokenRow> {
    if past == [] then Lookup(db.tokens, hash)
    else
      var n := |past| - 1;
      TokenBy(past[n], TokenAfter(db, past[..n], hash), hash)
  }

  // The user an identity is bound to: the new user of the first sign-in with it since it
  // was last unbound by the deletion of an account.
  function IdentityAfter(db: Tables, past: seq<Turn>, id: Identity): Option<string>
    decreases |past|
  {
    if past == [] then Lookup(db.identities, id)
    else
      var n := |past| - 1;
      var before, q := IdentityAfter(db, past[..n], id), past[n].q;
      if q.SignIn? && q.id == id && before.None? then
        if UserAfter(db, past[..n], UserId(q.suffix)) then None else Some(UserId(q.suffix))
      else if before.Some? && q.DeleteAccount? && ServedTo(past[n], before.value) then None
      else before
  }

  // Whether there is such a user: created by a sign-in with an unknown identity, and not
  // deleted since.
  predicate UserAfter(db: Tables, past: seq<Turn>, user: string)
    decreases |past|
  {
    if past == [] then user in db.users
    else
      var n := |past| - 1;
      var q := past[n].q;
      if q.SignIn? && UserId(q.suffix) == user && IdentityAfter(db, past[..n], q.id).None? then true
      else if q.DeleteAccount? && ServedTo(past[n], user) then false
      else UserAfter(db, past[..n], user)
  }

  // The answer of an endpoint that issues a credential to the user: it fails when there is
  // no such user or the hash is some other credential's.
  function MintAnswer(db: Tables, past: seq<Turn>, user: string, kind: string, hash: string): Response {
    var held := TokenAfter(db, past, hash);
    if !UserAfter(db, past, user) || (held.Some? && held.value != TokenRow(user, kind)) then Failed
    else ServedAs(user, Credential(hash, kind))
  }

  // The last webhook put, unless it was deleted since, or the account was.
  function HookAfter(db: Tables, past: seq<Turn>, user: string): Option<Hook> {
    if past == [] then Lookup(db.hooks, user)
    else
      var n := |past| - 1;
      var q := past[n].q;
      if !ServedTo(past[n], user) then HookAfter(db, past[..n], user)
      else if q.PutWebhook? then Some(Hook(Trim(q.given.url), Trim(q.given.secret)))
      else if q.DeleteWebhook? || q.DeleteAccount? then None
      else HookAfter(db, past[..n], user)
  }

  // The gateway a form describes: trimmed, without slashes at the end of the URL, and
  // with the defaults for path and action.
  function GatewayOf(form: Form, suffix: string): Dest {
    Dest(
      "dest_" + suffix,
      Trim(TrimSlashes(Trim(form.gatewayURL))),
      Trim(form.hookToken),
      if Trim(form.hookPath) == "" then "pingclaw" else Trim(form.hookPath),
      if Trim(form.action) == "" then "wake" else Trim(form.action),
      Trim(form.sessionKey))
  }

  // The last gateway registered, unless it was deleted since, or the account was.
  function DestAfter(db: Tables, past: seq<Turn>, user: string): Option<Dest> {
    if past == [] then Lookup(db.dests, user)
    else
      var n := |past| - 1;
      var q := past[n].q;
      if !ServedTo(past[n], user) then DestAfter(db, past[..n], user)
      else if q.PutGateway? then Some(GatewayOf(q.form, q.suffix))
      else if q.DeleteGateway? || q.DeleteAccount? then None
      else DestAfter(db, past[..n], user)
  }

  // A gateway that is refused unprobed: it must have an address found valid, a token, a
  // path of letters, digits and hyphens with no hyphen in front, and one of two actions.
  predicate Malformed(d: Dest, valid: bool) {
    || d.gatewayURL == "" || !valid || d.hookToken == "" || (d.action != "wake" && d.action != "agent")
    || d.hookPath == "" || d.hookPath[0] == '-'
    || exists k :: 0 <= k < |d.hookPath| && var c := d.hookPath[k];
         !('a' <= c <= 'z') && !('A' <= c <= 'Z') && !('0' <= c <= '9') && c != '-'
  }

  // Something kept for a while: what, since when, and from which turn.
  datatype Kept<T> = Kept(what: T, at: int, turn: nat)

  predicate Fresh<T>(k: Option<Kept<T>>, now: int, ttl: int) {
    k.Some? && now <= k.value.at + ttl
  }

  // The last location posted, unless the account was deleted since.
  function LocationAfter(past: seq<Turn>, user: string): Option<Kept<string>> {
    if past == [] then None
    else
      var n := |past| - 1;
      if !ServedTo(past[n], user) then LocationAfter(past[..n], user)
      else if past[n].q.PostLocation? then Some(Kept(past[n].q.body, past[n].t.first, n))
      else if past[n].q.DeleteAccount? then None
      else LocationAfter(past[..n], user)
  }

  // A turn that presents the phone code to the store: a login, or an approval that got
  // past the checks of its parameters.
  predicate Redeems(turn: Turn, code: string) {
    && code != ""
    && ((turn.q.Login? && Normalize(turn.q.typed) == code)
        || (&& turn.q.Authorize? && Normalize(turn.q.typed) == code
            && (turn.response.AskAgain? || turn.response.Redirected?)))
  }

  // The user a phone code was last issued to, unless it was presented since.
  function CodeAfter(past: seq<Turn>, code: string): Option<Kept<string>> {
    if past == [] then None
    else
      var n := |past| - 1;
      if past[n].q.NewCode? && past[n].response.ServedAs? && past[n].q.code == code then
        Some(Kept(past[n].response.user, past[n].t.first, n))
      else if Redeems(past[n], code) then None
      else CodeAfter(past[..n], code)
  }

  // An exchange by the configured client, with its secret.
  predicate Exchanges(cfg: Config, turn: Turn, code: string) {
    && turn.q.Exchange? && turn.q.code == code && turn.q.grantType == "authorization_code"
    && turn.q.clientID == cfg.clientID && turn.q.clientSecret == cfg.clientSecret
  }

  predicate Approves(turn: Turn, code: string) {
    turn.q.Authorize? && turn.response == Redirected(code)
  }

  // The grant an authorization code was last given for, unless it was presented since:
  // for the user of the phone code, and with the client and redirection URI of the form.
  function GrantAfter(cfg: Config, past: seq<Turn>, code: string): Option<Kept<Grant>> {
    if past == [] then None
    else
      var n := |past| - 1;
      var q := past[n].q;
      if Approves(past[n], code) && CodeAfter(past[..n], Normalize(q.typed)).Some? then
        var user := CodeAfter(past[..n], Normalize(q.typed)).value.what;
        Some(Kept(Grant(user, q.redirectURI, q.clientID), past[n].t.second, n))
      else if Exchanges(cfg, past[n], code) then None
      else GrantAfter(cfg, past[..n], code)
  }

  // --- The state is what the past says ---

  ghost predicate TokensTold(db: Tables, past: seq<Turn>, r: Ref) {
    forall hash :: Lookup(r.db.tokens, hash) == TokenAfter(db, past, hash)
  }

  ghost predicate UsersTold(db: Tables, past: seq<Turn>, r: Ref) {
    && (forall user :: user in r.db.users <==> UserAfter(db, past, user))
    && (forall id :: Lookup(r.db.identities, id) == IdentityAfter(db, past, id))
  }

  ghost predicate HooksTold(db: Tables, past: seq<Turn>, r: Ref) {
    forall user :: Lookup(r.db.hooks, user) == HookAfter(db, past, user)
  }

  ghost predicate DestsTold(db: Tables, past: seq<Turn>, r: Ref) {
    forall user :: Lookup(r.db.dests, user) == DestAfter(db, past, user)
  }

  function Bound(k: Option<Kept<string>>, ttl: int): Option<Binding> {
    if k.None? then None else Some(Binding(k.value.what, Some(k.value.at + ttl)))
  }

  function BoundGrant(json: Json, k: Option<Kept<Grant>>): Option<Binding> {
    if k.None? then None else Some(Binding(json.grantText(k.value.what), Some(k.value.at + FIVE_MINUTES)))
  }

  ghost predicate LocationsTold(past: seq<Turn>, r: Ref) {
    forall user :: Lookup(r.mem, Location(user)) == Bound(LocationAfter(past, user), ONE_DAY)
  }

  ghost predicate CodesTold(past: seq<Turn>, r: Ref) {
    && (forall code :: Lookup(r.mem, WebCode(code)) == Bound(CodeAfter(past, code), FIVE_MINUTES))
    && (forall code :: CodeAfter(past, code).Some? ==> CodeAfter(past, code).value.what != "")
  }

  ghost predicate GrantsTold(cfg: Config, past: seq<Turn>, r: Ref) {
    forall code :: Lookup(r.mem, OAuthCode(code)) == BoundGrant(cfg.json, GrantAfter(cfg, past, code))
  }

  // --- One turn ---

  function TurnOf(cfg: Config, r: Ref, q: Request, t: Times): Turn {
    Turn(q, t, Handle(cfg, r, q, t).1)
  }

  // The endpoints without a bearer touch no webhook, gateway or location, and those
  // behind one act for the user of the bearer's row.
  ghost predicate SameService(r: Ref, r': Ref) {
    && r'.db.hooks == r.db.hooks && r'.db.dests == r.db.dests
    && forall user :: Lookup(r'.mem, Location(user)) == Lookup(r.mem, Location(user))
  }

  lemma SignInTouchesNone(r: Ref, q: Request)
    requires q.SignIn?
    ensures SameService(r, SignInStep(r, q).0)
  {
  }

  lemma LoginTouchesNone(r: Ref, q: Request, t: Times)
    requires q.Login?
    ensures SameService(r, LoginStep(r, q, t).0)
  {
  }

  lemma AuthorizeTouchesNone(cfg: Config, r: Ref, q: Request, t: Times)
    requires q.Authorize?
    ensures SameService(r, AuthorizeStep(cfg, r, q, t).0)
  {
  }

  lemma ExchangeTouchesNone(cfg: Config, r: Ref, q: Request, t: Times)
    requires q.Exchange?
    ensures SameService(r, ExchangeStep(cfg, r, q, t).0)
  {
  }

  lemma PublicTouches(cfg: Config, r: Ref, q: Request, t: Times)
    requires Public(q)
    ensures SameService(r, PublicStep(cfg, r, q, t).0)
  {
    match q
    case SignIn(_, _, _, _) => SignInTouchesNone(r, q);
    case Login(_, _) => LoginTouchesNone(r, q, t);
    case Authorize(_, _, _, _, _) => AuthorizeTouchesNone(cfg, r, q, t);
    case Exchange(_, _, _, _, _, _) => ExchangeTouchesNone(cfg, r, q, t);
  }

  lemma UserTouchesHooks(r: Ref, q: Request, user: string, t: Times, other: string)
    requires !Public(q) && user in r.db.users
    ensures var (r', response) := UserStep(r, q, user, t);
      Lookup(r'.db.hooks, other) ==
        if response.ServedAs? && response.user == other && q.PutWebhook? then
          Some(Hook(Trim(q.given.url), Trim(q.given.secret)))
        else if response.ServedAs? && response.user == other && (q.DeleteWebhook? || q.DeleteAccount?) then None
        else Lookup(r.db.hooks, other)
  {
  }

  lemma HookTurn(cfg: Config, db: Tables, r: Ref, past: seq<Turn>, q: Request, t: Times)
    requires TablesOk(r.db) && HooksTold(db, past, r)
    ensures HooksTold(db, past + [TurnOf(cfg, r, q, t)], Handle(cfg, r, q, t).0)
  {
    var turn := TurnOf(cfg, r, q, t);
    var row := if Public(q) then Denied(Failed) else Authenticate(r.db, q.bearer, Kinds(q));
    assert (past + [turn])[..|past|] == past;
    if Public(q) {
      PublicTouches(cfg, r, q, t);
    } else if row.Allowed? {
      forall other
        ensures Lookup(Handle(cfg, r, q, t).0.db.hooks, other) == HookAfter(db, past + [turn], other)
      {
        UserTouchesHooks(r, q, row.row.user, t, other);
      }
    }
  }

  lemma UserTouchesDests(r: Ref, q: Request, user: string, t: Times, other: string)
    requires !Public(q) && user in r.db.users
    ensures var (r', response) := UserStep(r, q, user, t);
      Lookup(r'.db.dests, other) ==
        if response.ServedAs? && response.user == other && q.PutGateway? then Some(Prepared(q.form, q.suffix))
        else if response.ServedAs? && response.user == other && (q.DeleteGateway? || q.DeleteAccount?) then None
        else Lookup(r.db.dests, other)
  {
  }

  lemma DestTurn(cfg: Config, db: Tables, r: Ref, past: seq<Turn>, q: Request, t: Times)
    requires TablesOk(r.db) && DestsTold(db, past, r)
    ensures DestsTold(db, past + [TurnOf(cfg, r, q, t)], Handle(cfg, r, q, t).0)
  {
    var turn := TurnOf(cfg, r, q, t);
    var row := if Public(q) then Denied(Failed) else Authenticate(r.db, q.bearer, Kinds(q));
    assert (past + [turn])[..|past|] == past;
    if Public(q) {
      PublicTouches(cfg, r, q, t);
    } else if row.Allowed? {
      forall other
        ensures Lookup(Handle(cfg, r, q, t).0.db.dests, other) == DestAfter(db, past + [turn], other)
      {
        UserTouchesDests(r, q, row.row.user, t, other);
      }
    }
  }

  lemma UserTouchesLocations(r: Ref, q: Request, user: string, t: Times, other: string)
    requires !Public(q)
    ensures var (r', response) := UserStep(r, q, user, t);
      Lookup(r'.mem, Location(other)) ==
        if response.ServedAs? && response.user == other && q.PostLocation? then
          Some(Binding(q.body, Some(t.first + ONE_DAY)))
        else if response.ServedAs? && response.user == other && q.DeleteAccount? then None
        else Lookup(r.mem, Location(other))
  {
  }

  lemma LocationTurn(cfg: Config, r: Ref, past: seq<Turn>, q: Request, t: Times)
    requires LocationsTold(past, r)
    ensures LocationsTold(past + [TurnOf(cfg, r, q, t)], Handle(cfg, r, q, t).0)
  {
    var turn := TurnOf(cfg, r, q, t);
    var row := if Public(q) then Denied(Failed) else Authenticate(r.db, q.bearer, Kinds(q));
    assert (past + [turn])[..|past|] == past;
    if Public(q) {
      PublicTouches(cfg, r, q, t);
    } else if row.Allowed? {
      forall other
        ensures Lookup(Handle(cfg, r, q, t).0.mem, Location(other)) ==
                  Bound(LocationAfter(past + [turn], other), ONE_DAY)
      {
        UserTouchesLocations(r, q, row.row.user, t, other);
      }
    }
  }

  // --- Credentials ---

  lemma IssueTouchesTokens(r: Ref, row: TokenRow, hash: string, other: string)
    ensures var (r', response) := Issue(r, row, hash);
      && r'.mem == r.mem && (response == Failed || response == ServedAs(row.user, Credential(hash, row.kind)))
      && Lookup(r'.db.tokens, other) ==
           if response == Failed then Lookup(r.db.tokens, other)
           else if other == hash then Some(row)
           else if Lookup(r.db.tokens, other) == Some(row) then None
           else Lookup(r.db.tokens, other)
  {
  }

  lemma PublicTouchesTokens(cfg: Config, r: Ref, q: Request, t: Times, other: string)
    requires Public(q)
    ensures var (r', response) := PublicStep(cfg, r, q, t);
      Lookup(r'.db.tokens, other) == TokenBy(Turn(q, t, response), Lookup(r.db.tokens, other), other)
  {
    if !q.Authorize? {
      forall r1: Ref, row: TokenRow | r1.db.tokens == r.db.tokens
        ensures var (r', response) := Issue(r1, row, q.hash);
          Lookup(r'.db.tokens, other) == TokenBy(Turn(q, t, response), Lookup(r.db.tokens, other), other)
      {
        IssueTouchesTokens(r1, row, q.hash, other);
      }
    }
  }

  lemma UserTouchesTokens(r: Ref, q: Request, user: string, t: Times, other: string)
    requires !Public(q)
    ensures var (r', response) := UserStep(r, q, user, t);
      Lookup(r'.db.tokens, other) == TokenBy(Turn(q, t, response), Lookup(r.db.tokens, other), other)
  {
    if q.RotateKind? {
      IssueTouchesTokens(r, TokenRow(user, q.kind), q.hash, other);
    }
  }

  lemma TokenTurn(cfg: Config, db: Tables, r: Ref, past: seq<Turn>, q: Request, t: Times)
    requires TokensTold(db, past, r)
    ensures TokensTold(db, past + [TurnOf(cfg, r, q, t)], Handle(cfg, r, q, t).0)
  {
    var turn := TurnOf(cfg, r, q, t);
    var row := if Public(q) then Denied(Failed) else Authenticate(r.db, q.bearer, Kinds(q));
    assert (past + [turn])[..|past|] == past;
    forall other
      ensures Lookup(Handle(cfg, r, q, t).0.db.tokens, other) == TokenAfter(db, past + [turn], other)
    {
      assert TokenAfter(db, past + [turn], other) == TokenBy(turn, TokenAfter(db, past, other), other);
      if Public(q) {
        PublicTouchesTokens(cfg, r, q, t, other);
      } else if row.Allowed? {
        UserTouchesTokens(r, q, row.row.user, t, other);
      }
    }
  }

  // --- Users and identities ---

  lemma SignInTouches(cfg: Config, r: Ref, q: Request, t: Times, id: Identity, user: string)
    requires q.SignIn?
    ensures var r' := PublicStep(cfg, r, q, t).0;
      var unknown := Lookup(r.db.identities, q.id).None?;
      && (user in r'.db.users <==> (unknown && UserId(q.suffix) == user) || user in r.db.users)
      && Lookup(r'.db.identities, id) ==
           if q.id == id && unknown then if UserId(q.suffix) in r.db.users then None else Some(UserId(q.suffix))
           else Lookup(r.db.identities, id)
  {
  }

  lemma PublicKeepsUsers(cfg: Config, r: Ref, q: Request, t: Times)
    requires Public(q) && !q.SignIn?
    ensures var r' := PublicStep(cfg, r, q, t).0; r'.db.users == r.db.users && r'.db.identities == r.db.identities
  {
  }

  lemma UserTouchesUsers(r: Ref, q: Request, user: string, t: Times, id: Identity, other: string)
    requires !Public(q)
    ensures var (r', response) := UserStep(r, q, user, t);
      var gone := q.DeleteAccount? && response.ServedAs?;
      && (other in r'.db.users <==> other in r.db.users && !(gone && response.user == other))
      && Lookup(r'.db.identities, id) ==
           if gone && Lookup(r.db.identities, id) == Some(response.user) then None else Lookup(r.db.identities, id)
  {
  }

  lemma UserTurn(cfg: Config, db: Tables, r: Ref, past: seq<Turn>, q: Request, t: Times)
    requires UsersTold(db, past, r)
    ensures UsersTold(db, past + [TurnOf(cfg, r, q, t)], Handle(cfg, r, q, t).0)
  {
    var turn := TurnOf(cfg, r, q, t);
    var row := if Public(q) then Denied(Failed) else Authenticate(r.db, q.bearer, Kinds(q));
    var r' := Handle(cfg, r, q, t).0;
    assert (past + [turn])[..|past|] == past;
    forall id, user
      ensures user in r'.db.users <==> UserAfter(db, past + [turn], user)
      ensures Lookup(r'.db.identities, id) == IdentityAfter(db, past + [turn], id)
    {
      assert Lookup(r.db.identities, id) == IdentityAfter(db, past, id);
      if q.SignIn? {
        assert Lookup(r.db.identities, q.id) == IdentityAfter(db, past, q.id);
        SignInTouches(cfg, r, q, t, id, user);
      } else if Public(q) {
        PublicKeepsUsers(cfg, r, q, t);
      } else if row.Allowed? {
        UserTouchesUsers(r, q, row.row.user, t, id, user);
      }
    }
  }

  // --- Codes ---

  lemma PublicTouchesCodes(cfg: Config, r: Ref, q: Request, t: Times, code: string)
    requires Public(q)
    ensures var (r', response) := PublicStep(cfg, r, q, t);
      Lookup(r'.mem, WebCode(code)) ==
        if Redeems(Turn(q, t, response), code) then None else Lookup(r.mem, WebCode(code))
  {
  }

  lemma UserTouchesCodes(r: Ref, q: Request, user: string, t: Times, code: string)
    requires !Public(q)
    ensures var (r', response) := UserStep(r, q, user, t);
      && Lookup(r'.mem, WebCode(code)) ==
           (if q.NewCode? && q.code == code then Some(Binding(user, Some(t.first + FIVE_MINUTES)))
            else Lookup(r.mem, WebCode(code)))
      && (q.NewCode? ==> response == ServedAs(user, PhoneCodeIs(q.code)))
      && forall other :: Lookup(r'.mem, OAuthCode(other)) == Lookup(r.mem, OAuthCode(other))
  {
  }

  lemma CodeTurn(cfg: Config, r: Ref, past: seq<Turn>, q: Request, t: Times)
    requires TablesOk(r.db) && CodesTold(past, r)
    ensures CodesTold(past + [TurnOf(cfg, r, q, t)], Handle(cfg, r, q, t).0)
  {
    var turn := TurnOf(cfg, r, q, t);
    var row := if Public(q) then Denied(Failed) else Authenticate(r.db, q.bearer, Kinds(q));
    assert (past + [turn])[..|past|] == past;
    forall code
      ensures Lookup(Handle(cfg, r, q, t).0.mem, WebCode(code)) == Bound(CodeAfter(past + [turn], code), FIVE_MINUTES)
      ensures CodeAfter(past + [turn], code).Some? ==> CodeAfter(past + [turn], code).value.what != ""
    {
      if Public(q) {
        PublicTouchesCodes(cfg, r, q, t, code);
      } else if row.Allowed? {
        UserTouchesCodes(r, q, row.row.user, t, code);
      }
    }
  }

  // What the authorization endpoint does with a live phone code.
  lemma ApprovalGrants(cfg: Config, r: Ref, q: Request, t: Times, code: string)
    requires q.Authorize?
    ensures var (r', response) := AuthorizeStep(cfg, r, q, t);
      && (response.Redirected? ==>
            && response.granted == q.granted && Live(r.mem, WebCode(Normalize(q.typed)), t.first)
            && var grant := Grant(r.mem[WebCode(Normalize(q.typed))].value, q.redirectURI, q.clientID);
               Lookup(r'.mem, OAuthCode(q.granted)) ==
                 Some(Binding(cfg.json.grantText(grant), Some(t.second + FIVE_MINUTES))))
      && (response != Redirected(code) ==> Lookup(r'.mem, OAuthCode(code)) == Lookup(r.mem, OAuthCode(code)))
  {
  }

  lemma OthersTouchGrants(cfg: Config, r: Ref, q: Request, t: Times, code: string)
    requires q.SignIn? || q.Login? || q.Exchange?
    ensures var (r', response) := PublicStep(cfg, r, q, t);
      Lookup(r'.mem, OAuthCode(code)) ==
        if Exchanges(cfg, Turn(q, t, response), code) then None else Lookup(r.mem, OAuthCode(code))
  {
  }

  lemma GrantTurn(cfg: Config, r: Ref, past: seq<Turn>, q: Request, t: Times)
    requires CodesTold(past, r) && GrantsTold(cfg, past, r)
    ensures GrantsTold(cfg, past + [TurnOf(cfg, r, q, t)], Handle(cfg, r, q, t).0)
  {
    var turn := TurnOf(cfg, r, q, t);
    var row := if Public(q) then Denied(Failed) else Authenticate(r.db, q.bearer, Kinds(q));
    assert (past + [turn])[..|past|] == past;
    forall code
      ensures Lookup(Handle(cfg, r, q, t).0.mem, OAuthCode(code)) ==
                BoundGrant(cfg.json, GrantAfter(cfg, past + [turn], code))
    {
      if q.Authorize? {
        ApprovalGrants(cfg, r, q, t, code);
        assert Lookup(r.mem, WebCode(Normalize(q.typed))) == Bound(CodeAfter(past, Normalize(q.typed)), FIVE_MINUTES);
      } else if Public(q) {
        OthersTouchGrants(cfg, r, q, t, code);
      } else if row.Allowed? {
        UserTouchesCodes(r, q, row.row.user, t, code);
      }
    }
  }

  // --- Whole conversations ---

  ghost predicate Told(cfg: Config, db: Tables, past: seq<Turn>, r: Ref) {
    && TokensTold(db, past, r) && UsersTold(db, past, r) && HooksTold(db, past, r) && DestsTold(db, past, r)
    && LocationsTold(past, r) && CodesTold(past, r) && GrantsTold(cfg, past, r)
  }

  lemma TurnTold(cfg: Config, db: Tables, r: Ref, past: seq<Turn>, q: Request, t: Times)
    requires TablesOk(r.db) && Told(cfg, db, past, r)
    ensures Told(cfg, db, past + [TurnOf(cfg, r, q, t)], Handle(cfg, r, q, t).0)
  {
    TokenTurn(cfg, db, r, past, q, t);
    UserTurn(cfg, db, r, past, q, t);
    HookTurn(cfg, db, r, past, q, t);
    DestTurn(cfg, db, r, past, q, t);
    LocationTurn(cfg, r, past, q, t);
    CodeTurn(cfg, r, past, q, t);
    GrantTurn(cfg, r, past, q, t);
  }

  // After any conversation, the users, credentials, webhooks, gateways, locations and codes of
  // the server are what its requests and responses say.
  lemma {:induction false} AlwaysTold(cfg: Config, r: Ref, turns: seq<Turn>)
    requires Conversation(cfg, r, turns)
    ensures TablesOk(After(cfg, r, turns).db) && Told(cfg, r.db, turns, After(cfg, r, turns))
    decreases |turns|
  {
    AfterTablesOk(cfg, r, turns);
    if turns != [] {
      var n := |turns| - 1;
      ConversationPrefix(cfg, r, turns, n);
      AlwaysTold(cfg, r, turns[..n]);
      TurnTold(cfg, r.db, After(cfg, r, turns[..n]), turns[..n], turns[n].q, turns[n].t);
      assert turns[..n] + [turns[n]] == turns;
    }
  }
}
