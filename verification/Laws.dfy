/** What clients of the server can rely on, turn by turn of any conversation. Each law says
    what a response is in terms of the request and of the earlier turns. `ServeAll` proves
    that the handlers, with their caches, have only such conversations. */
module Laws {
  import opened Wrappers
  import opened TimedStore
  import opened Keys
  import opened Database
  import opened Server
  import opened WebCodes
  import opened Reference
  import opened History

  lemma TurnAt(cfg: Config, r: Ref, turns: seq<Turn>, i: nat)
    requires Conversation(cfg, r, turns) && i < |turns|
    ensures var s := After(cfg, r, turns[..i]);
      && TablesOk(s.db) && Told(cfg, r.db, turns[..i], s) && turns[i] == TurnOf(cfg, s, turns[i].q, turns[i].t)
      && Admissible(turns[i].q)
  {
    ConversationPrefix(cfg, r, turns, i);
    AlwaysTold(cfg, r, turns[..i]);
  }

  // --- Who may do what ---

  // A kind of credential that the route does not admit.
  predicate Refuses(q: Request, kind: string) {
    || (q.NewCode? && kind != "pairing_token" && kind != "web_session")
    || (q.RotateKind? && q.kind == "pairing_token" && kind != "web_session")
    || (q.RotateKind? && q.kind != "pairing_token" && kind != "web_session" && kind != "pairing_token")
    || (q.DeleteAccount? && kind != "web_session" && kind != "pairing_token")
    || (q.PostLocation? && kind != "pairing_token")
    || (q.MCPLocation? && kind != "api_key")
  }

  // One request with a bearer, for which this row is stored.
  predicate Admitted(q: Request, response: Response, row: Option<TokenRow>) {
    && (response == Unauthorized <==> row.None?)
    && (response == Forbidden <==> row.Some? && Refuses(q, row.value.kind))
    && (response.ServedAs? ==> response.user == row.value.user)
    && (row.Some? && !Refuses(q, row.value.kind) && !q.RotateKind? && !q.PutWebhook? && !q.PutGateway? ==>
          response.ServedAs?)
  }

  lemma UserServed(r: Ref, q: Request, user: string, t: Times)
    requires !Public(q)
    ensures var response := UserStep(r, q, user, t).1;
      && response != Unauthorized && response != Forbidden && (response.ServedAs? ==> response.user == user)
      && (!q.RotateKind? && !q.PutWebhook? && !q.PutGateway? ==> response.ServedAs?)
  {
  }

  lemma BearerTurn(cfg: Config, r: Ref, q: Request, t: Times)
    requires !q.SignIn? && !q.Login? && !q.Authorize? && !q.Exchange?
    ensures Admitted(q, Handle(cfg, r, q, t).1, Lookup(r.db.tokens, q.bearer))
  {
    if q.bearer in r.db.tokens {
      UserServed(r, q, r.db.tokens[q.bearer].user, t);
    }
  }

  // A request with a bearer is refused as unauthorized exactly when no credential is
  // known under it, and forbidden exactly when there is one of a kind that the route
  // does not admit. What is served is served to the credential's user, and past these
  // two checks only a rotation, a webhook or a gateway can be refused.
  lemma BearerLaw(cfg: Config, r: Ref, turns: seq<Turn>, i: nat)
    requires Conversation(cfg, r, turns) && i < |turns|
    requires var q := turns[i].q; !q.SignIn? && !q.Login? && !q.Authorize? && !q.Exchange?
    ensures Admitted(turns[i].q, turns[i].response, TokenAfter(r.db, turns[..i], turns[i].q.bearer))
  {
    TurnAt(cfg, r, turns, i);
    var s, q := After(cfg, r, turns[..i]), turns[i].q;
    BearerTurn(cfg, s, q, turns[i].t);
    assert Lookup(s.db.tokens, q.bearer) == TokenAfter(r.db, turns[..i], q.bearer);
  }

  lemma MintTurn(cfg: Config, db: Tables, past: seq<Turn>, s: Ref, s': Ref, user: string, kind: string, hash: string)
    requires TablesOk(s.db) && Told(cfg, db, past, s) && s'.db == s.db && IsKind(kind)
    ensures Issue(s', TokenRow(user, kind), hash).1 == MintAnswer(db, past, user, kind, hash)
  {
    RotateExact(s.db, TokenRow(user, kind), hash);
    assert Lookup(s.db.tokens, hash) == TokenAfter(db, past, hash);
    assert user in s.db.users <==> UserAfter(db, past, user);
  }

  // Past authentication: an account is always deleted, a code always issued, and a
  // credential of the kind asked for, unless its hash is some other credential's.
  lemma AccountLaw(cfg: Config, r: Ref, turns: seq<Turn>, i: nat)
    requires Conversation(cfg, r, turns) && i < |turns|
    requires turns[i].q.NewCode? || turns[i].q.DeleteAccount? || turns[i].q.RotateKind?
    ensures var q, response := turns[i].q, turns[i].response;
      var row := TokenAfter(r.db, turns[..i], q.bearer);
      row.Some? && response != Forbidden ==>
        var user := row.value.user;
        && (q.NewCode? ==> response == ServedAs(user, PhoneCodeIs(q.code)))
        && (q.DeleteAccount? ==> response == ServedAs(user, Nothing))
        && (q.RotateKind? ==> response == MintAnswer(r.db, turns[..i], user, q.kind, q.hash))
  {
    BearerLaw(cfg, r, turns, i);
    TurnAt(cfg, r, turns, i);
    var s, q := After(cfg, r, turns[..i]), turns[i].q;
    assert Lookup(s.db.tokens, q.bearer) == TokenAfter(r.db, turns[..i], q.bearer);
    if q.RotateKind? && q.bearer in s.db.tokens {
      MintTurn(cfg, r.db, turns[..i], s, s, s.db.tokens[q.bearer].user, q.kind, q.hash);
    }
  }

  // A sign-in is as the user the identity is bound to. For an unknown identity it is as a
  // new user, and fails when the id is taken or the hash some credential's.
  lemma SignInLaw(cfg: Config, r: Ref, turns: seq<Turn>, i: nat)
    requires Conversation(cfg, r, turns) && i < |turns| && turns[i].q.SignIn?
    ensures var q := turns[i].q;
      var known := IdentityAfter(r.db, turns[..i], q.id);
      turns[i].response ==
        if known.Some? then MintAnswer(r.db, turns[..i], known.value, q.kind, q.hash)
        else if UserAfter(r.db, turns[..i], "usr_" + q.suffix) || TokenAfter(r.db, turns[..i], q.hash).Some? then Failed
        else ServedAs("usr_" + q.suffix, Credential(q.hash, q.kind))
  {
    TurnAt(cfg, r, turns, i);
    var s, q := After(cfg, r, turns[..i]), turns[i].q;
    assert Lookup(s.db.identities, q.id) == IdentityAfter(r.db, turns[..i], q.id);
    assert Lookup(s.db.tokens, q.hash) == TokenAfter(r.db, turns[..i], q.hash);
    assert UserId(q.suffix) in s.db.users <==> UserAfter(r.db, turns[..i], UserId(q.suffix));
    if q.id in s.db.identities {
      MintTurn(cfg, r.db, turns[..i], s, s, s.db.identities[q.id], q.kind, q.hash);
    }
  }

  // --- Webhooks, gateways and locations ---

  // The answers read off the tables and the store of the moment.
  lemma LookupTurn(cfg: Config, r: Ref, q: Request, t: Times)
    requires Handle(cfg, r, q, t).1.ServedAs?
    ensures var response := Handle(cfg, r, q, t).1;
      && (q.GetWebhook? ==> response.payload == WebhookIs(Lookup(r.db.hooks, response.user)))
      && (q.GetGateway? ==> response.payload == GatewayIs(Lookup(r.db.dests, response.user)))
      && (q.DeleteWebhook? || q.DeleteGateway? ==> response.payload == Nothing)
      && (q.PostLocation? ==>
            response.payload == Delivered(Lookup(r.db.hooks, response.user), Lookup(r.db.dests, response.user)))
  {
  }

  lemma LocationRead(cfg: Config, r: Ref, q: Request, t: Times)
    requires (q.GetLocation? || q.MCPLocation?) && Handle(cfg, r, q, t).1.ServedAs?
    ensures var response := Handle(cfg, r, q, t).1;
      var b := Lookup(r.mem, Location(response.user));
      var there := b.Some? && (b.value.deadline.Some? ==> t.first <= b.value.deadline.value);
      response.payload == LocationIs(if there then Some(b.value.value) else None)
  {
  }

  // A lookup gives the last webhook put, and nothing once it was deleted; a post of a
  // location is delivered there and to the last gateway registered.
  lemma WebhookLaw(cfg: Config, r: Ref, turns: seq<Turn>, i: nat)
    requires Conversation(cfg, r, turns) && i < |turns| && turns[i].response.ServedAs?
    ensures var q, response := turns[i].q, turns[i].response;
      && (q.GetWebhook? ==> response.payload == WebhookIs(HookAfter(r.db, turns[..i], response.user)))
      && (q.GetGateway? ==> response.payload == GatewayIs(DestAfter(r.db, turns[..i], response.user)))
      && (q.DeleteWebhook? || q.DeleteGateway? ==> response.payload == Nothing)
      && (q.PostLocation? ==>
            response.payload == Delivered(HookAfter(r.db, turns[..i], response.user),
                                          DestAfter(r.db, turns[..i], response.user)))
  {
    TurnAt(cfg, r, turns, i);
    var s, user := After(cfg, r, turns[..i]), turns[i].response.user;
    LookupTurn(cfg, s, turns[i].q, turns[i].t);
    assert Lookup(s.db.hooks, user) == HookAfter(r.db, turns[..i], user);
    assert Lookup(s.db.dests, user) == DestAfter(r.db, turns[..i], user);
  }

  // Past authentication a webhook is stored as trimmed, exactly when URL and secret are
  // not blank and the URL was found valid.
  lemma PutWebhookLaw(cfg: Config, r: Ref, turns: seq<Turn>, i: nat)
    requires Conversation(cfg, r, turns) && i < |turns| && turns[i].q.PutWebhook?
    ensures var q, response := turns[i].q, turns[i].response;
      var row, hook := TokenAfter(r.db, turns[..i], q.bearer), Hook(Trim(q.given.url), Trim(q.given.secret));
      row.Some? ==>
        response ==
          if hook.url == "" || hook.secret == "" || !q.valid then BadRequest
          else ServedAs(row.value.user, WebhookIs(Some(hook)))
  {
    BearerLaw(cfg, r, turns, i);
    TurnAt(cfg, r, turns, i);
    var s, q := After(cfg, r, turns[..i]), turns[i].q;
    assert Lookup(s.db.tokens, q.bearer) == TokenAfter(r.db, turns[..i], q.bearer);
  }

  lemma GatewayTurn(r: Ref, q: Request, user: string, t: Times)
    requires q.PutGateway? && user in r.db.users
    ensures var d := GatewayOf(q.form, q.suffix);
      UserStep(r, q, user, t).1 ==
        if Malformed(d, q.valid) then BadRequest
        else if q.probe.None? || q.probe.value >= 300 then Unverified
        else ServedAs(user, GatewayIs(Some(d)))
  {
    assert Prepared(q.form, q.suffix) == GatewayOf(q.form, q.suffix);
  }

  // Past authentication a gateway is stored exactly when it is well formed and the probe
  // answered below 300.
  lemma PutGatewayLaw(cfg: Config, r: Ref, turns: seq<Turn>, i: nat)
    requires Conversation(cfg, r, turns) && i < |turns| && turns[i].q.PutGateway?
    ensures var q, response := turns[i].q, turns[i].response;
      var row, d := TokenAfter(r.db, turns[..i], q.bearer), GatewayOf(q.form, q.suffix);
      row.Some? ==>
        response ==
          if Malformed(d, q.valid) then BadRequest
          else if q.probe.None? || q.probe.value >= 300 then Unverified
          else ServedAs(row.value.user, GatewayIs(Some(d)))
  {
    TurnAt(cfg, r, turns, i);
    var s, q := After(cfg, r, turns[..i]), turns[i].q;
    assert Lookup(s.db.tokens, q.bearer) == TokenAfter(r.db, turns[..i], q.bearer);
    if q.bearer in s.db.tokens {
      GatewayTurn(s, q, s.db.tokens[q.bearer].user, turns[i].t);
    }
  }

  // A reader is told the last location posted, for twenty-four hours and until the
  // account is deleted.
  lemma LocationLaw(cfg: Config, r: Ref, turns: seq<Turn>, i: nat)
    requires Conversation(cfg, r, turns) && i < |turns| && turns[i].response.ServedAs?
    requires turns[i].q.GetLocation? || turns[i].q.MCPLocation?
    ensures var kept := LocationAfter(turns[..i], turns[i].response.user);
      turns[i].response.payload ==
        LocationIs(if Fresh(kept, turns[i].t.first, ONE_DAY) then Some(kept.value.what) else None)
  {
    TurnAt(cfg, r, turns, i);
    var s, user := After(cfg, r, turns[..i]), turns[i].response.user;
    LocationRead(cfg, s, turns[i].q, turns[i].t);
    assert Lookup(s.mem, Location(user)) == Bound(LocationAfter(turns[..i], user), ONE_DAY);
  }

  // --- Codes ---

  // A login is let in exactly when the phone code as typed was issued at most five
  // minutes ago and not presented since; then the user it was issued to gets a session.
  lemma LoginLaw(cfg: Config, r: Ref, turns: seq<Turn>, i: nat)
    requires Conversation(cfg, r, turns) && i < |turns| && turns[i].q.Login?
    ensures var q, code := turns[i].q, Normalize(turns[i].q.typed);
      var kept := CodeAfter(turns[..i], code);
      turns[i].response ==
        if code == "" || !Fresh(kept, turns[i].t.first, FIVE_MINUTES) then Unauthorized
        else MintAnswer(r.db, turns[..i], kept.value.what, "web_session", q.hash)
  {
    TurnAt(cfg, r, turns, i);
    var s, code := After(cfg, r, turns[..i]), Normalize(turns[i].q.typed);
    var kept := CodeAfter(turns[..i], code);
    assert Lookup(s.mem, WebCode(code)) == Bound(kept, FIVE_MINUTES);
    if kept.Some? {
      MintTurn(cfg, r.db, turns[..i], s, Do(s, Op.GetDel(WebCode(code)), turns[i].t.first), kept.value.what,
               WEB_SESSION, turns[i].q.hash);
    }
  }

  // Query and form of an approval name the configured client and redirection URI.
  predicate Proper(cfg: Config, q: Request)
    requires q.Authorize?
  {
    && q.query.clientID == cfg.clientID && q.clientID == cfg.clientID && q.query.responseType == "code"
    && q.query.redirectURI != "" && q.redirectURI != ""
    && (cfg.redirectURI == "" || (q.query.redirectURI == cfg.redirectURI && q.redirectURI == cfg.redirectURI))
  }

  // An approval is given exactly when OAuth is configured, query and form are proper,
  // and the phone code is good as for a login.
  lemma AuthorizeLaw(cfg: Config, r: Ref, turns: seq<Turn>, i: nat)
    requires Conversation(cfg, r, turns) && i < |turns| && turns[i].q.Authorize?
    ensures var q, code := turns[i].q, Normalize(turns[i].q.typed);
      turns[i].response ==
        if cfg.clientID == "" then Unavailable
        else if !Proper(cfg, q) then BadRequest
        else if code == "" || !Fresh(CodeAfter(turns[..i], code), turns[i].t.first, FIVE_MINUTES) then AskAgain
        else Redirected(q.granted)
  {
    TurnAt(cfg, r, turns, i);
    var s, code := After(cfg, r, turns[..i]), Normalize(turns[i].q.typed);
    assert Lookup(s.mem, WebCode(code)) == Bound(CodeAfter(turns[..i], code), FIVE_MINUTES);
  }

  // An exchange is let in exactly when the configured client presents its secret and an
  // authorization code given at most five minutes ago, not presented since, for the same
  // client and redirection URI; then an API key goes to the user of the approval.
  lemma ExchangeLaw(cfg: Config, r: Ref, turns: seq<Turn>, i: nat)
    requires Conversation(cfg, r, turns) && i < |turns| && turns[i].q.Exchange?
    ensures var q, response := turns[i].q, turns[i].response;
      var kept := GrantAfter(cfg, turns[..i], q.code);
      && (response == Unauthorized <==>
            q.grantType == "authorization_code" && (q.clientID != cfg.clientID || q.clientSecret != cfg.clientSecret))
      && (response == BadRequest <==>
            || q.grantType != "authorization_code"
            || (&& q.clientID == cfg.clientID && q.clientSecret == cfg.clientSecret
                && (|| !Fresh(kept, turns[i].t.first, FIVE_MINUTES)
                    || kept.value.what.clientID != q.clientID || kept.value.what.redirectURI != q.redirectURI)))
      && (response != Unauthorized && response != BadRequest ==>
            response == MintAnswer(r.db, turns[..i], kept.value.what.user, "api_key", q.hash))
  {
    TurnAt(cfg, r, turns, i);
    var s, q := After(cfg, r, turns[..i]), turns[i].q;
    var kept := GrantAfter(cfg, turns[..i], q.code);
    assert Lookup(s.mem, OAuthCode(q.code)) == BoundGrant(cfg.json, kept);
    if kept.Some? {
      assert cfg.json.parseGrant(cfg.json.grantText(kept.value.what)) == Some(kept.value.what);
      MintTurn(cfg, r.db, turns[..i], s, Do(s, Op.GetDel(OAuthCode(q.code)), turns[i].t.first),
               kept.value.what.user, API_KEY, q.hash);
    }
  }

  // --- Where codes come from ---

  lemma {:induction false} CodeOrigin(past: seq<Turn>, code: string)
    requires CodeAfter(past, code).Some?
    ensures var k := CodeAfter(past, code).value;
      && k.turn < |past| && past[k.turn].q.NewCode? && past[k.turn].q.code == code && ServedTo(past[k.turn], k.what)
      && past[k.turn].t.first == k.at
      && forall i :: k.turn < i < |past| ==> !Redeems(past[i], code)
    decreases |past|
  {
    var n := |past| - 1;
    if !(past[n].q.NewCode? && past[n].response.ServedAs? && past[n].q.code == code) {
      CodeOrigin(past[..n], code);
    }
  }

  lemma {:induction false} GrantOrigin(cfg: Config, past: seq<Turn>, code: string)
    requires GrantAfter(cfg, past, code).Some?
    ensures var k := GrantAfter(cfg, past, code).value;
      && k.turn < |past| && Approves(past[k.turn], code) && past[k.turn].t.second == k.at
      && past[k.turn].q.clientID == k.what.clientID && past[k.turn].q.redirectURI == k.what.redirectURI
      && (var phone := CodeAfter(past[..k.turn], Normalize(past[k.turn].q.typed));
          phone.Some? && phone.value.what == k.what.user)
      && forall i :: k.turn < i < |past| ==> !Exchanges(cfg, past[i], code)
    decreases |past|
  {
    var n, q := |past| - 1, past[|past| - 1].q;
    if !(Approves(past[n], code) && CodeAfter(past[..n], Normalize(q.typed)).Some?) {
      GrantOrigin(cfg, past[..n], code);
      var k := GrantAfter(cfg, past[..n], code).value;
      assert past[..n][..k.turn] == past[..k.turn];
    }
  }

  // A phone code that was good for something: a session, or an approval.
  predicate Redeemed(turn: Turn) {
    (turn.q.Login? && turn.response.ServedAs?) || (turn.q.Authorize? && turn.response.Redirected?)
  }

  // Turn j issued the phone code that turn i redeemed, at most five minutes before.
  predicate IssuedFor(turns: seq<Turn>, j: nat, i: nat)
    requires j < |turns| && i < |turns|
  {
    && j < i && turns[j].q.NewCode? && turns[j].response.ServedAs?
    && (turns[i].q.Login? || turns[i].q.Authorize?) && Normalize(turns[i].q.typed) == turns[j].q.code
    && turns[i].t.first <= turns[j].t.first + FIVE_MINUTES
    && (turns[i].q.Login? ==> turns[i].response.ServedAs? && turns[i].response.user == turns[j].response.user)
  }

  lemma RedemptionOrigin(cfg: Config, r: Ref, turns: seq<Turn>, i: nat) returns (j: nat)
    requires Conversation(cfg, r, turns) && i < |turns| && Redeemed(turns[i])
    ensures var code := Normalize(turns[i].q.typed);
      && Redeems(turns[i], code) && CodeAfter(turns[..i], code).Some? && CodeAfter(turns[..i], code).value.turn == j
    ensures j < i && IssuedFor(turns, j, i)
  {
    if turns[i].q.Login? {
      LoginLaw(cfg, r, turns, i);
    } else {
      AuthorizeLaw(cfg, r, turns, i);
    }
    CodeOrigin(turns[..i], Normalize(turns[i].q.typed));
    j := CodeAfter(turns[..i], Normalize(turns[i].q.typed)).value.turn;
  }

  // Every session and every approval has its own phone code: issued before, to the user
  // of the session, at most five minutes earlier, and to no other session or approval.
  lemma CodesSingleUse(cfg: Config, r: Ref, turns: seq<Turn>, i: nat, k: nat) returns (a: nat, b: nat)
    requires Conversation(cfg, r, turns) && i < k < |turns| && Redeemed(turns[i]) && Redeemed(turns[k])
    ensures a < i && IssuedFor(turns, a, i) && b < k && IssuedFor(turns, b, k) && a != b
  {
    a := RedemptionOrigin(cfg, r, turns, i);
    b := RedemptionOrigin(cfg, r, turns, k);
    CodeOrigin(turns[..k], Normalize(turns[k].q.typed));
    assert turns[..k][i] == turns[i];
  }

  // Turn j approved what turn i exchanged, at most five minutes before, for the same
  // client and redirection URI.
  predicate ApprovedFor(turns: seq<Turn>, j: nat, i: nat)
    requires j < |turns| && i < |turns|
  {
    && j < i && turns[i].q.Exchange? && Approves(turns[j], turns[i].q.code)
    && turns[j].q.clientID == turns[i].q.clientID && turns[j].q.redirectURI == turns[i].q.redirectURI
    && turns[i].t.first <= turns[j].t.second + FIVE_MINUTES
  }

  lemma ExchangeOrigin(cfg: Config, r: Ref, turns: seq<Turn>, i: nat) returns (j: nat)
    requires Conversation(cfg, r, turns) && i < |turns| && turns[i].q.Exchange? && turns[i].response.ServedAs?
    ensures Exchanges(cfg, turns[i], turns[i].q.code)
    ensures var kept := GrantAfter(cfg, turns[..i], turns[i].q.code); kept.Some? && kept.value.turn == j
    ensures j < i && ApprovedFor(turns, j, i)
  {
    ExchangeLaw(cfg, r, turns, i);
    GrantOrigin(cfg, turns[..i], turns[i].q.code);
    j := GrantAfter(cfg, turns[..i], turns[i].q.code).value.turn;
  }

  // Every API key of the token endpoint has its own approval.
  lemma ApprovalsSingleUse(cfg: Config, r: Ref, turns: seq<Turn>, i: nat, k: nat) returns (a: nat, b: nat)
    requires Conversation(cfg, r, turns) && i < k < |turns|
    requires turns[i].q.Exchange? && turns[i].response.ServedAs? && turns[k].q.Exchange? && turns[k].response.ServedAs?
    ensures a < i && ApprovedFor(turns, a, i) && b < k && ApprovedFor(turns, b, k) && a != b
  {
    a := ExchangeOrigin(cfg, r, turns, i);
    b := ExchangeOrigin(cfg, r, turns, k);
    GrantOrigin(cfg, turns[..k], turns[k].q.code);
    assert turns[..k][i] == turns[i];
  }

  // And goes to the user of the phone code behind that approval.
  lemma ExchangeChain(cfg: Config, r: Ref, turns: seq<Turn>, i: nat) returns (approval: nat, issue: nat)
    requires Conversation(cfg, r, turns) && i < |turns| && turns[i].q.Exchange? && turns[i].response.ServedAs?
    ensures issue < approval < i && IssuedFor(turns, issue, approval) && ApprovedFor(turns, approval, i)
    ensures ServedTo(turns[issue], turns[i].response.user)
    ensures turns[i].response.payload == Credential(turns[i].q.hash, "api_key")
    ensures turns[i].q.clientID == cfg.clientID && turns[i].q.clientSecret == cfg.clientSecret
  {
    approval := ExchangeOrigin(cfg, r, turns, i);
    ExchangeLaw(cfg, r, turns, i);
    GrantOrigin(cfg, turns[..i], turns[i].q.code);
    issue := RedemptionOrigin(cfg, r, turns, approval);
    assert turns[..i][..approval] == turns[..approval];
    CodeOrigin(turns[..approval], Normalize(turns[approval].q.typed));
  }
}
