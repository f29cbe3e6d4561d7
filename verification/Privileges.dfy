/** Who may cause what, in every interleaving: each fact on record is backed by an earlier
    one, down to the kind of credential that was accepted for its user. */
module Privileges {
  import opened Wrappers
  import opened Database
  import opened Codecs
  import opened Server
  import opened Frames

  // A credential of the user was accepted, of one of these kinds if any are listed.
  ghost predicate Accepts(log: seq<Fact>, user: string, kinds: set<string>) {
    exists j :: 0 <= j < |log| && log[j].Accepted? && log[j].row.user == user
                && (kinds == {} || log[j].row.kind in kinds)
  }

  ghost predicate SignsIn(log: seq<Fact>, user: string) {
    exists j :: 0 <= j < |log| && log[j].SignedIn? && log[j].user == user
  }

  // What a credential that rests on no code rests on.
  ghost predicate Entitled(log: seq<Fact>, row: TokenRow) {
    || ((row.kind == "web_session" || row.kind == "pairing_token") && SignsIn(log, row.user))
    || (row.kind == "pairing_token" && Accepts(log, row.user, {"web_session"}))
    || (row.kind == "api_key" && Accepts(log, row.user, {"web_session", "pairing_token"}))
  }

  // A grant is only given to the configured client, and for its redirection URI.
  predicate Registered(cfg: Config, grant: Grant) {
    && grant.clientID == cfg.clientID && cfg.clientID != "" && grant.redirectURI != ""
    && (cfg.redirectURI == "" || grant.redirectURI == cfg.redirectURI)
  }

  // A fact recorded after these.
  ghost predicate FactBacked(cfg: Config, log: seq<Fact>, f: Fact) {
    match f
    case Issued(_, user, _) => Accepts(log, user, {"web_session", "pairing_token"})
    case Removed(user, _) => Accepts(log, user, {"web_session", "pairing_token"})
    case LocationDropped(user, _) => Accepts(log, user, {"web_session", "pairing_token"})
    case Located(user, _, _) => Accepts(log, user, {"pairing_token"})
    case LocationAnswered(user, _, _) => Accepts(log, user, {})
    case HookAnswered(user, _, _) => Accepts(log, user, {})
    case DestAnswered(user, _, _) => Accepts(log, user, {})
    case Minted(_, row, _, via) => via.None? ==> Entitled(log, row)
    case Granted(_, grant, _, _) => Registered(cfg, grant)
    case Exchanged(_, _, clientID, _, _) => clientID == cfg.clientID
    case _ => true
  }

  // A request that got this far.
  ghost predicate PcBacked(cfg: Config, log: seq<Fact>, pc: Pc) {
    match pc
    case Authed(_, user, kind) => Accepts(log, user, {kind})
    case Served(user) => Accepts(log, user, {})
    case Agent(user) => Accepts(log, user, {})
    case HookMissed(user) => Accepts(log, user, {})
    case HookFetched(user, _, _) => Accepts(log, user, {})
    case DestMissed(user) => Accepts(log, user, {})
    case DestFetched(user, _, _) => Accepts(log, user, {})
    case Closing(user, _) => Accepts(log, user, {"web_session", "pairing_token"})
    case ClosingHook(user) => Accepts(log, user, {"web_session", "pairing_token"})
    case ClosingDest(user) => Accepts(log, user, {"web_session", "pairing_token"})
    case ClosingLocation(user) => Accepts(log, user, {"web_session", "pairing_token"})
    case Rotating(row, via) => via.None? ==> Entitled(log, row)
    case Selected(row, _, via) => via.None? ==> Entitled(log, row)
    case Granting(grant, _) => Registered(cfg, grant)
    case Registering(_, kind) => kind == "web_session" || kind == "pairing_token"
    case Linking(_, _, kind) => kind == "web_session" || kind == "pairing_token"
    case _ => true
  }

  ghost predicate Backed(cfg: Config, s: State) {
    && (forall t :: t in s.threads ==> PcBacked(cfg, s.log, s.threads[t]))
    && (forall i :: 0 <= i < |s.log| ==> FactBacked(cfg, s.log[..i], s.log[i]))
  }

  // --- One step ---

  lemma AcceptsGrows(log: seq<Fact>, more: seq<Fact>, user: string, kinds: set<string>)
    requires Accepts(log, user, kinds)
    ensures Accepts(log + more, user, kinds)
  {
    var j :| 0 <= j < |log| && log[j].Accepted? && log[j].row.user == user && (kinds == {} || log[j].row.kind in kinds);
    assert (log + more)[j] == log[j];
  }

  lemma EntitledGrows(log: seq<Fact>, more: seq<Fact>, row: TokenRow)
    requires Entitled(log, row)
    ensures Entitled(log + more, row)
  {
    forall kinds | Accepts(log, row.user, kinds)
      ensures Accepts(log + more, row.user, kinds)
    {
      AcceptsGrows(log, more, row.user, kinds);
    }
    if SignsIn(log, row.user) {
      var j :| 0 <= j < |log| && log[j].SignedIn? && log[j].user == row.user;
      assert (log + more)[j] == log[j];
    }
  }

  lemma PcGrows(cfg: Config, log: seq<Fact>, more: seq<Fact>, pc: Pc)
    requires PcBacked(cfg, log, pc)
    ensures PcBacked(cfg, log + more, pc)
  {
    forall user, kinds | Accepts(log, user, kinds)
      ensures Accepts(log + more, user, kinds)
    {
      AcceptsGrows(log, more, user, kinds);
    }
    forall row | Entitled(log, row)
      ensures Entitled(log + more, row)
    {
      EntitledGrows(log, more, row);
    }
  }

  function New(e: Effect): seq<Fact> {
    if e.fact.Some? then [e.fact.value] else []
  }

  ghost predicate EffectBacked(cfg: Config, s: State, e: Effect) {
    && (e.pc.Some? ==> PcBacked(cfg, s.log + New(e), e.pc.value))
    && (e.fact.Some? ==> FactBacked(cfg, s.log, e.fact.value))
  }

  // A credential just accepted, or a sign-in just recorded.
  lemma JustAccepted(log: seq<Fact>, hash: string, row: TokenRow, at: int)
    ensures Accepts(log + [Accepted(hash, row, at)], row.user, {row.kind})
    ensures Accepts(log + [Accepted(hash, row, at)], row.user, {})
  {
    assert (log + [Accepted(hash, row, at)])[|log|] == Accepted(hash, row, at);
  }

  lemma JustSignedIn(log: seq<Fact>, id: Identity, user: string, at: int)
    ensures SignsIn(log + [SignedIn(id, user, at)], user)
  {
    assert (log + [SignedIn(id, user, at)])[|log|] == SignedIn(id, user, at);
  }

  lemma AcceptsMore(log: seq<Fact>, user: string, kind: string, kinds: set<string>)
    requires Accepts(log, user, {kind}) && (kinds == {} || kind in kinds)
    ensures Accepts(log, user, kinds)
  {
    var j :| 0 <= j < |log| && log[j].Accepted? && log[j].row.user == user && log[j].row.kind in {kind};
  }

  lemma AuthBacked(cfg: Config, s: State, a: Action)
    requires Backed(cfg, s) && AuthEnabled(cfg, s, a)
    ensures EffectBacked(cfg, s, AuthEffect(cfg, s, a))
  {
    var e := AuthEffect(cfg, s, a);
    if e.fact.Some? {
      JustAccepted(s.log, e.fact.value.hash, e.fact.value.row, a.at);
    }
  }

  lemma AgentBacked(cfg: Config, s: State, a: Action)
    requires Backed(cfg, s) && AgentEnabled(s, a)
    ensures EffectBacked(cfg, s, AgentEffect(s, a))
  {
    var e := AgentEffect(s, a);
    if e.fact.Some? {
      JustAccepted(s.log, e.fact.value.hash, e.fact.value.row, a.at);
    }
  }

  // The steps of a request whose user's credential was accepted, of whatever kind.
  lemma AnyKind(cfg: Config, s: State, t: nat, e: Effect)
    requires Backed(cfg, s) && t in s.threads
    requires var pc := s.threads[t];
      pc.Authed? || pc.Served? || pc.Agent? || pc.HookMissed? || pc.HookFetched? || pc.DestMissed? || pc.DestFetched?
    ensures Accepts(s.log, s.threads[t].user, {}) && Accepts(s.log + New(e), s.threads[t].user, {})
  {
    if s.threads[t].Authed? {
      AcceptsMore(s.log, s.threads[t].user, s.threads[t].kind, {});
    }
    AcceptsGrows(s.log, New(e), s.threads[t].user, {});
  }

  lemma HookBacked(cfg: Config, s: State, a: Action)
    requires Backed(cfg, s) && HookEnabled(cfg, s, a)
    ensures EffectBacked(cfg, s, HookEffect(cfg, s, a))
  {
    if !a.what.HookDrop? {
      AnyKind(cfg, s, a.tid, HookEffect(cfg, s, a));
    }
  }

  lemma DestBacked(cfg: Config, s: State, a: Action)
    requires Backed(cfg, s) && DestEnabled(cfg, s, a)
    ensures EffectBacked(cfg, s, DestEffect(cfg, s, a))
  {
    if !a.what.DestDrop? {
      AnyKind(cfg, s, a.tid, DestEffect(cfg, s, a));
    }
  }

  lemma RotateBacked(cfg: Config, s: State, a: Action)
    requires Backed(cfg, s) && RotateEnabled(s, a)
    ensures EffectBacked(cfg, s, RotateEffect(s, a))
  {
    var e, pc := RotateEffect(s, a), s.threads[a.tid];
    PcGrows(cfg, s.log, New(e), pc);
    if a.what.RotateStart? {
      AcceptsMore(s.log, pc.user, pc.kind, {"web_session", "pairing_token"});
      assert s.log + New(e) == s.log;
    }
  }

  lemma CloseBacked(cfg: Config, s: State, a: Action)
    requires Backed(cfg, s) && CloseEnabled(s, a)
    ensures EffectBacked(cfg, s, CloseEffect(s, a))
  {
    var pc := s.threads[a.tid];
    if a.what.CloseSelect? {
      AcceptsMore(s.log, pc.user, pc.kind, {"web_session", "pairing_token"});
    }
    AcceptsGrows(s.log, New(CloseEffect(s, a)), pc.user, {"web_session", "pairing_token"});
  }

  lemma CodeBacked(cfg: Config, s: State, a: Action)
    requires Backed(cfg, s) && CodeEnabled(cfg, s, a)
    ensures EffectBacked(cfg, s, CodeEffect(cfg, s, a))
  {
    if a.what.CodeIssue? {
      AcceptsMore(s.log, s.threads[a.tid].user, s.threads[a.tid].kind, {"web_session", "pairing_token"});
    }
  }

  lemma SocialBacked(cfg: Config, s: State, a: Action)
    requires Backed(cfg, s) && SocialEnabled(s, a)
    ensures EffectBacked(cfg, s, SocialEffect(s, a))
  {
    var e := SocialEffect(s, a);
    if e.fact.Some? {
      JustSignedIn(s.log, e.fact.value.id, e.fact.value.user, a.at);
    }
  }

  lemma LocationBacked(cfg: Config, s: State, a: Action)
    requires Backed(cfg, s) && LocationEnabled(s, a)
    ensures EffectBacked(cfg, s, LocationEffect(s, a))
  {
    AnyKind(cfg, s, a.tid, LocationEffect(s, a));
  }

  lemma AnyBacked(cfg: Config, s: State, a: Action)
    requires Backed(cfg, s) && Enabled(cfg, s, a) && !a.what.Background?
    ensures EffectBacked(cfg, s, EffectOf(cfg, s, a))
  {
    var w := a.what;
    if AuthStep(w) {
      AuthBacked(cfg, s, a);
    } else if AgentStep(w) {
      AgentBacked(cfg, s, a);
    } else if HookStep(w) {
      HookBacked(cfg, s, a);
    } else if DestStep(w) {
      DestBacked(cfg, s, a);
    } else if RotateStep(w) {
      RotateBacked(cfg, s, a);
    } else if CloseStep(w) {
      CloseBacked(cfg, s, a);
    } else if CodeStep(w) {
      CodeBacked(cfg, s, a);
    } else if SocialStep(w) {
      SocialBacked(cfg, s, a);
    } else if LocationStep(w) {
      LocationBacked(cfg, s, a);
    }
  }

  lemma StepBacked(cfg: Config, s: State, a: Action)
    requires Backed(cfg, s) && Enabled(cfg, s, a)
    ensures Backed(cfg, Next(cfg, s, a))
  {
    if a.what.Background? {
      return;
    }
    var e, s' := EffectOf(cfg, s, a), Next(cfg, s, a);
    AnyBacked(cfg, s, a);
    assert s'.log == s.log + New(e);
    forall t | t in s'.threads
      ensures PcBacked(cfg, s'.log, s'.threads[t])
    {
      if t != a.tid || e.pc.None? {
        PcGrows(cfg, s.log, New(e), s.threads[t]);
      }
    }
    forall i | 0 <= i < |s'.log|
      ensures FactBacked(cfg, s'.log[..i], s'.log[i])
    {
      assert s'.log[..i] == s.log[..i];
    }
  }

  // --- What a step does to the tables ---

  // The step is one of a request of this user.
  predicate ActsFor(s: State, a: Action, user: string) {
    a.tid in s.threads && var pc := s.threads[a.tid]; (pc.Authed? || pc.ClosingLocation?) && pc.user == user
  }

  // Only requests of the user change the user's webhook and gateway, and only to what
  // they ask for; the removal of the user row takes both away.
  lemma ConfigExact(cfg: Config, s: State, a: Action, user: string)
    requires Enabled(cfg, s, a)
    ensures var s', w, acts := Next(cfg, s, a), a.what, ActsFor(s, a, user);
      && Lookup(s'.db.hooks, user) ==
           (if w.HookPut? && acts && user in s.db.users then Some(w.hook)
            else if (w.HookDelete? || w.CloseRow?) && acts then None
            else Lookup(s.db.hooks, user))
      && Lookup(s'.db.dests, user) ==
           (if w.DestPut? && acts && user in s.db.users && IsAction(w.dest.action) then Some(w.dest)
            else if (w.DestDelete? || w.CloseRow?) && acts then None
            else Lookup(s.db.dests, user))
  {
    StepFramed(cfg, s, a);
  }

  // A credential comes with the commit of a rotation, which takes the others of its user
  // and kind away, and goes with the user row.
  lemma TokensExact(cfg: Config, s: State, a: Action, hash: string)
    requires Enabled(cfg, s, a)
    ensures var s', before := Next(cfg, s, a), Lookup(s.db.tokens, hash);
      Lookup(s'.db.tokens, hash) ==
        if a.what.RotateCommit? && |s'.log| > |s.log| then
          var row := s.threads[a.tid].row;
          if hash == a.what.hash then Some(row) else if before == Some(row) then None else before
        else if a.what.CloseRow? && before.Some? && ActsFor(s, a, before.value.user) then None
        else before
  {
    StepFramed(cfg, s, a);
  }

  // --- Whole runs ---

  // Whatever overlaps: a location is written only after a pairing token of its user was
  // accepted; a code issued or an account removed only after a session or pairing token
  // was; nobody is answered without some credential of theirs. A credential without a
  // code behind it rests on a sign-in or on a credential of a kind that may ask for it,
  // and grants go to the configured client alone.
  lemma {:induction false} AlwaysBacked(cfg: Config, ss: seq<State>, acts: seq<Action>, n: nat)
    requires IsRun(cfg, ss, acts) && n < |ss|
    ensures Backed(cfg, ss[n])
  {
    if n > 0 {
      AlwaysBacked(cfg, ss, acts, n - 1);
      StepBacked(cfg, ss[n - 1], acts[n - 1]);
    }
  }

  // A step keeps the record, and adds an exchange only for such a request.
  lemma LogKept(cfg: Config, s: State, a: Action)
    requires Enabled(cfg, s, a)
    ensures var s' := Next(cfg, s, a);
      && |s.log| <= |s'.log| <= |s.log| + 1 && (forall i :: 0 <= i < |s.log| ==> s'.log[i] == s.log[i])
      && (|s.log| < |s'.log| && s'.log[|s.log|].Exchanged? ==>
            var f := s'.log[|s.log|];
            a.what == CodeExchange(f.code, cfg.clientID, cfg.clientSecret, f.redirectURI) && a.at == f.at)
  {
    StepFramed(cfg, s, a);
  }

  // Every exchange on record is a request that presented the configured client's secret.
  lemma {:induction false} ExchangedBySecret(cfg: Config, ss: seq<State>, acts: seq<Action>, n: nat, i: nat)
    returns (k: nat)
    requires IsRun(cfg, ss, acts) && n < |ss| && i < |ss[n].log| && ss[n].log[i].Exchanged?
    ensures var f := ss[n].log[i];
      && k < n && |ss[k].log| == i && acts[k].at == f.at
      && acts[k].what == CodeExchange(f.code, cfg.clientID, cfg.clientSecret, f.redirectURI)
  {
    k := n - 1;
    assert ss[n] == Next(cfg, ss[k], acts[k]);
    LogKept(cfg, ss[k], acts[k]);
    if i < |ss[k].log| {
      k := ExchangedBySecret(cfg, ss, acts, k, i);
    }
  }
}
