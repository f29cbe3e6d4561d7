/** What a step of the server can touch: which keys of the store, which tables, which
    kind of fact it may record, and where the request that moves can be afterwards.
    The invariants of the other modules need the details of a few steps only; for all
    the others this frame is enough. */
module Frames {
  import opened Wrappers
  import opened TimedStore
  import opened Keys
  import opened Database
  import opened Server

  // Keys whose binding the step may make or change.
  predicate Writes(w: What, k: Key) {
    match w
    case AuthFill => k.Auth?
    case HookFill => k.Webhook?
    case DestFill => k.OpenClaw?
    case CodeIssue(_) => k.WebCode?
    case GrantStore(_) => k.OAuthCode?
    case LocationWrite(_) => k.Location?
    case Background(_) => BackgroundKey(k)
    case _ => false
  }

  // Keys whose live binding the step may remove.
  predicate Drops(w: What, k: Key) {
    match w
    case RotateDrop(_) => k.Auth?
    case CloseDrop(_) => k.Auth?
    case HookDrop => k.Webhook?
    case CloseHook => k.Webhook?
    case DestDrop => k.OpenClaw?
    case CloseDest => k.OpenClaw?
    case CloseLocation => k.Location?
    case CodeLogin(_) => k.WebCode?
    case CodeAuthorize(_, _, _) => k.WebCode?
    case CodeExchange(_, _, _, _) => k.OAuthCode?
    case _ => false
  }

  predicate Records(w: What, f: Fact) {
    if AuthStep(w) || AgentStep(w) then f.Accepted?
    else if HookStep(w) then f.HookAnswered?
    else if DestStep(w) then f.DestAnswered?
    else if RotateStep(w) then w.RotateCommit? && f.Minted?
    else if CodeStep(w) then f.Issued? || f.Redeemed? || f.Granted? || f.Exchanged?
    else if SocialStep(w) then f.SignedIn?
    else match w
      case CloseLocation => f.LocationDropped?
      case CloseRow => f.Removed?
      case LocationWrite(_) => f.Located?
      case LocationRead => f.LocationAnswered?
      case _ => false
  }

  predicate Becomes(w: What, pc: Pc) {
    if AuthStep(w) then if w.AuthRead? then pc.AuthFetched? else pc.AuthMissed? || pc.Authed?
    else if AgentStep(w) then pc.Agent?
    else if CodeStep(w) then pc.Rotating? || pc.Granting?
    else if SocialStep(w) then pc.Registering? || pc.Linking? || (pc.Rotating? && pc.via.None?)
    else if LocationStep(w) then pc.Served? || pc.Agent?
    else match w
      case HookGet => pc.Served? || pc.HookMissed?
      case HookRead => pc.HookFetched?
      case HookFill => pc.Served?
      case HookPut(_) => pc.HookWritten?
      case HookDelete => pc.HookWritten?
      case DestGet => pc.Served? || pc.DestMissed?
      case DestRead => pc.DestFetched?
      case DestFill => pc.Served?
      case DestPut(_) => pc.DestWritten?
      case DestDelete => pc.DestWritten?
      case RotateStart(_) => pc.Rotating? && pc.via.None?
      case RotateSelect => pc.Selected?
      case RotateCommit(_) => pc.Dropping?
      case RotateDrop(_) => pc.Dropping?
      case CloseSelect => pc.Closing?
      case CloseDrop(_) => pc.Closing?
      case CloseHook => pc.ClosingHook?
      case CloseDest => pc.ClosingDest?
      case CloseLocation => pc.ClosingLocation?
      case _ => false
  }

  // The record grows by at most one fact.
  ghost predicate Appends(s: State, s': State) {
    s'.log == s.log || (|s'.log| == |s.log| + 1 && s'.log[..|s.log|] == s.log)
  }

  ghost predicate FramedStore(w: What, s: State, s': State) {
    && (forall k :: k in s'.kv && !Writes(w, k) ==> k in s.kv && s'.kv[k] == s.kv[k])
    && (forall k :: k in s.kv && !Writes(w, k) && !Drops(w, k) && Live(s.kv, k, s'.now) ==> k in s'.kv)
  }

  predicate FramedTables(w: What, db: Tables, db': Tables) {
    && (w.RotateCommit? || w.CloseRow? || db'.tokens == db.tokens)
    && (w.HookPut? || w.HookDelete? || w.CloseRow? || db'.hooks == db.hooks)
    && (w.DestPut? || w.DestDelete? || w.CloseRow? || db'.dests == db.dests)
    && (w.SocialInsert? || w.CloseRow? || db'.users == db.users)
    && (w.SocialBind? || w.CloseRow? || db'.identities == db.identities)
  }

  ghost predicate Framed(s: State, s': State, a: Action) {
    && s.now <= s'.now == a.at
    && (forall t :: t in s'.threads ==>
          (t in s.threads && s'.threads[t] == s.threads[t]) || (t == a.tid && Becomes(a.what, s'.threads[t])))
    && Appends(s, s') && (|s'.log| > |s.log| ==> Records(a.what, s'.log[|s.log|]))
    && FramedStore(a.what, s, s') && FramedTables(a.what, s.db, s'.db)
    && (a.what.SocialInsert? || a.what.CloseRow? || s'.ids == s.ids)
  }

  // What of this can be seen from the effect alone.
  predicate OpFits(w: What, op: Op<Key>) {
    match op
    case Get(_) => true
    case Set(k, _, _) => Writes(w, k)
    case GetDel(k) => Drops(w, k)
    case Del(k) => Drops(w, k)
    case _ => false
  }

  ghost predicate Fits(s: State, w: What, e: Effect) {
    && (e.op.Some? ==> OpFits(w, e.op.value))
    && (e.pc.Some? ==> Becomes(w, e.pc.value))
    && (e.fact.Some? ==> Records(w, e.fact.value))
    && FramedTables(w, s.db, e.db)
    && (w.SocialInsert? || w.CloseRow? || e.used == {})
  }

  lemma PerformedFramed(s: State, s': State, w: What, op: Option<Op<Key>>)
    requires s'.kv == Performed(s, op, s'.now) && (op.Some? ==> OpFits(w, op.value))
    ensures FramedStore(w, s, s')
  {
  }

  lemma ApplyFramed(s: State, a: Action, e: Effect)
    requires s.now <= a.at && Fits(s, a.what, e)
    ensures Framed(s, Apply(s, a, e), a)
  {
    PerformedFramed(s, Apply(s, a, e), a.what, e.op);
  }

  lemma AuthFits(cfg: Config, s: State, a: Action)
    requires AuthEnabled(cfg, s, a)
    ensures Fits(s, a.what, AuthEffect(cfg, s, a))
  {
  }

  lemma AgentFits(s: State, a: Action)
    requires AgentEnabled(s, a)
    ensures Fits(s, a.what, AgentEffect(s, a))
  {
  }

  lemma HookFits(cfg: Config, s: State, a: Action)
    requires HookEnabled(cfg, s, a)
    ensures Fits(s, a.what, HookEffect(cfg, s, a))
  {
  }

  lemma DestFits(cfg: Config, s: State, a: Action)
    requires DestEnabled(cfg, s, a)
    ensures Fits(s, a.what, DestEffect(cfg, s, a))
  {
  }

  lemma RotateFits(s: State, a: Action)
    requires RotateEnabled(s, a)
    ensures Fits(s, a.what, RotateEffect(s, a))
  {
  }

  lemma CloseFits(s: State, a: Action)
    requires CloseEnabled(s, a)
    ensures Fits(s, a.what, CloseEffect(s, a))
  {
  }

  lemma CodeFits(cfg: Config, s: State, a: Action)
    requires CodeEnabled(cfg, s, a)
    ensures Fits(s, a.what, CodeEffect(cfg, s, a))
  {
  }

  lemma SocialFits(s: State, a: Action)
    requires SocialEnabled(s, a)
    ensures Fits(s, a.what, SocialEffect(s, a))
  {
  }

  lemma LocationFits(s: State, a: Action)
    requires LocationEnabled(s, a)
    ensures Fits(s, a.what, LocationEffect(s, a))
  {
  }

  lemma BackgroundFramed(s: State, a: Action)
    requires BackgroundEnabled(s, a)
    ensures Framed(s, s.(now := a.at, kv := Step(s.kv, a.what.e).0), a)
  {
  }

  lemma EffectFits(cfg: Config, s: State, a: Action)
    requires Enabled(cfg, s, a) && !a.what.Background?
    ensures Fits(s, a.what, EffectOf(cfg, s, a))
  {
    var w := a.what;
    if AuthStep(w) {
      AuthFits(cfg, s, a);
    } else if AgentStep(w) {
      AgentFits(s, a);
    } else if HookStep(w) {
      HookFits(cfg, s, a);
    } else if DestStep(w) {
      DestFits(cfg, s, a);
    } else if RotateStep(w) {
      RotateFits(s, a);
    } else if CloseStep(w) {
      CloseFits(s, a);
    } else if CodeStep(w) {
      CodeFits(cfg, s, a);
    } else if SocialStep(w) {
      SocialFits(s, a);
    } else if LocationStep(w) {
      LocationFits(s, a);
    }
  }

  lemma StepFramed(cfg: Config, s: State, a: Action)
    requires Enabled(cfg, s, a)
    ensures Framed(s, Next(cfg, s, a), a)
  {
    if a.what.Background? {
      BackgroundFramed(s, a);
    } else {
      EffectFits(cfg, s, a);
      ApplyFramed(s, a, EffectOf(cfg, s, a));
    }
  }
}
