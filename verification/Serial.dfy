/** The overlapping server when requests do not overlap. Its steps then keep the caches
    in line with the tables, and every answer is the table's at that instant: overlap is
    the only source of staleness. */
module Serial {
  import opened Wrappers
  import opened TimedStore
  import opened Keys
  import opened Database
  import opened Codecs
  import opened Server
  import opened Accounts
  import opened Staleness
  import opened Frames
  import Coherence

  // A request starts only when none is in progress; eviction and time go on as they like.
  ghost predicate OneAtATime(ss: seq<State>, acts: seq<Action>) {
    forall i :: 0 <= i < |acts| && i < |ss| && Starts(acts[i].what) ==> ss[i].threads == map[]
  }

  // Live cache entries hold what the tables hold, except those still to be dropped.
  ghost predicate AuthExcept(s: State, dirty: set<string>) {
    forall hash :: Live(s.kv, Auth(hash), s.now) && hash !in dirty ==>
      hash in s.db.tokens && s.kv[Auth(hash)].value == AuthText(s.db.tokens[hash])
  }

  ghost predicate HookExcept(s: State, dirty: set<string>) {
    forall user :: Live(s.kv, Webhook(user), s.now) && user !in dirty ==>
      s.kv[Webhook(user)].value == HookText(Lookup(s.db.hooks, user))
  }

  ghost predicate DestExcept(json: Json, s: State, dirty: set<string>) {
    forall user :: Live(s.kv, OpenClaw(user), s.now) && user !in dirty ==>
      s.kv[OpenClaw(user)].value == DestText(json, Lookup(s.db.dests, user))
  }

  ghost predicate AtRest(json: Json, s: State) {
    AuthExcept(s, {}) && HookExcept(s, {}) && DestExcept(json, s, {})
  }

  function DirtyAuth(pc: Pc): set<string> {
    if pc.Dropping? then pc.stale else {}
  }

  function DirtyHook(pc: Pc): set<string> {
    if pc.HookWritten? then {pc.user} else {}
  }

  function DirtyDest(pc: Pc): set<string> {
    if pc.DestWritten? then {pc.user} else {}
  }

  // No token of the user is cached, apart from these.
  ghost predicate Uncached(s: State, user: string, but: set<string>) {
    forall hash :: hash in s.db.tokens && s.db.tokens[hash].user == user && hash !in but ==>
      !Live(s.kv, Auth(hash), s.now)
  }

  // What the request in progress has read, or done so far, is still so.
  ghost predicate UpToDate(s: State, pc: Pc) {
    && (pc.AuthFetched? ==> Lookup(s.db.tokens, pc.hash) == Some(pc.row))
    && (pc.HookFetched? ==> Lookup(s.db.hooks, pc.user) == pc.hook)
    && (pc.DestFetched? ==> Lookup(s.db.dests, pc.user) == pc.dest)
    && (pc.Selected? ==> pc.stale == HashesOf(s.db, pc.row))
    && (pc.Closing? ==> Uncached(s, pc.user, pc.stale))
    && (pc.ClosingHook? || pc.ClosingDest? || pc.ClosingLocation? ==>
          Uncached(s, pc.user, {}) && !Live(s.kv, Webhook(pc.user), s.now))
    && (pc.ClosingDest? || pc.ClosingLocation? ==> !Live(s.kv, OpenClaw(pc.user), s.now))
  }

  ghost predicate Busy(json: Json, s: State, pc: Pc) {
    && AuthExcept(s, DirtyAuth(pc)) && HookExcept(s, DirtyHook(pc)) && DestExcept(json, s, DirtyDest(pc))
    && UpToDate(s, pc)
  }

  // At most this request is in progress.
  ghost predicate Alone(json: Json, s: State, tid: nat) {
    s.threads.Keys <= {tid} && if tid in s.threads then Busy(json, s, s.threads[tid]) else AtRest(json, s)
  }

  // An answer recorded by the step is what the table holds at that instant.
  ghost predicate AnswerExact(s: State, s': State) {
    |s'.log| > |s.log| ==>
      var f := s'.log[|s.log|];
      && (f.Accepted? ==> Lookup(s.db.tokens, f.hash) == Some(f.row))
      && (f.HookAnswered? ==> Lookup(s.db.hooks, f.user) == f.hook)
      && (f.DestAnswered? ==> Lookup(s.db.dests, f.user) == f.dest)
  }

  lemma AuthGetAlone(cfg: Config, s: State, a: Action)
    requires TablesInv(s) && Alone(cfg.json, s, a.tid) && AuthEnabled(cfg, s, a) && a.what.AuthGet?
    ensures Alone(cfg.json, Apply(s, a, AuthEffect(cfg, s, a)), a.tid)
    ensures AnswerExact(s, Apply(s, a, AuthEffect(cfg, s, a)))
  {
    if Live(s.kv, Auth(a.what.hash), a.at) {
      KindsColonFree(s.db.tokens[a.what.hash]);
    }
  }

  lemma AuthReadAlone(cfg: Config, s: State, a: Action)
    requires Alone(cfg.json, s, a.tid) && AuthEnabled(cfg, s, a) && !a.what.AuthGet?
    ensures Alone(cfg.json, Apply(s, a, AuthEffect(cfg, s, a)), a.tid)
    ensures AnswerExact(s, Apply(s, a, AuthEffect(cfg, s, a)))
  {
  }

  lemma HookLookupAlone(cfg: Config, s: State, a: Action)
    requires TablesInv(s) && Alone(cfg.json, s, a.tid) && HookEnabled(cfg, s, a)
    requires a.what.HookGet? || a.what.HookRead? || a.what.HookFill?
    ensures Alone(cfg.json, Apply(s, a, HookEffect(cfg, s, a)), a.tid)
    ensures AnswerExact(s, Apply(s, a, HookEffect(cfg, s, a)))
  {
    if a.what.HookGet? {
      HookReadsBack(Lookup(s.db.hooks, s.threads[a.tid].user));
    }
  }

  lemma HookWriteAlone(cfg: Config, s: State, a: Action)
    requires Alone(cfg.json, s, a.tid) && HookEnabled(cfg, s, a)
    requires a.what.HookPut? || a.what.HookDelete? || a.what.HookDrop?
    ensures Alone(cfg.json, Apply(s, a, HookEffect(cfg, s, a)), a.tid)
    ensures AnswerExact(s, Apply(s, a, HookEffect(cfg, s, a)))
  {
  }

  lemma DestLookupAlone(cfg: Config, s: State, a: Action)
    requires Faithful(cfg.json) && Alone(cfg.json, s, a.tid) && DestEnabled(cfg, s, a)
    requires a.what.DestGet? || a.what.DestRead? || a.what.DestFill?
    ensures Alone(cfg.json, Apply(s, a, DestEffect(cfg, s, a)), a.tid)
    ensures AnswerExact(s, Apply(s, a, DestEffect(cfg, s, a)))
  {
    if a.what.DestGet? {
      DestRoundTrip(cfg.json, Lookup(s.db.dests, s.threads[a.tid].user));
    }
  }

  lemma DestWriteAlone(cfg: Config, s: State, a: Action)
    requires Alone(cfg.json, s, a.tid) && DestEnabled(cfg, s, a)
    requires a.what.DestPut? || a.what.DestDelete? || a.what.DestDrop?
    ensures Alone(cfg.json, Apply(s, a, DestEffect(cfg, s, a)), a.tid)
    ensures AnswerExact(s, Apply(s, a, DestEffect(cfg, s, a)))
  {
  }

  lemma RotateAlone(json: Json, s: State, a: Action)
    requires Alone(json, s, a.tid) && RotateEnabled(s, a) && !a.what.RotateStart?
    ensures Alone(json, Apply(s, a, RotateEffect(s, a)), a.tid)
  {
  }

  lemma CloseDropsAlone(json: Json, s: State, a: Action)
    requires Alone(json, s, a.tid) && CloseEnabled(s, a) && (a.what.CloseSelect? || a.what.CloseDrop?)
    ensures Alone(json, Apply(s, a, CloseEffect(s, a)), a.tid)
  {
  }

  lemma CloseHookAlone(json: Json, s: State, a: Action)
    requires Alone(json, s, a.tid) && CloseEnabled(s, a) && a.what.CloseHook?
    ensures Alone(json, Apply(s, a, CloseEffect(s, a)), a.tid)
  {
  }

  lemma CloseDestAlone(json: Json, s: State, a: Action)
    requires Alone(json, s, a.tid) && CloseEnabled(s, a) && (a.what.CloseDest? || a.what.CloseLocation?)
    ensures Alone(json, Apply(s, a, CloseEffect(s, a)), a.tid)
  {
  }

  lemma CloseRowAlone(json: Json, s: State, a: Action)
    requires Alone(json, s, a.tid) && CloseEnabled(s, a) && a.what.CloseRow?
    ensures Alone(json, Apply(s, a, CloseEffect(s, a)), a.tid)
  {
  }

  // No lookup, write, rotation or deletion is under way.
  predicate Plain(pc: Pc) {
    pc.AuthMissed? || pc.Authed? || pc.Served? || pc.Agent? || pc.HookMissed? || pc.DestMissed? || pc.Rotating?
    || pc.Granting? || pc.Registering? || pc.Linking?
  }

  // The request leaves the three cached tables alone and stays plain.
  predicate Tame(w: What) {
    AgentStep(w) || CodeStep(w) || SocialStep(w) || LocationStep(w) || w.RotateStart?
  }

  lemma PlainAtRest(json: Json, s: State, pc: Pc)
    requires Plain(pc)
    ensures Busy(json, s, pc) <==> AtRest(json, s)
  {
    assert UpToDate(s, pc);
    assert DirtyAuth(pc) == {} && DirtyHook(pc) == {} && DirtyDest(pc) == {};
  }

  lemma CalmAtRest(json: Json, s: State, s': State)
    requires AtRest(json, s) && Calm(s, s')
    requires s'.db.tokens == s.db.tokens && s'.db.hooks == s.db.hooks && s'.db.dests == s.db.dests
    ensures AtRest(json, s')
  {
    assert forall k :: CacheKey(k) && Live(s'.kv, k, s'.now) ==> Live(s.kv, k, s.now) && s'.kv[k] == s.kv[k];
  }

  lemma TameFrame(s: State, s': State, a: Action)
    requires Framed(s, s', a) && Tame(a.what) && s.threads.Keys <= {a.tid}
    ensures Calm(s, s') && s'.threads.Keys <= {a.tid}
    ensures s'.db.tokens == s.db.tokens && s'.db.hooks == s.db.hooks && s'.db.dests == s.db.dests
    ensures a.tid in s'.threads && (a.tid in s.threads ==> Plain(s.threads[a.tid])) ==> Plain(s'.threads[a.tid])
  {
    FramedCalm(s, s', a);
  }

  // Only a plain request can take a tame step, and it stays plain.
  lemma TamePlain(cfg: Config, s: State, a: Action)
    requires Enabled(cfg, s, a) && Tame(a.what) && a.tid in s.threads
    ensures Plain(s.threads[a.tid])
  {
  }

  lemma TameStepAlone(cfg: Config, s: State, a: Action)
    requires Alone(cfg.json, s, a.tid) && Enabled(cfg, s, a) && Tame(a.what)
    ensures Alone(cfg.json, Next(cfg, s, a), a.tid)
  {
    var s' := Next(cfg, s, a);
    StepFramed(cfg, s, a);
    TameFrame(s, s', a);
    if a.tid in s.threads {
      TamePlain(cfg, s, a);
      PlainAtRest(cfg.json, s, s.threads[a.tid]);
    }
    CalmAtRest(cfg.json, s, s');
    if a.tid in s'.threads {
      PlainAtRest(cfg.json, s', s'.threads[a.tid]);
    }
  }

  lemma FinishAlone(json: Json, s: State, a: Action)
    requires Alone(json, s, a.tid) && FinishEnabled(s, a)
    ensures Alone(json, Apply(s, a, Ends(s)), a.tid)
  {
    var pc := s.threads[a.tid];
    assert DirtyAuth(pc) == {} && DirtyHook(pc) == {} && DirtyDest(pc) == {};
  }

  lemma BackgroundAlone(json: Json, s: State, s': State, a: Action, tid: nat)
    requires Alone(json, s, tid) && Framed(s, s', a) && a.what.Background? && s'.threads == s.threads
    ensures Alone(json, s', tid)
  {
    assert forall k :: CacheKey(k) && Live(s'.kv, k, s'.now) ==> Live(s.kv, k, s.now) && s'.kv[k] == s.kv[k];
  }

  lemma LookupStepAlone(cfg: Config, s: State, a: Action)
    requires TablesInv(s) && Faithful(cfg.json) && Alone(cfg.json, s, a.tid) && Enabled(cfg, s, a)
    requires AuthStep(a.what) || HookStep(a.what) || DestStep(a.what)
    ensures Alone(cfg.json, Next(cfg, s, a), a.tid) && AnswerExact(s, Next(cfg, s, a))
  {
    var w := a.what;
    if w.AuthGet? {
      AuthGetAlone(cfg, s, a);
    } else if AuthStep(w) {
      AuthReadAlone(cfg, s, a);
    } else if w.HookGet? || w.HookRead? || w.HookFill? {
      HookLookupAlone(cfg, s, a);
    } else if HookStep(w) {
      HookWriteAlone(cfg, s, a);
    } else if w.DestGet? || w.DestRead? || w.DestFill? {
      DestLookupAlone(cfg, s, a);
    } else {
      DestWriteAlone(cfg, s, a);
    }
  }

  lemma OtherStepAlone(cfg: Config, s: State, a: Action)
    requires Alone(cfg.json, s, a.tid) && Enabled(cfg, s, a) && !a.what.Background?
    requires !AuthStep(a.what) && !HookStep(a.what) && !DestStep(a.what)
    ensures Alone(cfg.json, Next(cfg, s, a), a.tid)
  {
    var w := a.what;
    if RotateStep(w) && !w.RotateStart? {
      RotateAlone(cfg.json, s, a);
    } else if w.CloseSelect? || w.CloseDrop? {
      CloseDropsAlone(cfg.json, s, a);
    } else if w.CloseRow? {
      CloseRowAlone(cfg.json, s, a);
    } else if w.CloseHook? {
      CloseHookAlone(cfg.json, s, a);
    } else if CloseStep(w) {
      CloseDestAlone(cfg.json, s, a);
    } else if w.Finish? {
      FinishAlone(cfg.json, s, a);
    } else {
      TameStepAlone(cfg, s, a);
    }
  }

  // Steps other than lookups record no answer, but for the agents' reads of the table.
  lemma OtherStepExact(cfg: Config, s: State, a: Action)
    requires Enabled(cfg, s, a) && !AuthStep(a.what) && !HookStep(a.what) && !DestStep(a.what)
    ensures AnswerExact(s, Next(cfg, s, a))
  {
    if !AgentStep(a.what) {
      StepFramed(cfg, s, a);
    }
  }

  lemma StepAlone(cfg: Config, s: State, a: Action, tid: nat) returns (t: nat)
    requires TablesInv(s) && Faithful(cfg.json) && Alone(cfg.json, s, tid) && Enabled(cfg, s, a)
    requires Starts(a.what) ==> s.threads == map[]
    ensures Alone(cfg.json, Next(cfg, s, a), t) && AnswerExact(s, Next(cfg, s, a))
  {
    if a.what.Background? {
      t := tid;
      StepFramed(cfg, s, a);
      BackgroundAlone(cfg.json, s, Next(cfg, s, a), a, tid);
    } else {
      t := a.tid;
      assert Alone(cfg.json, s, a.tid);
      if AuthStep(a.what) || HookStep(a.what) || DestStep(a.what) {
        LookupStepAlone(cfg, s, a);
      } else {
        OtherStepAlone(cfg, s, a);
        OtherStepExact(cfg, s, a);
      }
    }
  }

  lemma {:induction false} AlwaysAlone(cfg: Config, ss: seq<State>, acts: seq<Action>, n: nat) returns (tid: nat)
    requires IsRun(cfg, ss, acts) && OneAtATime(ss, acts) && n < |ss|
    ensures Alone(cfg.json, ss[n], tid)
  {
    if n == 0 {
      tid := 0;
    } else {
      tid := AlwaysAlone(cfg, ss, acts, n - 1);
      TablesAlways(cfg, ss, acts, n - 1);
      tid := StepAlone(cfg, ss[n - 1], acts[n - 1], tid);
    }
  }

  // When requests do not overlap, every credential accepted and every webhook, gateway
  // or absence answered is what the tables hold at that very instant.
  lemma NothingStale(cfg: Config, ss: seq<State>, acts: seq<Action>, n: nat)
    requires IsRun(cfg, ss, acts) && OneAtATime(ss, acts) && n < |acts|
    ensures AnswerExact(ss[n], ss[n + 1])
  {
    var tid := AlwaysAlone(cfg, ss, acts, n);
    TablesAlways(cfg, ss, acts, n);
    tid := StepAlone(cfg, ss[n], acts[n], tid);
  }

  // And whenever no request is in progress, every live cache entry holds what the tables
  // hold now.
  lemma CoherentBetweenRequests(cfg: Config, ss: seq<State>, acts: seq<Action>, n: nat)
    requires IsRun(cfg, ss, acts) && OneAtATime(ss, acts) && n < |ss| && ss[n].threads == map[]
    ensures Coherence.AuthCoherent(ss[n].db, ss[n].kv, ss[n].now)
    ensures Coherence.HookCoherent(ss[n].db, ss[n].kv, ss[n].now)
    ensures Coherence.DestCoherent(cfg.json, ss[n].db, ss[n].kv, ss[n].now)
  {
    var tid := AlwaysAlone(cfg, ss, acts, n);
  }
}
