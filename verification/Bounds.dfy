/** How old an answer can be, and when a revoked credential can still be used. */
module Bounds {
  import opened Wrappers
  import opened TimedStore
  import opened Keys
  import opened Database
  import opened Codecs
  import opened Server
  import opened Frames
  import opened Staleness

  function AuthViews(ss: seq<State>): seq<CA.View<TokenRow>> {
    seq(|ss|, i requires 0 <= i < |ss| => AuthView(ss[i]))
  }

  function HookViews(ss: seq<State>): seq<CA.View<Hook>> {
    seq(|ss|, i requires 0 <= i < |ss| => HookView(ss[i]))
  }

  function DestViews(json: Json, ss: seq<State>): seq<CA.View<Dest>> {
    seq(|ss|, i requires 0 <= i < |ss| => DestView(json, ss[i]))
  }

  lemma {:induction false} CacheAlways(cfg: Config, ss: seq<State>, acts: seq<Action>, n: nat)
    requires IsRun(cfg, ss, acts) && n < |ss|
    ensures CacheInv(ss[n])
    ensures n > 0 ==> AllDisciplined(cfg, ss[n - 1], ss[n])
  {
    if n > 0 {
      CacheAlways(cfg, ss, acts, n - 1);
      StepDisciplined(cfg, ss[n - 1], acts[n - 1]);
    }
  }

  // The server's runs, seen through each cache, are runs of the general discipline.
  lemma ViewsAreRuns(cfg: Config, ss: seq<State>, acts: seq<Action>)
    requires IsRun(cfg, ss, acts)
    ensures CA.IsRun(CACHE_TTL, cfg.delay, AuthViews(ss))
    ensures CA.IsRun(CACHE_TTL, cfg.delay, HookViews(ss))
    ensures CA.IsRun(CACHE_TTL, cfg.delay, DestViews(cfg.json, ss))
  {
    forall n | 0 < n < |ss|
      ensures AllDisciplined(cfg, ss[n - 1], ss[n])
    {
      CacheAlways(cfg, ss, acts, n);
    }
  }

  // --- The table held it, at some instant between `from` and `to` ---

  ghost predicate TokenHeld(ss: seq<State>, n: nat, hash: string, row: TokenRow, from: int, to: int) {
    exists i :: 0 <= i <= n < |ss| && from <= ss[i].now <= to && Lookup(ss[i].db.tokens, hash) == Some(row)
  }

  ghost predicate HookHeld(ss: seq<State>, n: nat, user: string, hook: Option<Hook>, from: int, to: int) {
    exists i :: 0 <= i <= n < |ss| && from <= ss[i].now <= to && Lookup(ss[i].db.hooks, user) == hook
  }

  ghost predicate DestHeld(ss: seq<State>, n: nat, user: string, dest: Option<Dest>, from: int, to: int) {
    exists i :: 0 <= i <= n < |ss| && from <= ss[i].now <= to && Lookup(ss[i].db.dests, user) == dest
  }

  // The oldest instant an answer given at `at` may reflect.
  function Horizon(cfg: Config, at: int): int {
    at - CACHE_TTL - cfg.delay
  }

  ghost predicate AnswersHeld(cfg: Config, ss: seq<State>, n: nat, e: Fact) {
    match e
    case Accepted(hash, row, at) => TokenHeld(ss, n, hash, row, Horizon(cfg, at), at)
    case HookAnswered(user, hook, at) => HookHeld(ss, n, user, hook, Horizon(cfg, at), at)
    case DestAnswered(user, dest, at) => DestHeld(ss, n, user, dest, Horizon(cfg, at), at)
    case _ => true
  }

  lemma CachedRowAnswers(delay: int, s: State, hash: string, row: TokenRow, at: int)
    requires CacheInv(s) && Live(s.kv, Auth(hash), at) && ParseAuth(s.kv[Auth(hash)].value) == Some(row)
    ensures CA.Answers(delay, AuthView(s), hash, Some(row), at)
  {
    assert AuthView(s).cache(hash) == AuthEntry(s, hash);
  }

  lemma AuthSource(cfg: Config, s: State, a: Action)
    requires AuthEnabled(cfg, s, a) && AuthEffect(cfg, s, a).fact.Some? && CacheInv(s)
    ensures var f := AuthEffect(cfg, s, a).fact.value;
      f.Accepted? && f.at == a.at && CA.Answers(cfg.delay, AuthView(s), f.hash, Some(f.row), a.at)
  {
    var f := AuthEffect(cfg, s, a).fact.value;
    if a.what.AuthFill? {
      assert AuthView(s).pending(a.tid).Some?;
    } else {
      CachedRowAnswers(cfg.delay, s, f.hash, f.row, a.at);
    }
  }

  lemma AuthRecorded(cfg: Config, s: State, a: Action)
    requires CacheInv(s) && Enabled(cfg, s, a) && AuthStep(a.what) && |Next(cfg, s, a).log| > |s.log|
    ensures var f := Next(cfg, s, a).log[|s.log|];
      f.Accepted? && s.now <= f.at && CA.Answers(cfg.delay, AuthView(s), f.hash, Some(f.row), f.at)
  {
    AuthSource(cfg, s, a);
  }

  lemma AuthAnsweredHeld(cfg: Config, ss: seq<State>, acts: seq<Action>, n: nat)
    requires IsRun(cfg, ss, acts) && 0 < n < |ss| && AuthStep(acts[n - 1].what)
    requires |ss[n].log| > |ss[n - 1].log|
    ensures AnswersHeld(cfg, ss, n, ss[n].log[|ss[n - 1].log|])
  {
    CacheAlways(cfg, ss, acts, n - 1);
    AuthRecorded(cfg, ss[n - 1], acts[n - 1]);
    ViewsAreRuns(cfg, ss, acts);
    AuthAnswerHeld(cfg, ss, n, ss[n].log[|ss[n - 1].log|]);
  }

  lemma AuthAnswerHeld(cfg: Config, ss: seq<State>, n: nat, f: Fact)
    requires 0 < n < |ss| && CA.IsRun(CACHE_TTL, cfg.delay, AuthViews(ss)) && f.Accepted?
    requires CA.Answers(cfg.delay, AuthView(ss[n - 1]), f.hash, Some(f.row), f.at) && ss[n - 1].now <= f.at
    ensures TokenHeld(ss, n, f.hash, f.row, Horizon(cfg, f.at), f.at)
  {
    var run := AuthViews(ss);
    CA.BoundedStaleness(CACHE_TTL, cfg.delay, run, n - 1, f.hash, Some(f.row), f.at);
    assert forall i :: 0 <= i < n ==> run[i].table == ss[i].db.tokens && run[i].now == ss[i].now;
  }

  lemma HookSource(cfg: Config, s: State, a: Action)
    requires HookEnabled(cfg, s, a) && HookEffect(cfg, s, a).fact.Some? && CacheInv(s)
    ensures var f := HookEffect(cfg, s, a).fact.value;
      f.HookAnswered? && f.at == a.at && CA.Answers(cfg.delay, HookView(s), f.user, f.hook, a.at)
  {
    if a.what.HookFill? {
      assert HookView(s).pending(a.tid).Some?;
    }
  }

  lemma HookRecorded(cfg: Config, s: State, a: Action)
    requires CacheInv(s) && Enabled(cfg, s, a) && HookStep(a.what) && |Next(cfg, s, a).log| > |s.log|
    ensures var f := Next(cfg, s, a).log[|s.log|];
      f.HookAnswered? && s.now <= f.at && CA.Answers(cfg.delay, HookView(s), f.user, f.hook, f.at)
  {
    HookSource(cfg, s, a);
  }

  lemma HookAnsweredHeld(cfg: Config, ss: seq<State>, acts: seq<Action>, n: nat)
    requires IsRun(cfg, ss, acts) && 0 < n < |ss| && HookStep(acts[n - 1].what)
    requires |ss[n].log| > |ss[n - 1].log|
    ensures AnswersHeld(cfg, ss, n, ss[n].log[|ss[n - 1].log|])
  {
    CacheAlways(cfg, ss, acts, n - 1);
    HookRecorded(cfg, ss[n - 1], acts[n - 1]);
    ViewsAreRuns(cfg, ss, acts);
    HookAnswerHeld(cfg, ss, n, ss[n].log[|ss[n - 1].log|]);
  }

  lemma HookAnswerHeld(cfg: Config, ss: seq<State>, n: nat, f: Fact)
    requires 0 < n < |ss| && CA.IsRun(CACHE_TTL, cfg.delay, HookViews(ss)) && f.HookAnswered?
    requires CA.Answers(cfg.delay, HookView(ss[n - 1]), f.user, f.hook, f.at) && ss[n - 1].now <= f.at
    ensures HookHeld(ss, n, f.user, f.hook, Horizon(cfg, f.at), f.at)
  {
    var run := HookViews(ss);
    CA.BoundedStaleness(CACHE_TTL, cfg.delay, run, n - 1, f.user, f.hook, f.at);
    assert forall i :: 0 <= i < n ==> run[i].table == ss[i].db.hooks && run[i].now == ss[i].now;
  }

  lemma DestSource(cfg: Config, s: State, a: Action)
    requires DestEnabled(cfg, s, a) && DestEffect(cfg, s, a).fact.Some? && CacheInv(s)
    ensures var f := DestEffect(cfg, s, a).fact.value;
      f.DestAnswered? && f.at == a.at && CA.Answers(cfg.delay, DestView(cfg.json, s), f.user, f.dest, a.at)
  {
    if a.what.DestFill? {
      assert DestView(cfg.json, s).pending(a.tid).Some?;
    }
  }

  lemma DestRecorded(cfg: Config, s: State, a: Action)
    requires CacheInv(s) && Enabled(cfg, s, a) && DestStep(a.what) && |Next(cfg, s, a).log| > |s.log|
    ensures var f := Next(cfg, s, a).log[|s.log|];
      f.DestAnswered? && s.now <= f.at && CA.Answers(cfg.delay, DestView(cfg.json, s), f.user, f.dest, f.at)
  {
    DestSource(cfg, s, a);
  }

  lemma DestAnsweredHeld(cfg: Config, ss: seq<State>, acts: seq<Action>, n: nat)
    requires IsRun(cfg, ss, acts) && 0 < n < |ss| && DestStep(acts[n - 1].what)
    requires |ss[n].log| > |ss[n - 1].log|
    ensures AnswersHeld(cfg, ss, n, ss[n].log[|ss[n - 1].log|])
  {
    CacheAlways(cfg, ss, acts, n - 1);
    DestRecorded(cfg, ss[n - 1], acts[n - 1]);
    ViewsAreRuns(cfg, ss, acts);
    DestAnswerHeld(cfg, ss, n, ss[n].log[|ss[n - 1].log|]);
  }

  lemma DestAnswerHeld(cfg: Config, ss: seq<State>, n: nat, f: Fact)
    requires 0 < n < |ss| && CA.IsRun(CACHE_TTL, cfg.delay, DestViews(cfg.json, ss)) && f.DestAnswered?
    requires CA.Answers(cfg.delay, DestView(cfg.json, ss[n - 1]), f.user, f.dest, f.at) && ss[n - 1].now <= f.at
    ensures DestHeld(ss, n, f.user, f.dest, Horizon(cfg, f.at), f.at)
  {
    var run := DestViews(cfg.json, ss);
    CA.BoundedStaleness(CACHE_TTL, cfg.delay, run, n - 1, f.user, f.dest, f.at);
    assert forall i :: 0 <= i < n ==> run[i].table == ss[i].db.dests && run[i].now == ss[i].now;
  }

  lemma AgentAnsweredHeld(cfg: Config, ss: seq<State>, acts: seq<Action>, n: nat)
    requires IsRun(cfg, ss, acts) && 0 < n < |ss| && AgentStep(acts[n - 1].what)
    requires |ss[n].log| > |ss[n - 1].log|
    ensures AnswersHeld(cfg, ss, n, ss[n].log[|ss[n - 1].log|])
  {
    assert ss[n].db == ss[n - 1].db && ss[n].now == acts[n - 1].at;
  }

  lemma NewAnswerHeld(cfg: Config, ss: seq<State>, acts: seq<Action>, n: nat)
    requires IsRun(cfg, ss, acts) && 0 < n < |ss| && |ss[n].log| > |ss[n - 1].log|
    ensures AnswersHeld(cfg, ss, n, ss[n].log[|ss[n - 1].log|])
  {
    var w := acts[n - 1].what;
    if AuthStep(w) {
      AuthAnsweredHeld(cfg, ss, acts, n);
    } else if AgentStep(w) {
      AgentAnsweredHeld(cfg, ss, acts, n);
    } else if HookStep(w) {
      HookAnsweredHeld(cfg, ss, acts, n);
    } else if DestStep(w) {
      DestAnsweredHeld(cfg, ss, acts, n);
    } else {
      StepFramed(cfg, ss[n - 1], acts[n - 1]);
    }
  }

  // Whatever else is going on, no request is ever authenticated by a credential, and
  // no lookup ever answers a webhook, a gateway or their absence, unless the tables
  // held exactly that at some instant within the last five minutes and `delay`.
  lemma {:induction false} AnswersAreRecent(cfg: Config, ss: seq<State>, acts: seq<Action>, n: nat, x: nat)
    requires IsRun(cfg, ss, acts) && n < |ss| && x < |ss[n].log|
    ensures AnswersHeld(cfg, ss, n, ss[n].log[x])
    decreases n
  {
    if n > 0 {
      var s := ss[n - 1];
      StepFramed(cfg, s, acts[n - 1]);
      if x < |s.log| {
        AnswersAreRecent(cfg, ss, acts, n - 1, x);
        assert ss[n].log[x] == s.log[x];
      } else {
        NewAnswerHeld(cfg, ss, acts, n);
      }
    }
  }

  // Bounded revocation: a credential whose row is gone from some instant on is not
  // accepted later than five minutes and `delay` after that instant.
  lemma BoundedRevocation(cfg: Config, ss: seq<State>, acts: seq<Action>, n: nat, x: nat, gone: int)
    requires IsRun(cfg, ss, acts) && n < |ss| && x < |ss[n].log| && ss[n].log[x].Accepted?
    requires forall i :: 0 <= i <= n && ss[i].now >= gone ==> ss[n].log[x].hash !in ss[i].db.tokens
    ensures ss[n].log[x].at < gone + CACHE_TTL + cfg.delay
  {
    AnswersAreRecent(cfg, ss, acts, n, x);
  }
}
