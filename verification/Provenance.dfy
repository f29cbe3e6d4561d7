/** From phone code to credential: every redemption, grant and minted credential is
    traced back, and no single-use thing is used twice, over whole runs. */
module Provenance {
  import opened Wrappers
  import opened TimedStore
  import opened Database
  import opened Codecs
  import opened Server
  import opened Frames
  import opened Codes

  // --- Phone codes and authorization codes ---

  // Every redemption of a phone code, by whichever endpoint, and every exchange of an
  // authorization code, successful or not, uses up its own opening: of the same code,
  // for the same user or grant, at most five minutes earlier.
  lemma SingleUse(cfg: Config, ss: seq<State>, acts: seq<Action>, n: nat, i: nat, j: nat)
    requires IsRun(cfg, ss, acts) && n < |ss| && i < j < |ss[n].log|
    requires IsSpending(ss[n].log[i]) && IsSpending(ss[n].log[j])
    ensures Sourced(ss[n].log, i) && Sourced(ss[n].log, j)
    ensures Source(ss[n].log, i) != Source(ss[n].log, j)
  {
    CodeAlways(cfg, ss, acts, n);
    var log := ss[n].log;
    if CodeSpent(log[i]) == CodeSpent(log[j]) {
      assert About(log[i], CodeSpent(log[j]));
    } else {
      assert Opens(log[Source(log, i)], CodeSpent(log[i])) && Opens(log[Source(log, j)], CodeSpent(log[j]));
    }
  }

  // A code whose last mention is its spending is not in the store: an exchange that
  // reached the lookup has consumed the code even when it was then refused.
  lemma SpentIsGone(cfg: Config, ss: seq<State>, acts: seq<Action>, n: nat, c: OneTime)
    requires IsRun(cfg, ss, acts) && n < |ss|
    requires var p := Last(ss[n].log, |ss[n].log|, c); p >= 0 && Spends(ss[n].log[p], c)
    ensures !Live(ss[n].kv, KeyOf(c), ss[n].now)
  {
    CodeAlways(cfg, ss, acts, n);
    assert Current(cfg.json, ss[n], c);
  }

  // --- Conservation ---

  function IssuedTo(log: seq<Fact>, user: string): set<nat> {
    set i | 0 <= i < |log| && log[i].Issued? && log[i].user == user
  }

  function RedeemedFor(log: seq<Fact>, user: string): set<nat> {
    set i | 0 <= i < |log| && log[i].Redeemed? && log[i].user == user
  }

  lemma {:induction false} InjectionCard(from: set<nat>, to: set<nat>, f: nat -> nat)
    requires forall i :: i in from ==> f(i) in to
    requires forall i, j :: i in from && j in from && i != j ==> f(i) != f(j)
    ensures |from| <= |to|
  {
    if from != {} {
      var i :| i in from;
      InjectionCard(from - {i}, to - {f(i)}, f);
    }
  }

  // Nobody is signed in more often than their phone asked for codes, both endpoints
  // taken together, at any point of any run.
  lemma CodesConserved(cfg: Config, ss: seq<State>, acts: seq<Action>, n: nat, user: string)
    requires IsRun(cfg, ss, acts) && n < |ss|
    ensures |RedeemedFor(ss[n].log, user)| <= |IssuedTo(ss[n].log, user)|
  {
    var log := ss[n].log;
    CodeAlways(cfg, ss, acts, n);
    var f: nat -> nat :=
      (i: nat) => if i < |log| && IsSpending(log[i]) && Source(log, i) >= 0 then Source(log, i) else 0;
    forall i | i in RedeemedFor(log, user)
      ensures f(i) in IssuedTo(log, user)
    {
      assert Sourced(log, i);
    }
    forall i, j | i in RedeemedFor(log, user) && j in RedeemedFor(log, user) && i != j
      ensures f(i) != f(j)
    {
      if i < j {
        SingleUse(cfg, ss, acts, n, i, j);
      } else {
        SingleUse(cfg, ss, acts, n, j, i);
      }
    }
    InjectionCard(RedeemedFor(log, user), IssuedTo(log, user), f);
  }

  // --- What a grant or a credential rests on ---

  function PcVia(pc: Pc): Option<nat> {
    if pc.Rotating? || pc.Selected? || pc.Granting? then pc.via else None
  }

  function FactVia(f: Fact): Option<nat> {
    if f.Granted? || f.Minted? then f.via else None
  }

  // The spending was presented with the client and redirection URI of its grant.
  predicate Presented(f: Fact)
    requires f.Exchanged?
  {
    f.grant.clientID == f.clientID && f.grant.redirectURI == f.redirectURI
  }

  // A redemption backs a web session or a grant, a matching exchange backs an API key,
  // each for its own user.
  predicate BacksRow(f: Fact, row: TokenRow) {
    || (f.Redeemed? && row == TokenRow(f.user, WEB_SESSION))
    || (f.Exchanged? && Presented(f) && row == TokenRow(f.grant.user, API_KEY))
  }

  predicate BacksGrant(f: Fact, grant: Grant) {
    f.Redeemed? && f.user == grant.user
  }

  predicate BacksPc(f: Fact, pc: Pc) {
    if pc.Granting? then BacksGrant(f, pc.grant)
    else (pc.Rotating? || pc.Selected?) && BacksRow(f, pc.row)
  }

  predicate BacksFact(f: Fact, g: Fact) {
    if g.Granted? then BacksGrant(f, g.grant) else g.Minted? && BacksRow(f, g.row)
  }

  ghost predicate Vias(s: State) {
    && (forall t :: t in s.threads && PcVia(s.threads[t]).Some? ==>
          PcVia(s.threads[t]).value < |s.log| && BacksPc(s.log[PcVia(s.threads[t]).value], s.threads[t]))
    && (forall i :: 0 <= i < |s.log| && FactVia(s.log[i]).Some? ==>
          FactVia(s.log[i]).value < i && BacksFact(s.log[FactVia(s.log[i]).value], s.log[i]))
    && (forall t :: t in s.threads && s.threads[t].Granting? ==> s.threads[t].via.Some?)
    && (forall i :: 0 <= i < |s.log| && s.log[i].Granted? ==> s.log[i].via.Some?)
  }

  // Each spending is held by at most one thread or recorded fact.
  ghost predicate ViasDistinct(s: State) {
    && (forall t, u :: t in s.threads && u in s.threads && t != u && PcVia(s.threads[t]).Some? ==>
          PcVia(s.threads[t]) != PcVia(s.threads[u]))
    && (forall i, j :: 0 <= i < j < |s.log| && FactVia(s.log[i]).Some? ==> FactVia(s.log[i]) != FactVia(s.log[j]))
    && (forall t, i :: t in s.threads && 0 <= i < |s.log| && PcVia(s.threads[t]).Some? ==>
          PcVia(s.threads[t]) != FactVia(s.log[i]))
  }

  ghost predicate ViaInv(s: State) {
    Vias(s) && ViasDistinct(s)
  }

  // Steps that neither take up a spending nor use one.
  ghost predicate Idle(s: State, s': State) {
    && (forall t :: t in s'.threads && (PcVia(s'.threads[t]).Some? || s'.threads[t].Granting?) ==>
          t in s.threads && s.threads[t] == s'.threads[t])
    && Appends(s, s') && (|s'.log| > |s.log| ==> FactVia(s'.log[|s.log|]).None? && !s'.log[|s.log|].Granted?)
  }

  lemma FramedIdle(s: State, s': State, a: Action)
    requires Framed(s, s', a) && !CodeStep(a.what) && !a.what.RotateSelect? && !a.what.RotateCommit?
    ensures Idle(s, s')
  {
  }

  lemma IdleVias(s: State, s': State)
    requires Vias(s) && Idle(s, s')
    ensures Vias(s')
  {
    assert forall i :: 0 <= i < |s.log| ==> s'.log[i] == s.log[i];
  }

  lemma IdleDistinct(s: State, s': State)
    requires ViasDistinct(s) && Idle(s, s')
    ensures ViasDistinct(s')
  {
    assert forall i :: 0 <= i < |s.log| ==> s'.log[i] == s.log[i];
    assert forall i :: 0 <= i < |s'.log| && FactVia(s'.log[i]).Some? ==> i < |s.log|;
  }

  lemma IdleKeeps(s: State, s': State)
    requires ViaInv(s) && Idle(s, s')
    ensures ViaInv(s')
  {
    IdleVias(s, s');
    IdleDistinct(s, s');
  }

  // A thread takes up the spending recorded in this very step.
  ghost predicate TakesUp(s: State, s': State, tid: nat, f: Fact) {
    && s'.log == s.log + [f] && IsSpending(f) && tid in s'.threads && PcVia(s'.threads[tid]) == Some(|s.log|)
    && (forall t :: t in s'.threads && t != tid ==> t in s.threads && s.threads[t] == s'.threads[t])
  }

  lemma TakeUpVias(s: State, s': State, tid: nat, f: Fact)
    requires Vias(s) && TakesUp(s, s', tid, f) && BacksPc(f, s'.threads[tid])
    ensures Vias(s')
  {
    assert forall i :: 0 <= i < |s.log| ==> s'.log[i] == s.log[i];
  }

  lemma TakeUpDistinct(s: State, s': State, tid: nat, f: Fact)
    requires ViaInv(s) && TakesUp(s, s', tid, f)
    ensures ViasDistinct(s')
  {
    assert forall i :: 0 <= i < |s.log| ==> s'.log[i] == s.log[i];
  }

  // A thread hands its spending on, to its next step or to the fact it records.
  lemma HandOnKeeps(s: State, s': State, tid: nat)
    requires ViaInv(s) && tid in s.threads && s'.threads - {tid} == s.threads - {tid}
    requires s'.log == s.log && tid in s'.threads && !s'.threads[tid].Granting?
    requires PcVia(s'.threads[tid]) == PcVia(s.threads[tid])
    requires PcVia(s.threads[tid]).Some? ==> forall f :: BacksPc(f, s.threads[tid]) ==> BacksPc(f, s'.threads[tid])
    ensures ViaInv(s')
  {
    assert forall t :: t in s'.threads && t != tid ==>
        t in s.threads - {tid} && s.threads[t] == (s'.threads - {tid})[t];
  }

  ghost predicate Uses(s: State, s': State, tid: nat, g: Fact) {
    && tid in s.threads && s'.log == s.log + [g] && FactVia(g) == PcVia(s.threads[tid])
    && (forall t :: t in s'.threads && t != tid ==> t in s.threads && s.threads[t] == s'.threads[t])
    && (tid in s'.threads ==> PcVia(s'.threads[tid]).None? && !s'.threads[tid].Granting?)
  }

  lemma UseVias(s: State, s': State, tid: nat, g: Fact)
    requires Vias(s) && Uses(s, s', tid, g) && (g.Granted? ==> g.via.Some?)
    requires FactVia(g).Some? ==> BacksFact(s.log[FactVia(g).value], g)
    ensures Vias(s')
  {
    assert forall i :: 0 <= i < |s.log| ==> s'.log[i] == s.log[i];
  }

  lemma UseDistinct(s: State, s': State, tid: nat, g: Fact)
    requires ViasDistinct(s) && Uses(s, s', tid, g)
    ensures ViasDistinct(s')
  {
    assert forall i :: 0 <= i < |s.log| ==> s'.log[i] == s.log[i];
  }

  lemma GrantVias(cfg: Config, s: State, a: Action)
    requires ViaInv(s) && CodeEnabled(cfg, s, a) && a.what.GrantStore?
    ensures ViaInv(Apply(s, a, CodeEffect(cfg, s, a)))
  {
    var e := CodeEffect(cfg, s, a);
    UseVias(s, Apply(s, a, e), a.tid, e.fact.value);
    UseDistinct(s, Apply(s, a, e), a.tid, e.fact.value);
  }

  lemma CodeStepVias(cfg: Config, s: State, a: Action)
    requires ViaInv(s) && CodeEnabled(cfg, s, a) && !a.what.GrantStore?
    ensures ViaInv(Apply(s, a, CodeEffect(cfg, s, a)))
  {
    var e := CodeEffect(cfg, s, a);
    var s' := Apply(s, a, e);
    if e.pc.Some? {
      TakeUpVias(s, s', a.tid, e.fact.value);
      TakeUpDistinct(s, s', a.tid, e.fact.value);
    } else {
      IdleKeeps(s, s');
    }
  }

  lemma CommitVias(s: State, a: Action)
    requires ViaInv(s) && RotateEnabled(s, a) && a.what.RotateCommit?
    ensures ViaInv(Apply(s, a, RotateEffect(s, a)))
  {
    var e := RotateEffect(s, a);
    var s' := Apply(s, a, e);
    if e.fact.Some? {
      UseVias(s, s', a.tid, e.fact.value);
      UseDistinct(s, s', a.tid, e.fact.value);
    } else {
      IdleKeeps(s, s');
    }
  }

  lemma SelectVias(s: State, a: Action)
    requires ViaInv(s) && RotateEnabled(s, a) && a.what.RotateSelect?
    ensures ViaInv(Apply(s, a, RotateEffect(s, a)))
  {
    HandOnKeeps(s, Apply(s, a, RotateEffect(s, a)), a.tid);
  }

  lemma ViasKept(cfg: Config, s: State, a: Action)
    requires ViaInv(s) && Enabled(cfg, s, a)
    ensures ViaInv(Next(cfg, s, a))
  {
    var w := a.what;
    if w.GrantStore? {
      GrantVias(cfg, s, a);
    } else if CodeStep(w) {
      CodeStepVias(cfg, s, a);
    } else if w.RotateCommit? {
      CommitVias(s, a);
    } else if w.RotateSelect? {
      SelectVias(s, a);
    } else {
      StepFramed(cfg, s, a);
      FramedIdle(s, Next(cfg, s, a), a);
      IdleKeeps(s, Next(cfg, s, a));
    }
  }

  lemma {:induction false} ViasAlways(cfg: Config, ss: seq<State>, acts: seq<Action>, n: nat)
    requires IsRun(cfg, ss, acts) && n < |ss|
    ensures ViaInv(ss[n])
  {
    if n > 0 {
      ViasAlways(cfg, ss, acts, n - 1);
      ViasKept(cfg, ss[n - 1], acts[n - 1]);
    }
  }

  // --- The chain of an OAuth key ---

  // An API key issued by the token endpoint, as opposed to one a signed-in user asked for.
  predicate OAuthKey(f: Fact) {
    f.Minted? && f.row.kind == API_KEY && f.via.Some?
  }

  // The four links behind the key minted at position k: the exchange, the grant it
  // used, the redemption that grant rests on, and the phone code redeemed.
  ghost predicate Chain(log: seq<Fact>, k: nat, exchange: int, grant: int, redemption: int, issue: int) {
    && 0 <= issue < redemption < grant < exchange < k < |log|
    && OAuthKey(log[k]) && log[exchange].Exchanged? && log[grant].Granted?
    && log[redemption].Redeemed? && log[issue].Issued?
    && FactVia(log[k]) == Some(exchange) && Source(log, exchange) == grant
    && FactVia(log[grant]) == Some(redemption) && Source(log, redemption) == issue
    // one user throughout
    && log[k].row.user == log[grant].grant.user == log[redemption].user == log[issue].user
    // RFC 6749, section 4.1.3: same client, same redirection URI; section 4.1.2: in time
    && log[grant].grant.clientID == log[exchange].clientID && log[grant].grant.redirectURI == log[exchange].redirectURI
    && log[exchange].at - log[grant].at <= CODE_TTL && log[redemption].at - log[issue].at <= CODE_TTL
  }

  lemma OAuthChain(cfg: Config, ss: seq<State>, acts: seq<Action>, n: nat, k: nat)
    returns (exchange: nat, grant: nat, redemption: nat, issue: nat)
    requires IsRun(cfg, ss, acts) && n < |ss| && k < |ss[n].log| && OAuthKey(ss[n].log[k])
    ensures Chain(ss[n].log, k, exchange, grant, redemption, issue)
  {
    var log := ss[n].log;
    ViasAlways(cfg, ss, acts, n);
    CodeAlways(cfg, ss, acts, n);
    exchange := log[k].via.value;
    assert BacksFact(log[exchange], log[k]) && Sourced(log, exchange);
    grant := Source(log, exchange);
    redemption := log[grant].via.value;
    assert BacksFact(log[redemption], log[grant]) && Sourced(log, redemption);
    issue := Source(log, redemption);
  }

  // Different keys have nothing in common all the way down: each rests on its own
  // exchange, its own authorization code, its own redemption and its own phone code.
  lemma ChainsDisjoint(cfg: Config, ss: seq<State>, acts: seq<Action>, n: nat,
                       k: nat, e: nat, g: nat, r: nat, i: nat,
                       k': nat, e': nat, g': nat, r': nat, i': nat)
    requires IsRun(cfg, ss, acts) && n < |ss| && k != k'
    requires Chain(ss[n].log, k, e, g, r, i) && Chain(ss[n].log, k', e', g', r', i')
    ensures e != e' && g != g' && r != r' && i != i'
  {
    var log := ss[n].log;
    ViasAlways(cfg, ss, acts, n);
    assert e != e';
    DistinctSources(cfg, ss, acts, n, e, e');
    assert r != r';
    DistinctSources(cfg, ss, acts, n, r, r');
  }

  lemma DistinctSources(cfg: Config, ss: seq<State>, acts: seq<Action>, n: nat, i: nat, j: nat)
    requires IsRun(cfg, ss, acts) && n < |ss| && i < |ss[n].log| && j < |ss[n].log| && i != j
    requires IsSpending(ss[n].log[i]) && IsSpending(ss[n].log[j])
    ensures Source(ss[n].log, i) != Source(ss[n].log, j)
  {
    if i < j {
      SingleUse(cfg, ss, acts, n, i, j);
    } else {
      SingleUse(cfg, ss, acts, n, j, i);
    }
  }

  // One phone code yields at most one credential: what a redemption backs, a web
  // session or the grant behind an API key, is recorded at most once.
  lemma RedemptionUsedOnce(cfg: Config, ss: seq<State>, acts: seq<Action>, n: nat, x: nat, y: nat)
    requires IsRun(cfg, ss, acts) && n < |ss| && x < y < |ss[n].log|
    requires FactVia(ss[n].log[x]).Some?
    ensures FactVia(ss[n].log[x]) != FactVia(ss[n].log[y])
    ensures FactVia(ss[n].log[x]).value < x && BacksFact(ss[n].log[FactVia(ss[n].log[x]).value], ss[n].log[x])
  {
    ViasAlways(cfg, ss, acts, n);
  }
}
