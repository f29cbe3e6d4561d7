/** When exactly a credential whose row is gone can still authenticate a request. */
module Revocation {
  import opened Wrappers
  import opened TimedStore
  import opened Keys
  import opened Database
  import opened Codecs
  import opened Server
  import opened Frames
  import opened Staleness
  import opened Bounds

  // The server going on from a state in which the credential's row is gone, and
  // staying without it: tokens are fresh, so the same hash is not minted again.
  ghost predicate GoesOn(cfg: Config, hash: string, ss: seq<State>, acts: seq<Action>) {
    && |ss| == |acts| + 1
    && (forall i :: 0 <= i < |ss| ==> hash !in ss[i].db.tokens)
    && (forall i :: 0 <= i < |acts| ==> Enabled(cfg, ss[i], acts[i]) && ss[i + 1] == Next(cfg, ss[i], acts[i]))
  }

  ghost predicate AcceptedAfter(s: State, s': State, hash: string, row: TokenRow) {
    exists x :: |s.log| <= x < |s'.log| && s'.log[x].Accepted? && s'.log[x].hash == hash && s'.log[x].row == row
  }

  ghost predicate CanStillBeAccepted(cfg: Config, s: State, hash: string, row: TokenRow) {
    exists ss, acts :: GoesOn(cfg, hash, ss, acts) && ss[0] == s && AcceptedAfter(s, ss[|acts|], hash, row)
  }

  ghost predicate Harmless(s: State, s': State, hash: string, row: TokenRow) {
    && Appends(s, s')
    && (|s'.log| > |s.log| && s'.log[|s.log|].Accepted? ==> s'.log[|s.log|].hash != hash || s'.log[|s.log|].row != row)
  }

  lemma ForgottenStep(cfg: Config, s: State, a: Action, hash: string, row: TokenRow)
    requires CacheInv(s) && Enabled(cfg, s, a) && Faithful(cfg.json)
    requires CA.Forgotten(cfg.delay, AuthView(s), hash, row) && hash !in Next(cfg, s, a).db.tokens
    ensures var s' := Next(cfg, s, a);
      CacheInv(s') && CA.Forgotten(cfg.delay, AuthView(s'), hash, row) && Harmless(s, s', hash, row)
  {
    StepDisciplined(cfg, s, a);
    CA.ForgottenStays(CACHE_TTL, cfg.delay, AuthView(s), AuthView(Next(cfg, s, a)), hash, row);
    StepFramed(cfg, s, a);
    if |Next(cfg, s, a).log| > |s.log| {
      NewFactHarmless(cfg, s, a, hash, row);
    }
  }

  lemma HarmlessTransitive(s: State, s': State, s'': State, hash: string, row: TokenRow)
    requires |s.log| <= |s'.log| && !AcceptedAfter(s, s', hash, row) && Harmless(s', s'', hash, row)
    ensures |s.log| <= |s''.log| && !AcceptedAfter(s, s'', hash, row)
  {
    assert forall x :: 0 <= x < |s'.log| ==> s''.log[x] == s'.log[x];
  }

  lemma {:induction false} ForgottenNeverAccepted(
    cfg: Config, ss: seq<State>, acts: seq<Action>, n: nat, hash: string, row: TokenRow)
    requires GoesOn(cfg, hash, ss, acts) && n < |ss| && Faithful(cfg.json)
    requires CacheInv(ss[0]) && CA.Forgotten(cfg.delay, AuthView(ss[0]), hash, row)
    ensures CacheInv(ss[n]) && CA.Forgotten(cfg.delay, AuthView(ss[n]), hash, row)
    ensures |ss[0].log| <= |ss[n].log| && !AcceptedAfter(ss[0], ss[n], hash, row)
  {
    if n > 0 {
      ForgottenNeverAccepted(cfg, ss, acts, n - 1, hash, row);
      assert ss[n] == Next(cfg, ss[n - 1], acts[n - 1]) && hash !in ss[n].db.tokens;
      ForgottenStep(cfg, ss[n - 1], acts[n - 1], hash, row);
      HarmlessTransitive(ss[0], ss[n - 1], ss[n], hash, row);
    }
  }

  lemma NewFactHarmless(cfg: Config, s: State, a: Action, hash: string, row: TokenRow)
    requires CacheInv(s) && Enabled(cfg, s, a) && |Next(cfg, s, a).log| > |s.log|
    requires CA.Forgotten(cfg.delay, AuthView(s), hash, row)
    ensures var f := Next(cfg, s, a).log[|s.log|]; f.Accepted? ==> f.hash != hash || f.row != row
  {
    if AuthStep(a.what) {
      AuthSource(cfg, s, a);
    } else if !AgentStep(a.what) {
      StepFramed(cfg, s, a);
    }
  }

  lemma FreshThread(s: State) returns (tid: nat)
    ensures tid !in s.threads
  {
    tid := UnusedNumber(s.threads.Keys);
  }

  lemma {:induction false} UnusedNumber(used: set<nat>) returns (n: nat)
    ensures n !in used && forall m :: m in used ==> m < n
  {
    if used == {} {
      n := 0;
    } else {
      var m :| m in used;
      var k := UnusedNumber(used - {m});
      n := if k <= m then m + 1 else k;
      assert forall x :: x in used ==> x == m || x in used - {m};
    }
  }

  // A remembered credential is accepted at once, by a new request or by the reader.
  lemma Admits(cfg: Config, s: State, hash: string, row: TokenRow) returns (a: Action)
    requires CacheInv(s) && Lookup(s.db.tokens, hash) != Some(row) && !CA.Forgotten(cfg.delay, AuthView(s), hash, row)
    ensures AuthEnabled(cfg, s, a) && a.at == s.now
    ensures AuthEffect(cfg, s, a).pc == Some(Authed(hash, row.user, row.kind))
    ensures AuthEffect(cfg, s, a).fact == Some(Accepted(hash, row, s.now)) && AuthEffect(cfg, s, a).db == s.db
  {
    var v := AuthView(s);
    if v.cache(hash).Some? && v.cache(hash).value.value == Some(row) && s.now <= v.cache(hash).value.deadline {
      var tid := FreshThread(s);
      assert Live(s.kv, Auth(hash), s.now);
      a := Action(tid, s.now, AuthGet(hash));
    } else {
      var tid :| v.pending(tid).Some? && v.now - v.pending(tid).value.readAt <= cfg.delay
        && v.pending(tid).value.id == hash && v.pending(tid).value.value == Some(row);
      a := Action(tid, s.now, AuthFill);
    }
  }

  lemma RememberedCanBeAccepted(cfg: Config, s: State, hash: string, row: TokenRow)
    requires CacheInv(s) && hash !in s.db.tokens && !CA.Forgotten(cfg.delay, AuthView(s), hash, row)
    ensures CanStillBeAccepted(cfg, s, hash, row)
  {
    var a := Admits(cfg, s, hash, row);
    AcceptedAtOnce(cfg, s, a, Next(cfg, s, a), hash, row);
  }

  lemma AcceptedAtOnce(cfg: Config, s: State, a: Action, s': State, hash: string, row: TokenRow)
    requires Enabled(cfg, s, a) && s' == Next(cfg, s, a) && s'.log == s.log + [Accepted(hash, row, a.at)]
    requires hash !in s.db.tokens && hash !in s'.db.tokens
    ensures CanStillBeAccepted(cfg, s, hash, row)
  {
    var ss, acts := [s, s'], [a];
    assert GoesOn(cfg, hash, ss, acts);
    assert s'.log[|s.log|] == Accepted(hash, row, a.at);
    assert AcceptedAfter(s, ss[|acts|], hash, row);
  }

  // Revocation is complete if and only if no live cache entry holds the credential
  // and no request that read its row is still in time to cache it.
  lemma RevokedForGoodIff(cfg: Config, s: State, hash: string, row: TokenRow)
    requires CacheInv(s) && Faithful(cfg.json) && hash !in s.db.tokens
    ensures CanStillBeAccepted(cfg, s, hash, row) <==> !CA.Forgotten(cfg.delay, AuthView(s), hash, row)
  {
    if CA.Forgotten(cfg.delay, AuthView(s), hash, row) {
      forall ss, acts | GoesOn(cfg, hash, ss, acts) && ss[0] == s
        ensures !AcceptedAfter(s, ss[|acts|], hash, row)
      {
        ForgottenNeverAccepted(cfg, ss, acts, |acts|, hash, row);
      }
    } else {
      RememberedCanBeAccepted(cfg, s, hash, row);
    }
  }

  ghost predicate TimelyReader(cfg: Config, s: State, tid: nat, hash: string, row: TokenRow) {
    && tid in s.threads && s.threads[tid].AuthFetched? && s.threads[tid].hash == hash && s.threads[tid].row == row
    && s.now - s.threads[tid].readAt <= cfg.delay
  }

  // A rotation drops the cached credential after its row is gone. From then on exactly
  // the requests that had read the row, and are still in time to cache it, can bring it
  // back; DeleteAccount drops first, so that a copy cached in between survives it too.
  lemma DropLeavesReaders(cfg: Config, s: State, a: Action, row: TokenRow)
    requires CacheInv(s) && Faithful(cfg.json) && Enabled(cfg, s, a) && a.what.RotateDrop?
    requires a.what.hash !in s.db.tokens
    ensures var s' := Next(cfg, s, a);
      CanStillBeAccepted(cfg, s', a.what.hash, row) <==> exists tid :: TimelyReader(cfg, s', tid, a.what.hash, row)
  {
    var s', hash := Next(cfg, s, a), a.what.hash;
    assert s'.db == s.db && Auth(hash) !in s'.kv;
    StepDisciplined(cfg, s, a);
    RevokedForGoodIff(cfg, s', hash, row);
    ForgottenButForReaders(cfg, s', hash, row);
  }

  lemma ForgottenButForReaders(cfg: Config, s: State, hash: string, row: TokenRow)
    requires hash !in s.db.tokens && Auth(hash) !in s.kv
    ensures CA.Forgotten(cfg.delay, AuthView(s), hash, row) <==> !exists tid :: TimelyReader(cfg, s, tid, hash, row)
  {
    var v := AuthView(s);
    assert v.cache(hash).None?;
    forall tid: nat
      ensures TimelyReader(cfg, s, tid, hash, row) <==>
                v.pending(tid).Some? && v.now - v.pending(tid).value.readAt <= cfg.delay
                && v.pending(tid).value.id == hash && v.pending(tid).value.value == Some(row)
    {
    }
  }
}
