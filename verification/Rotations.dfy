/** What a rotation leaves accepted when it overlaps with other requests. */
module Rotations {
  import opened Wrappers
  import opened TimedStore
  import opened Keys
  import opened Database
  import opened Codecs
  import opened Server
  import opened Coherence
  import opened Staleness
  import opened Revocation
  import opened Endings

  // The rotation commits; the token is one that it takes out of the table.
  ghost predicate TakesOut(cfg: Config, s: State, a: Action, hash: string) {
    && CacheInv(s) && Faithful(cfg.json) && RotateEnabled(s, a) && a.what.RotateCommit?
    && RotateEffect(s, a).fact.Some? && hash in HashesOf(s.db, s.threads[a.tid].row) && hash != a.what.hash
  }

  // When the rotation has then dropped all it selected, nothing else happening.
  ghost function Rotated(cfg: Config, s: State, a: Action): State
    requires RotateEnabled(s, a) && a.what.RotateCommit? && RotateEffect(s, a).fact.Some?
  {
    AfterDrops(Next(cfg, s, a), a.tid)
  }

  ghost predicate CachedLive(s: State, hash: string, row: TokenRow, at: int) {
    Live(s.kv, Auth(hash), at) && ParseAuth(s.kv[Auth(hash)].value) == Some(row)
  }

  lemma RotatedShape(cfg: Config, s: State, a: Action, hash: string)
    requires TakesOut(cfg, s, a, hash)
    ensures var t, pc := Rotated(cfg, s, a), s.threads[a.tid];
      && t.now == a.at && t.kv == s.kv - AuthKeys(pc.stale) && t.threads == s.threads - {a.tid}
      && hash !in t.db.tokens
  {
  }

  lemma RotatedInv(cfg: Config, s: State, a: Action, hash: string)
    requires TakesOut(cfg, s, a, hash)
    ensures CacheInv(Rotated(cfg, s, a))
  {
    StepDisciplined(cfg, s, a);
    CalmDisciplined(cfg, Next(cfg, s, a), Rotated(cfg, s, a));
  }

  lemma RotatedForgotten(delay: int, s: State, t: State, stale: set<string>, hash: string, row: TokenRow)
    requires CacheInv(s) && t.kv == s.kv - AuthKeys(stale) && hash !in t.db.tokens
    ensures CA.Forgotten(delay, AuthView(t), hash, row) <==>
              && !(hash !in stale && CachedLive(s, hash, row, t.now))
              && (forall tid :: AuthPending(t, tid).Some? && t.now - AuthPending(t, tid).value.readAt <= delay ==>
                    AuthPending(t, tid).value.id != hash || AuthPending(t, tid).value.value != Some(row))
  {
    var v := AuthView(t);
    assert v.cache(hash) == AuthEntry(t, hash);
    assert Auth(hash) in AuthKeys(stale) <==> hash in stale;
    assert forall tid :: v.pending(tid) == AuthPending(t, tid);
  }

  // A token that a committed rotation took out of the table can still be accepted, once
  // the rotation has run to its end, if and only if some request had read its row before
  // the commit and is in time to cache it, or the token was not among those the rotation
  // had selected and is live in the cache. The latter are the tokens minted for the pair
  // between the rotation's select and its commit.
  lemma OverlookedIff(cfg: Config, s: State, a: Action, hash: string)
    requires TakesOut(cfg, s, a, hash)
    ensures var row, t := s.threads[a.tid].row, Rotated(cfg, s, a);
      && RunsTo(cfg, a.tid, Next(cfg, s, a), t)
      && (CanStillBeAccepted(cfg, t, hash, row) <==>
            || (exists tid :: TimelyReader(cfg, s.(now := a.at), tid, hash, row))
            || (hash !in s.threads[a.tid].stale && CachedLive(s, hash, row, a.at)))
  {
    var row, t, stale := s.threads[a.tid].row, Rotated(cfg, s, a), s.threads[a.tid].stale;
    RotationEnds(cfg, Next(cfg, s, a), a.tid);
    RotatedShape(cfg, s, a, hash);
    RotatedInv(cfg, s, a, hash);
    RevokedForGoodIff(cfg, t, hash, row);
    RotatedForgotten(cfg.delay, s, t, stale, hash, row);
    forall tid: nat
      ensures TimelyReader(cfg, s.(now := a.at), tid, hash, row) <==>
                AuthPending(t, tid).Some? && t.now - AuthPending(t, tid).value.readAt <= cfg.delay
                && AuthPending(t, tid).value.id == hash && AuthPending(t, tid).value.value == Some(row)
    {
    }
  }
}
