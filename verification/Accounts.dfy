/** The tables under concurrency: the schema's constraints, one credential of each
    kind per user, and identities that stay bound to the same user. */
module Accounts {
  import opened Wrappers
  import opened Database
  import opened Server
  import opened Frames

  ghost predicate TablesInv(s: State) {
    WellFormed(s.db) && OnePerKind(s.db)
  }

  lemma RotateTables(s: State, a: Action)
    requires TablesInv(s) && RotateEnabled(s, a)
    ensures TablesInv(Apply(s, a, RotateEffect(s, a)))
  {
    if a.what.RotateCommit? {
      RotateExact(s.db, s.threads[a.tid].row, a.what.hash);
    }
  }

  lemma CloseTables(s: State, a: Action)
    requires TablesInv(s) && CloseEnabled(s, a)
    ensures TablesInv(Apply(s, a, CloseEffect(s, a)))
  {
    if a.what.CloseRow? {
      RemoveUserExact(s.db, s.threads[a.tid].user);
    }
  }

  lemma HookTables(cfg: Config, s: State, a: Action)
    requires TablesInv(s) && HookEnabled(cfg, s, a)
    ensures TablesInv(Apply(s, a, HookEffect(cfg, s, a)))
  {
  }

  lemma DestTables(cfg: Config, s: State, a: Action)
    requires TablesInv(s) && DestEnabled(cfg, s, a)
    ensures TablesInv(Apply(s, a, DestEffect(cfg, s, a)))
  {
  }

  lemma SocialTables(s: State, a: Action)
    requires TablesInv(s) && SocialEnabled(s, a)
    ensures TablesInv(Apply(s, a, SocialEffect(s, a)))
  {
  }

  lemma TablesKept(cfg: Config, s: State, a: Action)
    requires TablesInv(s) && Enabled(cfg, s, a)
    ensures TablesInv(Next(cfg, s, a))
  {
    var w := a.what;
    if RotateStep(w) {
      RotateTables(s, a);
    } else if CloseStep(w) {
      CloseTables(s, a);
    } else if HookStep(w) {
      HookTables(cfg, s, a);
    } else if DestStep(w) {
      DestTables(cfg, s, a);
    } else if SocialStep(w) {
      SocialTables(s, a);
    } else {
      StepFramed(cfg, s, a);
    }
  }

  lemma {:induction false} TablesAlways(cfg: Config, ss: seq<State>, acts: seq<Action>, n: nat)
    requires IsRun(cfg, ss, acts) && n < |ss|
    ensures TablesInv(ss[n])
  {
    if n > 0 {
      TablesAlways(cfg, ss, acts, n - 1);
      TablesKept(cfg, ss[n - 1], acts[n - 1]);
    }
  }

  // In every reachable state, whatever requests are in flight, a user has at most one
  // credential of each kind.
  lemma OneCredentialPerKind(cfg: Config, ss: seq<State>, acts: seq<Action>, n: nat, row: TokenRow)
    requires IsRun(cfg, ss, acts) && n < |ss|
    ensures |HashesOf(ss[n].db, row)| <= 1
  {
    TablesAlways(cfg, ss, acts, n);
    var hashes := HashesOf(ss[n].db, row);
    if hashes != {} {
      var h :| h in hashes;
      assert hashes == {h};
    }
  }

  // --- Identities ---

  ghost predicate RemovedBetween(log: seq<Fact>, x: int, y: int, user: string) {
    exists k :: x < k < y && 0 <= k < |log| && log[k].Removed? && log[k].user == user
  }

  ghost predicate LinkingInv(s: State) {
    && s.db.users <= s.ids
    && (forall t :: t in s.threads && s.threads[t].Linking? ==>
          s.threads[t].user in s.ids && s.threads[t].user !in s.db.identities.Values)
    && (forall t, u :: t in s.threads && u in s.threads && t != u && s.threads[t].Linking? && s.threads[u].Linking? ==>
          s.threads[t].user != s.threads[u].user)
  }

  // What the record of sign-ins says about the present tables.
  ghost predicate SignedInInv(s: State) {
    && (forall x :: 0 <= x < |s.log| && s.log[x].SignedIn? ==>
          && s.log[x].user in s.ids
          && (!RemovedBetween(s.log, x, |s.log|, s.log[x].user) ==>
                Lookup(s.db.identities, s.log[x].id) == Some(s.log[x].user)))
    && (forall x :: 0 <= x < |s.log| && s.log[x].Removed? ==> s.log[x].user !in s.db.users && s.log[x].user in s.ids)
    && (forall x, t :: 0 <= x < |s.log| && s.log[x].SignedIn? && t in s.threads && s.threads[t].Linking? ==>
          s.threads[t].user != s.log[x].user)
  }

  ghost predicate StableInv(log: seq<Fact>) {
    && (forall x, y | 0 <= x < y < |log| && log[x].SignedIn? && log[y].SignedIn? && log[x].id == log[y].id ::
          RemovedBetween(log, x, y, log[x].user) || log[x].user == log[y].user)
    && (forall x, y :: 0 <= x < y < |log| && log[x].SignedIn? && log[y].SignedIn? && log[x].user == log[y].user ==>
          log[x].id == log[y].id)
  }

  ghost predicate IdentityInv(s: State) {
    TablesInv(s) && IdentitiesDistinct(s.db) && LinkingInv(s) && SignedInInv(s) && StableInv(s.log)
  }

  ghost predicate Ordinary(e: Fact) {
    !e.SignedIn? && !e.Removed?
  }

  // Steps that neither sign anybody in nor touch users or identities.
  ghost predicate Quiet(s: State, s': State) {
    && s'.db.users == s.db.users && s'.db.identities == s.db.identities && s'.ids == s.ids
    && (forall t :: t in s'.threads && s'.threads[t].Linking? ==> t in s.threads && s.threads[t] == s'.threads[t])
    && Appends(s, s') && (|s'.log| > |s.log| ==> Ordinary(s'.log[|s.log|]))
  }

  lemma FramedQuiet(s: State, s': State, a: Action)
    requires Framed(s, s', a) && !SocialStep(a.what) && !a.what.CloseRow?
    ensures Quiet(s, s')
  {
  }

  lemma QuietSignedIn(s: State, s': State)
    requires SignedInInv(s) && Quiet(s, s')
    ensures SignedInInv(s')
  {
    assert forall x :: 0 <= x < |s.log| ==> s'.log[x] == s.log[x];
    forall x, user
      ensures RemovedBetween(s.log, x, |s.log|, user) ==> RemovedBetween(s'.log, x, |s'.log|, user)
    {
      LongerLogRemoved(s.log, s'.log, x, |s.log|, user);
    }
  }

  lemma LongerLogRemoved(log: seq<Fact>, longer: seq<Fact>, x: int, y: int, user: string)
    requires |log| <= |longer| && longer[..|log|] == log && y <= |log|
    ensures RemovedBetween(log, x, y, user) ==>
              RemovedBetween(longer, x, y, user) && RemovedBetween(longer, x, |longer|, user)
  {
    if RemovedBetween(log, x, y, user) {
      var k :| x < k < y && 0 <= k < |log| && log[k].Removed? && log[k].user == user;
      assert longer[k] == log[k];
    }
  }

  lemma QuietStable(s: State, s': State)
    requires StableInv(s.log) && Quiet(s, s')
    ensures StableInv(s'.log)
  {
    assert forall x :: 0 <= x < |s.log| ==> s'.log[x] == s.log[x];
    forall x, y | 0 <= x < y < |s'.log| && s'.log[x].SignedIn? && s'.log[y].SignedIn? && s'.log[x].id == s'.log[y].id
      ensures RemovedBetween(s'.log, x, y, s'.log[x].user) || s'.log[x].user == s'.log[y].user
    {
      LongerLogRemoved(s.log, s'.log, x, y, s.log[x].user);
    }
  }

  lemma QuietKeeps(s: State, s': State)
    requires IdentityInv(s) && TablesInv(s') && Quiet(s, s')
    ensures IdentityInv(s')
  {
    QuietSignedIn(s, s');
    QuietStable(s, s');
  }

  // An event appended to the record leaves what was between two earlier ones.
  lemma RemovedBetweenPrefix(log: seq<Fact>, e: Fact, x: int, y: int, user: string)
    requires 0 <= x && y <= |log|
    ensures RemovedBetween(log, x, y, user) <==> RemovedBetween(log + [e], x, y, user)
    ensures RemovedBetween(log + [e], x, |log| + 1, user) <==>
              RemovedBetween(log, x, |log|, user) || (x < |log| && e.Removed? && e.user == user)
  {
    var longer := log + [e];
    if RemovedBetween(log, x, y, user) {
      var k :| x < k < y && 0 <= k < |log| && log[k].Removed? && log[k].user == user;
      assert longer[k] == log[k];
    }
    if RemovedBetween(log, x, |log|, user) {
      var k :| x < k < |log| && log[k].Removed? && log[k].user == user;
      assert longer[k] == log[k];
    }
    if x < |log| && e.Removed? && e.user == user {
      assert longer[|log|] == e;
    }
  }

  // The user of the step is removed.
  ghost predicate RemovesNow(s: State, s': State, user: string) {
    && s'.log == s.log + [Removed(user, s'.now)] && s'.db == RemoveUser(s.db, user) && s'.ids == s.ids + {user}
    && (forall t :: t in s'.threads ==> t in s.threads && s.threads[t] == s'.threads[t])
  }

  lemma RemovalSignedIn(s: State, s': State, user: string)
    requires SignedInInv(s) && RemovesNow(s, s', user)
    ensures SignedInInv(s')
  {
    var e := Removed(user, s'.now);
    forall x, u | 0 <= x < |s.log|
      ensures RemovedBetween(s'.log, x, |s'.log|, u) <==> RemovedBetween(s.log, x, |s.log|, u) || u == user
    {
      RemovedBetweenPrefix(s.log, e, x, |s.log|, u);
    }
  }

  lemma RemovalStable(s: State, s': State, user: string)
    requires StableInv(s.log) && RemovesNow(s, s', user)
    ensures StableInv(s'.log)
  {
    forall x, y, u | 0 <= x && y <= |s.log|
      ensures RemovedBetween(s.log, x, y, u) <==> RemovedBetween(s'.log, x, y, u)
    {
      RemovedBetweenPrefix(s.log, Removed(user, s'.now), x, y, u);
    }
  }

  lemma RemovalKeeps(s: State, a: Action)
    requires IdentityInv(s) && CloseEnabled(s, a) && a.what.CloseRow?
    ensures IdentityInv(Apply(s, a, CloseEffect(s, a)))
  {
    var s', user := Apply(s, a, CloseEffect(s, a)), s.threads[a.tid].user;
    CloseTables(s, a);
    RemovalSignedIn(s, s', user);
    RemovalStable(s, s', user);
  }

  lemma SignInKeeps(s: State, s': State, id: Identity, user: string, at: int)
    requires IdentityInv(s) && TablesInv(s') && IdentitiesDistinct(s'.db) && LinkingInv(s')
    requires s'.log == s.log + [SignedIn(id, user, at)] && s'.db.users == s.db.users && s'.ids == s.ids
    requires forall i :: i in s.db.identities ==> i in s'.db.identities && s'.db.identities[i] == s.db.identities[i]
    requires id in s'.db.identities && s'.db.identities[id] == user && user in s.ids
    requires id in s.db.identities || forall x :: 0 <= x < |s.log| && s.log[x].SignedIn? ==> s.log[x].user != user
    requires forall t :: t in s'.threads && s'.threads[t].Linking? ==>
               t in s.threads && s.threads[t] == s'.threads[t] && s'.threads[t].user != user
    ensures IdentityInv(s')
  {
    var e, n := SignedIn(id, user, at), |s.log|;
    assert forall x :: 0 <= x < n ==> s'.log[x] == s.log[x];
    forall x, y, u | 0 <= x && y <= n
      ensures RemovedBetween(s.log, x, y, u) <==> RemovedBetween(s'.log, x, y, u)
    {
      RemovedBetweenPrefix(s.log, e, x, y, u);
    }
    forall x, u | 0 <= x < n
      ensures RemovedBetween(s'.log, x, n + 1, u) <==> RemovedBetween(s.log, x, n, u)
    {
      RemovedBetweenPrefix(s.log, e, x, n, u);
    }
    forall x | 0 <= x < n && s.log[x].SignedIn? && s.log[x].user == user
      ensures s.log[x].id == id
    {
      // Had the user been removed since, no table would mention it.
      assert !RemovedBetween(s.log, x, n, user);
    }
  }

  lemma SelectKeeps(s: State, a: Action)
    requires IdentityInv(s) && SocialEnabled(s, a) && a.what.SocialSelect?
    ensures IdentityInv(Apply(s, a, SocialEffect(s, a)))
  {
    var s', id := Apply(s, a, SocialEffect(s, a)), a.what.id;
    assert s'.db == s.db && s'.ids == s.ids;
    if id in s.db.identities {
      SignInKeeps(s, s', id, s.db.identities[id], a.at);
    } else {
      QuietKeeps(s, s');
    }
  }

  lemma BindKeeps(s: State, a: Action)
    requires IdentityInv(s) && SocialEnabled(s, a) && a.what.SocialBind?
    ensures IdentityInv(Apply(s, a, SocialEffect(s, a)))
  {
    var s', pc := Apply(s, a, SocialEffect(s, a)), s.threads[a.tid];
    SocialTables(s, a);
    assert s'.ids == s.ids;
    if Bind(s.db, pc.id, pc.user).Some? {
      assert s'.db.identities == s.db.identities[pc.id := pc.user];
      SignInKeeps(s, s', pc.id, pc.user, a.at);
    } else {
      QuietKeeps(s, s');
    }
  }

  // A losing racer may leave this user row behind; it is bound to no identity.
  lemma InsertKeeps(s: State, a: Action)
    requires IdentityInv(s) && SocialEnabled(s, a) && a.what.SocialInsert?
    ensures IdentityInv(Apply(s, a, SocialEffect(s, a)))
  {
    var s' := Apply(s, a, SocialEffect(s, a));
    SocialTables(s, a);
    assert s'.log == s.log && s'.db.identities == s.db.identities;
    assert UserId(a.what.suffix) !in s.db.users;
  }

  lemma IdentityKept(cfg: Config, s: State, a: Action)
    requires IdentityInv(s) && Enabled(cfg, s, a)
    ensures IdentityInv(Next(cfg, s, a))
  {
    var w := a.what;
    if w.CloseRow? {
      RemovalKeeps(s, a);
    } else if w.SocialSelect? {
      SelectKeeps(s, a);
    } else if w.SocialInsert? {
      InsertKeeps(s, a);
    } else if w.SocialBind? {
      BindKeeps(s, a);
    } else {
      TablesKept(cfg, s, a);
      StepFramed(cfg, s, a);
      FramedQuiet(s, Next(cfg, s, a), a);
      QuietKeeps(s, Next(cfg, s, a));
    }
  }

  lemma {:induction false} IdentityAlways(cfg: Config, ss: seq<State>, acts: seq<Action>, n: nat)
    requires IsRun(cfg, ss, acts) && n < |ss|
    ensures IdentityInv(ss[n])
  {
    if n > 0 {
      IdentityAlways(cfg, ss, acts, n - 1);
      IdentityKept(cfg, ss[n - 1], acts[n - 1]);
    }
  }

  // Under every interleaving of the three sub-steps, with everything else the server
  // does: two sign-ins with one identity give the same user unless that user was
  // deleted in between, and no user is ever given to two identities.
  lemma StableIdentity(cfg: Config, ss: seq<State>, acts: seq<Action>, n: nat, x: nat, y: nat)
    requires IsRun(cfg, ss, acts) && n < |ss| && x < y < |ss[n].log|
    requires ss[n].log[x].SignedIn? && ss[n].log[y].SignedIn?
    ensures var e, f := ss[n].log[x], ss[n].log[y];
      && (e.id == f.id ==> e.user == f.user || RemovedBetween(ss[n].log, x, y, e.user))
      && (e.user == f.user ==> e.id == f.id)
  {
    IdentityAlways(cfg, ss, acts, n);
  }

  // --- A removed user gets nothing any more ---

  lemma MintNeedsUser(s: State, a: Action)
    requires RotateEnabled(s, a) && RotateEffect(s, a).fact.Some?
    ensures var f := RotateEffect(s, a).fact.value; f.Minted? && f.row.user in s.db.users
  {
  }

  lemma SignInNeedsUser(s: State, a: Action)
    requires TablesInv(s) && SocialEnabled(s, a) && SocialEffect(s, a).fact.Some?
    ensures var f := SocialEffect(s, a).fact.value; f.SignedIn? && f.user in s.db.users
  {
  }

  lemma NewFactNeedsUser(cfg: Config, s: State, a: Action)
    requires TablesInv(s) && Enabled(cfg, s, a) && |Next(cfg, s, a).log| > |s.log|
    ensures var f := Next(cfg, s, a).log[|s.log|];
      (f.Minted? ==> f.row.user in s.db.users) && (f.SignedIn? ==> f.user in s.db.users)
  {
    if RotateStep(a.what) {
      MintNeedsUser(s, a);
    } else if SocialStep(a.what) {
      SignInNeedsUser(s, a);
    } else {
      StepFramed(cfg, s, a);
    }
  }

  // Whatever is in flight when an account is removed, phone codes, authorization codes,
  // rotations and sign-ins included: no credential is minted for the user and nobody is
  // signed in as the user ever after.
  lemma {:induction false} RemovedForGood(cfg: Config, ss: seq<State>, acts: seq<Action>, n: nat, x: nat, y: nat)
    requires IsRun(cfg, ss, acts) && n < |ss| && x < y < |ss[n].log| && ss[n].log[x].Removed?
    ensures var user, f := ss[n].log[x].user, ss[n].log[y];
      (f.Minted? ==> f.row.user != user) && (f.SignedIn? ==> f.user != user)
    decreases n
  {
    if n > 0 {
      var s := ss[n - 1];
      StepFramed(cfg, s, acts[n - 1]);
      assert ss[n].log[x] == s.log[x];
      if y < |s.log| {
        RemovedForGood(cfg, ss, acts, n - 1, x, y);
        assert ss[n].log[y] == s.log[y];
      } else {
        IdentityAlways(cfg, ss, acts, n - 1);
        NewFactNeedsUser(cfg, s, acts[n - 1]);
      }
    }
  }
}
