/** What can be left of a deleted account when requests overlap: for every reachable
    state, exactly when the location of a removed user can still be told. */
module Remnants {
  import opened TimedStore
  import opened Keys
  import opened Database
  import opened Codecs
  import opened Server
  import opened Frames
  import opened Accounts
  import opened Staleness
  import opened Bounds
  import opened Revocation

  // The server going on from some state.
  ghost predicate Continues(cfg: Config, ss: seq<State>, acts: seq<Action>) {
    && |ss| == |acts| + 1
    && (forall i :: 0 <= i < |acts| ==> Enabled(cfg, ss[i], acts[i]) && ss[i + 1] == Next(cfg, ss[i], acts[i]))
  }

  predicate Tells(f: Fact, user: string) {
    f.LocationAnswered? && f.user == user && f.found.Some?
  }

  ghost predicate ToldAfter(s: State, s': State, user: string) {
    exists x :: |s.log| <= x < |s'.log| && Tells(s'.log[x], user)
  }

  ghost predicate CanBeTold(cfg: Config, s: State, user: string) {
    exists ss, acts :: Continues(cfg, ss, acts) && ss[0] == s && ToldAfter(s, ss[|acts|], user)
  }

  // --- What a state must have left ---

  // A request past authentication that can still come to read the user's location.
  predicate Reading(cfg: Config, now: int, pc: Pc, user: string) {
    || (MayReadLocation(pc) && pc.user == user)
    || ((pc.HookMissed? || pc.DestMissed?) && pc.user == user)
    || ((pc.HookFetched? || pc.DestFetched?) && pc.user == user && now - pc.readAt <= cfg.delay)
  }

  // A phone past authentication.
  predicate Writing(pc: Pc, user: string) {
    pc.Authed? && pc.user == user && pc.kind == PAIRING_TOKEN
  }

  // A credential that a live cache entry or a timely reader still holds.
  ghost predicate CredentialLeft(cfg: Config, s: State, row: TokenRow) {
    exists hash :: !CA.Forgotten(cfg.delay, AuthView(s), hash, row)
  }

  ghost predicate WriterLeft(cfg: Config, s: State, user: string) {
    || (exists t :: t in s.threads && Writing(s.threads[t], user))
    || CredentialLeft(cfg, s, TokenRow(user, PAIRING_TOKEN))
  }

  ghost predicate ReaderLeft(cfg: Config, s: State, user: string) {
    || (exists t :: t in s.threads && Reading(cfg, s.now, s.threads[t], user))
    || (exists kind :: CredentialLeft(cfg, s, TokenRow(user, kind)))
  }

  ghost predicate Remnant(cfg: Config, s: State, user: string) {
    || WriterLeft(cfg, s, user)
    || (Live(s.kv, Location(user), s.now) && ReaderLeft(cfg, s, user))
  }

  // --- Without a remnant nothing comes back ---

  ghost predicate Gone(s: State, user: string) {
    CacheInv(s) && user !in s.db.users && user in s.ids
  }

  lemma UserStaysGone(cfg: Config, s: State, a: Action, user: string)
    requires user !in s.db.users && user in s.ids && Enabled(cfg, s, a)
    ensures user !in Next(cfg, s, a).db.users && user in Next(cfg, s, a).ids
  {
    if a.what.SocialInsert? {
      assert EffectOf(cfg, s, a) == SocialEffect(s, a);
    } else if a.what.CloseRow? {
      assert EffectOf(cfg, s, a) == CloseEffect(s, a);
    } else {
      StepFramed(cfg, s, a);
    }
  }

  lemma GoneKept(cfg: Config, s: State, a: Action, user: string)
    requires Gone(s, user) && Faithful(cfg.json) && Enabled(cfg, s, a)
    ensures Gone(Next(cfg, s, a), user)
  {
    StepDisciplined(cfg, s, a);
    UserStaysGone(cfg, s, a, user);
  }

  lemma CredentialStaysForgotten(cfg: Config, s: State, a: Action, row: TokenRow)
    requires Gone(s, row.user) && Faithful(cfg.json) && Enabled(cfg, s, a) && !CredentialLeft(cfg, s, row)
    ensures !CredentialLeft(cfg, Next(cfg, s, a), row)
  {
    var s' := Next(cfg, s, a);
    StepDisciplined(cfg, s, a);
    GoneKept(cfg, s, a, row.user);
    forall hash
      ensures CA.Forgotten(cfg.delay, AuthView(s'), hash, row)
    {
      CA.ForgottenStays(CACHE_TTL, cfg.delay, AuthView(s), AuthView(s'), hash, row);
    }
  }

  // Whoever gets past authentication does so by a credential that was left.
  lemma AuthNeedsCredential(cfg: Config, s: State, a: Action)
    requires CacheInv(s) && AuthEnabled(cfg, s, a) && AuthEffect(cfg, s, a).pc.Some?
    requires AuthEffect(cfg, s, a).pc.value.Authed?
    ensures var pc := AuthEffect(cfg, s, a).pc.value; CredentialLeft(cfg, s, TokenRow(pc.user, pc.kind))
  {
    AuthSource(cfg, s, a);
    var f := AuthEffect(cfg, s, a).fact.value;
    assert !CA.Forgotten(cfg.delay, AuthView(s), f.hash, f.row);
  }

  lemma HookReading(cfg: Config, s: State, a: Action, user: string)
    requires HookEnabled(cfg, s, a) && HookEffect(cfg, s, a).pc.Some?
    requires Reading(cfg, a.at, HookEffect(cfg, s, a).pc.value, user)
    ensures Reading(cfg, s.now, s.threads[a.tid], user)
  {
  }

  lemma DestReading(cfg: Config, s: State, a: Action, user: string)
    requires DestEnabled(cfg, s, a) && DestEffect(cfg, s, a).pc.Some?
    requires Reading(cfg, a.at, DestEffect(cfg, s, a).pc.value, user)
    ensures Reading(cfg, s.now, s.threads[a.tid], user)
  {
  }

  // A removed user has no row to read.
  lemma AgentReading(cfg: Config, s: State, a: Action, user: string)
    requires Gone(s, user) && AgentEnabled(s, a) && AgentEffect(s, a).pc.Some?
    ensures !Reading(cfg, a.at, AgentEffect(s, a).pc.value, user)
  {
  }

  lemma LocationReading(cfg: Config, s: State, a: Action, user: string)
    requires LocationEnabled(s, a) && LocationEffect(s, a).pc.Some?
    requires Reading(cfg, a.at, LocationEffect(s, a).pc.value, user)
    ensures Reading(cfg, s.now, s.threads[a.tid], user)
  {
  }

  lemma OtherReading(cfg: Config, s: State, a: Action, user: string)
    requires Enabled(cfg, s, a) && !a.what.Background? && EffectOf(cfg, s, a).pc.Some?
    requires !AuthStep(a.what) && !AgentStep(a.what) && !HookStep(a.what) && !DestStep(a.what) && !LocationStep(a.what)
    ensures !Reading(cfg, a.at, EffectOf(cfg, s, a).pc.value, user)
  {
    EffectFits(cfg, s, a);
  }

  lemma MovedReading(cfg: Config, s: State, a: Action, user: string)
    requires Gone(s, user) && Enabled(cfg, s, a) && !a.what.Background? && EffectOf(cfg, s, a).pc.Some?
    requires Reading(cfg, a.at, EffectOf(cfg, s, a).pc.value, user)
    ensures ReaderLeft(cfg, s, user)
  {
    if AuthStep(a.what) {
      AuthNeedsCredential(cfg, s, a);
    } else if HookStep(a.what) {
      HookReading(cfg, s, a, user);
    } else if DestStep(a.what) {
      DestReading(cfg, s, a, user);
    } else if AgentStep(a.what) {
      AgentReading(cfg, s, a, user);
    } else if LocationStep(a.what) {
      LocationReading(cfg, s, a, user);
    } else {
      OtherReading(cfg, s, a, user);
    }
  }

  lemma MovedWriting(cfg: Config, s: State, a: Action, user: string)
    requires Gone(s, user) && Enabled(cfg, s, a) && !a.what.Background? && EffectOf(cfg, s, a).pc.Some?
    requires Writing(EffectOf(cfg, s, a).pc.value, user)
    ensures WriterLeft(cfg, s, user)
  {
    if AuthStep(a.what) {
      AuthNeedsCredential(cfg, s, a);
    } else {
      EffectFits(cfg, s, a);
    }
  }

  lemma ReaderKept(cfg: Config, s: State, a: Action, user: string)
    requires Gone(s, user) && Faithful(cfg.json) && Enabled(cfg, s, a) && ReaderLeft(cfg, Next(cfg, s, a), user)
    ensures ReaderLeft(cfg, s, user)
  {
    var s' := Next(cfg, s, a);
    if kind :| CredentialLeft(cfg, s', TokenRow(user, kind)) {
      if !CredentialLeft(cfg, s, TokenRow(user, kind)) {
        CredentialStaysForgotten(cfg, s, a, TokenRow(user, kind));
      }
    } else {
      var t :| t in s'.threads && Reading(cfg, s'.now, s'.threads[t], user);
      if t == a.tid && !a.what.Background? && EffectOf(cfg, s, a).pc.Some? {
        MovedReading(cfg, s, a, user);
      } else {
        assert t in s.threads && s.threads[t] == s'.threads[t];
        assert Reading(cfg, s.now, s.threads[t], user);
      }
    }
  }

  lemma WriterKept(cfg: Config, s: State, a: Action, user: string)
    requires Gone(s, user) && Faithful(cfg.json) && Enabled(cfg, s, a) && WriterLeft(cfg, Next(cfg, s, a), user)
    ensures WriterLeft(cfg, s, user)
  {
    var s', row := Next(cfg, s, a), TokenRow(user, PAIRING_TOKEN);
    if CredentialLeft(cfg, s', row) {
      if !CredentialLeft(cfg, s, row) {
        CredentialStaysForgotten(cfg, s, a, row);
      }
    } else {
      var t :| t in s'.threads && Writing(s'.threads[t], user);
      if t == a.tid && !a.what.Background? && EffectOf(cfg, s, a).pc.Some? {
        MovedWriting(cfg, s, a, user);
      } else {
        assert t in s.threads && s.threads[t] == s'.threads[t];
      }
    }
  }

  // Only a phone past authentication puts a location into the store.
  lemma LocationNeedsWriter(cfg: Config, s: State, a: Action, user: string)
    requires Enabled(cfg, s, a) && Live(Next(cfg, s, a).kv, Location(user), a.at)
    ensures Live(s.kv, Location(user), s.now) || WriterLeft(cfg, s, user)
  {
    StepFramed(cfg, s, a);
    if a.what.LocationWrite? {
      assert Next(cfg, s, a).kv == Performed(s, LocationEffect(s, a).op, a.at);
      if s.threads[a.tid].user == user {
        assert Writing(s.threads[a.tid], user);
      }
    }
  }

  lemma RemnantKept(cfg: Config, s: State, a: Action, user: string)
    requires Gone(s, user) && Faithful(cfg.json) && Enabled(cfg, s, a) && Remnant(cfg, Next(cfg, s, a), user)
    ensures Remnant(cfg, s, user)
  {
    var s' := Next(cfg, s, a);
    if WriterLeft(cfg, s', user) {
      WriterKept(cfg, s, a, user);
    } else {
      StepFramed(cfg, s, a);
      LocationNeedsWriter(cfg, s, a, user);
      ReaderKept(cfg, s, a, user);
    }
  }

  lemma TellingNeedsRemnant(cfg: Config, s: State, a: Action, user: string)
    requires Enabled(cfg, s, a) && |Next(cfg, s, a).log| > |s.log| && Tells(Next(cfg, s, a).log[|s.log|], user)
    ensures Remnant(cfg, s, user)
  {
    StepFramed(cfg, s, a);
    assert a.what.LocationRead?;
    assert Next(cfg, s, a).log == s.log + [LocationEffect(s, a).fact.value];
    assert Reading(cfg, s.now, s.threads[a.tid], user);
  }

  // One step without a remnant.
  lemma NothingToldNow(cfg: Config, s: State, a: Action, user: string)
    requires Gone(s, user) && Faithful(cfg.json) && Enabled(cfg, s, a) && !Remnant(cfg, s, user)
    ensures var s' := Next(cfg, s, a);
      Gone(s', user) && !Remnant(cfg, s', user) && Appends(s, s') && !ToldAfter(s, s', user)
  {
    var s' := Next(cfg, s, a);
    GoneKept(cfg, s, a, user);
    StepFramed(cfg, s, a);
    if Remnant(cfg, s', user) {
      RemnantKept(cfg, s, a, user);
    }
    if |s'.log| > |s.log| && Tells(s'.log[|s.log|], user) {
      TellingNeedsRemnant(cfg, s, a, user);
    }
  }

  lemma ToldTransitive(s: State, s': State, s'': State, user: string)
    requires |s.log| <= |s'.log| && !ToldAfter(s, s', user) && Appends(s', s'') && !ToldAfter(s', s'', user)
    ensures |s.log| <= |s''.log| && !ToldAfter(s, s'', user)
  {
    assert forall x :: 0 <= x < |s'.log| ==> s''.log[x] == s'.log[x];
  }

  lemma {:induction false} NothingTold(cfg: Config, ss: seq<State>, acts: seq<Action>, n: nat, user: string)
    requires Continues(cfg, ss, acts) && n < |ss| && Faithful(cfg.json)
    requires Gone(ss[0], user) && !Remnant(cfg, ss[0], user)
    ensures Gone(ss[n], user) && !Remnant(cfg, ss[n], user)
    ensures |ss[0].log| <= |ss[n].log| && !ToldAfter(ss[0], ss[n], user)
  {
    if n > 0 {
      NothingTold(cfg, ss, acts, n - 1, user);
      NothingToldNow(cfg, ss[n - 1], acts[n - 1], user);
      ToldTransitive(ss[0], ss[n - 1], ss[n], user);
    }
  }

  // --- With one, a continuation tells ---

  lemma ContinuesFrom(cfg: Config, s: State, a: Action, ss: seq<State>, acts: seq<Action>)
    requires Continues(cfg, ss, acts) && Enabled(cfg, s, a) && ss[0] == Next(cfg, s, a)
    ensures Continues(cfg, [s] + ss, [a] + acts)
  {
  }

  lemma ToldLater(s: State, s': State, s'': State, user: string)
    requires |s.log| <= |s'.log| && ToldAfter(s', s'', user)
    ensures ToldAfter(s, s'', user)
  {
  }

  lemma OneMore(cfg: Config, s: State, a: Action, user: string)
    requires Enabled(cfg, s, a) && CanBeTold(cfg, Next(cfg, s, a), user)
    ensures CanBeTold(cfg, s, user)
  {
    var s' := Next(cfg, s, a);
    StepFramed(cfg, s, a);
    var ss, acts :| Continues(cfg, ss, acts) && ss[0] == s' && ToldAfter(s', ss[|acts|], user);
    ContinuesFrom(cfg, s, a, ss, acts);
    ToldLater(s, s', ss[|acts|], user);
    var longer, more := [s] + ss, [a] + acts;
    assert longer[0] == s && longer[|more|] == ss[|acts|];
  }

  lemma TellsNow(cfg: Config, s: State, tid: nat, user: string)
    requires tid in s.threads && MayReadLocation(s.threads[tid]) && s.threads[tid].user == user
    requires Live(s.kv, Location(user), s.now)
    ensures CanBeTold(cfg, s, user)
  {
    var a := Action(tid, s.now, LocationRead);
    var s' := Next(cfg, s, a);
    var ss, acts := [s, s'], [a];
    assert Continues(cfg, ss, acts);
    assert Tells(s'.log[|s.log|], user);
    assert ToldAfter(s, ss[|acts|], user);
  }

  lemma ReadsOn(cfg: Config, s: State, tid: nat, user: string)
    requires tid in s.threads && Reading(cfg, s.now, s.threads[tid], user) && Live(s.kv, Location(user), s.now)
    ensures CanBeTold(cfg, s, user)
    decreases if s.threads[tid].HookMissed? || s.threads[tid].DestMissed? then 2
              else if s.threads[tid].HookFetched? || s.threads[tid].DestFetched? then 1 else 0
  {
    var pc := s.threads[tid];
    if MayReadLocation(pc) {
      TellsNow(cfg, s, tid, user);
    } else {
      var w := if pc.HookMissed? then HookRead else if pc.HookFetched? then HookFill
               else if pc.DestMissed? then DestRead else DestFill;
      var a := Action(tid, s.now, w);
      StepFramed(cfg, s, a);
      ReadsOn(cfg, Next(cfg, s, a), tid, user);
      OneMore(cfg, s, a, user);
    }
  }

  lemma WritesOn(cfg: Config, s: State, tid: nat, user: string)
    requires tid in s.threads && Writing(s.threads[tid], user)
    ensures CanBeTold(cfg, s, user)
  {
    var a := Action(tid, s.now, LocationWrite(""));
    TellsNow(cfg, Next(cfg, s, a), tid, user);
    OneMore(cfg, s, a, user);
  }

  lemma AdmittedTells(cfg: Config, s': State, tid: nat, row: TokenRow, hash: string)
    requires tid in s'.threads && s'.threads[tid] == Authed(hash, row.user, row.kind)
    requires row.kind == PAIRING_TOKEN || Live(s'.kv, Location(row.user), s'.now)
    ensures CanBeTold(cfg, s', row.user)
  {
    if row.kind == PAIRING_TOKEN {
      WritesOn(cfg, s', tid, row.user);
    } else {
      ReadsOn(cfg, s', tid, row.user);
    }
  }

  lemma CredentialTells(cfg: Config, s: State, row: TokenRow)
    requires Gone(s, row.user) && CredentialLeft(cfg, s, row)
    requires row.kind == PAIRING_TOKEN || Live(s.kv, Location(row.user), s.now)
    ensures CanBeTold(cfg, s, row.user)
  {
    var hash :| !CA.Forgotten(cfg.delay, AuthView(s), hash, row);
    var a := Admits(cfg, s, hash, row);
    AuthFits(cfg, s, a);
    ApplyFramed(s, a, AuthEffect(cfg, s, a));
    AdmittedTells(cfg, Next(cfg, s, a), a.tid, row, hash);
    OneMore(cfg, s, a, row.user);
  }

  lemma RemnantTells(cfg: Config, s: State, user: string)
    requires Gone(s, user) && Remnant(cfg, s, user)
    ensures CanBeTold(cfg, s, user)
  {
    if CredentialLeft(cfg, s, TokenRow(user, PAIRING_TOKEN)) {
      CredentialTells(cfg, s, TokenRow(user, PAIRING_TOKEN));
    } else if t :| t in s.threads && Writing(s.threads[t], user) {
      WritesOn(cfg, s, t, user);
    } else if t :| t in s.threads && Reading(cfg, s.now, s.threads[t], user) {
      ReadsOn(cfg, s, t, user);
    } else {
      var kind :| CredentialLeft(cfg, s, TokenRow(user, kind));
      CredentialTells(cfg, s, TokenRow(user, kind));
    }
  }

  // In every reachable state, the location of a user whose account was removed can still
  // be told, in some continuation, if and only if a phone of that user is past
  // authentication or still can be, or the store holds a live location of the user and
  // a reader is past authentication or still can be.
  lemma ToldAfterRemovalIff(cfg: Config, ss: seq<State>, acts: seq<Action>, n: nat, x: nat)
    requires IsRun(cfg, ss, acts) && n < |ss| && x < |ss[n].log| && ss[n].log[x].Removed?
    ensures CanBeTold(cfg, ss[n], ss[n].log[x].user) <==> Remnant(cfg, ss[n], ss[n].log[x].user)
  {
    var user := ss[n].log[x].user;
    CacheAlways(cfg, ss, acts, n);
    IdentityAlways(cfg, ss, acts, n);
    if Remnant(cfg, ss[n], user) {
      RemnantTells(cfg, ss[n], user);
    } else {
      forall ss', acts' | Continues(cfg, ss', acts') && ss'[0] == ss[n]
        ensures !ToldAfter(ss[n], ss'[|acts'|], user)
      {
        NothingTold(cfg, ss', acts', |acts'|, user);
      }
    }
  }
}
