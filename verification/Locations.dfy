/** The location cache under concurrency: what a reader is told is exactly the last
    location written for that user, for twenty-four hours and until DeleteAccount drops
    it, whatever all other requests and the eviction do in between. */
module Locations {
  import opened Wrappers
  import opened TimedStore
  import opened Keys
  import opened Server
  import opened Frames

  predicate AboutLocation(f: Fact, user: string) {
    (f.Located? || f.LocationDropped?) && f.user == user
  }

  // The last write or drop of the user's location among the first n facts, or -1.
  function LastWrite(log: seq<Fact>, n: nat, user: string): (p: int)
    requires n <= |log|
    ensures -1 <= p < n && (p >= 0 ==> AboutLocation(log[p], user))
    ensures forall i :: p < i < n ==> !AboutLocation(log[i], user)
  {
    if n == 0 then -1 else if AboutLocation(log[n - 1], user) then n - 1 else LastWrite(log, n - 1, user)
  }

  // What a reader at time `at` should be told, given the first n facts.
  function Expected(log: seq<Fact>, n: nat, user: string, at: int): Option<string>
    requires n <= |log|
  {
    var p := LastWrite(log, n, user);
    if p >= 0 && log[p].Located? && at <= log[p].at + LOCATION_TTL then Some(log[p].body) else None
  }

  ghost predicate Stored(s: State, user: string) {
    var p, k := LastWrite(s.log, |s.log|, user), Location(user);
    && (Live(s.kv, k, s.now) ==>
          p >= 0 && s.log[p].Located? && s.kv[k] == Binding(s.log[p].body, Some(s.log[p].at + LOCATION_TTL)))
    && (p >= 0 && s.log[p].Located? && s.now <= s.log[p].at + LOCATION_TTL ==> Live(s.kv, k, s.now))
  }

  ghost predicate LocationInv(s: State) {
    && (forall user :: Stored(s, user))
    && (forall i :: 0 <= i < |s.log| && s.log[i].LocationAnswered? ==>
          s.log[i].found == Expected(s.log, i, s.log[i].user, s.log[i].at))
  }

  lemma {:induction false} LastWritePrefix(log: seq<Fact>, longer: seq<Fact>, n: nat, user: string)
    requires n <= |log| <= |longer| && longer[..|log|] == log
    ensures LastWrite(longer, n, user) == LastWrite(log, n, user)
    ensures forall at :: Expected(longer, n, user, at) == Expected(log, n, user, at)
  {
    if n > 0 {
      assert longer[n - 1] == log[n - 1];
      LastWritePrefix(log, longer, n - 1, user);
    }
    var p := LastWrite(log, n, user);
    assert p >= 0 ==> longer[p] == log[p];
  }

  // Answers given earlier stay right as the record grows.
  ghost predicate Grows(s: State, s': State) {
    s.now <= s'.now && Appends(s, s')
  }

  lemma AnswersKept(s: State, s': State)
    requires LocationInv(s) && Grows(s, s')
    requires |s'.log| > |s.log| && s'.log[|s.log|].LocationAnswered? ==>
               var f := s'.log[|s.log|]; f.found == Expected(s.log, |s.log|, f.user, f.at)
    ensures forall i :: 0 <= i < |s'.log| && s'.log[i].LocationAnswered? ==>
              s'.log[i].found == Expected(s'.log, i, s'.log[i].user, s'.log[i].at)
  {
    forall i | 0 <= i < |s'.log| && s'.log[i].LocationAnswered?
      ensures s'.log[i].found == Expected(s'.log, i, s'.log[i].user, s'.log[i].at)
    {
      assert i < |s.log| ==> s'.log[i] == s.log[i];
      LastWritePrefix(s.log, s'.log, i, s'.log[i].user);
    }
  }

  // Nothing happens to this user's location: at most an expired binding goes.
  ghost predicate Untouched(s: State, s': State, user: string) {
    var k := Location(user);
    && (k in s'.kv ==> k in s.kv && s'.kv[k] == s.kv[k])
    && (Live(s.kv, k, s'.now) ==> k in s'.kv)
    && (|s'.log| > |s.log| ==> !AboutLocation(s'.log[|s.log|], user))
  }

  lemma UntouchedStored(s: State, s': State, user: string)
    requires Stored(s, user) && Grows(s, s') && Untouched(s, s', user)
    ensures Stored(s', user)
  {
    LastWritePrefix(s.log, s'.log, |s.log|, user);
    var p := LastWrite(s.log, |s.log|, user);
    assert p >= 0 ==> s'.log[p] == s.log[p];
  }

  ghost predicate Elsewhere(s: State, s': State) {
    && Grows(s, s')
    && (forall k :: k in s'.kv && k.Location? ==> k in s.kv && s'.kv[k] == s.kv[k])
    && (forall k :: k in s.kv && k.Location? && Live(s.kv, k, s'.now) ==> k in s'.kv)
    && (|s'.log| > |s.log| ==>
          !s'.log[|s.log|].Located? && !s'.log[|s.log|].LocationDropped? && !s'.log[|s.log|].LocationAnswered?)
  }

  lemma ElsewhereKeeps(s: State, s': State)
    requires LocationInv(s) && Elsewhere(s, s')
    ensures LocationInv(s')
  {
    AnswersKept(s, s');
    forall user
      ensures Stored(s', user)
    {
      assert Stored(s, user);
      UntouchedStored(s, s', user);
    }
  }

  lemma FramedElsewhere(s: State, s': State, a: Action)
    requires Framed(s, s', a) && !LocationStep(a.what) && !a.what.CloseLocation?
    ensures Elsewhere(s, s')
  {
  }

  // A step on one user's location.
  ghost predicate Here(s: State, s': State, user: string) {
    && s.now <= s'.now && |s'.log| == |s.log| + 1 && s'.log[..|s.log|] == s.log
    && (forall k: Key :: k.Location? && k.user != user ==>
          (k in s'.kv <==> k in s.kv) && (k in s.kv ==> s'.kv[k] == s.kv[k]))
    && (AboutLocation(s'.log[|s.log|], user)
          || (s'.log[|s.log|].LocationAnswered? && s'.log[|s.log|].user == user))
  }

  lemma HereKeeps(s: State, s': State, user: string)
    requires LocationInv(s) && Here(s, s', user) && Stored(s', user)
    requires var f := s'.log[|s.log|]; f.LocationAnswered? ==> f.found == Expected(s.log, |s.log|, f.user, f.at)
    ensures LocationInv(s')
  {
    AnswersKept(s, s');
    forall u
      ensures Stored(s', u)
    {
      if u != user {
        assert Stored(s, u);
        UntouchedStored(s, s', u);
      }
    }
  }

  lemma WriteKeeps(s: State, a: Action)
    requires LocationInv(s) && LocationEnabled(s, a) && a.what.LocationWrite?
    ensures LocationInv(Apply(s, a, LocationEffect(s, a)))
  {
    HereKeeps(s, Apply(s, a, LocationEffect(s, a)), s.threads[a.tid].user);
  }

  lemma DropKeeps(s: State, a: Action)
    requires LocationInv(s) && CloseEnabled(s, a) && a.what.CloseLocation?
    ensures LocationInv(Apply(s, a, CloseEffect(s, a)))
  {
    HereKeeps(s, Apply(s, a, CloseEffect(s, a)), s.threads[a.tid].user);
  }

  lemma ReadKeeps(s: State, a: Action)
    requires LocationInv(s) && LocationEnabled(s, a) && a.what.LocationRead?
    ensures LocationInv(Apply(s, a, LocationEffect(s, a)))
  {
    var s', user := Apply(s, a, LocationEffect(s, a)), s.threads[a.tid].user;
    assert Stored(s, user);
    UntouchedStored(s, s', user);
    HereKeeps(s, s', user);
  }

  lemma LocationKept(cfg: Config, s: State, a: Action)
    requires LocationInv(s) && Enabled(cfg, s, a)
    ensures LocationInv(Next(cfg, s, a))
  {
    if a.what.LocationRead? {
      ReadKeeps(s, a);
    } else if a.what.LocationWrite? {
      WriteKeeps(s, a);
    } else if a.what.CloseLocation? {
      DropKeeps(s, a);
    } else {
      StepFramed(cfg, s, a);
      FramedElsewhere(s, Next(cfg, s, a), a);
      ElsewhereKeeps(s, Next(cfg, s, a));
    }
  }

  lemma {:induction false} LocationAlways(cfg: Config, ss: seq<State>, acts: seq<Action>, n: nat)
    requires IsRun(cfg, ss, acts) && n < |ss|
    ensures LocationInv(ss[n])
  {
    if n > 0 {
      LocationAlways(cfg, ss, acts, n - 1);
      LocationKept(cfg, ss[n - 1], acts[n - 1]);
    }
  }

  // Every reader, MCP agents included, is told exactly the last location written for
  // the user before the read, if it is no older than twenty-four hours and DeleteAccount
  // has not dropped it since, and nothing otherwise. The drop is not the removal of the
  // user row, which comes later: see Remnants.
  lemma LocationAnswersExact(cfg: Config, ss: seq<State>, acts: seq<Action>, n: nat, i: nat)
    requires IsRun(cfg, ss, acts) && n < |ss| && i < |ss[n].log| && ss[n].log[i].LocationAnswered?
    ensures var f := ss[n].log[i]; f.found == Expected(ss[n].log, i, f.user, f.at)
  {
    LocationAlways(cfg, ss, acts, n);
  }
}
