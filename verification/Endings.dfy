/** No request of the overlapping server gets stuck: by its own steps alone it can run to
    its end, unless it is a reader that took longer than `delay`. So a server that takes
    its requests one at a time always comes to rest again, after a rotation as after any
    other request, and then a rotated credential is gone from the cache. */
module Endings {
  import opened Wrappers
  import opened TimedStore
  import opened Keys
  import opened Database
  import opened Server
  import opened Coherence
  import opened Remnants
  import opened Serial

  predicate Own(tid: nat, a: Action) {
    a.tid == tid && !a.what.Background? && !Starts(a.what)
  }

  // The request runs from the one state to the other, nothing else happening.
  ghost predicate RunsTo(cfg: Config, tid: nat, s: State, s': State) {
    exists ss, acts :: OwnSteps(cfg, tid, ss, acts) && ss[0] == s && ss[|acts|] == s'
  }

  ghost predicate OwnSteps(cfg: Config, tid: nat, ss: seq<State>, acts: seq<Action>) {
    Continues(cfg, ss, acts) && forall i :: 0 <= i < |acts| ==> Own(tid, acts[i])
  }

  lemma StaysPut(cfg: Config, tid: nat, s: State)
    ensures RunsTo(cfg, tid, s, s)
  {
    var ss, acts: seq<Action> := [s], [];
    assert OwnSteps(cfg, tid, ss, acts) && ss[0] == s && ss[|acts|] == s;
  }

  lemma RunsOn(cfg: Config, s: State, a: Action, s': State)
    requires Enabled(cfg, s, a) && Own(a.tid, a) && RunsTo(cfg, a.tid, Next(cfg, s, a), s')
    ensures RunsTo(cfg, a.tid, s, s')
  {
    var ss, acts :| OwnSteps(cfg, a.tid, ss, acts) && ss[0] == Next(cfg, s, a) && ss[|acts|] == s';
    ContinuesFrom(cfg, s, a, ss, acts);
    var longer, more := [s] + ss, [a] + acts;
    assert OwnSteps(cfg, a.tid, longer, more);
    assert longer[0] == s && longer[|more|] == s';
  }

  // --- The next step of each request ---

  // A reader that took longer than `delay`.
  predicate Late(cfg: Config, now: int, pc: Pc) {
    (pc.AuthFetched? || pc.HookFetched? || pc.DestFetched?) && now - pc.readAt > cfg.delay
  }

  // How many stages a request may still have before it, and what is left of this one.
  function Stage(pc: Pc): nat {
    match pc
    case Registering(_, _) => 5
    case Linking(_, _, _) => 4
    case Rotating(_, _) => 3
    case Closing(_, _) => 3
    case Selected(_, _, _) => 2
    case ClosingHook(_) => 2
    case AuthMissed(_) => 2
    case HookMissed(_) => 2
    case DestMissed(_) => 2
    case Dropping(_) => 1
    case ClosingDest(_) => 1
    case AuthFetched(_, _, _) => 1
    case HookFetched(_, _, _) => 1
    case DestFetched(_, _, _) => 1
    case _ => 0
  }

  function Stale(pc: Pc): set<string> {
    if pc.Dropping? || pc.Closing? then pc.stale else {}
  }

  predicate Nearer(cfg: Config, now: int, pc: Pc, next: Option<Pc>) {
    next.Some? ==>
      && !Late(cfg, now, next.value)
      && (Stage(next.value) < Stage(pc) || (Stage(next.value) == Stage(pc) && Stale(next.value) < Stale(pc)))
  }

  lemma AuthGoesOn(cfg: Config, s: State, tid: nat) returns (a: Action)
    requires tid in s.threads && (s.threads[tid].AuthMissed? || s.threads[tid].AuthFetched?)
    requires !Late(cfg, s.now, s.threads[tid])
    ensures AuthEnabled(cfg, s, a) && Own(tid, a) && a.at == s.now
    ensures Nearer(cfg, s.now, s.threads[tid], AuthEffect(cfg, s, a).pc)
  {
    a := Action(tid, s.now, if s.threads[tid].AuthMissed? then AuthRead else AuthFill);
  }

  lemma HookGoesOn(cfg: Config, s: State, tid: nat) returns (a: Action)
    requires tid in s.threads && !Late(cfg, s.now, s.threads[tid])
    requires s.threads[tid].HookMissed? || s.threads[tid].HookFetched? || s.threads[tid].HookWritten?
    ensures HookEnabled(cfg, s, a) && Own(tid, a) && a.at == s.now
    ensures Nearer(cfg, s.now, s.threads[tid], HookEffect(cfg, s, a).pc)
  {
    var pc := s.threads[tid];
    a := Action(tid, s.now, if pc.HookMissed? then HookRead else if pc.HookFetched? then HookFill else HookDrop);
  }

  lemma DestGoesOn(cfg: Config, s: State, tid: nat) returns (a: Action)
    requires tid in s.threads && !Late(cfg, s.now, s.threads[tid])
    requires s.threads[tid].DestMissed? || s.threads[tid].DestFetched? || s.threads[tid].DestWritten?
    ensures DestEnabled(cfg, s, a) && Own(tid, a) && a.at == s.now
    ensures Nearer(cfg, s.now, s.threads[tid], DestEffect(cfg, s, a).pc)
  {
    var pc := s.threads[tid];
    a := Action(tid, s.now, if pc.DestMissed? then DestRead else if pc.DestFetched? then DestFill else DestDrop);
  }

  lemma RotationGoesOn(cfg: Config, s: State, tid: nat) returns (a: Action)
    requires tid in s.threads && (s.threads[tid].Rotating? || s.threads[tid].Selected?
                                  || (s.threads[tid].Dropping? && s.threads[tid].stale != {}))
    ensures RotateEnabled(s, a) && Own(tid, a) && a.at == s.now
    ensures Nearer(cfg, s.now, s.threads[tid], RotateEffect(s, a).pc)
  {
    var pc := s.threads[tid];
    if pc.Dropping? {
      var hash :| hash in pc.stale;
      a := Action(tid, s.now, RotateDrop(hash));
    } else {
      a := Action(tid, s.now, if pc.Rotating? then RotateSelect else RotateCommit(""));
    }
  }

  lemma DeletionGoesOn(cfg: Config, s: State, tid: nat) returns (a: Action)
    requires tid in s.threads && (s.threads[tid].Closing? || s.threads[tid].ClosingHook? || s.threads[tid].ClosingDest?
                                  || s.threads[tid].ClosingLocation?)
    ensures CloseEnabled(s, a) && Own(tid, a) && a.at == s.now
    ensures Nearer(cfg, s.now, s.threads[tid], CloseEffect(s, a).pc)
  {
    var pc := s.threads[tid];
    if pc.Closing? && pc.stale != {} {
      var hash :| hash in pc.stale;
      a := Action(tid, s.now, CloseDrop(hash));
    } else {
      a := Action(tid, s.now, if pc.Closing? then CloseHook else if pc.ClosingHook? then CloseDest
                              else if pc.ClosingDest? then CloseLocation else CloseRow);
    }
  }

  lemma GrantGoesOn(cfg: Config, s: State, tid: nat) returns (a: Action)
    requires tid in s.threads && s.threads[tid].Granting?
    ensures CodeEnabled(cfg, s, a) && Own(tid, a) && a.at == s.now && CodeEffect(cfg, s, a).pc.None?
  {
    a := Action(tid, s.now, GrantStore(""));
  }

  lemma {:induction false} LongestId(ids: set<string>) returns (n: nat)
    ensures forall id :: id in ids ==> |id| <= n
  {
    if ids == {} {
      n := 0;
    } else {
      var id :| id in ids;
      var m := LongestId(ids - {id});
      n := if |id| > m then |id| else m;
      assert forall x :: x in ids ==> x == id || x in ids - {id};
    }
  }

  lemma SocialGoesOn(cfg: Config, s: State, tid: nat) returns (a: Action)
    requires tid in s.threads && (s.threads[tid].Registering? || s.threads[tid].Linking?)
    ensures SocialEnabled(s, a) && Own(tid, a) && a.at == s.now
    ensures Nearer(cfg, s.now, s.threads[tid], SocialEffect(s, a).pc)
  {
    if s.threads[tid].Registering? {
      var n := LongestId(s.ids);
      var suffix := seq(n, i => 'x');
      assert |UserId(suffix)| > n;
      a := Action(tid, s.now, SocialInsert(suffix));
    } else {
      a := Action(tid, s.now, SocialBind);
    }
  }

  lemma LookupGoesOn(cfg: Config, s: State, tid: nat) returns (a: Action)
    requires tid in s.threads && !Late(cfg, s.now, s.threads[tid]) && IsLookup(s.threads[tid])
    ensures Enabled(cfg, s, a) && Own(tid, a) && a.at == s.now
    ensures Nearer(cfg, s.now, s.threads[tid], EffectOf(cfg, s, a).pc)
  {
    var pc := s.threads[tid];
    if pc.AuthMissed? || pc.AuthFetched? {
      a := AuthGoesOn(cfg, s, tid);
    } else if pc.HookMissed? || pc.HookFetched? || pc.HookWritten? {
      a := HookGoesOn(cfg, s, tid);
    } else {
      a := DestGoesOn(cfg, s, tid);
    }
  }

  predicate IsLookup(pc: Pc) {
    || pc.AuthMissed? || pc.AuthFetched?
    || pc.HookMissed? || pc.HookFetched? || pc.HookWritten?
    || pc.DestMissed? || pc.DestFetched? || pc.DestWritten?
  }

  predicate IsAccount(pc: Pc) {
    || pc.Rotating? || pc.Selected? || (pc.Dropping? && pc.stale != {})
    || pc.Closing? || pc.ClosingHook? || pc.ClosingDest? || pc.ClosingLocation?
  }

  lemma AccountGoesOn(cfg: Config, s: State, tid: nat) returns (a: Action)
    requires tid in s.threads && IsAccount(s.threads[tid])
    ensures Enabled(cfg, s, a) && Own(tid, a) && a.at == s.now
    ensures Nearer(cfg, s.now, s.threads[tid], EffectOf(cfg, s, a).pc)
  {
    var pc := s.threads[tid];
    if pc.Rotating? || pc.Selected? || pc.Dropping? {
      a := RotationGoesOn(cfg, s, tid);
    } else {
      a := DeletionGoesOn(cfg, s, tid);
    }
  }

  predicate IsOther(pc: Pc) {
    pc.Granting? || pc.Registering? || pc.Linking? || MayFinish(pc)
  }

  // No program point is left out.
  lemma EveryPc(pc: Pc)
    ensures IsLookup(pc) || IsAccount(pc) || IsOther(pc)
  {
    match pc
    case AuthMissed(_) =>
    case AuthFetched(_, _, _) =>
    case Authed(_, _, _) =>
    case Served(_) =>
    case Agent(_) =>
    case HookMissed(_) =>
    case HookFetched(_, _, _) =>
    case HookWritten(_) =>
    case DestMissed(_) =>
    case DestFetched(_, _, _) =>
    case DestWritten(_) =>
    case Rotating(_, _) =>
    case Selected(_, _, _) =>
    case Dropping(_) =>
    case Closing(_, _) =>
    case ClosingHook(_) =>
    case ClosingDest(_) =>
    case ClosingLocation(_) =>
    case Granting(_, _) =>
    case Registering(_, _) =>
    case Linking(_, _, _) =>
  }

  lemma OtherGoesOn(cfg: Config, s: State, tid: nat) returns (a: Action)
    requires tid in s.threads
    requires IsOther(s.threads[tid])
    ensures Enabled(cfg, s, a) && Own(tid, a) && a.at == s.now
    ensures Nearer(cfg, s.now, s.threads[tid], EffectOf(cfg, s, a).pc)
  {
    if s.threads[tid].Granting? {
      a := GrantGoesOn(cfg, s, tid);
    } else if MayFinish(s.threads[tid]) {
      a := Action(tid, s.now, Finish);
    } else {
      a := SocialGoesOn(cfg, s, tid);
    }
  }

  // Every request that is not late has a next step, and the step takes it nearer its end.
  lemma GoesOn(cfg: Config, s: State, tid: nat) returns (a: Action)
    requires tid in s.threads && !Late(cfg, s.now, s.threads[tid])
    ensures Enabled(cfg, s, a) && Own(tid, a) && a.at == s.now
    ensures Nearer(cfg, s.now, s.threads[tid], EffectOf(cfg, s, a).pc)
  {
    if IsLookup(s.threads[tid]) {
      a := LookupGoesOn(cfg, s, tid);
    } else if IsAccount(s.threads[tid]) {
      a := AccountGoesOn(cfg, s, tid);
    } else {
      EveryPc(s.threads[tid]);
      a := OtherGoesOn(cfg, s, tid);
    }
  }

  // From any state, by its own steps alone, a request can run to its end.
  lemma {:induction false} RequestEnds(cfg: Config, s: State, tid: nat) returns (s': State)
    requires tid in s.threads && !Late(cfg, s.now, s.threads[tid])
    ensures RunsTo(cfg, tid, s, s') && s'.threads == s.threads - {tid}
    decreases Stage(s.threads[tid]), Stale(s.threads[tid])
  {
    var a := GoesOn(cfg, s, tid);
    var s1 := Next(cfg, s, a);
    if tid in s1.threads {
      s' := RequestEnds(cfg, s1, tid);
    } else {
      s' := s1;
      StaysPut(cfg, tid, s1);
    }
    RunsOn(cfg, s, a, s');
  }

  // --- A rotation that has committed ---

  // What is left when a rotation has dropped all it selected, nothing else happening.
  function AfterDrops(s: State, tid: nat): State
    requires tid in s.threads && s.threads[tid].Dropping?
  {
    s.(kv := s.kv - AuthKeys(s.threads[tid].stale), threads := s.threads - {tid})
  }

  lemma DropsOne(cfg: Config, s: State, tid: nat, hash: string)
    requires tid in s.threads && s.threads[tid].Dropping? && hash in s.threads[tid].stale
    ensures var a := Action(tid, s.now, RotateDrop(hash));
      && Enabled(cfg, s, a) && Own(tid, a)
      && Next(cfg, s, a) == s.(kv := s.kv - {Auth(hash)},
                               threads := s.threads[tid := Dropping(s.threads[tid].stale - {hash})])
  {
    assert s.ids + {} == s.ids;
  }

  lemma FinishesRotation(cfg: Config, s: State, tid: nat)
    requires tid in s.threads && s.threads[tid] == Dropping({})
    ensures var a := Action(tid, s.now, Finish);
      Enabled(cfg, s, a) && Own(tid, a) && Next(cfg, s, a) == AfterDrops(s, tid)
  {
    assert s.ids + {} == s.ids && s.kv - AuthKeys({}) == s.kv;
  }

  lemma {:induction false} RotationEnds(cfg: Config, s: State, tid: nat)
    requires tid in s.threads && s.threads[tid].Dropping?
    ensures RunsTo(cfg, tid, s, AfterDrops(s, tid))
    decreases s.threads[tid].stale
  {
    var stale := s.threads[tid].stale;
    if stale == {} {
      FinishesRotation(cfg, s, tid);
      StaysPut(cfg, tid, AfterDrops(s, tid));
      RunsOn(cfg, s, Action(tid, s.now, Finish), AfterDrops(s, tid));
    } else {
      var hash :| hash in stale;
      var a := Action(tid, s.now, RotateDrop(hash));
      DropsOne(cfg, s, tid, hash);
      var s1 := Next(cfg, s, a);
      RotationEnds(cfg, s1, tid);
      assert s1.kv - AuthKeys(stale - {hash}) == s.kv - AuthKeys(stale);
      assert AfterDrops(s1, tid) == AfterDrops(s, tid);
      RunsOn(cfg, s, a, AfterDrops(s, tid));
    }
  }

  // --- One request at a time ---

  // The longer run goes on from the shorter one.
  ghost predicate Extends(ss: seq<State>, acts: seq<Action>, ss': seq<State>, acts': seq<Action>) {
    ss <= ss' && acts <= acts'
  }

  lemma SerialGoesOn(cfg: Config, ss: seq<State>, acts: seq<Action>, tid: nat, s': State)
    returns (ss': seq<State>, acts': seq<Action>)
    requires IsRun(cfg, ss, acts) && OneAtATime(ss, acts) && RunsTo(cfg, tid, ss[|acts|], s')
    ensures IsRun(cfg, ss', acts') && OneAtATime(ss', acts') && Extends(ss, acts, ss', acts') && ss'[|acts'|] == s'
  {
    var more, own :| OwnSteps(cfg, tid, more, own) && more[0] == ss[|acts|] && more[|own|] == s';
    ss', acts' := ss + more[1..], acts + own;
    Joined(cfg, ss, acts, more, own);
    forall i | |acts| <= i < |acts'|
      ensures !Starts(acts'[i].what)
    {
      assert acts'[i] == own[i - |acts|];
    }
  }

  lemma Joined(cfg: Config, ss: seq<State>, acts: seq<Action>, more: seq<State>, own: seq<Action>)
    requires IsRun(cfg, ss, acts) && Continues(cfg, more, own) && more[0] == ss[|acts|]
    ensures IsRun(cfg, ss + more[1..], acts + own)
  {
    var ss', acts' := ss + more[1..], acts + own;
    forall i | 0 <= i < |acts'|
      ensures Enabled(cfg, ss'[i], acts'[i]) && ss'[i + 1] == Next(cfg, ss'[i], acts'[i])
    {
      if i >= |acts| {
        var k := i - |acts|;
        assert ss'[i] == more[k] && ss'[i + 1] == more[k + 1] && acts'[i] == own[k];
      }
    }
  }

  // Whatever request is in progress, unless it is a late reader, a server that takes its
  // requests one at a time can come to rest and take the next.
  lemma ComesToRest(cfg: Config, ss: seq<State>, acts: seq<Action>)
    returns (ss': seq<State>, acts': seq<Action>)
    requires IsRun(cfg, ss, acts) && OneAtATime(ss, acts)
    requires var s := ss[|acts|]; forall t :: t in s.threads ==> !Late(cfg, s.now, s.threads[t])
    ensures IsRun(cfg, ss', acts') && OneAtATime(ss', acts') && Extends(ss, acts, ss', acts')
    ensures ss'[|acts'|].threads == map[]
  {
    var s := ss[|acts|];
    var tid := AlwaysAlone(cfg, ss, acts, |acts|);
    if tid in s.threads {
      var s' := RequestEnds(cfg, s, tid);
      ss', acts' := SerialGoesOn(cfg, ss, acts, tid, s');
      assert s'.threads.Keys == {};
    } else {
      ss', acts' := ss, acts;
      assert s.threads.Keys == {};
    }
  }

  // When a rotation has just committed, the server comes to rest with the tables as the
  // rotation left them, and from then on nothing is found cached for a credential that
  // the rotation took away: the next request that presents it misses.
  lemma RotationRevokes(cfg: Config, ss: seq<State>, acts: seq<Action>, hash: string)
    returns (ss': seq<State>, acts': seq<Action>)
    requires IsRun(cfg, ss, acts) && OneAtATime(ss, acts) && acts != []
    requires acts[|acts| - 1].what.RotateCommit?
    requires hash in ss[|acts| - 1].db.tokens && hash !in ss[|acts|].db.tokens
    ensures IsRun(cfg, ss', acts') && OneAtATime(ss', acts') && Extends(ss, acts, ss', acts')
    ensures var s' := ss'[|acts'|];
      && s'.threads == map[] && s'.db == ss[|acts|].db && !Live(s'.kv, Auth(hash), s'.now)
      && forall a: Action :: a.what == AuthGet(hash) && AuthEnabled(cfg, s', a) ==>
           AuthEffect(cfg, s', a).pc == Some(AuthMissed(hash)) && AuthEffect(cfg, s', a).fact.None?
  {
    var n, a := |acts|, acts[|acts| - 1];
    var s := ss[n];
    CommitDrops(cfg, ss[n - 1], a);
    var tid := AlwaysAlone(cfg, ss, acts, n);
    assert a.tid == tid;
    RotationEnds(cfg, s, tid);
    ss', acts' := SerialGoesOn(cfg, ss, acts, tid, AfterDrops(s, tid));
    assert AfterDrops(s, tid).threads.Keys == {};
    CoherentBetweenRequests(cfg, ss', acts', |acts'|);
  }

  lemma CommitDrops(cfg: Config, s: State, a: Action)
    requires Enabled(cfg, s, a) && a.what.RotateCommit? && Next(cfg, s, a).db != s.db
    ensures a.tid in Next(cfg, s, a).threads && Next(cfg, s, a).threads[a.tid].Dropping?
  {
  }
}
