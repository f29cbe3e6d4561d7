/** The one-time codes: phone codes, redeemed by a web login or an OAuth approval,
    and authorization codes, exchanged for an API key (sections 4.1.2 and 4.1.3 of
    RFC 6749). Where every redemption, grant and key comes from. */
module Codes {
  import opened Wrappers
  import opened TimedStore
  import opened Keys
  import opened Codecs
  import opened Server
  import opened Frames

  datatype OneTime = PhoneCode(code: string) | AuthorizationCode(code: string)

  function KeyOf(c: OneTime): Key {
    match c
    case PhoneCode(code) => WebCode(code)
    case AuthorizationCode(code) => OAuthCode(code)
  }

  predicate Opens(f: Fact, c: OneTime) {
    match c
    case PhoneCode(code) => f.Issued? && f.code == code
    case AuthorizationCode(code) => f.Granted? && f.code == code
  }

  predicate Spends(f: Fact, c: OneTime) {
    match c
    case PhoneCode(code) => f.Redeemed? && f.code == code
    case AuthorizationCode(code) => f.Exchanged? && f.code == code
  }

  predicate About(f: Fact, c: OneTime) {
    Opens(f, c) || Spends(f, c)
  }

  predicate IsSpending(f: Fact) {
    f.Redeemed? || f.Exchanged?
  }

  predicate CodeFact(f: Fact) {
    f.Issued? || f.Redeemed? || f.Granted? || f.Exchanged?
  }

  // The code a spending is about.
  function CodeSpent(f: Fact): OneTime
    requires IsSpending(f)
  {
    if f.Redeemed? then PhoneCode(f.code) else AuthorizationCode(f.code)
  }

  // The last of the first n facts that is about the code, or -1. Codes are random and
  // may collide: a later issue of the same code replaces the earlier one.
  function Last(log: seq<Fact>, n: nat, c: OneTime): (p: int)
    requires n <= |log|
    ensures -1 <= p < n && (p >= 0 ==> About(log[p], c))
    ensures forall i :: p < i < n ==> !About(log[i], c)
  {
    if n == 0 then -1 else if About(log[n - 1], c) then n - 1 else Last(log, n - 1, c)
  }

  // What the store holds for a code that was opened by this fact.
  function Held(json: Json, f: Fact): string
    requires f.Issued? || f.Granted?
  {
    if f.Issued? then f.user else json.grantText(f.grant)
  }

  // A spending finds what the opening stored.
  predicate Matches(f: Fact, g: Fact) {
    || (f.Issued? && g.Redeemed? && f.user == g.user)
    || (f.Granted? && g.Exchanged? && f.grant == g.grant)
  }

  // The opening that the spending at position i used up.
  function Source(log: seq<Fact>, i: nat): int
    requires i < |log| && IsSpending(log[i])
  {
    Last(log, i, CodeSpent(log[i]))
  }

  ghost predicate Sourced(log: seq<Fact>, i: nat)
    requires i < |log| && IsSpending(log[i])
  {
    var p, c := Source(log, i), CodeSpent(log[i]);
    p >= 0 && Opens(log[p], c) && Matches(log[p], log[i]) && 0 <= log[i].at - log[p].at <= CODE_TTL
  }

  // A live code is the one last opened, with its text and five minutes from then.
  ghost predicate Current(json: Json, s: State, c: OneTime) {
    Live(s.kv, KeyOf(c), s.now) ==>
      var p := Last(s.log, |s.log|, c);
      p >= 0 && Opens(s.log[p], c) && s.log[p].at <= s.now
      && s.kv[KeyOf(c)] == Binding(Held(json, s.log[p]), Some(s.log[p].at + CODE_TTL))
  }

  ghost predicate CodeInv(json: Json, s: State) {
    && (forall c :: Current(json, s, c))
    && (forall i :: 0 <= i < |s.log| && IsSpending(s.log[i]) ==> Sourced(s.log, i))
  }

  lemma {:induction false} LastPrefix(log: seq<Fact>, longer: seq<Fact>, n: nat, c: OneTime)
    requires n <= |log| <= |longer| && longer[..|log|] == log
    ensures Last(longer, n, c) == Last(log, n, c)
  {
    if n > 0 {
      assert longer[n - 1] == log[n - 1];
      LastPrefix(log, longer, n - 1, c);
    }
  }

  lemma SourcedPrefix(log: seq<Fact>, longer: seq<Fact>, i: nat)
    requires i < |log| <= |longer| && longer[..|log|] == log && IsSpending(log[i]) && Sourced(log, i)
    ensures longer[i] == log[i] && Sourced(longer, i)
  {
    assert longer[i] == log[i];
    LastPrefix(log, longer, i, CodeSpent(log[i]));
    assert longer[Source(log, i)] == log[Source(log, i)];
  }

  // Steps that make no code, spend none, and record nothing about one.
  ghost predicate Quiet(s: State, s': State) {
    && s.now <= s'.now
    && (forall k :: k in s'.kv && (k.WebCode? || k.OAuthCode?) ==> k in s.kv && s'.kv[k] == s.kv[k])
    && Appends(s, s') && (|s'.log| > |s.log| ==> !CodeFact(s'.log[|s.log|]))
  }

  lemma CodeFrame(json: Json, s: State, s': State)
    requires CodeInv(json, s) && Quiet(s, s')
    ensures CodeInv(json, s')
  {
    forall c
      ensures Current(json, s', c)
    {
      assert Current(json, s, c);
      LastPrefix(s.log, s'.log, |s.log|, c);
    }
    forall i | 0 <= i < |s'.log| && IsSpending(s'.log[i])
      ensures Sourced(s'.log, i)
    {
      SourcedPrefix(s.log, s'.log, i);
    }
  }

  lemma FramedQuiet(s: State, s': State, a: Action)
    requires Framed(s, s', a) && !CodeStep(a.what)
    ensures Quiet(s, s')
  {
  }

  // Opening a code: the store and the record change together.
  lemma OpeningKeeps(json: Json, s: State, s': State, c: OneTime, f: Fact)
    requires CodeInv(json, s) && s.now <= s'.now && s'.log == s.log + [f] && Opens(f, c) && f.at == s'.now
    requires s'.kv == s.kv[KeyOf(c) := Binding(Held(json, f), Some(s'.now + CODE_TTL))]
    ensures CodeInv(json, s')
  {
    forall d
      ensures Current(json, s', d)
    {
      LastPrefix(s.log, s'.log, |s.log|, d);
      if d != c {
        assert Current(json, s, d);
      }
    }
    forall i | 0 <= i < |s'.log| && IsSpending(s'.log[i])
      ensures Sourced(s'.log, i)
    {
      SourcedPrefix(s.log, s'.log, i);
    }
  }

  ghost predicate SpendsNow(json: Json, s: State, s': State, c: OneTime, f: Fact) {
    && s.now <= s'.now && s'.log == s.log + [f] && Spends(f, c) && f.at == s'.now
    && s'.kv == s.kv - {KeyOf(c)} && Live(s.kv, KeyOf(c), s'.now)
    && (forall g: Fact | Opens(g, c) :: Held(json, g) == s.kv[KeyOf(c)].value ==> Matches(g, f))
  }

  lemma NewSpendingSourced(json: Json, s: State, s': State, c: OneTime, f: Fact)
    requires CodeInv(json, s) && SpendsNow(json, s, s', c, f)
    ensures IsSpending(s'.log[|s.log|]) && Sourced(s'.log, |s.log|)
  {
    var n := |s.log|;
    assert Current(json, s, c) && Live(s.kv, KeyOf(c), s.now);
    LastPrefix(s.log, s'.log, n, c);
    var p := Last(s.log, n, c);
    assert s'.log[p] == s.log[p] && CodeSpent(f) == c;
  }

  lemma OtherCodesCurrent(json: Json, s: State, s': State, c: OneTime, f: Fact, d: OneTime)
    requires CodeInv(json, s) && SpendsNow(json, s, s', c, f)
    ensures Current(json, s', d)
  {
    LastPrefix(s.log, s'.log, |s.log|, d);
    if d != c {
      assert Current(json, s, d) && KeyOf(d) != KeyOf(c);
    }
  }

  // Spending a code that was live at the reading: it is gone, and the record says from where.
  lemma SpendingKeeps(json: Json, s: State, s': State, c: OneTime, f: Fact)
    requires CodeInv(json, s) && SpendsNow(json, s, s', c, f)
    ensures CodeInv(json, s')
  {
    forall d
      ensures Current(json, s', d)
    {
      OtherCodesCurrent(json, s, s', c, f, d);
    }
    forall i | 0 <= i < |s'.log| && IsSpending(s'.log[i])
      ensures Sourced(s'.log, i)
    {
      if i < |s.log| {
        SourcedPrefix(s.log, s'.log, i);
      } else {
        NewSpendingSourced(json, s, s', c, f);
      }
    }
  }

  lemma OpenStepKeeps(cfg: Config, s: State, a: Action)
    requires CodeInv(cfg.json, s) && CodeEnabled(cfg, s, a) && (a.what.CodeIssue? || a.what.GrantStore?)
    ensures CodeInv(cfg.json, Apply(s, a, CodeEffect(cfg, s, a)))
  {
    var e := CodeEffect(cfg, s, a);
    var c := if a.what.CodeIssue? then PhoneCode(a.what.code) else AuthorizationCode(a.what.code);
    OpeningKeeps(cfg.json, s, Apply(s, a, e), c, e.fact.value);
  }

  lemma RedeemKeeps(cfg: Config, s: State, a: Action)
    requires CodeInv(cfg.json, s) && CodeEnabled(cfg, s, a) && (a.what.CodeLogin? || a.what.CodeAuthorize?)
    ensures CodeInv(cfg.json, Apply(s, a, CodeEffect(cfg, s, a)))
  {
    var e := CodeEffect(cfg, s, a);
    if e.fact.Some? {
      SpendingKeeps(cfg.json, s, Apply(s, a, e), PhoneCode(a.what.code), e.fact.value);
    } else {
      CodeFrame(cfg.json, s, Apply(s, a, e));
    }
  }

  lemma ExchangeKeeps(cfg: Config, s: State, a: Action)
    requires CodeInv(cfg.json, s) && Faithful(cfg.json) && CodeEnabled(cfg, s, a) && a.what.CodeExchange?
    ensures CodeInv(cfg.json, Apply(s, a, CodeEffect(cfg, s, a)))
  {
    var e := CodeEffect(cfg, s, a);
    if e.fact.Some? {
      SpendingKeeps(cfg.json, s, Apply(s, a, e), AuthorizationCode(a.what.code), e.fact.value);
    } else {
      CodeFrame(cfg.json, s, Apply(s, a, e));
    }
  }

  lemma CodeKept(cfg: Config, s: State, a: Action)
    requires CodeInv(cfg.json, s) && Faithful(cfg.json) && Enabled(cfg, s, a)
    ensures CodeInv(cfg.json, Next(cfg, s, a))
  {
    var w := a.what;
    if w.CodeIssue? || w.GrantStore? {
      OpenStepKeeps(cfg, s, a);
    } else if w.CodeLogin? || w.CodeAuthorize? {
      RedeemKeeps(cfg, s, a);
    } else if w.CodeExchange? {
      ExchangeKeeps(cfg, s, a);
    } else {
      StepFramed(cfg, s, a);
      FramedQuiet(s, Next(cfg, s, a), a);
      CodeFrame(cfg.json, s, Next(cfg, s, a));
    }
  }

  lemma {:induction false} CodeAlways(cfg: Config, ss: seq<State>, acts: seq<Action>, n: nat)
    requires IsRun(cfg, ss, acts) && n < |ss|
    ensures CodeInv(cfg.json, ss[n])
  {
    if n > 0 {
      CodeAlways(cfg, ss, acts, n - 1);
      CodeKept(cfg, ss[n - 1], acts[n - 1]);
    }
  }
}
