/** The three cached lookups of the server as instances of the general cache-aside
    discipline: credentials, webhooks and gateway destinations. */
module Staleness {
  import opened Wrappers
  import opened TimedStore
  import opened Keys
  import opened Database
  import opened Codecs
  import opened Server
  import opened Frames
  import opened Accounts
  import CA = CacheAside

  predicate CacheKey(k: Key) {
    k.Auth? || k.Webhook? || k.OpenClaw?
  }

  predicate Fetched(pc: Pc) {
    pc.AuthFetched? || pc.HookFetched? || pc.DestFetched?
  }

  predicate SoundHook(hook: Option<Hook>) {
    hook.Some? ==> hook.value.url != "" && NewlineFree(hook.value.url)
  }

  // Cached entries have deadlines, and what readers carry can be cached faithfully.
  ghost predicate CacheInv(s: State) {
    && TablesInv(s)
    && (forall k :: k in s.kv && CacheKey(k) ==> s.kv[k].deadline.Some?)
    && (forall t :: t in s.threads && s.threads[t].AuthFetched? ==>
          s.threads[t].row.user != "" && IsKind(s.threads[t].row.kind))
    && (forall t :: t in s.threads && s.threads[t].HookFetched? ==> SoundHook(s.threads[t].hook))
  }

  function Entry<V>(s: State, k: Key, value: Option<Option<V>>): Option<CA.Cached<V>> {
    if k in s.kv && s.kv[k].deadline.Some? && value.Some?
    then Some(CA.Cached(value.value, s.kv[k].deadline.value))
    else None
  }

  function Text(s: State, k: Key): string {
    if k in s.kv then s.kv[k].value else ""
  }

  function AuthEntry(s: State, hash: string): Option<CA.Cached<TokenRow>> {
    var row := ParseAuth(Text(s, Auth(hash)));
    Entry(s, Auth(hash), if row.Some? then Some(row) else None)
  }

  function HookEntry(s: State, user: string): Option<CA.Cached<Hook>> {
    Entry(s, Webhook(user), ParseHook(Text(s, Webhook(user))))
  }

  function DestEntry(json: Json, s: State, user: string): Option<CA.Cached<Dest>> {
    Entry(s, OpenClaw(user), ParseDest(json, Text(s, OpenClaw(user))))
  }

  function AuthPending(s: State, t: nat): Option<CA.Pending<TokenRow>> {
    if t in s.threads && s.threads[t].AuthFetched?
    then Some(CA.Pending(s.threads[t].hash, Some(s.threads[t].row), s.threads[t].readAt)) else None
  }

  function HookPending(s: State, t: nat): Option<CA.Pending<Hook>> {
    if t in s.threads && s.threads[t].HookFetched?
    then Some(CA.Pending(s.threads[t].user, s.threads[t].hook, s.threads[t].readAt)) else None
  }

  function DestPending(s: State, t: nat): Option<CA.Pending<Dest>> {
    if t in s.threads && s.threads[t].DestFetched?
    then Some(CA.Pending(s.threads[t].user, s.threads[t].dest, s.threads[t].readAt)) else None
  }

  function AuthView(s: State): CA.View<TokenRow> {
    CA.View(s.now, s.db.tokens, hash => AuthEntry(s, hash), t => AuthPending(s, t))
  }

  function HookView(s: State): CA.View<Hook> {
    CA.View(s.now, s.db.hooks, user => HookEntry(s, user), t => HookPending(s, t))
  }

  function DestView(json: Json, s: State): CA.View<Dest> {
    CA.View(s.now, s.db.dests, user => DestEntry(json, s, user), t => DestPending(s, t))
  }

  ghost predicate AllDisciplined(cfg: Config, s: State, s': State) {
    && CA.Disciplined(CACHE_TTL, cfg.delay, AuthView(s), AuthView(s'))
    && CA.Disciplined(CACHE_TTL, cfg.delay, HookView(s), HookView(s'))
    && CA.Disciplined(CACHE_TTL, cfg.delay, DestView(cfg.json, s), DestView(cfg.json, s'))
  }

  // No cache entry is made and no table is read for one.
  ghost predicate Calm(s: State, s': State) {
    && s.now <= s'.now
    && (forall k :: k in s'.kv && CacheKey(k) ==> k in s.kv && s'.kv[k] == s.kv[k])
    && (forall t :: t in s'.threads && Fetched(s'.threads[t]) ==> t in s.threads && s'.threads[t] == s.threads[t])
  }

  lemma AuthCalm(ttl: int, delay: int, s: State, s': State)
    requires s.now <= s'.now
    requires forall k :: k in s'.kv && k.Auth? ==> k in s.kv && s'.kv[k] == s.kv[k]
    requires forall t :: t in s'.threads && s'.threads[t].AuthFetched? ==>
               t in s.threads && s'.threads[t] == s.threads[t]
    ensures CA.Disciplined(ttl, delay, AuthView(s), AuthView(s'))
  {
    assert forall hash :: Auth(hash) in s'.kv ==> Auth(hash) in s.kv && s'.kv[Auth(hash)] == s.kv[Auth(hash)];
  }

  lemma HookCalm(ttl: int, delay: int, s: State, s': State)
    requires s.now <= s'.now
    requires forall k :: k in s'.kv && k.Webhook? ==> k in s.kv && s'.kv[k] == s.kv[k]
    requires forall t :: t in s'.threads && s'.threads[t].HookFetched? ==>
               t in s.threads && s'.threads[t] == s.threads[t]
    ensures CA.Disciplined(ttl, delay, HookView(s), HookView(s'))
  {
    assert forall user :: Webhook(user) in s'.kv ==>
        Webhook(user) in s.kv && s'.kv[Webhook(user)] == s.kv[Webhook(user)];
  }

  lemma DestCalm(ttl: int, delay: int, json: Json, s: State, s': State)
    requires s.now <= s'.now
    requires forall k :: k in s'.kv && k.OpenClaw? ==> k in s.kv && s'.kv[k] == s.kv[k]
    requires forall t :: t in s'.threads && s'.threads[t].DestFetched? ==>
               t in s.threads && s'.threads[t] == s.threads[t]
    ensures CA.Disciplined(ttl, delay, DestView(json, s), DestView(json, s'))
  {
    assert forall user :: OpenClaw(user) in s'.kv ==>
        OpenClaw(user) in s.kv && s'.kv[OpenClaw(user)] == s.kv[OpenClaw(user)];
  }

  lemma CalmDisciplined(cfg: Config, s: State, s': State)
    requires CacheInv(s) && TablesInv(s') && Calm(s, s')
    ensures CacheInv(s') && AllDisciplined(cfg, s, s')
  {
    AuthCalm(CACHE_TTL, cfg.delay, s, s');
    HookCalm(CACHE_TTL, cfg.delay, s, s');
    DestCalm(CACHE_TTL, cfg.delay, cfg.json, s, s');
  }

  predicate Reads(w: What) { w.AuthRead? || w.HookRead? || w.DestRead? }
  predicate Fills(w: What) { w.AuthFill? || w.HookFill? || w.DestFill? }

  lemma FramedCalm(s: State, s': State, a: Action)
    requires Framed(s, s', a) && !Reads(a.what) && !Fills(a.what)
    ensures Calm(s, s')
  {
  }

  // A read gives the reader what the table holds at this instant, and does nothing else.
  ghost predicate Fetches(s: State, s': State, tid: nat) {
    && s.now <= s'.now && s'.kv == s.kv && s'.db == s.db
    && (forall t :: t in s'.threads && t != tid ==> t in s.threads && s'.threads[t] == s.threads[t])
    && (tid in s'.threads ==>
          var pc := s'.threads[tid];
          && (pc.AuthFetched? ==> pc.readAt == s'.now && Lookup(s'.db.tokens, pc.hash) == Some(pc.row))
          && (pc.HookFetched? ==> pc.readAt == s'.now && Lookup(s'.db.hooks, pc.user) == pc.hook)
          && (pc.DestFetched? ==> pc.readAt == s'.now && Lookup(s'.db.dests, pc.user) == pc.dest))
  }

  lemma AuthReadFetches(cfg: Config, s: State, a: Action)
    requires AuthEnabled(cfg, s, a) && a.what.AuthRead?
    ensures Fetches(s, Apply(s, a, AuthEffect(cfg, s, a)), a.tid)
  {
  }

  lemma HookReadFetches(cfg: Config, s: State, a: Action)
    requires HookEnabled(cfg, s, a) && a.what.HookRead?
    ensures Fetches(s, Apply(s, a, HookEffect(cfg, s, a)), a.tid)
  {
  }

  lemma DestReadFetches(cfg: Config, s: State, a: Action)
    requires DestEnabled(cfg, s, a) && a.what.DestRead?
    ensures Fetches(s, Apply(s, a, DestEffect(cfg, s, a)), a.tid)
  {
  }

  lemma FetchAuth(ttl: int, delay: int, s: State, s': State, tid: nat)
    requires Fetches(s, s', tid)
    ensures CA.Disciplined(ttl, delay, AuthView(s), AuthView(s'))
  {
    assert forall hash :: AuthEntry(s', hash) == AuthEntry(s, hash);
  }

  lemma FetchHook(ttl: int, delay: int, s: State, s': State, tid: nat)
    requires Fetches(s, s', tid)
    ensures CA.Disciplined(ttl, delay, HookView(s), HookView(s'))
  {
    assert forall user :: HookEntry(s', user) == HookEntry(s, user);
  }

  lemma FetchDest(ttl: int, delay: int, json: Json, s: State, s': State, tid: nat)
    requires Fetches(s, s', tid)
    ensures CA.Disciplined(ttl, delay, DestView(json, s), DestView(json, s'))
  {
    assert forall user :: DestEntry(json, s', user) == DestEntry(json, s, user);
  }

  lemma FetchCarries(s: State, s': State, tid: nat)
    requires CacheInv(s) && Fetches(s, s', tid)
    ensures CacheInv(s')
  {
  }

  lemma ReadDisciplined(cfg: Config, s: State, a: Action)
    requires CacheInv(s) && Enabled(cfg, s, a) && Reads(a.what)
    ensures CacheInv(Next(cfg, s, a)) && AllDisciplined(cfg, s, Next(cfg, s, a))
  {
    var s' := Next(cfg, s, a);
    if a.what.AuthRead? {
      AuthReadFetches(cfg, s, a);
    } else if a.what.HookRead? {
      HookReadFetches(cfg, s, a);
    } else {
      DestReadFetches(cfg, s, a);
    }
    FetchAuth(CACHE_TTL, cfg.delay, s, s', a.tid);
    FetchHook(CACHE_TTL, cfg.delay, s, s', a.tid);
    FetchDest(CACHE_TTL, cfg.delay, cfg.json, s, s', a.tid);
    FetchCarries(s, s', a.tid);
  }

  lemma HookReadsBack(hook: Option<Hook>)
    requires SoundHook(hook)
    ensures ParseHook(HookText(hook)) == Some(hook)
  {
    if hook.Some? {
      HookRoundTrip(hook.value);
    }
  }

  // A fill stores, for five minutes, a text that reads back as what was fetched.
  lemma AuthFilled(cfg: Config, s: State, a: Action)
    requires CacheInv(s) && AuthEnabled(cfg, s, a) && a.what.AuthFill?
    ensures CA.Disciplined(CACHE_TTL, cfg.delay, AuthView(s), AuthView(Apply(s, a, AuthEffect(cfg, s, a))))
  {
    var s', pc := Apply(s, a, AuthEffect(cfg, s, a)), s.threads[a.tid];
    KindsColonFree(pc.row);
    AuthStored(cfg.delay, s, s', a.tid, AuthText(pc.row));
  }

  lemma AuthStored(delay: int, s: State, s': State, tid: nat, text: string)
    requires tid in s.threads && s.threads[tid].AuthFetched? && ParseAuth(text) == Some(s.threads[tid].row)
    requires s.now <= s'.now && s'.now - s.threads[tid].readAt <= delay
    requires s'.kv == s.kv[Auth(s.threads[tid].hash) := Binding(text, Some(s'.now + CACHE_TTL))]
    requires forall t :: t in s'.threads && s'.threads[t].AuthFetched? ==>
               t in s.threads && s'.threads[t] == s.threads[t]
    ensures CA.Disciplined(CACHE_TTL, delay, AuthView(s), AuthView(s'))
  {
    var pc := s.threads[tid];
    assert CA.FilledBy(CACHE_TTL, delay, AuthView(s), AuthView(s'), pc.hash, tid);
    assert forall hash :: hash != pc.hash ==> AuthEntry(s', hash) == AuthEntry(s, hash);
  }

  lemma HookFilled(cfg: Config, s: State, a: Action)
    requires CacheInv(s) && HookEnabled(cfg, s, a) && a.what.HookFill?
    ensures CA.Disciplined(CACHE_TTL, cfg.delay, HookView(s), HookView(Apply(s, a, HookEffect(cfg, s, a))))
  {
    var s', pc := Apply(s, a, HookEffect(cfg, s, a)), s.threads[a.tid];
    HookReadsBack(pc.hook);
    HookStored(cfg.delay, s, s', a.tid, HookText(pc.hook));
  }

  lemma HookStored(delay: int, s: State, s': State, tid: nat, text: string)
    requires tid in s.threads && s.threads[tid].HookFetched? && ParseHook(text) == Some(s.threads[tid].hook)
    requires s.now <= s'.now && s'.now - s.threads[tid].readAt <= delay
    requires s'.kv == s.kv[Webhook(s.threads[tid].user) := Binding(text, Some(s'.now + CACHE_TTL))]
    requires forall t :: t in s'.threads && s'.threads[t].HookFetched? ==>
               t in s.threads && s'.threads[t] == s.threads[t]
    ensures CA.Disciplined(CACHE_TTL, delay, HookView(s), HookView(s'))
  {
    var pc := s.threads[tid];
    assert CA.FilledBy(CACHE_TTL, delay, HookView(s), HookView(s'), pc.user, tid);
    assert forall user :: user != pc.user ==> HookEntry(s', user) == HookEntry(s, user);
  }

  lemma DestFilled(cfg: Config, s: State, a: Action)
    requires CacheInv(s) && Faithful(cfg.json) && DestEnabled(cfg, s, a) && a.what.DestFill?
    ensures CA.Disciplined(
              CACHE_TTL, cfg.delay, DestView(cfg.json, s), DestView(cfg.json, Apply(s, a, DestEffect(cfg, s, a))))
  {
    var s', pc := Apply(s, a, DestEffect(cfg, s, a)), s.threads[a.tid];
    DestRoundTrip(cfg.json, pc.dest);
    DestStored(cfg.delay, cfg.json, s, s', a.tid, DestText(cfg.json, pc.dest));
  }

  lemma DestStored(delay: int, json: Json, s: State, s': State, tid: nat, text: string)
    requires tid in s.threads && s.threads[tid].DestFetched? && ParseDest(json, text) == Some(s.threads[tid].dest)
    requires s.now <= s'.now && s'.now - s.threads[tid].readAt <= delay
    requires s'.kv == s.kv[OpenClaw(s.threads[tid].user) := Binding(text, Some(s'.now + CACHE_TTL))]
    requires forall t :: t in s'.threads && s'.threads[t].DestFetched? ==>
               t in s.threads && s'.threads[t] == s.threads[t]
    ensures CA.Disciplined(CACHE_TTL, delay, DestView(json, s), DestView(json, s'))
  {
    var pc := s.threads[tid];
    assert CA.FilledBy(CACHE_TTL, delay, DestView(json, s), DestView(json, s'), pc.user, tid);
    assert forall user :: user != pc.user ==> DestEntry(json, s', user) == DestEntry(json, s, user);
  }

  // What a fill leaves alone: the other two caches, the tables, and every reader but
  // the one that is done.
  ghost predicate FillsOnly(w: What, s: State, s': State) {
    && s.now <= s'.now && s'.db == s.db
    && (forall t :: t in s'.threads && Fetched(s'.threads[t]) ==> t in s.threads && s'.threads[t] == s.threads[t])
    && (forall k :: k in s'.kv && CacheKey(k) && !Writes(w, k) ==> k in s.kv && s'.kv[k] == s.kv[k])
    && (forall k :: k in s'.kv && CacheKey(k) && Writes(w, k) ==> s'.kv[k].deadline.Some?)
  }

  lemma AuthFillsOnly(cfg: Config, s: State, a: Action)
    requires CacheInv(s) && AuthEnabled(cfg, s, a) && a.what.AuthFill?
    ensures FillsOnly(a.what, s, Apply(s, a, AuthEffect(cfg, s, a)))
  {
  }

  lemma HookFillsOnly(cfg: Config, s: State, a: Action)
    requires CacheInv(s) && HookEnabled(cfg, s, a) && a.what.HookFill?
    ensures FillsOnly(a.what, s, Apply(s, a, HookEffect(cfg, s, a)))
  {
  }

  lemma DestFillsOnly(cfg: Config, s: State, a: Action)
    requires CacheInv(s) && DestEnabled(cfg, s, a) && a.what.DestFill?
    ensures FillsOnly(a.what, s, Apply(s, a, DestEffect(cfg, s, a)))
  {
  }

  lemma FillFrame(cfg: Config, s: State, s': State, w: What)
    requires CacheInv(s) && Fills(w) && FillsOnly(w, s, s')
    ensures CacheInv(s')
    ensures w.AuthFill? || CA.Disciplined(CACHE_TTL, cfg.delay, AuthView(s), AuthView(s'))
    ensures w.HookFill? || CA.Disciplined(CACHE_TTL, cfg.delay, HookView(s), HookView(s'))
    ensures w.DestFill? || CA.Disciplined(CACHE_TTL, cfg.delay, DestView(cfg.json, s), DestView(cfg.json, s'))
  {
    if !w.AuthFill? {
      AuthCalm(CACHE_TTL, cfg.delay, s, s');
    }
    if !w.HookFill? {
      HookCalm(CACHE_TTL, cfg.delay, s, s');
    }
    if !w.DestFill? {
      DestCalm(CACHE_TTL, cfg.delay, cfg.json, s, s');
    }
  }

  lemma FillDisciplined(cfg: Config, s: State, a: Action)
    requires CacheInv(s) && Faithful(cfg.json) && Enabled(cfg, s, a) && Fills(a.what)
    ensures CacheInv(Next(cfg, s, a)) && AllDisciplined(cfg, s, Next(cfg, s, a))
  {
    if a.what.AuthFill? {
      AuthFilled(cfg, s, a);
      AuthFillsOnly(cfg, s, a);
    } else if a.what.HookFill? {
      HookFilled(cfg, s, a);
      HookFillsOnly(cfg, s, a);
    } else {
      DestFilled(cfg, s, a);
      DestFillsOnly(cfg, s, a);
    }
    FillFrame(cfg, s, Next(cfg, s, a), a.what);
  }

  // Every step of the server follows the discipline in all three of its caches.
  lemma StepDisciplined(cfg: Config, s: State, a: Action)
    requires CacheInv(s) && Faithful(cfg.json) && Enabled(cfg, s, a)
    ensures CacheInv(Next(cfg, s, a)) && AllDisciplined(cfg, s, Next(cfg, s, a))
  {
    if Reads(a.what) {
      ReadDisciplined(cfg, s, a);
    } else if Fills(a.what) {
      FillDisciplined(cfg, s, a);
    } else {
      TablesKept(cfg, s, a);
      StepFramed(cfg, s, a);
      FramedCalm(s, Next(cfg, s, a), a);
      CalmDisciplined(cfg, s, Next(cfg, s, a));
    }
  }
}
