# PingClaw server: a Dafny model of its state machine

PingClaw keeps durable rows in SQL (users, identities, token hashes, webhooks, gateway destinations)
and everything short-lived in one string-keyed store with deadlines (locations, one-time codes, rate
counters, cached copies of rows). This project models the handlers that move data between the two and
proves what they keep, one request after another and under every interleaving.

## How it is laid out

| layer | files |
|---|---|
| timed store: specification, the mutable store, the key builders, the typed view the handlers use | `TimedStore`, `MemStore`, `Keys`, `KeyedStore`, `Decimal`, `Text` |
| fixed-window limiter: one call, then any number of overlapping calls | `Limiter`, `LimiterRuns` |
| tables and cached values | `Database`, `Codecs` |
| one request at a time: the server without caches, the relation to the server with caches, the imperative handlers | `Reference`, `Coherence`, `Handler` |
| what clients are promised, turn by turn of any conversation, in terms of the earlier requests and responses alone | `History`, `Laws` |
| overlapping requests: every handler split at its store operations and SQL statements, and what a step can touch | `Server`, `Frames` |
| what every overlapping run keeps | `CacheAside`, `Staleness`, `Bounds`, `Revocation`, `Rotations`, `Remnants`, `Accounts`, `Codes`, `Provenance`, `Privileges`, `Locations` |
| the same machine with one request at a time, and why no request gets stuck | `Serial`, `Endings` |
| three runs in which a deleted account or a rotated key lives on | `Races` |
| string layer | `Rewrite`, `WebCodes` |

Three of the specifications are independent references. `TimedStore.IdealStep` is a map whose bindings
vanish at their deadlines, with no eviction at all. `Reference.Handle` is the server without the three
row caches; it authenticates the way `mcpAuthMiddleware` does. `CacheAside` knows neither keys nor texts
nor handlers, only readers, writers and a table; the three cached lookups are its instances.

The machine of `Server` has one program counter for each request. A request's steps are its `Get`, `Set`,
`GetDel` and `Del` calls and its SQL statements (a transaction is one step); between any two of them other
requests, rate counters, activity records, sweeps and the clock may move. It keeps a record of what was
accepted, answered, issued, redeemed, granted, exchanged, minted, signed in, removed, written and read, and
the whole-run theorems are about that record.

The class `Handlers.Handler` runs one request after another, but no request is instantaneous: before every
single store call an arbitrary amount of time passes and the store may be swept, as an arbitrary `schedule`
says. `ServeAll` proves the refinement for all schedules. The uncached server acts on its data (locations and
codes) at the moments at which the handlers do, which lie within the request.

What `Reference.Handle` itself does is held to `Laws`. There the state of the server is not mentioned at all: a
response must be what the earlier turns of the conversation imply, where `History` says which credential, user,
webhook, gateway, location, code or grant a past implies, with the kinds of credential and the lifetimes written
out. `History.AlwaysTold` proves that the state of the server is always what the past implies, and `ServeAll` that
the handlers have only such conversations. The contracts of the handlers say the same of one call, on their own
tables and store.

## Assumptions

- An SQL transaction is one atomic step. Local mode has a single connection (`cmd/pingclaw-server/main.go:373`).
  Nothing is claimed for overlapping READ COMMITTED transactions.
- Foreign keys, cascades, primary keys and CHECKs act as the schema declares.
- No SQL or store call fails. This matters: `lookupWebhook` caches absence on any database error
  (`internal/pingclaw/handlers.go:640-642`), and `rotateToken` drops no cache entry when its first SELECT
  fails (`:844-854`).
- Tokens appear only as their hashes. A new user id has not been used before; in the serial theorem on
  deletion this is the explicit hypothesis `Reuses`. One-time codes may collide, and the theorems allow it.
- Random bytes, clock readings, JSON encoding and decoding, the verdict of an identity provider, the
  outcome of a gateway probe and the verdict of URL validation are parameters. `Codecs.Faithful` says what
  is needed of JSON: decoding inverts encoding, no encoding is empty or `__none__`. `Codecs.FaithfulExists`
  shows that this can be met.
- A lookup fills its cache at most `delay` after it read the table; `delay` is arbitrary.
- A URL accepted by validation holds no newline (`Reference.Admissible`), because `url.Parse` rejects
  control characters; `url.Parse` is not part of this model.
- The clock never goes back. Durations are integers in nanoseconds.

## What turned out not to hold, and exactly when it does

- *Deleting an account does not end its credentials at once when requests overlap.*
  `Races.DeletionNotImmediate` builds the run from the bootstrap state: the account is removed, and a request
  of that account is accepted afterwards. `Revocation.RevokedForGoodIff` gives the exact condition, readable
  off the state: a credential whose row is gone can still be accepted if and only if a live cache entry holds
  it or a request that read the row is still in time to cache it. `Bounds.BoundedRevocation` bounds how long.
- *Deleting an account does not end its location data when requests overlap.* DeleteAccount drops the
  location (`internal/pingclaw/handlers.go:1071`) before it deletes the user row (`:1075-1076`), so a phone
  that is past authentication can put a location back. `Races.LocationOutlivesAccount` builds the run: the
  location is told after the removal, and when no request is left the store still holds it for its 24 hours.
  `Remnants.ToldAfterRemovalIff` gives the exact condition for every reachable state: the location of a
  removed user can still be told, in some continuation, if and only if a phone of that user is past
  authentication, or a pairing token of that user is still in a live cache entry or a timely reader's hands,
  or the store holds a live location of the user and a reader is past authentication or has such a credential
  left. Run serially, every deletion is final: `Handlers.Handler.ServeAll`. And even when requests overlap,
  nothing new is ever issued to the user: `Accounts.RemovedForGood`.
- *A rotation does not revoke every earlier token of its kind when requests overlap.* `rotateToken` selects the
  hashes to drop (`internal/pingclaw/handlers.go:844-854`) before its transaction (`:856-879`), so a token minted
  in between by another rotation leaves the table but not the cache. `Races.RotationOverlooksToken` builds the
  run; `Rotations.OverlookedIff` gives the exact condition at the commit. Without overlap a rotation revokes
  (`Endings.RotationRevokes`).
- *Waiting the reported `Retry-After` is not enough while the window is open.* The value is truncated to whole
  seconds and expiry is strict, so a retry exactly that long after the reading behind it is still counted in the
  old window; one second more always suffices, and so does any wait if the window was already over at that
  reading (`Limiters.RetryAfterExact`).
- *Putting `now()` back does not recover every query.* It does exactly for those with no `datetime('now')` of
  their own (`Rewrite.RecoversIff`).
- *A cached value does not read back for every row.* Exact conditions: `Codecs.AuthRoundTrip`,
  `Codecs.HookRoundTrip`; `Staleness.StepDisciplined` shows that every row the server caches meets them.
- *A window does not always let through at most its cap.* The event after the (2^63 - 1)-th of a window is
  counted -2^63 and let through (`Limiters.WrapLetsThrough`). For a cap between 0 and the largest int64, n
  events of one window let exactly min(n, max) calls through if and only if n <= 2^63 - 1
  (`LimiterRuns.ExactlyMax`).

## Where the documentation says otherwise

- `internal/pingclaw/mcp.go:54-56` says every kind of token works; the code admits only `api_key` (line 81).
- `db/migrations/001_pingclaw.sql:36-37` says a further web session leaves the others alone; `rotateToken`
  revokes them.
- `internal/ratelimit/limiter.go:32` calls the reported value the seconds until the window expires; see above.
- `internal/kvstore/memstore.go:20` names `sync.Map`; the code is a plain map under a mutex.

The model follows the code in each case.

## Model

| member | source | states |
|---|---|---|
| Decimal.ParseFormat | internal/kvstore/memstore.go:113-115 | A counter printed and parsed again is the same number, for every int64, negative ones and both bounds included. |
| Decimal.NextWraps | internal/kvstore/memstore.go:114 | Incrementing a counter is two's-complement int64 addition: the result is the one int64 congruent to n + 1 modulo 2^64. |
| MemStores.MemStore.Get | internal/kvstore/memstore.go:64-73 | Answers the value exactly when the binding is there and not past its deadline; otherwise the binding is gone afterwards. Whole new store stated. |
| MemStores.MemStore.Set | internal/kvstore/memstore.go:75-84 | The key is bound to the value, with a deadline only for a positive time to live; an old deadline does not survive. |
| MemStores.MemStore.GetDel | internal/kvstore/memstore.go:86-96 | Answers as Get does, and the binding is gone either way. |
| MemStores.MemStore.Del | internal/kvstore/memstore.go:98-103 | Only this key's binding is gone. |
| MemStores.MemStore.Incr | internal/kvstore/memstore.go:105-117 | Mutating one entry in place changes that key's value and no other key's, keeps its deadline, and restarts at 1 without deadline when it is missing or expired. |
| MemStores.MemStore.Expire | internal/kvstore/memstore.go:119-128 | Sets the deadline of a live binding and nothing else. |
| MemStores.MemStore.TTL | internal/kvstore/memstore.go:130-141 | Time left of a live binding with deadline, -1 otherwise; nothing changes. |
| MemStores.MemStore.Evict | internal/kvstore/memstore.go:53-59 | The loop that deletes while it iterates, in any order and with a clock reading for each entry, keeps exactly the entries not expired at their readings, and the same entry objects. |
| MemStores.MemStore.Cleanup | internal/kvstore/memstore.go:45-62 | A tick of the eviction removes exactly the bindings expired at the readings taken for them. |
| TimedStore.StepAgree | internal/kvstore/memstore.go:64-141 | Two stores that agree on what is live answer any operation alike and still agree; a sweep of one of them is harmless. |
| TimedStore.EvictionInvisible | internal/kvstore/memstore.go:45-62 | For every sequence of operations with a clock that never goes back, the answers are those of the sequence with all sweeps left out. |
| TimedStore.SchedulesIndistinguishable | internal/kvstore/memstore.go:45-62 | Sequences that differ only in where the sweeps are give the same answers. |
| TimedStore.RefinesIdeal | internal/kvstore/memstore.go:16-141 | Over whole sequences the store with lazy eviction and sweeps answers as a map whose bindings vanish at their deadlines. |
| Keys.PrefixesApart | internal/pingclaw/handlers.go:82-88 | Keys built by different builders are never equal; the ten prefixes, rate-limit keys included, are told apart. |
| Keys.RenderInjective | internal/pingclaw/handlers.go:82-181 | All builders together are injective, activity keys with their two parts included, even for user ids that contain colons. |
| Keys.StringStoreRefinesTyped | internal/pingclaw/handlers.go:82-181 | Every operation on a built key answers as, and does to the string store exactly what, the same operation does to a store keyed by kind and parts: no handler reaches another's keys. |
| Keys.SweepRefinesTyped | internal/kvstore/memstore.go:53-59 | A sweep of the string store is a sweep of the typed store. |
| Keys.RunRefinesTyped | internal/pingclaw/handlers.go:82-181 | For every sequence of operations on built keys, by any handlers in any order and with sweeps anywhere, the string store answers as the store keyed by kind and parts, and the two still correspond at the end. |
| KeyedStores.KeyedStore.Get | internal/pingclaw/handlers.go:436 | The handlers' read through a built key is the typed store's read. |
| KeyedStores.KeyedStore.Set | internal/pingclaw/handlers.go:465 | The handlers' write through a built key changes that typed key and no other. |
| KeyedStores.KeyedStore.GetDel | internal/pingclaw/handlers.go:364 | The handlers' consuming read through a built key removes that typed key and no other. |
| Codecs.AuthRoundTrip | internal/pingclaw/handlers.go:437-442 | "user:kind" split at the last colon gives the row back if and only if the user is not empty and the kind has no colon. |
| Codecs.KindsColonFree | internal/pingclaw/handlers.go:465 | Hence every row the schema admits reads back. |
| Codecs.HookRoundTrip | internal/pingclaw/handlers.go:627-645 | "url, newline, secret" split at the first newline gives both parts back if and only if the URL is not empty and newline-free, for any secret, and is never the sentinel. |
| Codecs.DestRoundTrip | internal/pingclaw/handlers.go:1180-1206 | Given a JSON codec that is its own inverse and never yields the sentinel, a cached gateway and the cached absence of one read back as what they were: the sentinel is kept apart. |
| Codecs.FaithfulExists | internal/pingclaw/handlers.go:1205 | What is asked of the JSON encoder and decoder, for gateways and for grants, can be met by a concrete pair. |
| Database.RotateExact | internal/pingclaw/handlers.go:856-879 | A committed rotation leaves exactly the new row for its user and kind and every other pair's rows as they were; it is refused exactly when the user is gone, the kind is unknown, or the hash is another pair's. |
| Database.RemoveUserExact | cmd/pingclaw-server/main.go:396-439 | After the cascade no table mentions the user and no other user lost or gained anything. |
| Database.BootstrapLocalUser | cmd/pingclaw-server/main.go:480-505 | On an empty users table: the local user with exactly one pairing token; otherwise nothing changes. Schema invariants and one-per-kind kept. |
| Database.RotateLocalToken | cmd/pingclaw-server/main.go:522-540 | The transaction of a rotation when the insert succeeds; when it is refused, the two separate statements leave the local user without a pairing token. |
| Limiters.Limiter.Allow | internal/ratelimit/limiter.go:37-56 | The three store calls in order, with their own clock readings. With no live counter the event is let through exactly when the cap is at least 1, and the store then holds "1" until a window after the Expire; on a live counter at n below the largest int64, exactly when n + 1 is within the cap, and the store holds n + 1 with the deadline it had. |
| Limiters.AllowExact | internal/ratelimit/limiter.go:37-50 | The same of the function that specifies a call, for any store, key, cap and readings. |
| LimiterRuns.AllowIsMachine | internal/ratelimit/limiter.go:37-56 | A call run on its own, at ordered readings, has the verdict and the store that the concurrent machine reaches with its Incr, then Expire if owed, then TTL if owed: the bounds proved of the machine are bounds on that call. |
| Limiters.WrapLetsThrough | internal/ratelimit/limiter.go:38-50 | A call on a live counter at the largest int64 is let through, whatever the non-negative cap. |
| Limiters.RetryAfterExact | internal/ratelimit/limiter.go:51-55 | After a denial, whether or not the call opened the window itself: if its last reading was in the window, a retry after the reported seconds is counted in the same window and denied, a retry one second later always opens a new one; if that reading was past the window, any retry opens a new one. |
| LimiterRuns.UnarmedIffOwed | internal/ratelimit/limiter.go:38-47 | In every interleaving in which the counter has not wrapped, a live counter lacks a deadline if and only if some call still owes it the Expire, and at most one call does. |
| LimiterRuns.RetryAfterSound | internal/ratelimit/limiter.go:51-55 | Every denial in every interleaving, wrapped counter or not, reports between 0 and the window's whole seconds. |
| LimiterRuns.ExactlyMax | internal/ratelimit/limiter.go:37-50 | If n calls count in one window and have returned, exactly min(n, max) of them were let through if and only if n is at most the largest int64, whatever the interleaving with each other, other traffic and sweeps. |
| LimiterRuns.IntervalBound | internal/ratelimit/limiter.go:37-56 | In every interleaving in which the counter has not wrapped, the calls let through in any interval of length L number at most max * (L / (W + 1) + 2), hence at most 2 * max when L <= W. |
| CacheAside.AlwaysGrounded | internal/pingclaw/handlers.go:433-470 | For any cache-aside lookup with any writers: each cached value, and each value in a reader's hands, was in the table no longer ago than its age allows. |
| CacheAside.BoundedStaleness | internal/pingclaw/handlers.go:433-470 | An answer given at time t was true of the table at some instant between t - ttl - delay and now, whether or not writers invalidate. |
| CacheAside.ForgottenStays | internal/pingclaw/handlers.go:881-884 | Once neither table, nor timely reader, nor live entry has a value, no step brings it back but a write to the table. |
| Staleness.StepDisciplined | internal/pingclaw/handlers.go:422-494 | Every step of every handler, the code and social endpoints included, keeps all three caches to that discipline: entries are only ever filled, for five minutes, with text that reads back as what was fetched. |
| Bounds.ViewsAreRuns | internal/pingclaw/handlers.go:623-651 | Every run of the whole server, seen through any of its three caches, is a run of the general discipline. |
| Bounds.AnswersAreRecent | internal/pingclaw/handlers.go:1179-1212 | In every interleaving, every accepted credential (with that exact user and kind), every webhook and gateway answer and every answer "none" was what the tables held at some instant of the last five minutes plus the read-to-fill delay. |
| Bounds.BoundedRevocation | internal/pingclaw/handlers.go:433-470 | In every interleaving, a credential whose row is gone from some instant on is never accepted later than five minutes plus delay after it. |
| Revocation.RevokedForGoodIff | internal/pingclaw/handlers.go:881-884 | A credential whose row is gone can still be accepted in some continuation if and only if a live entry holds it or a reader that fetched it is still in time. |
| Revocation.DropLeavesReaders | internal/pingclaw/handlers.go:881-884 | After a rotation drops the cached copy of a revoked credential, it can still be accepted if and only if some request had read the row and is in time to cache it. |
| Rotations.OverlookedIff | internal/pingclaw/handlers.go:842-884 | A token that a committed rotation took out of the table can still be accepted, once the rotation has run to its end, if and only if a request had read its row and is in time to cache it, or the rotation had not selected it and it is live in the cache. |
| Revocation.ForgottenNeverAccepted | internal/pingclaw/handlers.go:433-470 | Once forgotten, it is accepted in no continuation of any length. |
| Races.DeletionNotImmediate | internal/pingclaw/handlers.go:1050-1081 | A run from the bootstrap state in which an account's credential is accepted after its user row was deleted. |
| Races.LocationOutlivesAccount | internal/pingclaw/handlers.go:1069-1076 | A run from the bootstrap state in which an account's location is told after its user row was deleted, and, with no request left, is still held for 24 hours. |
| Races.RotationOverlooksToken | internal/pingclaw/handlers.go:842-884 | A run from the bootstrap state with two overlapping rotations of one kind: when both have been answered, the first one's key is accepted although the second has taken its row out of the table. |
| Remnants.ToldAfterRemovalIff | internal/pingclaw/handlers.go:1050-1081 | In every reachable state, the location of a removed user can still be told in some continuation if and only if a phone of that user is past authentication or still can be, or a live location and a reader (MCP agents included) are left. |
| Remnants.NothingTold | internal/pingclaw/handlers.go:126-139 | Once no such remnant is left, no continuation of any length tells the location of the removed user, and no remnant comes back. |
| Accounts.TablesAlways | cmd/pingclaw-server/main.go:387-443 | Schema invariants and one credential per kind hold in every reachable state, whatever requests overlap. |
| Accounts.OneCredentialPerKind | internal/pingclaw/handlers.go:856-879 | In every reachable state a user has at most one token row of each kind. |
| Accounts.IdentityAlways | internal/pingclaw/handlers.go:285-313 | In every reachable state: identities are bound to distinct users, a user row being linked belongs to one request only, and the tables still hold what every earlier sign-in returned unless that user was removed. |
| Accounts.StableIdentity | internal/pingclaw/handlers.go:285-313 | Under every interleaving of the sub-steps, two sign-ins with one identity return the same user unless that user was removed in between, and no user is returned for two identities. |
| Accounts.RemovedForGood | internal/pingclaw/handlers.go:1075-1076 | In every interleaving, after an account was removed no credential is ever minted for its user and nobody is signed in as that user, whatever codes, rotations and sign-ins were in flight. |
| Codes.CodeAlways | internal/pingclaw/handlers.go:320-368 | In every reachable state a live code is the one last issued under that text, with its content and five minutes; every redemption or exchange names its issue. |
| Provenance.SingleUse | internal/pingclaw/oauth.go:97-119 | Every redemption by web login or OAuth approval, and every exchange, uses up its own issue of the same code for the same user or grant, at most five minutes old; no issue is used twice, even when random codes collide. |
| Provenance.SpentIsGone | internal/pingclaw/oauth.go:182-196 | A spent code is not in the store: an exchange that reached the lookup consumed it even when it was then refused. |
| Provenance.CodesConserved | internal/pingclaw/handlers.go:363-368 | At any point of any run, redemptions for a user over both endpoints number no more than the phone codes issued to that user. |
| Provenance.OAuthChain | internal/pingclaw/oauth.go:182-199 | Every API key of the token endpoint traces to an exchange, a grant with the presented client and redirection URI at most five minutes before, the redemption behind that grant, and a phone code of the same user at most five minutes before that (sections 4.1.2 and 4.1.3 of RFC 6749). |
| Provenance.ChainsDisjoint | internal/pingclaw/oauth.go:182-199 | The chains of two different keys share no link, down to the phone code. |
| Provenance.RedemptionUsedOnce | internal/pingclaw/handlers.go:370-375 | What a redemption or exchange backs, a session, a grant or a key, is recorded at most once, and the backing is for the same user. |
| Privileges.AlwaysBacked | internal/pingclaw/handlers.go:1127-1153 | In every interleaving: a location is written only after a pairing token of its user was accepted, a code issued or an account removed only after a session or pairing token was, nobody is answered without a credential of theirs, a credential without a code behind it rests on a sign-in or on a credential of a kind that may ask for it, and grants go to the configured client and redirection URI alone. |
| Privileges.ExchangedBySecret | internal/pingclaw/oauth.go:173-180 | In every interleaving each exchange on record was made by a request that carried the configured client and its secret, with the recorded code and redirection URI. |
| Privileges.ConfigExact | internal/pingclaw/handlers.go:686-835 | Of all steps of all requests, a user's webhook and gateway are changed only by that user's, to exactly what was put, and taken away by their deletion or the removal of the user row. |
| Privileges.TokensExact | internal/pingclaw/handlers.go:856-879 | Of all steps, only a committed rotation brings a credential, taking away the others of its user and kind, and only the removal of its user otherwise takes one away. |
| Locations.LocationAnswersExact | internal/pingclaw/handlers.go:126-148 | In every interleaving a reader, MCP agents included, is told exactly the last location written for that user, if it is at most 24 hours old and DeleteAccount has not dropped it since, and nothing otherwise. The drop comes before the removal of the user row: see Remnants. |
| Serial.NothingStale | internal/pingclaw/handlers.go:422-494 | When requests do not overlap, with rotations and deletions among them and eviction and expiry anywhere, every credential accepted and every webhook, gateway or absence answered by the step machine is what the tables hold at that instant. |
| Serial.CoherentBetweenRequests | internal/pingclaw/handlers.go:841-886 | In such a run, whenever no request is in progress, every live cache entry holds exactly what the tables hold. That such states are reached again after every request is Endings.ComesToRest; the comparison with an uncached run is ServeAll. |
| Endings.RequestEnds | internal/pingclaw/handlers.go:841-886 | From any state, overlapping or not, every request that is not a reader later than `delay` can run to its end by its own steps alone, and leaves the other requests where they are: no program point of the machine is a dead end. |
| Endings.ComesToRest | internal/pingclaw/handlers.go:422-494 | A run without overlap can always be continued to a state with no request in progress, so that the next request can start. |
| Endings.RotationRevokes | internal/pingclaw/handlers.go:881-884 | After a committed rotation such a run comes to rest with the tables as the rotation left them, and nothing is live in the cache for a token it took away: the next request that presents it misses. |
| Reference.HandleKeepsTables | internal/pingclaw/handlers.go:841-886 | Every request keeps the schema invariants and one credential per kind. |
| Reference.GoneStays | internal/pingclaw/handlers.go:867-871 | No request is served as a user who is gone or brings the user back; pending codes are consumed without effect because the insert fails the foreign key. |
| Reference.DeletionIsFinal | internal/pingclaw/handlers.go:1050-1081 | In every sequence of requests to the uncached server: after DeleteAccount has answered, no later request is served as that user, short of a reuse of the random user id. ServeAll carries this over to the handlers with caches. |
| History.AlwaysTold | internal/pingclaw/handlers.go:1119-1153 | After any conversation the users, identities, credentials, webhooks, gateways, locations, phone codes and grants of the server are exactly those its requests and responses imply. |
| Laws.BearerLaw | internal/pingclaw/handlers.go:1127-1153 | For each route with a bearer: 401 exactly when no credential is known under it; 403 exactly when there is one of a kind the route does not admit, kind by kind as registered; what is served is served to that credential's user. |
| Laws.AccountLaw | internal/pingclaw/handlers.go:888-908 | Past authentication a code is always issued and an account always deleted; a rotation issues a credential of the kind asked for unless its hash is another credential's. |
| Laws.SignInLaw | internal/pingclaw/handlers.go:247-313 | A sign-in is as the user bound to the identity since its first sign-in, unless that account was deleted since; for an unknown identity as a new user; with a credential of the kind asked for, and the exact failures. |
| Laws.WebhookLaw | internal/pingclaw/handlers.go:543-619 | A lookup gives exactly the last webhook or gateway put since the last deletion of it or of the account, and nothing if there is none; a posted location is delivered to exactly these two. |
| Laws.PutWebhookLaw | internal/pingclaw/handlers.go:697-734 | Past authentication a webhook is stored exactly when URL and secret are not blank and the URL was found valid. |
| Laws.PutGatewayLaw | internal/pingclaw/handlers.go:1348-1441 | Past authentication a gateway is stored exactly when it is well formed and the probe answered below 300, with the exact refusals. |
| Laws.LocationLaw | internal/pingclaw/handlers.go:126-148 | A reader, MCP agents included, is told exactly the last location posted for the user if that was at most twenty-four hours ago and the account was not deleted since, and nothing otherwise. |
| Laws.LoginLaw | internal/pingclaw/handlers.go:347-380 | The exact answer to every login: refused unless the typed code was issued at most five minutes ago and not presented since to either endpoint; otherwise a web session for the user it was issued to, or failure if that user is gone or the hash is taken. |
| Laws.AuthorizeLaw | internal/pingclaw/oauth.go:44-130 | The exact answer to every POST of the authorization endpoint, in the order of its checks, with the phone code good as for a login. |
| Laws.ExchangeLaw | internal/pingclaw/oauth.go:173-204 | The exact answer to every exchange: 401 exactly for a wrong client or secret, 400 exactly for a wrong grant type, a code not given within five minutes or presented since, or another client or redirection URI than approved; otherwise an API key for the user of the approval, or failure as for a login. |
| Laws.CodesSingleUse | internal/pingclaw/handlers.go:363-368 | Any two sessions or approvals obtained with a phone code have different codes issued for them, each at most five minutes before and, for a session, to that user. |
| Laws.ApprovalsSingleUse | internal/pingclaw/oauth.go:182-196 | Any two keys of the token endpoint have different approvals, each at most five minutes before, for the same client and redirection URI. |
| Laws.ExchangeChain | internal/pingclaw/oauth.go:97-204 | Every key of the token endpoint was asked for with the configured client's secret, rests on an approval, and goes to the user whose phone code that approval used. |
| Handlers.Handler.constructor | internal/pingclaw/handlers.go:62-73 | A fresh server with an empty store stands for the uncached server on the same tables, under any schedule. |
| Handlers.Handler.RequireAuth | internal/pingclaw/handlers.go:422-494 | With any coherent cache content, with expiry and sweeps before and between its store calls: 401 exactly when user_tokens has no row for the token; 403 exactly when it has one of a kind that is not listed while kinds are listed; otherwise admitted with exactly that row. |
| Handlers.Handler.LookupWebhook | internal/pingclaw/handlers.go:623-651 | Answers what the webhook table holds, absence included, and leaves the caches coherent. |
| Handlers.Handler.LookupGateway | internal/pingclaw/handlers.go:1179-1212 | Answers what the gateway table holds, absence included, and leaves the caches coherent. |
| Handlers.Handler.DropAuth | internal/pingclaw/handlers.go:881-884 | The loop drops the cache entries of exactly the collected hashes; with time and sweeps between the drops nothing else is lost but what has expired. |
| Handlers.Handler.Collect | internal/pingclaw/handlers.go:842-854 | The loop over the rows collects exactly the selected hashes, in whatever order. |
| Handlers.Handler.RotateToken | internal/pingclaw/handlers.go:841-886 | Fails exactly when the user is gone, the kind is unknown or the hash is another credential's, and then leaves the tables as they were; otherwise the new credential is the only one of its user and kind, every other row is as it was, and no stale cache entry is left behind. |
| Handlers.Handler.Close | internal/pingclaw/handlers.go:1050-1081 | User, rows, cached copies and location are gone, the rest of the tables is as the cascade leaves it, and the caches are coherent with it. |
| Handlers.Handler.PutWebhook | internal/pingclaw/handlers.go:686-734 | Refused exactly when URL or secret is blank or the URL was found invalid; otherwise, for a user who exists, the table holds the trimmed URL and secret for this user and is unchanged for every other and in every other table, and no later lookup can see the old one. |
| Handlers.Handler.DeleteWebhook | internal/pingclaw/handlers.go:825-835 | This user's row and the cached copy are gone and nothing else is. |
| Handlers.Handler.RegisterGateway | internal/pingclaw/handlers.go:1348-1441 | Trims the form, fills in the defaults, refuses a missing URL or token, a URL found invalid, a path that is not alphanumeric with hyphens and an unknown action; stores the gateway, each field from its own field of the form, only when the probe answered below 300; otherwise the tables are unchanged; drops the cached copy. |
| Handlers.Handler.DeleteGateway | internal/pingclaw/handlers.go:1473-1483 | This user's row and the cached copy are gone and nothing else is. |
| Handlers.Handler.ReadLocation | internal/pingclaw/handlers.go:126-139 | Answers the live location of this user. |
| Handlers.Handler.StoreLocation | internal/pingclaw/handlers.go:142-148 | The posted location is what the store then holds for the user, until twenty-four hours after the write; it is delivered to exactly the webhook and the gateway in the tables. |
| Handlers.Handler.WebLogin | internal/pingclaw/handlers.go:363-380 | Given what was typed, past body decoding and the rate limit: refused exactly when the trimmed and upper-cased code is empty or not live in the store; the code is not live afterwards, whatever the answer; a served login issues a web session for the user the store held, and an unserved one leaves the tables alone. |
| Handlers.Handler.OAuthAuthorize | internal/pingclaw/oauth.go:44-130 | All branches of a POST: redirected exactly when query and form name the configured client and redirection URI, the response type is code and the trimmed and upper-cased phone code is live; then the store holds, for five minutes, a grant for the user of that code with the client and redirection URI of the form. The phone code is not live after any POST that presented it. |
| Handlers.Handler.OAuthToken | internal/pingclaw/oauth.go:173-204 | Past body decoding: 401 exactly when client or secret is not the configured one (and the grant type is right); the code is not live after any request that got past that, refused or not; a served exchange found a live grant with exactly the presented client and redirection URI and issues an API key to the user of that grant, and an unserved one leaves the tables alone. |
| Handlers.Handler.SocialAuth | internal/pingclaw/handlers.go:247-280 | Past the rate limit and the provider's verdict: a served sign-in issues one credential of the asked kind to the user bound to the identity, or to a new user who is then bound to it; nothing else in the tables changes. |
| Handlers.Handler.FindOrCreate | internal/pingclaw/handlers.go:285-313 | A known identity gives its user and changes nothing; an unknown one adds a new user bound to it, or fails exactly when the new id is taken and changes nothing. |
| Handlers.Handler.MCPAuth | internal/pingclaw/mcp.go:57-94 | Admitted, with its row, exactly when the token has a row of kind api_key; 403 exactly for a row of another kind; 401 exactly for none. |
| Handlers.Handler.Handle | internal/pingclaw/handlers.go:1122-1153 | Any one request, with the kinds its route admits, is answered as by the uncached server at moments within the request, whatever time passes and whatever is swept before each of its store calls. |
| Handlers.Handler.ServeAll | internal/pingclaw/handlers.go:422-494 | The cached server refines the uncached one: for every request sequence and every schedule of waits and sweeps before each single store call, all responses are equal, the two still correspond at the end, and every deletion of an account is final for all later responses. From an empty store the requests and responses are a conversation, so that every law of `Laws` holds of the handlers. |
| Rewrite.NoNowLeft | cmd/pingclaw-server/main.go:455-457 | For every query, the rewritten text contains no `now()`, not even across the border of a replacement. |
| Rewrite.Idempotent | cmd/pingclaw-server/main.go:455-457 | Rewriting twice is rewriting once. |
| Rewrite.RecoversIff | cmd/pingclaw-server/main.go:455-457 | Putting `now()` back recovers the query if and only if it held no `datetime('now')`. |
| WebCodes.GenerateWebCode | internal/pingclaw/handlers.go:185-193 | The in-place loop turns the random bytes into the code, byte by byte modulo 32 through the alphabet. |
| WebCodes.Uniform | internal/pingclaw/handlers.go:186-191 | Every code of n letters has exactly 8^n preimages among the 256^n inputs, and they are exactly the inputs that give it: no code is likelier than another. |
| WebCodes.OnlyCodes | internal/pingclaw/handlers.go:186-191 | Only letters of the alphabet come out. |
| WebCodes.TypedCode | internal/pingclaw/handlers.go:348 | A code typed in any mixture of cases with spaces around it is read as the code. |
| WebCodes.GeneratedIsNormal | internal/pingclaw/oauth.go:68 | The trim-and-uppercase step is the identity on every generated code. |
| WebCodes.TrimExact | internal/pingclaw/handlers.go:697-698 | Trimming takes away spaces around a text and leaves none there. |
| WebCodes.TrimSlashesExact | internal/pingclaw/handlers.go:1348 | And the slashes at the end of a gateway address likewise. |

## Left out

- Rate-limit calls inside the handlers: the limiter is proved on its own; in `Server` its store traffic is part of the background.
- Request body decoding, a missing `Authorization` header, the texts of error responses and the GET pages of the OAuth endpoints.
- The redirect URL text: the state value is concatenated unescaped, and nothing is claimed about it.
- `Server` is more liberal than the code in three ways, each of which only adds runs: an authenticated request may take several lookups, a code may be any text, and cache entries may be dropped in any order.
- `Server` leaves out three kinds of runs: those in which a lookup fills its cache later than `delay` after its read, those in which a new user id has been used before, and the steps of requests that are refused before they touch tables or store.
- Activity records (`intg:` keys) survive the deletion of an account; the deletion theorems do not claim otherwise.
- `GetMyData`, `GetMe`, integration status and the test and send endpoints: reads of tables and caches already covered.
- Outbound delivery to webhooks and gateways, DNS checks, HTTP clients, web pages, CORS, body limits, logging and environment parsing.
- Identity provider verification, SHA-256, JSON and floating-point coordinates: parameters or opaque values.
- `RedisStore` and PostgreSQL: nothing is claimed about them; they differ from `MemStore` on non-positive Expire and non-numeric Incr.
- Server restarts that lose the in-memory store or keep an external one.
- `last_used_at`, `updated_at` and `label` columns, and the SQL text of statements other than the rewriting of `now()`.
- WebCodes.TypedCode: does not model upper-casing of letters beyond ASCII or Unicode spaces beyond NEL and no-break space; the trimming in the handlers is the same.
- LimiterRuns.UnarmedIffOwed: assumes `NoWrap`, that no event was counted after the largest int64 of a window.
- LimiterRuns.IntervalBound: assumes `NoWrap`, because a wrapped counter lets calls through beyond any cap.
- Handlers.Handler.WebLogin: does not model the per-address rate limit in front of the code.
- Handlers.Handler.SocialAuth: does not model the per-address rate limit or the checks of provider and client fields.
- Handlers.Handler.Close: drops the auth entries after collecting the hashes, where the code drops each while the row cursor is open.
- Codecs.DestRoundTrip: takes the round trip of the JSON codec itself as its hypothesis.
