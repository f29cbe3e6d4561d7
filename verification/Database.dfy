/** The durable tables and the statements the handlers run on them. A statement
    the schema rejects (a key already taken, a foreign key without its row, a
    CHECK) gives no tables; a transaction that contains one is rolled back. */
module Database {
  import opened Wrappers

  datatype Identity = Identity(provider: string, sub: string)
  datatype TokenRow = TokenRow(user: string, kind: string)
  datatype Hook = Hook(url: string, secret: string)
  datatype Dest = Dest(id: string, gatewayURL: string, hookToken: string, hookPath: string,
                       action: string, sessionKey: string)

  // user_tokens is keyed by the token's hash, the two configuration tables by user.
  datatype Tables = Tables(
    users: set<string>,
    identities: map<Identity, string>,
    tokens: map<string, TokenRow>,
    hooks: map<string, Hook>,
    dests: map<string, Dest>)

  const WEB_SESSION := "web_session"
  const API_KEY := "api_key"
  const PAIRING_TOKEN := "pairing_token"

  predicate IsKind(kind: string) {
    kind == WEB_SESSION || kind == API_KEY || kind == PAIRING_TOKEN
  }

  predicate IsAction(action: string) {
    action == "wake" || action == "agent"
  }

  predicate NewlineFree(s: string) {
    forall i :: 0 <= i < |s| ==> s[i] != '\n'
  }

  // What the column constraints, the foreign keys and the handlers' validation
  // keep true of every stored row.
  ghost predicate WellFormed(t: Tables) {
    && "" !in t.users
    && (forall i :: i in t.identities ==> t.identities[i] in t.users)
    && (forall h :: h in t.tokens ==> t.tokens[h].user in t.users && IsKind(t.tokens[h].kind))
    && (forall u :: u in t.hooks ==> u in t.users && t.hooks[u].url != "" && NewlineFree(t.hooks[u].url))
    && (forall u :: u in t.dests ==> u in t.users)
  }

  // At most one credential of each kind for each user.
  ghost predicate OnePerKind(t: Tables) {
    forall g, h :: g in t.tokens && h in t.tokens && t.tokens[g] == t.tokens[h] ==> g == h
  }

  // No user is bound to two identities.
  ghost predicate IdentitiesDistinct(t: Tables) {
    forall i, j :: i in t.identities && j in t.identities && t.identities[i] == t.identities[j] ==> i == j
  }

  function Lookup<K, V>(m: map<K, V>, k: K): Option<V> {
    if k in m then Some(m[k]) else None
  }

  function HashesOf(t: Tables, row: TokenRow): set<string> {
    set h | h in t.tokens && t.tokens[h] == row
  }

  function TokensOf(t: Tables, user: string): set<string> {
    set h | h in t.tokens && t.tokens[h].user == user
  }

  // The transaction of rotateToken.
  function Rotate(t: Tables, row: TokenRow, hash: string): Option<Tables> {
    var kept := t.tokens - HashesOf(t, row);
    if hash in kept || row.user !in t.users || !IsKind(row.kind) then None
    else Some(t.(tokens := kept[hash := row]))
  }

  // Between these tables the credential was issued: it is the only one of its user and
  // kind, and nothing else changed.
  ghost predicate Reissued(t: Tables, t': Tables, row: TokenRow, hash: string) {
    && t' == t.(tokens := t'.tokens)
    && forall h ::
         Lookup(t'.tokens, h) ==
           if h == hash then Some(row) else if Lookup(t.tokens, h) == Some(row) then None else Lookup(t.tokens, h)
  }

  function PutHook(t: Tables, user: string, hook: Hook): Option<Tables> {
    if user in t.users then Some(t.(hooks := t.hooks[user := hook])) else None
  }

  function DropHook(t: Tables, user: string): Tables {
    t.(hooks := t.hooks - {user})
  }

  function PutDest(t: Tables, user: string, dest: Dest): Option<Tables> {
    if user in t.users && IsAction(dest.action) then Some(t.(dests := t.dests[user := dest])) else None
  }

  function DropDest(t: Tables, user: string): Tables {
    t.(dests := t.dests - {user})
  }

  // The id of a new user, from the random part of a UUID.
  function UserId(suffix: string): string {
    "usr_" + suffix
  }

  function AddUser(t: Tables, user: string): Option<Tables> {
    if user in t.users then None else Some(t.(users := t.users + {user}))
  }

  function Bind(t: Tables, id: Identity, user: string): Option<Tables> {
    if id in t.identities || user !in t.users then None
    else Some(t.(identities := t.identities[id := user]))
  }

  // Deleting the user row cascades to every other table.
  function RemoveUser(t: Tables, user: string): Tables {
    Tables(
      t.users - {user},
      map i | i in t.identities && t.identities[i] != user :: t.identities[i],
      map h | h in t.tokens && t.tokens[h].user != user :: t.tokens[h],
      t.hooks - {user},
      t.dests - {user})
  }

  // A committed rotation leaves exactly the new row for its pair, and every row of
  // any other pair as it was. It is refused exactly when the user is gone, the kind
  // is none of the three, or the new hash belongs to some other pair.
  lemma RotateExact(t: Tables, row: TokenRow, hash: string)
    requires WellFormed(t)
    ensures Rotate(t, row, hash).None? <==>
              row.user !in t.users || !IsKind(row.kind) || (hash in t.tokens && t.tokens[hash] != row)
    ensures Rotate(t, row, hash).Some? ==>
              var t' := Rotate(t, row, hash).value;
              && t' == t.(tokens := t'.tokens)
              && HashesOf(t', row) == {hash}
              && (forall other, h | other != row :: h in HashesOf(t', other) <==> h in HashesOf(t, other))
              && WellFormed(t')
              && (OnePerKind(t) ==> OnePerKind(t'))
  {
  }

  // After the cascade nothing refers to the user, and nobody else lost anything.
  lemma RemoveUserExact(t: Tables, user: string)
    requires WellFormed(t)
    ensures var t' := RemoveUser(t, user);
      && WellFormed(t')
      && (OnePerKind(t) ==> OnePerKind(t'))
      && (forall kind :: HashesOf(t', TokenRow(user, kind)) == {})
      && (forall row: TokenRow | row.user != user :: HashesOf(t', row) == HashesOf(t, row))
      && (forall u | u != user :: (u in t'.users <==> u in t.users)
            && Lookup(t'.hooks, u) == Lookup(t.hooks, u) && Lookup(t'.dests, u) == Lookup(t.dests, u))
      && user !in t'.users && user !in t'.hooks && user !in t'.dests && user !in t'.identities.Values
  {
  }

  // --- The two initial states of local mode ---

  const LOCAL_USER := "usr_local"

  // bootstrapLocalUser: nothing happens when the users table is not empty.
  method BootstrapLocalUser(t: Tables, hash: string) returns (t': Tables)
    requires WellFormed(t)
    ensures t.users != {} ==> t' == t
    ensures t.users == {} ==> t'.users == {LOCAL_USER} && t'.tokens == map[hash := TokenRow(LOCAL_USER, PAIRING_TOKEN)]
    ensures WellFormed(t') && (OnePerKind(t) ==> OnePerKind(t')) && (IdentitiesDistinct(t) ==> IdentitiesDistinct(t'))
  {
    t' := t;
    if t.users != {} {
      return;
    }
    t' := t'.(users := t'.users + {LOCAL_USER});
    if hash !in t'.tokens {
      t' := t'.(tokens := t'.tokens[hash := TokenRow(LOCAL_USER, PAIRING_TOKEN)]);
    }
    assert t.tokens == map[];
  }

  // rotateLocalToken: two statements, not one transaction, so a refused insert
  // leaves the local user without a pairing token.
  method RotateLocalToken(t: Tables, hash: string) returns (t': Tables)
    requires WellFormed(t)
    ensures var row := TokenRow(LOCAL_USER, PAIRING_TOKEN);
      t' == if Rotate(t, row, hash).Some? then Rotate(t, row, hash).value
            else t.(tokens := t.tokens - HashesOf(t, row))
    ensures WellFormed(t') && (OnePerKind(t) ==> OnePerKind(t'))
  {
    var row := TokenRow(LOCAL_USER, PAIRING_TOKEN);
    t' := t.(tokens := t.tokens - HashesOf(t, row));
    if hash !in t'.tokens && LOCAL_USER in t'.users {
      t' := t'.(tokens := t'.tokens[hash := row]);
    }
  }
}
