/** The texts kept in the store for cached rows and pending grants, and what the
    handlers make of a text they read back. Reading gives nothing when the text is
    not usable, which the handlers treat as a cache miss. */
module Codecs {
  import opened Wrappers
  import opened Text
  import opened Database

  // What an OAuth authorization code stands for.
  datatype Grant = Grant(user: string, redirectURI: string, clientID: string)

  // The JSON encoder and decoder are parameters.
  datatype Json = Json(
    destText: Dest -> string,
    parseDest: string -> Option<Dest>,
    grantText: Grant -> string,
    parseGrant: string -> Option<Grant>)

  const NONE := "__none__"  // sentinel: the row is known to be absent

  // Decoding inverts encoding, and no JSON object is the sentinel or the empty text.
  ghost predicate Faithful(json: Json) {
    && (forall d :: json.parseDest(json.destText(d)) == Some(d) && json.destText(d) != NONE)
    && (forall g :: json.parseGrant(json.grantText(g)) == Some(g) && json.grantText(g) != "")
  }

  function AuthText(row: TokenRow): string {
    row.user + ":" + row.kind
  }

  function ParseAuth(s: string): Option<TokenRow> {
    var i := LastIndex(s, ':');
    if i > 0 then Some(TokenRow(s[..i], s[i + 1..])) else None
  }

  function HookText(h: Option<Hook>): string {
    if h.None? then NONE else h.value.url + "\n" + h.value.secret
  }

  function ParseHook(s: string): Option<Option<Hook>> {
    var i := FirstIndex(s, '\n');
    if s == NONE then Some(None)
    else if 0 < i < |s| then Some(Some(Hook(s[..i], s[i + 1..])))
    else None
  }

  function DestText(json: Json, d: Option<Dest>): string {
    if d.None? then NONE else json.destText(d.value)
  }

  function ParseDest(json: Json, s: string): Option<Option<Dest>> {
    if s == NONE then Some(None)
    else match json.parseDest(s) case Some(d) => Some(Some(d)) case None => None
  }

  // A cached credential reads back exactly when the user is not empty and the kind
  // has no colon; the user may contain colons.
  lemma AuthRoundTrip(row: TokenRow)
    ensures ParseAuth(AuthText(row)) == Some(row) <==> row.user != "" && Free(row.kind, ':')
  {
    var s := AuthText(row);
    if Free(row.kind, ':') {
      LastSplit(row.user, ':', row.kind, s);
    }
  }

  // A cached webhook reads back exactly when its URL is not empty and has no
  // newline; the secret is arbitrary, and no webhook looks like the sentinel.
  lemma HookRoundTrip(h: Hook)
    ensures HookText(Some(h)) != NONE
    ensures ParseHook(HookText(Some(h))) == Some(Some(h)) <==> h.url != "" && NewlineFree(h.url)
  {
    var s := HookText(Some(h));
    assert s[|h.url|] == '\n';
    if NewlineFree(h.url) {
      FirstSplit(h.url, '\n', h.secret, s);
    }
  }

  lemma KindsColonFree(row: TokenRow)
    requires row.user != "" && IsKind(row.kind)
    ensures ParseAuth(AuthText(row)) == Some(row)
  {
    AuthRoundTrip(row);
  }

  lemma DestRoundTrip(json: Json, d: Option<Dest>)
    requires Faithful(json)
    ensures ParseDest(json, DestText(json, d)) == Some(d)
  {
  }

  // --- Such an encoder exists ---

  // Every character is announced; a full stop ends the text.
  function Pack(s: string): string {
    if s == "" then "." else ['x', s[0]] + Pack(s[1..])
  }

  function Unpack(t: string): Option<(string, string)> {
    if t == "" then None
    else if t[0] == '.' then Some(("", t[1..]))
    else if |t| == 1 then None
    else match Unpack(t[2..]) case Some((s, rest)) => Some(([t[1]] + s, rest)) case None => None
  }

  lemma {:induction false} UnpackPack(s: string, rest: string)
    ensures Unpack(Pack(s) + rest) == Some((s, rest))
    decreases |s|
  {
    var t := Pack(s) + rest;
    if s == "" {
      assert t[1..] == rest;
    } else {
      UnpackPack(s[1..], rest);
      assert t == ['x', s[0]] + (Pack(s[1..]) + rest);
      assert t[2..] == Pack(s[1..]) + rest;
      assert [s[0]] + s[1..] == s;
    }
  }

  function PackAll(fields: seq<string>): string {
    if fields == [] then "" else Pack(fields[0]) + PackAll(fields[1..])
  }

  function UnpackAll(t: string, n: nat): Option<seq<string>>
    decreases n
  {
    if n == 0 then Some([])
    else match Unpack(t)
      case Some((s, rest)) => (match UnpackAll(rest, n - 1) case Some(ss) => Some([s] + ss) case None => None)
      case None => None
  }

  lemma {:induction false} UnpackAllPackAll(fields: seq<string>)
    ensures UnpackAll(PackAll(fields), |fields|) == Some(fields)
    decreases |fields|
  {
    if fields != [] {
      UnpackPack(fields[0], PackAll(fields[1..]));
      UnpackAllPackAll(fields[1..]);
      assert [fields[0]] + fields[1..] == fields;
    }
  }

  function DestFields(d: Dest): seq<string> {
    [d.id, d.gatewayURL, d.hookToken, d.hookPath, d.action, d.sessionKey]
  }

  function SomeJson(): Json {
    Json(
      (d: Dest) => "{" + PackAll(DestFields(d)),
      t => if t == "" then None else match UnpackAll(t[1..], 6)
           case Some(f) => (if |f| == 6 then Some(Dest(f[0], f[1], f[2], f[3], f[4], f[5])) else None)
           case None => None,
      (g: Grant) => "{" + PackAll([g.user, g.redirectURI, g.clientID]),
      t => if t == "" then None else match UnpackAll(t[1..], 3)
           case Some(f) => (if |f| == 3 then Some(Grant(f[0], f[1], f[2])) else None)
           case None => None)
  }

  // What is asked of the JSON encoder can be met.
  lemma FaithfulExists()
    ensures Faithful(SomeJson())
  {
    var json := SomeJson();
    forall d
      ensures json.parseDest(json.destText(d)) == Some(d) && json.destText(d) != NONE
    {
      UnpackAllPackAll(DestFields(d));
      assert json.destText(d)[1..] == PackAll(DestFields(d));
      assert json.destText(d)[0] != NONE[0];
    }
    forall g
      ensures json.parseGrant(json.grantText(g)) == Some(g) && json.grantText(g) != ""
    {
      var fields := [g.user, g.redirectURI, g.clientID];
      UnpackAllPackAll(fields);
      assert json.grantText(g)[1..] == PackAll(fields);
    }
  }
}
