/** The D4Science authenticator (d4science_hub/authenticator.py): after the
    upstream OAuth login it exchanges the access token for two UMA tickets
    (one for the hub's client, one for the user's context), verifies them
    with the identity provider's public keys, and stores the permissions,
    roles, resource catalog and optional DataMiner endpoint in
    `auth_state`; before a spawn it copies them into the spawner.

    HTTP fetches, JWT header parsing and verification, the conversion of a
    JWK into a public key, form encoding and base64 are oracles: fields of the `Network`, `Jwt` and `Codec`
    datatypes, whose values the caller chooses. */
module Authenticator {
  import opened Hub
  import opened Strings
  import opened Session
  import Catalog
  import Spawner

  /** The outcome of one HTTP fetch. */
  datatype Fetch<+T> = Fetched(body: T) | HttpError

  /** The OIDC discovery document and the key set it points to. */
  datatype DiscoveryDoc = DiscoveryDoc(jwksUri: Option<string>)
  datatype Jwk = Jwk(kid: Option<string>, fields: map<string, Json>)
  datatype JwksDoc = JwksDoc(keyList: Option<seq<Jwk>>)

  /** A key `RSAAlgorithm.from_jwk` built, left uninterpreted. */
  datatype PublicKey = RsaKey(jwk: Jwk)

  datatype TokenResponse = TokenResponse(accessToken: Option<string>)

  /** The decoded claims of a ticket: `authorization.permissions` and
      `resource_access[client].roles`. */
  datatype Authorization = Authorization(permissions: Option<seq<PermissionClaim>>)
  datatype ClientAccess = ClientAccess(roles: Option<seq<string>>)
  datatype Claims = Claims(authorization: Option<Authorization>,
                           resourceAccess: Option<map<string, ClientAccess>>)

  /** The DataMiner service-endpoint document: the access points found at
      `serviceEndpoints.Resource.Profile.AccessPoint` (`None` when a key on
      that path is missing) and, per access point, its
      `Interface.Endpoint` (`None` when either key is missing). */
  datatype Endpoint = Endpoint(entryName: Option<string>, text: Option<string>)
  datatype AccessPoint = AccessPoint(endpoint: Option<Endpoint>)
  datatype DataMinerDoc = DataMinerDoc(accessPoints: Option<seq<AccessPoint>>)

  /** The requests the authenticator sends, in the order it sends them. */
  datatype Request =
    | GetDiscovery
    | GetJwks(uri: string)
    | PostToken(bearer: string, body: map<string, string>)
    | GetResources(bearer: string)
    | GetDataMiner(bearer: string)

  /** What each endpoint answers. */
  datatype Network = Network(
    discovery: Fetch<DiscoveryDoc>,
    jwks: string -> Fetch<JwksDoc>,
    token: (string, map<string, string>) -> Fetch<TokenResponse>,
    resources: string -> Fetch<Catalog.Document>,
    dataMiner: string -> Fetch<DataMinerDoc>)

  /** `jwt.get_unverified_header(token)["kid"]`, `jwt.decode(token, key, audience)`
      (`None` when the signature, issuer or audience does not verify) and
      `RSAAlgorithm.from_jwk(json.dumps(jwk))` (`None` when it raises
      InvalidKeyError, as for a key that is not RSA). */
  datatype Jwt = Jwt(header: string -> Result<string>,
                     decode: (string, PublicKey, string) -> Option<Claims>,
                     fromJwk: Jwk -> Option<PublicKey>)

  /** `quote_plus`, `unquote`, and the base64-encoded JSON claim token for a context. */
  datatype Codec = Codec(quotePlus: string -> string, unquote: string -> string,
                         claimToken: string -> string)

  /** A result together with the key cache afterwards and the requests sent. */
  datatype Outcome<+T> = Outcome(result: Result<T>, cache: Option<map<string, PublicKey>>,
                                 requests: seq<Request>)

  // ---------------------------------------------------------------------
  // Public keys

  /** A key the loop stores: it has a `kid` and `from_jwk` accepts it. */
  predicate Usable(jwt: Jwt, k: Jwk) {
    k.kid.Some? && jwt.fromJwk(k).Some?
  }

  /** The number of leading usable keys. */
  function FirstBadKey(jwt: Jwt, keys: seq<Jwk>): (n: nat)
    ensures n <= |keys|
    ensures forall j :: 0 <= j < n ==> Usable(jwt, keys[j])
    ensures n < |keys| ==> !Usable(jwt, keys[n])
  {
    if keys == [] || !Usable(jwt, keys[0]) then 0 else 1 + FirstBadKey(jwt, keys[1..])
  }

  /** The error of an unusable key: `jwk["kid"]` raises before `from_jwk` is called. */
  function KeyError(k: Jwk): Error {
    if k.kid.None? then MissingKey("kid") else InvalidKey
  }

  /** The kid-to-key map the loop builds, a later `kid` overwriting an earlier one. */
  function KeyMap(jwt: Jwt, keys: seq<Jwk>): map<string, PublicKey>
    requires forall j :: 0 <= j < |keys| ==> Usable(jwt, keys[j])
  {
    if keys == [] then map[]
    else
      assert Usable(jwt, keys[|keys| - 1]);
      var last := keys[|keys| - 1];
      KeyMap(jwt, keys[..|keys| - 1])[last.kid.value := jwt.fromJwk(last).value]
  }

  /** `get_iam_public_keys`: the cached keys when there are any; otherwise
      discovery, then the key set, each failure a 403; the cache is reset
      to `{}` just before the key list is read and filled key by key until
      a key has no `kid` or `from_jwk` rejects it. */
  function PublicKeys(net: Network, jwt: Jwt, cache: Option<map<string, PublicKey>>): Outcome<map<string, PublicKey>> {
    if cache.Some? && cache.value != map[] then Outcome(Ok(cache.value), cache, [])
    else if net.discovery.HttpError? then Outcome(Err(Forbidden), cache, [GetDiscovery])
    else if net.discovery.body.jwksUri.None? then Outcome(Err(MissingKey("jwks_uri")), cache, [GetDiscovery])
    else
      var uri := net.discovery.body.jwksUri.value;
      var requests := [GetDiscovery, GetJwks(uri)];
      var doc := net.jwks(uri);
      if doc.HttpError? then Outcome(Err(Forbidden), cache, requests)
      else if doc.body.keyList.None? then Outcome(Err(MissingKey("keys")), Some(map[]), requests)
      else
        var keys := doc.body.keyList.value;
        var n := FirstBadKey(jwt, keys);
        var m := KeyMap(jwt, keys[..n]);
        Outcome(if n < |keys| then Err(KeyError(keys[n])) else Ok(m), Some(m), requests)
  }

  /** The key map holds exactly the fetched `kid`s, each bound to the last
      key that carries it. */
  lemma KeyMapSpec(jwt: Jwt, keys: seq<Jwk>, k: string)
    requires forall j :: 0 <= j < |keys| ==> Usable(jwt, keys[j])
    ensures k in KeyMap(jwt, keys) <==> exists j :: 0 <= j < |keys| && keys[j].kid == Some(k)
    ensures forall j :: 0 <= j < |keys| && keys[j].kid == Some(k)
                        && (forall j' :: j < j' < |keys| ==> keys[j'].kid != Some(k))
                        ==> k in KeyMap(jwt, keys) && KeyMap(jwt, keys)[k] == jwt.fromJwk(keys[j]).value
  {
    KeyMapKeys(jwt, keys, k);
    forall j | 0 <= j < |keys| && keys[j].kid == Some(k)
               && (forall j' :: j < j' < |keys| ==> keys[j'].kid != Some(k))
      ensures k in KeyMap(jwt, keys) && KeyMap(jwt, keys)[k] == jwt.fromJwk(keys[j]).value
    {
      KeyMapLast(jwt, keys, k, j);
    }
  }

  lemma {:induction false} KeyMapKeys(jwt: Jwt, keys: seq<Jwk>, k: string)
    requires forall j :: 0 <= j < |keys| ==> Usable(jwt, keys[j])
    ensures k in KeyMap(jwt, keys) <==> exists j :: 0 <= j < |keys| && keys[j].kid == Some(k)
    decreases |keys|
  {
    if keys != [] {
      var front := keys[..|keys| - 1];
      assert forall j :: 0 <= j < |front| ==> front[j] == keys[j];
      KeyMapKeys(jwt, front, k);
      if k in KeyMap(jwt, front) {
        var j :| 0 <= j < |front| && front[j].kid == Some(k);
        assert keys[j].kid == Some(k);
      } else if keys[|keys| - 1].kid != Some(k) {
        forall j | 0 <= j < |keys| ensures keys[j].kid != Some(k) {
          if j < |front| { assert front[j] == keys[j]; }
        }
      }
    }
  }

  lemma {:induction false} KeyMapLast(jwt: Jwt, keys: seq<Jwk>, k: string, j: nat)
    requires forall i :: 0 <= i < |keys| ==> Usable(jwt, keys[i])
    requires j < |keys| && keys[j].kid == Some(k)
    requires forall j' :: j < j' < |keys| ==> keys[j'].kid != Some(k)
    ensures k in KeyMap(jwt, keys) && KeyMap(jwt, keys)[k] == jwt.fromJwk(keys[j]).value
    decreases |keys|
  {
    if j < |keys| - 1 {
      var front := keys[..|keys| - 1];
      assert forall i :: 0 <= i < |front| ==> front[i] == keys[i];
      KeyMapLast(jwt, front, k, j);
      assert keys[|keys| - 1].kid != Some(k);
    }
  }

  /** A fetched key list whose keys all have a `kid` and convert fills the
      cache with exactly those `kid`s; otherwise the first key without a
      `kid` raises KeyError, or the first key `from_jwk` rejects raises
      InvalidKeyError, and the keys before it stay cached. */
  lemma PublicKeysFetched(net: Network, jwt: Jwt, keys: seq<Jwk>, k: string)
    requires net.discovery.Fetched? && net.discovery.body.jwksUri.Some?
    requires net.jwks(net.discovery.body.jwksUri.value) == Fetched(JwksDoc(Some(keys)))
    ensures var o := PublicKeys(net, jwt, None);
      && (o.result.Ok? <==> forall j :: 0 <= j < |keys| ==> keys[j].kid.Some? && jwt.fromJwk(keys[j]).Some?)
      && (o.result.Ok? ==>
            && o.cache == Some(o.result.value)
            && (k in o.result.value <==> exists j :: 0 <= j < |keys| && keys[j].kid == Some(k)))
      && (o.result.Err? ==>
            var n := FirstBadKey(jwt, keys);
            && n < |keys|
            && (forall j :: 0 <= j < n ==> keys[j].kid.Some? && jwt.fromJwk(keys[j]).Some?)
            && (keys[n].kid.None? ==> o.result.error == MissingKey("kid"))
            && (keys[n].kid.Some? ==> jwt.fromJwk(keys[n]).None? && o.result.error == InvalidKey)
            && o.cache == Some(KeyMap(jwt, keys[..n])))
  {
    var n := FirstBadKey(jwt, keys);
    if n == |keys| {
      assert keys[..n] == keys;
      KeyMapSpec(jwt, keys, k);
    }
  }

  // ---------------------------------------------------------------------
  // UMA tickets

  /** The form fields of a ticket request: the fixed grant type, claim
      token format and audience, then the extra parameters merged over them. */
  function UmaBody(audience: string, extra: map<string, string>): map<string, string> {
    map["grant_type" := "urn:ietf:params:oauth:grant-type:uma-ticket",
        "claim_token_format" := "urn:ietf:params:oauth:token-type:jwt",
        "audience" := audience] + extra
  }

  lemma UmaBodySpec(audience: string, extra: map<string, string>, k: string)
    ensures UmaBody(audience, extra).Keys == {"grant_type", "claim_token_format", "audience"} + extra.Keys
    ensures k in extra ==> UmaBody(audience, extra)[k] == extra[k]
    ensures "grant_type" !in extra ==>
      UmaBody(audience, extra)["grant_type"] == "urn:ietf:params:oauth:grant-type:uma-ticket"
    ensures "claim_token_format" !in extra ==>
      UmaBody(audience, extra)["claim_token_format"] == "urn:ietf:params:oauth:token-type:jwt"
    ensures "audience" !in extra ==> UmaBody(audience, extra)["audience"] == audience
  {
  }

  /** `get_uma_token`: the ticket exchange (a 403 on failure), the ticket's
      `access_token`, its header `kid`, the key for that `kid` from the
      public keys, and the verified claims. */
  function UmaToken(net: Network, jwt: Jwt, cache: Option<map<string, PublicKey>>,
                    audience: string, accessToken: string, extra: map<string, string>): Outcome<(string, Claims)>
  {
    var body := UmaBody(audience, extra);
    var sent := [PostToken(accessToken, body)];
    var resp := net.token(accessToken, body);
    if !resp.Fetched? then Outcome(Err(Forbidden), cache, sent)
    else if resp.body.accessToken.None? then Outcome(Err(MissingKey("access_token")), cache, sent)
    else
      var token := resp.body.accessToken.value;
      var kid := jwt.header(token);
      if kid.Err? then Outcome(Err(kid.error), cache, sent)
      else
        var keys := PublicKeys(net, jwt, cache);
        var requests := sent + keys.requests;
        if keys.result.Err? then Outcome(Err(keys.result.error), keys.cache, requests)
        else if kid.value !in keys.result.value then Outcome(Err(MissingKey(kid.value)), keys.cache, requests)
        else match jwt.decode(token, keys.result.value[kid.value], audience)
          case None => Outcome(Err(InvalidToken), keys.cache, requests)
          case Some(claims) => Outcome(Ok((token, claims)), keys.cache, requests)
  }

  /** A ticket is accepted only when it was issued, names a `kid` present in
      the public keys, and verifies under that key; the claims are the
      verified ones.  A ticket whose `kid` is unknown, or that does not
      verify, is refused. */
  lemma UmaTokenVerified(net: Network, jwt: Jwt, cache: Option<map<string, PublicKey>>,
                         audience: string, accessToken: string, extra: map<string, string>)
    ensures var o := UmaToken(net, jwt, cache, audience, accessToken, extra);
      var resp := net.token(accessToken, UmaBody(audience, extra));
      var keys := PublicKeys(net, jwt, cache);
      && (o.result.Ok? ==>
            var token := o.result.value.0;
            && resp.Fetched? && resp.body.accessToken == Some(token)
            && jwt.header(token).Ok? && keys.result.Ok? && jwt.header(token).value in keys.result.value
            && jwt.decode(token, keys.result.value[jwt.header(token).value], audience) == Some(o.result.value.1))
      && (resp.Fetched? && resp.body.accessToken.Some? && jwt.header(resp.body.accessToken.value).Ok?
          && keys.result.Ok? ==>
            var token := resp.body.accessToken.value;
            var kid := jwt.header(token).value;
            && (kid !in keys.result.value ==> o.result == Err(MissingKey(kid)))
            && (kid in keys.result.value && jwt.decode(token, keys.result.value[kid], audience).None?
                ==> o.result == Err(InvalidToken)))
  {
  }

  // ---------------------------------------------------------------------
  // Claims

  /** `decoded_token["authorization"]["permissions"]`. */
  function Permissions(c: Claims): (r: Result<seq<PermissionClaim>>)
    ensures c.authorization.None? ==> r == Err(MissingKey("authorization"))
    ensures c.authorization.Some? && c.authorization.value.permissions.None? ==> r == Err(MissingKey("permissions"))
    ensures r.Ok? <==> c.authorization.Some? && c.authorization.value.permissions.Some?
    ensures r.Ok? ==> r.value == c.authorization.value.permissions.value
  {
    if c.authorization.None? then Err(MissingKey("authorization"))
    else if c.authorization.value.permissions.None? then Err(MissingKey("permissions"))
    else Ok(c.authorization.value.permissions.value)
  }

  /** `decoded.get("resource_access", {}).get(context, {}).get("roles", [])`. */
  function RolesOf(c: Claims, context: string): (roles: seq<string>)
    ensures c.resourceAccess.None? ==> roles == []
    ensures c.resourceAccess.Some? && context !in c.resourceAccess.value ==> roles == []
    ensures c.resourceAccess.Some? && context in c.resourceAccess.value ==>
      roles == c.resourceAccess.value[context].roles.GetOr([])
  {
    if c.resourceAccess.None? || context !in c.resourceAccess.value then []
    else c.resourceAccess.value[context].roles.GetOr([])
  }

  // ---------------------------------------------------------------------
  // DataMiner endpoint

  /** `D4SCIENCE_DISCOVER_WPS.lower() in ["true", "1"]`. */
  predicate DiscoverEnabled(flag: string) {
    Lower(flag) == "true" || Lower(flag) == "1"
  }

  /** The discovery switch does not depend on the letter case of the flag. */
  lemma DiscoverIgnoresCase(flag: string)
    ensures DiscoverEnabled(Lower(flag)) == DiscoverEnabled(flag)
  {
    Spawner.LowerIdempotent(flag);
  }

  /** An access point whose lookups raise KeyError. */
  predicate BadAccessPoint(ap: AccessPoint) {
    ap.endpoint.None? || ap.endpoint.value.entryName.None?
    || (ap.endpoint.value.entryName == Some("Cluster") && ap.endpoint.value.text.None?)
  }

  predicate IsCluster(ap: AccessPoint) {
    ap.endpoint.Some? && ap.endpoint.value.entryName == Some("Cluster") && ap.endpoint.value.text.Some?
  }

  /** The loop of `get_wps` from `found` on: each Cluster access point
      replaces the endpoint, a KeyError ends the loop keeping it. */
  function WpsFrom(aps: seq<AccessPoint>, found: Option<string>): Option<string> {
    if aps == [] || BadAccessPoint(aps[0]) then found
    else WpsFrom(aps[1..], if IsCluster(aps[0]) then Some(aps[0].endpoint.value.text.value) else found)
  }

  /** The number of leading access points that do not raise. */
  function FirstBadAccessPoint(aps: seq<AccessPoint>): (n: nat)
    ensures n <= |aps|
    ensures forall j :: 0 <= j < n ==> !BadAccessPoint(aps[j])
    ensures n < |aps| ==> BadAccessPoint(aps[n])
  {
    if aps == [] || BadAccessPoint(aps[0]) then 0 else 1 + FirstBadAccessPoint(aps[1..])
  }

  /** The endpoint of the last Cluster access point, if any. */
  function LastCluster(aps: seq<AccessPoint>): (r: Option<string>)
    ensures r.None? <==> forall j :: 0 <= j < |aps| ==> !IsCluster(aps[j])
    ensures r.Some? ==> exists j :: (0 <= j < |aps| && IsCluster(aps[j])
      && r.value == aps[j].endpoint.value.text.value
      && forall j' :: j < j' < |aps| ==> !IsCluster(aps[j']))
  {
    if aps == [] then None
    else if IsCluster(aps[|aps| - 1]) then Some(aps[|aps| - 1].endpoint.value.text.value)
    else
      var r := LastCluster(aps[..|aps| - 1]);
      assert forall j :: 0 <= j < |aps| - 1 ==> aps[..|aps| - 1][j] == aps[j];
      r
  }

  lemma {:induction false} LastClusterCons(x: AccessPoint, s: seq<AccessPoint>)
    ensures LastCluster([x] + s) == if LastCluster(s).Some? then LastCluster(s)
                                    else if IsCluster(x) then Some(x.endpoint.value.text.value) else None
  {
    if s != [] {
      var xs, front := [x] + s, s[..|s| - 1];
      assert xs[|xs| - 1] == s[|s| - 1];
      assert xs[..|xs| - 1] == [x] + front;
      if IsCluster(s[|s| - 1]) {
        assert LastCluster(xs) == LastCluster(s) == Some(s[|s| - 1].endpoint.value.text.value);
      } else {
        LastClusterCons(x, front);
        assert LastCluster(xs) == LastCluster([x] + front);
        assert LastCluster(s) == LastCluster(front);
      }
    }
  }

  /** Up to the first access point that raises, the last Cluster one wins;
      without any, the endpoint found before is kept. */
  lemma {:induction false} WpsFromSpec(aps: seq<AccessPoint>, found: Option<string>)
    ensures var c := LastCluster(aps[..FirstBadAccessPoint(aps)]);
      WpsFrom(aps, found) == if c.Some? then c else found
  {
    if aps != [] && !BadAccessPoint(aps[0]) {
      var next := if IsCluster(aps[0]) then Some(aps[0].endpoint.value.text.value) else found;
      WpsFromSpec(aps[1..], next);
      var n := FirstBadAccessPoint(aps);
      assert aps[..n] == [aps[0]] + aps[1..][..n - 1];
      LastClusterCons(aps[0], aps[1..][..n - 1]);
    } else {
      assert aps[..FirstBadAccessPoint(aps)] == [];
    }
  }

  /** `get_wps`: nothing unless discovery is enabled; nothing when the
      fetch fails or the access-point path is missing; otherwise the
      selection above. */
  function Wps(net: Network, flag: string, bearer: string): Option<string> {
    if !DiscoverEnabled(flag) then None
    else match net.dataMiner(bearer)
      case HttpError => None
      case Fetched(doc) => if doc.accessPoints.None? then None else WpsFrom(doc.accessPoints.value, None)
  }

  function WpsRequests(flag: string, bearer: string): seq<Request> {
    if DiscoverEnabled(flag) then [GetDataMiner(bearer)] else []
  }

  /** The discovery switch ignores letter case. */
  lemma DiscoverEnabledExamples()
    ensures DiscoverEnabled("true") && DiscoverEnabled("TRUE") && DiscoverEnabled("True") && DiscoverEnabled("1")
    ensures !DiscoverEnabled("false") && !DiscoverEnabled("yes") && !DiscoverEnabled("")
  {
    assert Lower("TRUE") == "true";
    assert Lower("True") == "true";
    assert Lower("yes") == "yes";
    assert Lower("false") == "false";
  }

  /** `_get_d4science_attr`: the form-encoded value, `None` for an absent
      or empty one. */
  function D4ScienceAttr(codec: Codec, v: Option<string>): (r: Option<string>)
    ensures r.None? <==> !Truthy(v)
    ensures r.Some? ==> r.value == codec.quotePlus(v.value)
  {
    if Truthy(v) then Some(codec.quotePlus(v.value)) else None
  }

  // ---------------------------------------------------------------------
  // Environment handed to the spawner

  const SpawnEnvKeys: set<string> :=
    {"GCUBE_TOKEN", "D4SCIENCE_TOKEN", "GCUBE_CONTEXT", "D4SCIENCE_CONTEXT", "DATAMINER_URL"}

  /** The environment after `pre_spawn_start`, including the writes made
      before a missing `context_token` or `context` raises. */
  function StartEnvironment(env: map<string, string>, a: AuthState, unquote: string -> string): (r: map<string, string>)
    ensures a.contextToken.None? ==> r == env
    ensures a.contextToken.Some? ==>
      && "GCUBE_TOKEN" in r && r["GCUBE_TOKEN"] == a.contextToken.value
      && "D4SCIENCE_TOKEN" in r && r["D4SCIENCE_TOKEN"] == a.contextToken.value
    ensures a.contextToken.Some? && a.context.None? ==>
      r == env["GCUBE_TOKEN" := a.contextToken.value]["D4SCIENCE_TOKEN" := a.contextToken.value]
    ensures a.contextToken.Some? && a.context.Some? ==>
      && "GCUBE_CONTEXT" in r && r["GCUBE_CONTEXT"] == unquote(a.context.value)
      && "D4SCIENCE_CONTEXT" in r && r["D4SCIENCE_CONTEXT"] == unquote(a.context.value)
      && ("DATAMINER_URL" in r <==> a.wpsUrl.Some? || "DATAMINER_URL" in env)
      && (a.wpsUrl.Some? ==> r["DATAMINER_URL"] == a.wpsUrl.value)
      && (a.wpsUrl.None? && "DATAMINER_URL" in env ==> r["DATAMINER_URL"] == env["DATAMINER_URL"])
    ensures forall k :: k !in SpawnEnvKeys ==> (k in r <==> k in env) && (k in env ==> r[k] == env[k])
  {
    if a.contextToken.None? then env
    else
      var e1 := env["GCUBE_TOKEN" := a.contextToken.value]["D4SCIENCE_TOKEN" := a.contextToken.value];
      if a.context.None? then e1
      else
        var e2 := e1["GCUBE_CONTEXT" := unquote(a.context.value)]["D4SCIENCE_CONTEXT" := unquote(a.context.value)];
        if a.wpsUrl.Some? then e2["DATAMINER_URL" := a.wpsUrl.value] else e2
  }

  class D4ScienceAuthenticator {
    const clientId: string
    /** `d4science_label_name`, the pod label that carries the `label` argument. */
    const labelName: string
    /** The `D4SCIENCE_DISCOVER_WPS` environment variable. */
    const discoverWps: string
    const codec: Codec

    /** The login arguments the context handler stores on the instance. */
    var d4scienceContext: Option<string>
    var d4scienceNamespace: Option<string>
    var d4scienceLabel: Option<string>
    /** `_pubkeys`: `None` until the first successful key-set fetch. */
    var pubkeys: Option<map<string, PublicKey>>

    constructor (clientId: string, labelName: string, discoverWps: string, codec: Codec)
      ensures this.clientId == clientId && this.labelName == labelName
      ensures this.discoverWps == discoverWps && this.codec == codec
      ensures d4scienceContext == None && d4scienceNamespace == None && d4scienceLabel == None
      ensures pubkeys == None
    {
      this.clientId := clientId;
      this.labelName := labelName;
      this.discoverWps := discoverWps;
      this.codec := codec;
      d4scienceContext := None;
      d4scienceNamespace := None;
      d4scienceLabel := None;
      pubkeys := None;
    }

    method GetIamPublicKeys(net: Network, jwt: Jwt) returns (r: Result<map<string, PublicKey>>, requests: seq<Request>)
      modifies this`pubkeys
      ensures Outcome(r, pubkeys, requests) == PublicKeys(net, jwt, old(pubkeys))
      ensures old(pubkeys).Some? && old(pubkeys).value != map[] ==>
        r == Ok(old(pubkeys).value) && requests == [] && pubkeys == old(pubkeys)
    {
      if pubkeys.Some? && pubkeys.value != map[] {
        return Ok(pubkeys.value), [];
      }
      requests := [GetDiscovery];
      if net.discovery.HttpError? {
        return Err(Forbidden), requests;
      }
      var uri := net.discovery.body.jwksUri;
      if uri.None? {
        return Err(MissingKey("jwks_uri")), requests;
      }
      requests := requests + [GetJwks(uri.value)];
      var doc := net.jwks(uri.value);
      if doc.HttpError? {
        return Err(Forbidden), requests;
      }
      pubkeys := Some(map[]);
      if doc.body.keyList.None? {
        return Err(MissingKey("keys")), requests;
      }
      var keys := doc.body.keyList.value;
      var i := 0;
      while i < |keys|
        invariant 0 <= i <= FirstBadKey(jwt, keys)
        invariant pubkeys == Some(KeyMap(jwt, keys[..i]))
      {
        var jwk := keys[i];
        if jwk.kid.None? {
          return Err(MissingKey("kid")), requests;
        }
        var key := jwt.fromJwk(jwk);
        if key.None? {
          return Err(InvalidKey), requests;
        }
        assert keys[..i + 1][..i] == keys[..i];
        pubkeys := Some(pubkeys.value[jwk.kid.value := key.value]);
        i := i + 1;
      }
      r := Ok(pubkeys.value);
    }

    method GetUmaToken(net: Network, jwt: Jwt, audience: string, accessToken: string, extra: map<string, string>)
      returns (r: Result<(string, Claims)>, requests: seq<Request>)
      modifies this`pubkeys
      ensures Outcome(r, pubkeys, requests) == UmaToken(net, jwt, old(pubkeys), audience, accessToken, extra)
    {
      var form := map["grant_type" := "urn:ietf:params:oauth:grant-type:uma-ticket",
                      "claim_token_format" := "urn:ietf:params:oauth:token-type:jwt",
                      "audience" := audience];
      form := form + extra;
      assert form == UmaBody(audience, extra);
      requests := [PostToken(accessToken, form)];
      var resp := net.token(accessToken, form);
      if !resp.Fetched? {
        return Err(Forbidden), requests;
      }
      var ticket := resp.body;
      if ticket.accessToken.None? {
        return Err(MissingKey("access_token")), requests;
      }
      var ticketToken := ticket.accessToken.value;
      var kid := jwt.header(ticketToken);
      if kid.Err? {
        return Err(kid.error), requests;
      }
      ghost var before := pubkeys;
      var keys, more := GetIamPublicKeys(net, jwt);
      assert Outcome(keys, pubkeys, more) == PublicKeys(net, jwt, before);
      requests := requests + more;
      if keys.Err? {
        return Err(keys.error), requests;
      }
      if kid.value !in keys.value {
        return Err(MissingKey(kid.value)), requests;
      }
      var claims := jwt.decode(ticketToken, keys.value[kid.value], audience);
      if claims.None? {
        return Err(InvalidToken), requests;
      }
      r := Ok((ticketToken, claims.value));
    }

    /** `get_resources`: the catalog, a 403 when the fetch fails. */
    method FetchResources(net: Network, bearer: string) returns (r: Result<Catalog.Document>)
      ensures r.Err? <==> net.resources(bearer).HttpError?
      ensures r.Err? ==> r.error == Forbidden
      ensures r.Ok? ==> r.value == net.resources(bearer).body
    {
      var resp := net.resources(bearer);
      if resp.HttpError? {
        return Err(Forbidden);
      }
      r := Ok(resp.body);
    }

    method GetWps(net: Network, bearer: string) returns (wps: Option<string>, requests: seq<Request>)
      ensures wps == Wps(net, discoverWps, bearer)
      ensures requests == WpsRequests(discoverWps, bearer)
    {
      wps := None;
      requests := [];
      if !DiscoverEnabled(discoverWps) {
        return;
      }
      requests := [GetDataMiner(bearer)];
      var resp := net.dataMiner(bearer);
      if resp.HttpError? || resp.body.accessPoints.None? {
        return;
      }
      var aps := resp.body.accessPoints.value;
      var i := 0;
      while i < |aps|
        invariant 0 <= i <= |aps|
        invariant WpsFrom(aps[i..], wps) == WpsFrom(aps, None)
      {
        var ap := aps[i];
        if ap.endpoint.None? || ap.endpoint.value.entryName.None? {
          return;
        }
        if ap.endpoint.value.entryName.value == "Cluster" {
          if ap.endpoint.value.text.None? {
            return;
          }
          wps := Some(ap.endpoint.value.text.value);
        }
        assert aps[i..][1..] == aps[i + 1..];
        i := i + 1;
      }
    }

    /** The outcome of `authenticate` after the upstream login produced `upstream`. */
    function AuthenticateSpec(net: Network, jwt: Jwt, cache: Option<map<string, PublicKey>>, upstream: AuthState,
                              contextArg: Option<string>, namespaceArg: Option<string>,
                              labelArg: Option<string>): Outcome<AuthState>
    {
      var context := D4ScienceAttr(codec, contextArg);
      if !Truthy(context) then Outcome(Err(Forbidden), cache, [])
      else if upstream.accessToken.None? then Outcome(Err(MissingKey("access_token")), cache, [])
      else
        var accessToken := upstream.accessToken.value;
        var first := UmaToken(net, jwt, cache, clientId, accessToken,
                              map["claim_token" := codec.claimToken(context.value)]);
        if first.result.Err? then Outcome(Err(first.result.error), first.cache, first.requests)
        else
          var second := UmaToken(net, jwt, first.cache, context.value, accessToken, map[]);
          var requests := first.requests + second.requests;
          if second.result.Err? then Outcome(Err(second.result.error), second.cache, requests)
          else
            var permissions := Permissions(first.result.value.1);
            var wsToken := second.result.value.0;
            if permissions.Err? then Outcome(Err(permissions.error), second.cache, requests)
            else
              var roles := RolesOf(second.result.value.1, context.value);
              var resources := net.resources(wsToken);
              if resources.HttpError? then
                Outcome(Err(Forbidden), second.cache, requests + [GetResources(wsToken)])
              else
                var wps := Wps(net, discoverWps, wsToken);
                Outcome(Ok(upstream.(contextToken := Some(wsToken),
                                     permissions := Some(permissions.value),
                                     context := context,
                                     namespace := D4ScienceAttr(codec, namespaceArg),
                                     labelText := D4ScienceAttr(codec, labelArg),
                                     resources := Some(resources.body),
                                     roles := Some(roles),
                                     wpsUrl := if wps.Some? then wps else upstream.wpsUrl)),
                        second.cache,
                        requests + [GetResources(wsToken)] + WpsRequests(discoverWps, wsToken))
    }

    /** A failed client ticket exchange ends in a 403, and a login that
        succeeds has fetched the resource catalog. */
    lemma HttpFailureForbids(net: Network, jwt: Jwt, upstream: AuthState,
                             contextArg: Option<string>, namespaceArg: Option<string>, labelArg: Option<string>)
      requires Truthy(contextArg) && codec.quotePlus(contextArg.value) != "" && upstream.accessToken.Some?
      ensures var context := codec.quotePlus(contextArg.value);
        var body := UmaBody(clientId, map["claim_token" := codec.claimToken(context)]);
        !net.token(upstream.accessToken.value, body).Fetched? ==>
          AuthenticateSpec(net, jwt, None, upstream, contextArg, namespaceArg, labelArg).result == Err(Forbidden)
      ensures AuthenticateSpec(net, jwt, None, upstream, contextArg, namespaceArg, labelArg).result.Ok? ==>
        var o := AuthenticateSpec(net, jwt, None, upstream, contextArg, namespaceArg, labelArg);
        o.result.value.contextToken.Some? && net.resources(o.result.value.contextToken.value).Fetched?
    {
    }

    /** The login is refused with a 403 before any request exactly when the
        encoded context is absent or empty, which is what `if not context`
        tests: an argument whose encoding is empty is refused too. */
    lemma ContextRequired(net: Network, jwt: Jwt, cache: Option<map<string, PublicKey>>, upstream: AuthState,
                          contextArg: Option<string>, namespaceArg: Option<string>, labelArg: Option<string>)
      ensures var o := AuthenticateSpec(net, jwt, cache, upstream, contextArg, namespaceArg, labelArg);
        (o.result == Err(Forbidden) && o.requests == []) <==> !Truthy(D4ScienceAttr(codec, contextArg))
    {
    }

    /** A refused client ticket ends the login with its error, and so does
        a refused context ticket: a login never succeeds past a ticket that
        does not verify or whose `kid` is unknown. */
    lemma TicketRejected(net: Network, jwt: Jwt, cache: Option<map<string, PublicKey>>, upstream: AuthState,
                         contextArg: Option<string>, namespaceArg: Option<string>, labelArg: Option<string>)
      requires Truthy(contextArg) && codec.quotePlus(contextArg.value) != "" && upstream.accessToken.Some?
      ensures var context := codec.quotePlus(contextArg.value);
        var first := UmaToken(net, jwt, cache, clientId, upstream.accessToken.value,
                              map["claim_token" := codec.claimToken(context)]);
        var second := UmaToken(net, jwt, first.cache, context, upstream.accessToken.value, map[]);
        var r := AuthenticateSpec(net, jwt, cache, upstream, contextArg, namespaceArg, labelArg).result;
        && (first.result.Err? ==> r == Err(first.result.error))
        && (first.result.Ok? && second.result.Err? ==> r == Err(second.result.error))
    {
    }

    /** A successful login stores the encoded context, the permissions of
        the client ticket, the roles the context ticket grants in that
        context, the catalog fetched with the context ticket, and the
        namespace and label arguments; the first request is the client
        ticket exchange with the claim token for the context. */
    lemma AuthenticateOk(net: Network, jwt: Jwt, cache: Option<map<string, PublicKey>>, upstream: AuthState,
                         contextArg: Option<string>, namespaceArg: Option<string>, labelArg: Option<string>)
      requires AuthenticateSpec(net, jwt, cache, upstream, contextArg, namespaceArg, labelArg).result.Ok?
      ensures var o := AuthenticateSpec(net, jwt, cache, upstream, contextArg, namespaceArg, labelArg);
        var a := o.result.value;
        && Truthy(contextArg) && codec.quotePlus(contextArg.value) != "" && upstream.accessToken.Some?
        && a.context == Some(codec.quotePlus(contextArg.value))
        && a.namespace == D4ScienceAttr(codec, namespaceArg) && a.labelText == D4ScienceAttr(codec, labelArg)
        && a.accessToken == upstream.accessToken
        && var first := UmaToken(net, jwt, cache, clientId, upstream.accessToken.value,
                                 map["claim_token" := codec.claimToken(a.context.value)]);
           var second := UmaToken(net, jwt, first.cache, a.context.value, upstream.accessToken.value, map[]);
           && first.result.Ok? && second.result.Ok?
           && a.permissions == Some(first.result.value.1.authorization.value.permissions.value)
           && a.roles == Some(RolesOf(second.result.value.1, a.context.value))
           && a.contextToken == Some(second.result.value.0)
           && a.resources == Some(net.resources(second.result.value.0).body)
           && o.requests[0] == PostToken(upstream.accessToken.value,
                                         UmaBody(clientId, map["claim_token" := codec.claimToken(a.context.value)]))
    {
    }

    /** What a successful login hands to a spawn: both token variables carry
        the context ticket, both context variables carry the context
        argument encoded at login and decoded at spawn, and the namespace
        is set exactly when the encoded namespace argument is non-empty. */
    lemma LoginToSpawn(net: Network, jwt: Jwt, cache: Option<map<string, PublicKey>>, upstream: AuthState,
                       contextArg: Option<string>, namespaceArg: Option<string>, labelArg: Option<string>,
                       env: map<string, string>)
      requires AuthenticateSpec(net, jwt, cache, upstream, contextArg, namespaceArg, labelArg).result.Ok?
      ensures var a := AuthenticateSpec(net, jwt, cache, upstream, contextArg, namespaceArg, labelArg).result.value;
        var r := StartEnvironment(env, a, codec.unquote);
        && Truthy(contextArg) && a.contextToken.Some?
        && "D4SCIENCE_TOKEN" in r && r["D4SCIENCE_TOKEN"] == a.contextToken.value
        && "GCUBE_TOKEN" in r && r["GCUBE_TOKEN"] == a.contextToken.value
        && "D4SCIENCE_CONTEXT" in r && r["D4SCIENCE_CONTEXT"] == codec.unquote(codec.quotePlus(contextArg.value))
        && "GCUBE_CONTEXT" in r && r["GCUBE_CONTEXT"] == codec.unquote(codec.quotePlus(contextArg.value))
        && (Truthy(a.namespace) <==> Truthy(namespaceArg) && codec.quotePlus(namespaceArg.value) != "")
        && (Truthy(a.namespace) ==> a.namespace.value == codec.quotePlus(namespaceArg.value))
    {
      AuthenticateOk(net, jwt, cache, upstream, contextArg, namespaceArg, labelArg);
    }

    /** `authenticate`, from the upstream login's `auth_state` on. */
    method Authenticate(net: Network, jwt: Jwt, upstream: AuthState) returns (r: Result<AuthState>, requests: seq<Request>)
      modifies this`pubkeys
      ensures Outcome(r, pubkeys, requests)
           == AuthenticateSpec(net, jwt, old(pubkeys), upstream, d4scienceContext, d4scienceNamespace, d4scienceLabel)
      ensures !Truthy(D4ScienceAttr(codec, d4scienceContext)) ==>
        r == Err(Forbidden) && requests == [] && pubkeys == old(pubkeys)
    {
      var context := D4ScienceAttr(codec, d4scienceContext);
      if !Truthy(context) {
        return Err(Forbidden), [];
      }
      if upstream.accessToken.None? {
        return Err(MissingKey("access_token")), [];
      }
      var accessToken := upstream.accessToken.value;
      var extra := map["claim_token" := codec.claimToken(context.value)];
      var first, sent := GetUmaToken(net, jwt, clientId, accessToken, extra);
      requests := sent;
      if first.Err? {
        return Err(first.error), requests;
      }
      var second, more := GetUmaToken(net, jwt, context.value, accessToken, map[]);
      requests := requests + more;
      if second.Err? {
        return Err(second.error), requests;
      }
      var (token, claims) := first.value;
      var (wsToken, wsClaims) := second.value;
      var permissions := Permissions(claims);
      if permissions.Err? {
        return Err(permissions.error), requests;
      }
      var roles := RolesOf(wsClaims, context.value);
      requests := requests + [GetResources(wsToken)];
      var resources := FetchResources(net, wsToken);
      if resources.Err? {
        return Err(Forbidden), requests;
      }
      var state := upstream.(contextToken := Some(wsToken), permissions := Some(permissions.value),
                             context := context,
                             namespace := D4ScienceAttr(codec, d4scienceNamespace),
                             labelText := D4ScienceAttr(codec, d4scienceLabel),
                             resources := Some(resources.value), roles := Some(roles));
      var wps, last := GetWps(net, wsToken);
      requests := requests + last;
      if wps.Some? {
        state := state.(wpsUrl := wps);
      }
      r := Ok(state);
    }

    /** `pre_spawn_start`: copies the namespace and label (when non-empty),
        the context token and the decoded context into the spawner. */
    method PreSpawnStart(authState: Option<AuthState>, spawner: Spawner.D4ScienceSpawner) returns (r: Result<()>)
      modifies spawner`namespace, spawner`extraLabels, spawner`environment
      ensures !Present(authState) ==>
        && r == Ok(())
        && spawner.namespace == old(spawner.namespace) && spawner.extraLabels == old(spawner.extraLabels)
        && spawner.environment == old(spawner.environment)
      ensures Present(authState) ==>
        var a := authState.value;
        && spawner.namespace == (if Truthy(a.namespace) then a.namespace.value else old(spawner.namespace))
        && spawner.extraLabels == (if Truthy(a.labelText) then old(spawner.extraLabels)[labelName := a.labelText.value]
                                   else old(spawner.extraLabels))
        && spawner.environment == StartEnvironment(old(spawner.environment), a, codec.unquote)
        && r == (if a.contextToken.None? then Err(MissingKey("context_token"))
                 else if a.context.None? then Err(MissingKey("context")) else Ok(()))
    {
      if !Present(authState) {
        return Ok(());
      }
      var a := authState.value;
      if Truthy(a.namespace) {
        spawner.namespace := a.namespace.value;
      }
      if Truthy(a.labelText) {
        spawner.extraLabels := spawner.extraLabels[labelName := a.labelText.value];
      }
      if a.contextToken.None? {
        return Err(MissingKey("context_token"));
      }
      spawner.environment := spawner.environment["GCUBE_TOKEN" := a.contextToken.value];
      spawner.environment := spawner.environment["D4SCIENCE_TOKEN" := a.contextToken.value];
      if a.context.None? {
        return Err(MissingKey("context"));
      }
      spawner.environment := spawner.environment["GCUBE_CONTEXT" := codec.unquote(a.context.value)];
      spawner.environment := spawner.environment["D4SCIENCE_CONTEXT" := codec.unquote(a.context.value)];
      if a.wpsUrl.Some? {
        spawner.environment := spawner.environment["DATAMINER_URL" := a.wpsUrl.value];
      }
      r := Ok(());
    }
  }
}
