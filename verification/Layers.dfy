/**
What each filter of the chain does to a request, as functions of the message, and what a whole chain of
them lets through.
*/
module Layers {
  import opened Prelude
  import opened Config
  import opened Http
  import opened Printing

  // ---------------------------------------------------------------- the token library

  /** A claim or header field of a decoded token; reading one that is not a string throws. */
  datatype Claim = Absent | Text(s: string) | Malformed

  datatype Token = Token(raw: string, kid: Claim, subject: Claim, issuer: Claim)
  datatype Jwk = Jwk(kid: Option<string>, x5c: Option<string>)
  datatype Verification = Verified | VerificationFailed | OtherError

  /** jwt-cpp and OpenSSL: decoding, key sets, certificate conversion, and the RS256 verifier with its
      optional issuer and audience. None stands for a thrown exception. */
  datatype TokenLibrary = TokenLibrary(
    decode: string -> Option<Token>,
    parseJwks: string -> Option<seq<Jwk>>,
    toPem: string -> Option<string>,
    verify: (string, Option<string>, Option<string>, Token) -> Verification)

  /** A key set with the policy configuration it was fetched for. */
  datatype JwksCache = JwksCache(cfg: JwtConfig, json: string)

  datatype Verdict = Accept(subject: string, issuer: Option<string>) | Reject(message: string)

  function Unauthorized(message: string): Bytes {
    "{\"error\":\"unauthorized\",\"message\":\"" + message + "\"}"
  }

  function KidIs(kid: string): Jwk -> bool {
    (k: Jwk) => k.kid == Some(kid)
  }

  /** The key for a token: the first with its key id, or the first of the set when it names none. */
  function ChooseKey(keys: seq<Jwk>, kid: Claim): Option<Jwk> {
    match kid
    case Absent => if keys == [] then None else Some(keys[0])
    case Malformed => None
    case Text(id) =>
      var at := FirstWhere(KidIs(id), keys);
      if at.Some? then Some(keys[at.value]) else None
  }

  function Required(s: string): Option<string> {
    if s == "" then None else Some(s)
  }

  /** The part of JwtPolicy::onRequest between the bearer token and the header edits. */
  function CheckToken(lib: TokenLibrary, cache: JwksCache, text: string): (v: Verdict)
  {
    match lib.decode(text)
    case None => Reject("invalid token")
    case Some(token) =>
      match lib.parseJwks(cache.json)
      case None => Reject("invalid token")
      case Some(keys) =>
        if token.kid.Malformed? then Reject("invalid token") else
        match ChooseKey(keys, token.kid)
        case None => Reject(if token.kid.Text? then "unknown key id" else "empty JWKS")
        case Some(key) =>
          if key.x5c.None? || lib.toPem(key.x5c.value).None? then Reject("invalid token") else
          var pem := lib.toPem(key.x5c.value).value;
          match lib.verify(pem, Required(cache.cfg.issuer), Required(cache.cfg.audience), token)
          case VerificationFailed => Reject("token verification failed")
          case OtherError => Reject("invalid token")
          case Verified =>
            if !token.subject.Text? || token.issuer.Malformed? then Reject("invalid token")
            else Accept(token.subject.s, if token.issuer.Text? then Some(token.issuer.s) else None)
  }

  /** The key a token is checked with: the first that has its key id, or the first of all when it names none. */
  ghost predicate KeyFor(keys: seq<Jwk>, kid: Claim, key: Jwk) {
    match kid
    case Absent => keys != [] && key == keys[0]
    case Malformed => false
    case Text(id) =>
      exists k ::
        && 0 <= k < |keys| && keys[k] == key && key.kid == Some(id)
        && forall j | 0 <= j < k :: keys[j].kid != Some(id)
  }

  lemma ChosenKeyIff(keys: seq<Jwk>, kid: Claim, key: Jwk)
    ensures ChooseKey(keys, kid) == Some(key) <==> KeyFor(keys, kid, key)
  {
    if kid.Text? {
      var at := FirstWhere(KidIs(kid.s), keys);
      assert forall j | 0 <= j < |keys| :: KidIs(kid.s)(keys[j]) <==> keys[j].kid == Some(kid.s);
      if KeyFor(keys, kid, key) {
        var k :| 0 <= k < |keys| && keys[k] == key && key.kid == Some(kid.s)
                 && forall j | 0 <= j < k :: keys[j].kid != Some(kid.s);
        assert at == Some(k);
      }
    }
  }

  /** The text decodes to this token, and the verifier, with the key of the token and the issuer and audience the
      policy configures, comes to this result. */
  ghost predicate Judged(lib: TokenLibrary, cache: JwksCache, text: string, token: Token, result: Verification) {
    exists keys, key, pem ::
      && lib.decode(text) == Some(token) && lib.parseJwks(cache.json) == Some(keys)
      && KeyFor(keys, token.kid, key) && key.x5c.Some? && lib.toPem(key.x5c.value) == Some(pem)
      && lib.verify(pem, if cache.cfg.issuer == "" then None else Some(cache.cfg.issuer),
                    if cache.cfg.audience == "" then None else Some(cache.cfg.audience), token) == result
  }

  /** The token is good for this key set and names this subject and issuer. */
  ghost predicate TokenNames(lib: TokenLibrary, cache: JwksCache, text: string, subject: string,
                             issuer: Option<string>) {
    exists token ::
      && Judged(lib, cache, text, token, Verified)
      && token.subject == Text(subject) && token.issuer == if issuer.Some? then Text(issuer.value) else Absent
  }

  ghost predicate TokenGood(lib: TokenLibrary, cache: JwksCache, text: string) {
    exists subject, issuer :: TokenNames(lib, cache, text, subject, issuer)
  }

  /** The result of the verifier for a text, when the check gets that far. */
  function Judgement(lib: TokenLibrary, cache: JwksCache, text: string): Option<Verification> {
    var token, keys := lib.decode(text), lib.parseJwks(cache.json);
    if token.None? || keys.None? then None else
    var key := ChooseKey(keys.value, token.value.kid);
    if key.None? || key.value.x5c.None? || lib.toPem(key.value.x5c.value).None? then None
    else
      Some(lib.verify(lib.toPem(key.value.x5c.value).value, Required(cache.cfg.issuer), Required(cache.cfg.audience),
                      token.value))
  }

  lemma JudgedIff(lib: TokenLibrary, cache: JwksCache, text: string, token: Token, result: Verification)
    ensures Judged(lib, cache, text, token, result) <==>
            lib.decode(text) == Some(token) && Judgement(lib, cache, text) == Some(result)
  {
    if lib.decode(text) == Some(token) && lib.parseJwks(cache.json).Some? {
      var keys := lib.parseJwks(cache.json).value;
      forall key { ChosenKeyIff(keys, token.kid, key); }
    }
  }

  /** The check accepts a token for exactly the subject and issuer that a good token names. */
  lemma AcceptedIffGood(lib: TokenLibrary, cache: JwksCache, text: string, subject: string, issuer: Option<string>)
    ensures CheckToken(lib, cache, text) == Accept(subject, issuer) <==> TokenNames(lib, cache, text, subject, issuer)
  {
    forall token { JudgedIff(lib, cache, text, token, Verified); }
    var accepted := CheckToken(lib, cache, text) == Accept(subject, issuer);
    assert accepted ==> Judged(lib, cache, text, lib.decode(text).value, Verified);
  }

  /** Why a text that is not good is refused. */
  ghost predicate RefusedFor(lib: TokenLibrary, cache: JwksCache, text: string, message: string) {
    message ==
    if exists token :: Judged(lib, cache, text, token, VerificationFailed) then "token verification failed"
    else if UnknownKey(lib, cache, text) then "unknown key id"
    else if NoKeys(lib, cache, text) then "empty JWKS"
    else "invalid token"
  }

  /** The token names a key id that no key of the set has. */
  ghost predicate UnknownKey(lib: TokenLibrary, cache: JwksCache, text: string) {
    var token, keys := lib.decode(text), lib.parseJwks(cache.json);
    && token.Some? && keys.Some? && token.value.kid.Text?
    && forall k | k in keys.value :: k.kid != Some(token.value.kid.s)
  }

  ghost predicate NoKeys(lib: TokenLibrary, cache: JwksCache, text: string) {
    lib.decode(text).Some? && lib.decode(text).value.kid == Absent && lib.parseJwks(cache.json) == Some([])
  }

  /** A refusal says why. */
  lemma RefusalSaysWhy(lib: TokenLibrary, cache: JwksCache, text: string, message: string)
    ensures CheckToken(lib, cache, text) == Reject(message) ==> RefusedFor(lib, cache, text, message)
  {
    forall token { JudgedIff(lib, cache, text, token, VerificationFailed); }
    if lib.decode(text).Some? {
      assert Judged(lib, cache, text, lib.decode(text).value, VerificationFailed)
             <==> Judgement(lib, cache, text) == Some(VerificationFailed);
      if lib.parseJwks(cache.json).Some? && lib.decode(text).value.kid.Text? {
        var keys, id := lib.parseJwks(cache.json).value, lib.decode(text).value.kid.s;
        var at := FirstWhere(KidIs(id), keys);
        if at.Some? {
          assert keys[at.value] in keys && KidIs(id)(keys[at.value]);
        } else {
          assert forall j | 0 <= j < |keys| :: !KidIs(id)(keys[j]);
        }
      }
    }
  }

  lemma AcceptsGood(lib: TokenLibrary, cache: JwksCache, text: string)
    ensures CheckToken(lib, cache, text).Accept? <==> TokenGood(lib, cache, text)
  {
    var v := CheckToken(lib, cache, text);
    if v.Accept? {
      AcceptedIffGood(lib, cache, text, v.subject, v.issuer);
    }
    if TokenGood(lib, cache, text) {
      var subject, issuer :| TokenNames(lib, cache, text, subject, issuer);
      AcceptedIffGood(lib, cache, text, subject, issuer);
    }
  }

  // ---------------------------------------------------------------- the filters

  datatype FailurePolicy = FAIL_OPEN | FAIL_CLOSE

  datatype RateLimitKey = RateLimitKey(tenantId: string, routeId: string)
  datatype StoreAnswer = Allowed | Denied | StoreThrew

  datatype Layer = HeaderLayer | JwtLayer(cache: JwksCache) | RateLimitLayer(policy: FailurePolicy)

  /** What one request meets outside the chain: the token library, the two random words a HeaderFilter
      would draw, and the answers of the rate-limit store. */
  datatype Surroundings = Surroundings(
    lib: TokenLibrary,
    hi: UInt64,
    lo: UInt64,
    store: RateLimitKey -> StoreAnswer)

  datatype LayerResult = Pass(headers: Headers) | Block(status: nat, body: Bytes)

  /** HeaderFilter::onRequest. */
  function Stamp(hs: Headers, id: string): Headers {
    var a := if GetSingleOrEmpty(hs, REQUEST_ID) == "" then Set(hs, REQUEST_ID, id) else hs;
    if GetSingleOrEmpty(a, TRACE_ID) == "" then Set(a, TRACE_ID, GetSingleOrEmpty(a, REQUEST_ID)) else a
  }

  const BEARER := "Bearer "

  /** The header edits of an accepted request. */
  function Identify(hs: Headers, subject: string, issuer: Option<string>): Headers {
    var a := Set(hs, JWT_SUBJECT, subject);
    var b := if issuer.Some? then Set(a, JWT_ISSUER, issuer.value) else a;
    Remove(Set(b, AUTH_METHOD, "jwt"), AUTHORIZATION)
  }

  /** JwtPolicy::onRequest. */
  function CheckBearer(lib: TokenLibrary, cache: JwksCache, hs: Headers): LayerResult {
    var auth := GetSingleOrEmpty(hs, AUTHORIZATION);
    if auth == "" then Block(401, Unauthorized("missing Authorization header"))
    else if |auth| <= |BEARER| || auth[..|BEARER|] != BEARER then
      Block(401, Unauthorized("Authorization must be Bearer token"))
    else
      match CheckToken(lib, cache, auth[|BEARER|..])
      case Reject(message) => Block(401, Unauthorized(message))
      case Accept(subject, issuer) => Pass(Identify(hs, subject, issuer))
  }

  function KeyOf(hs: Headers): RateLimitKey {
    RateLimitKey(GetSingleOrEmpty(hs, TENANT_ID), GetSingleOrEmpty(hs, ROUTE_ID))
  }

  predicate RateAllows(store: RateLimitKey -> StoreAnswer, policy: FailurePolicy, key: RateLimitKey) {
    store(key).Allowed? || (store(key).StoreThrew? && policy.FAIL_OPEN?)
  }

  const TOO_MANY := "{\"error\":\"rate_limit_exceeded\",\"message\":\"too many requests\"}"

  function Apply(env: Surroundings, layer: Layer, hs: Headers): LayerResult {
    match layer
    case HeaderLayer => Pass(Stamp(hs, RequestId(env.hi, env.lo)))
    case JwtLayer(cache) => CheckBearer(env.lib, cache, hs)
    case RateLimitLayer(policy) =>
      if RateAllows(env.store, policy, KeyOf(hs)) then Pass(hs) else Block(429, TOO_MANY)
  }

  /** HeaderFilter::onRequest: afterwards each id has exactly one value, not empty, and the client's own where it sent
      one. */
  method StampHeaders(hs: Headers, hi: UInt64, lo: UInt64) returns (out: Headers)
    ensures out == Stamp(hs, RequestId(hi, lo))
    ensures |Values(out, REQUEST_ID)| == 1 == |Values(out, TRACE_ID)|
    ensures Values(out, REQUEST_ID)[0] ==
            if GetSingleOrEmpty(hs, REQUEST_ID) != "" then GetSingleOrEmpty(hs, REQUEST_ID) else RequestId(hi, lo)
    ensures Values(out, TRACE_ID)[0] ==
            if GetSingleOrEmpty(hs, TRACE_ID) != "" then GetSingleOrEmpty(hs, TRACE_ID) else Values(out, REQUEST_ID)[0]
  {
    out := hs;
    if GetSingleOrEmpty(out, REQUEST_ID) == "" {
      out := Set(out, REQUEST_ID, RequestId(hi, lo));
    }
    if GetSingleOrEmpty(out, TRACE_ID) == "" {
      out := Set(out, TRACE_ID, GetSingleOrEmpty(out, REQUEST_ID));
    }
    StampIds(hs, RequestId(hi, lo));
  }

  /** The try block of JwtPolicy::onRequest up to the header edits, one library call after the other: a subject and
      issuer come out exactly when the token is good and names them, and a refusal says why. */
  method VerifyToken(lib: TokenLibrary, cache: JwksCache, text: string) returns (v: Verdict)
    ensures v.Accept? <==> TokenGood(lib, cache, text)
    ensures v.Accept? ==> TokenNames(lib, cache, text, v.subject, v.issuer)
    ensures v.Reject? ==> RefusedFor(lib, cache, text, v.message)
    ensures v == CheckToken(lib, cache, text)
  {
    v := RunChecks(lib, cache, text);
    AcceptsGood(lib, cache, text);
    if v.Accept? {
      AcceptedIffGood(lib, cache, text, v.subject, v.issuer);
    } else {
      RefusalSaysWhy(lib, cache, text, v.message);
    }
  }

  method RunChecks(lib: TokenLibrary, cache: JwksCache, text: string) returns (v: Verdict)
    ensures v == CheckToken(lib, cache, text)
  {
    var decoded := lib.decode(text);
    if decoded.None? { return Reject("invalid token"); }
    var token := decoded.value;
    var jwks := lib.parseJwks(cache.json);
    if jwks.None? { return Reject("invalid token"); }
    var key: Jwk;
    if !token.kid.Absent? {
      if token.kid.Malformed? { return Reject("invalid token"); }
      var at := FirstWhere(KidIs(token.kid.s), jwks.value);
      if at.None? { return Reject("unknown key id"); }
      key := jwks.value[at.value];
    } else {
      if jwks.value == [] { return Reject("empty JWKS"); }
      key := jwks.value[0];
    }
    if key.x5c.None? { return Reject("invalid token"); }
    var pem := lib.toPem(key.x5c.value);
    if pem.None? { return Reject("invalid token"); }
    var issuer: Option<string> := None;
    if cache.cfg.issuer != "" {
      issuer := Some(cache.cfg.issuer);
    }
    var audience: Option<string> := None;
    if cache.cfg.audience != "" {
      audience := Some(cache.cfg.audience);
    }
    var outcome := lib.verify(pem.value, issuer, audience, token);
    if outcome.VerificationFailed? { return Reject("token verification failed"); }
    if outcome.OtherError? || !token.subject.Text? || token.issuer.Malformed? { return Reject("invalid token"); }
    v := Accept(token.subject.s, if token.issuer.Text? then Some(token.issuer.s) else None);
  }

  /** JwtPolicy::onRequest: a request passes exactly when it carries one good bearer token, and then names the token's
      subject and issuer, says "jwt" and has lost Authorization; every other request is answered 401. */
  method AuthorizeBearer(lib: TokenLibrary, cache: JwksCache, hs: Headers) returns (r: LayerResult)
    ensures r.Pass? <==> BearerGood(lib, cache, hs)
    ensures r.Pass? ==>
      exists token, subject, issuer ::
        && Values(hs, AUTHORIZATION) == [BEARER + token] && TokenNames(lib, cache, token, subject, issuer)
        && Identified(Some(Accept(subject, issuer)), hs, r.headers)
    ensures r.Block? ==> r.status == 401
    ensures r == CheckBearer(lib, cache, hs)
  {
    BearerPassesIff(lib, cache, hs);
    var auth := GetSingleOrEmpty(hs, AUTHORIZATION);
    if auth == "" {
      return Block(401, Unauthorized("missing Authorization header"));
    }
    if |auth| <= |BEARER| || auth[..|BEARER|] != BEARER {
      return Block(401, Unauthorized("Authorization must be Bearer token"));
    }
    var token := auth[|BEARER|..];
    var verdict := VerifyToken(lib, cache, token);
    if verdict.Reject? {
      return Block(401, Unauthorized(verdict.message));
    }
    var out := Set(hs, JWT_SUBJECT, verdict.subject);
    if verdict.issuer.Some? {
      out := Set(out, JWT_ISSUER, verdict.issuer.value);
    }
    out := Set(out, AUTH_METHOD, "jwt");
    out := Remove(out, AUTHORIZATION);
    r := Pass(out);
    IdentityValues(hs, verdict.subject, verdict.issuer);
    assert Values(hs, AUTHORIZATION) == [BEARER + token] by { assert auth == BEARER + token; }
  }

  /** RateLimitFilter::onRequest: an answer that throws is settled by the failure policy. */
  method CheckRate(store: RateLimitKey -> StoreAnswer, policy: FailurePolicy, hs: Headers) returns (r: LayerResult)
    ensures r.Pass? <==> RateAllows(store, policy, KeyOf(hs))
    ensures r == if r.Pass? then Pass(hs) else Block(429, TOO_MANY)
  {
    var key := RateLimitKey(GetSingleOrEmpty(hs, TENANT_ID), GetSingleOrEmpty(hs, ROUTE_ID));
    var allowed: bool;
    match store(key) {
      case Allowed => allowed := true;
      case Denied => allowed := false;
      case StoreThrew => allowed := policy == FAIL_OPEN;
    }
    if !allowed {
      return Block(429, TOO_MANY);
    }
    r := Pass(hs);
  }

  method RunLayer(env: Surroundings, layer: Layer, hs: Headers) returns (r: LayerResult)
    ensures r == Apply(env, layer, hs)
  {
    match layer
    case HeaderLayer =>
      var out := StampHeaders(hs, env.hi, env.lo);
      r := Pass(out);
    case JwtLayer(cache) =>
      r := AuthorizeBearer(env.lib, cache, hs);
    case RateLimitLayer(policy) =>
      r := CheckRate(env.store, policy, hs);
  }

  datatype ChainResult = Reached(headers: Headers) | BlockedAt(k: nat, status: nat, body: Bytes)

  /** The result seen from one filter further out. */
  function Deeper(r: ChainResult): ChainResult {
    if r.BlockedAt? then r.(k := r.k + 1) else r
  }

  /** A request through a whole chain: it reaches the terminal, or the k-th filter answers it. */
  function Through(env: Surroundings, layers: seq<Layer>, hs: Headers): (r: ChainResult)
    ensures r.BlockedAt? ==> r.k < |layers|
  {
    if layers == [] then Reached(hs)
    else
      var r := Apply(env, layers[0], hs);
      if r.Block? then BlockedAt(0, r.status, r.body) else Deeper(Through(env, layers[1..], r.headers))
  }

  // ---------------------------------------------------------------- what a chain lets through

  /** The shape PolicyEngine builds. */
  function ChainOf(caches: seq<JwksCache>): seq<Layer> {
    [HeaderLayer] + JwtLayers(caches) + [RateLimitLayer(FAIL_OPEN)]
  }

  function JwtLayers(caches: seq<JwksCache>): seq<Layer> {
    seq(|caches|, i requires 0 <= i < |caches| => JwtLayer(caches[i]))
  }

  /** The request carries one Authorization header, a bearer token (section 2.1 of RFC 6750) that is good for
      the key set. */
  ghost predicate BearerGood(lib: TokenLibrary, cache: JwksCache, hs: Headers) {
    exists token ::
      Values(hs, "Authorization") == ["Bearer " + token] && token != "" && TokenGood(lib, cache, token)
  }

  /** The one value the client gives a header; nothing when it gives none or several. */
  ghost predicate ClientSays(hs: Headers, name: string, value: string) {
    Values(hs, name) == [value] || (|Values(hs, name)| != 1 && value == "")
  }

  /** The store does not deny the client's tenant and route; an answer that throws counts as allowed. */
  ghost predicate LimiterAllows(store: RateLimitKey -> StoreAnswer, hs: Headers) {
    forall tenant, route | ClientSays(hs, "x-tenant-id", tenant) && ClientSays(hs, "x-route-id", route) ::
      store(RateLimitKey(tenant, route)) != Denied
  }

  lemma LimiterAllowsIff(store: RateLimitKey -> StoreAnswer, hs: Headers)
    ensures RateAllows(store, FAIL_OPEN, KeyOf(hs)) <==> LimiterAllows(store, hs)
  {
    assert ClientSays(hs, "x-tenant-id", KeyOf(hs).tenantId) && ClientSays(hs, "x-route-id", KeyOf(hs).routeId);
  }

  lemma BearerPassesIff(lib: TokenLibrary, cache: JwksCache, hs: Headers)
    ensures CheckBearer(lib, cache, hs).Pass? <==> BearerGood(lib, cache, hs)
  {
    var vs, auth := Values(hs, AUTHORIZATION), GetSingleOrEmpty(hs, AUTHORIZATION);
    if CheckBearer(lib, cache, hs).Pass? {
      var token := auth[|BEARER|..];
      AcceptsGood(lib, cache, token);
      assert auth == BEARER + token;
      assert vs == [BEARER + token];
    }
    if BearerGood(lib, cache, hs) {
      var token :| vs == [BEARER + token] && token != "" && TokenGood(lib, cache, token);
      AcceptsGood(lib, cache, token);
      assert auth[..|BEARER|] == BEARER && auth[|BEARER|..] == token;
    }
  }

  /** A name the gateway neither reads as an id nor edits keeps its values. */
  lemma StampKeeps(hs: Headers, id: string, name: string)
    requires Lower(name) != Lower(REQUEST_ID) && Lower(name) != Lower(TRACE_ID)
    ensures Values(Stamp(hs, id), name) == Values(hs, name)
  {
    SetValues(hs, REQUEST_ID, id, name);
    var a := if GetSingleOrEmpty(hs, REQUEST_ID) == "" then Set(hs, REQUEST_ID, id) else hs;
    SetValues(a, TRACE_ID, GetSingleOrEmpty(a, REQUEST_ID), name);
  }

  lemma IdentifyValues(hs: Headers, subject: string, issuer: Option<string>, name: string)
    ensures Values(Identify(hs, subject, issuer), name) ==
            if Lower(name) == Lower(AUTHORIZATION) then []
            else if Lower(name) == Lower(AUTH_METHOD) then ["jwt"]
            else if Lower(name) == Lower(JWT_ISSUER) && issuer.Some? then [issuer.value]
            else if Lower(name) == Lower(JWT_SUBJECT) then [subject]
            else Values(hs, name)
  {
    var a := Set(hs, JWT_SUBJECT, subject);
    var b := if issuer.Some? then Set(a, JWT_ISSUER, issuer.value) else a;
    var c := Set(b, AUTH_METHOD, "jwt");
    SetValues(hs, JWT_SUBJECT, subject, name);
    if issuer.Some? { SetValues(a, JWT_ISSUER, issuer.value, name); }
    SetValues(b, AUTH_METHOD, "jwt", name);
    RemoveValues(c, AUTHORIZATION, name);
  }

  /** After one JWT layer has passed a request, every further one refuses it: the accepting layer takes
      Authorization away and the next one needs it. */
  lemma SecondBearerRefused(lib: TokenLibrary, first: JwksCache, second: JwksCache, hs: Headers)
    requires CheckBearer(lib, first, hs).Pass?
    ensures CheckBearer(lib, second, CheckBearer(lib, first, hs).headers)
            == Block(401, Unauthorized("missing Authorization header"))
  {
    var v := CheckToken(lib, first, GetSingleOrEmpty(hs, AUTHORIZATION)[|BEARER|..]);
    IdentifyValues(hs, v.subject, v.issuer, AUTHORIZATION);
  }

  lemma ThroughOne(env: Surroundings, layer: Layer, rest: seq<Layer>, hs: Headers)
    ensures Through(env, [layer] + rest, hs) ==
            var r := Apply(env, layer, hs);
            if r.Block? then BlockedAt(0, r.status, r.body) else Deeper(Through(env, rest, r.headers))
  {
    assert ([layer] + rest)[1..] == rest;
  }

  /** The rate limiter sees the tenant and route of the client's own request. */
  lemma KeyUntouched(hs: Headers, id: string, subject: string, issuer: Option<string>)
    ensures KeyOf(Stamp(hs, id)) == KeyOf(hs)
    ensures KeyOf(Identify(Stamp(hs, id), subject, issuer)) == KeyOf(hs)
  {
    NamesDistinct();
    StampKeeps(hs, id, TENANT_ID);
    StampKeeps(hs, id, ROUTE_ID);
    IdentifyValues(Stamp(hs, id), subject, issuer, TENANT_ID);
    IdentifyValues(Stamp(hs, id), subject, issuer, ROUTE_ID);
  }

  /** The limiter at position `k` of the chain. */
  function Limited(env: Surroundings, hs: Headers, k: nat): ChainResult {
    if RateAllows(env.store, FAIL_OPEN, KeyOf(hs)) then Reached(hs) else BlockedAt(k, 429, TOO_MANY)
  }

  function Guarded(env: Surroundings, caches: seq<JwksCache>, hs: Headers): ChainResult {
    if caches == [] then Limited(env, hs, 0)
    else
      var r := CheckBearer(env.lib, caches[0], hs);
      if r.Block? then BlockedAt(0, r.status, r.body)
      else if |caches| == 1 then Limited(env, r.headers, 1)
      else BlockedAt(1, 401, Unauthorized("missing Authorization header"))
  }

  lemma ThroughGuard(env: Surroundings, caches: seq<JwksCache>, hs: Headers)
    ensures Through(env, JwtLayers(caches) + [RateLimitLayer(FAIL_OPEN)], hs) == Guarded(env, caches, hs)
    decreases |caches|
  {
    var limiter := [RateLimitLayer(FAIL_OPEN)];
    if caches == [] {
      assert JwtLayers(caches) + limiter == limiter + [];
      ThroughOne(env, RateLimitLayer(FAIL_OPEN), [], hs);
    } else {
      var first, rest := caches[0], caches[1..];
      assert JwtLayers(caches) + limiter == [JwtLayer(first)] + (JwtLayers(rest) + limiter);
      ThroughOne(env, JwtLayer(first), JwtLayers(rest) + limiter, hs);
      var r := CheckBearer(env.lib, first, hs);
      if r.Pass? {
        ThroughGuard(env, rest, r.headers);
        if rest != [] { SecondBearerRefused(env.lib, first, rest[0], hs); }
      }
    }
  }

  /** The whole chain: the ids are stamped first, and at most one JWT layer can be passed. */
  lemma ThroughChain(env: Surroundings, caches: seq<JwksCache>, hs: Headers)
    ensures Through(env, ChainOf(caches), hs)
            == Deeper(Guarded(env, caches, Stamp(hs, RequestId(env.hi, env.lo))))
  {
    var inner := JwtLayers(caches) + [RateLimitLayer(FAIL_OPEN)];
    assert ChainOf(caches) == [HeaderLayer] + inner;
    ThroughOne(env, HeaderLayer, inner, hs);
    ThroughGuard(env, caches, Stamp(hs, RequestId(env.hi, env.lo)));
  }

  /** A request reaches the terminal exactly when the limiter allows its tenant and route, and either no JWT
      layer guards the route, or exactly one does and the request carries one good bearer token. With two
      or more JWT layers nothing ever gets through. */
  lemma ReachesTerminalIff(env: Surroundings, caches: seq<JwksCache>, hs: Headers)
    ensures Through(env, ChainOf(caches), hs).Reached? <==>
            && LimiterAllows(env.store, hs)
            && (caches == [] || (|caches| == 1 && BearerGood(env.lib, caches[0], hs)))
  {
    var id := RequestId(env.hi, env.lo);
    ThroughChain(env, caches, hs);
    KeyUntouched(hs, id, "", None);
    LimiterAllowsIff(env.store, hs);
    if caches != [] {
      StampedBearer(env, caches[0], hs);
    }
  }

  /** Every way to be refused: the JWT layers come before the limiter, so a request without the good bearer token its
      one layer asks for is answered 401 whatever the limiter says, and 429 is left to the others. */
  lemma RefusedWith(env: Surroundings, caches: seq<JwksCache>, hs: Headers)
    ensures var r := Through(env, ChainOf(caches), hs);
            r.BlockedAt? ==>
              if caches == [] || (|caches| == 1 && BearerGood(env.lib, caches[0], hs))
              then (r.status, r.body) == (429, TOO_MANY)
              else if BearerGood(env.lib, caches[0], hs)
              then (r.status, r.body) == (401, Unauthorized("missing Authorization header"))
              else Unwelcome(env.lib, caches[0], hs, r.status, r.body)
  {
    ThroughChain(env, caches, hs);
    if caches != [] {
      StampedBearer(env, caches[0], hs);
      StampedRefusal(env, caches[0], hs);
    }
  }

  /** A 401 that says why. */
  ghost predicate Unwelcome(lib: TokenLibrary, cache: JwksCache, hs: Headers, status: nat, body: Bytes) {
    status == 401 && exists m :: body == Unauthorized(m) && TurnedAway(lib, cache, hs, m)
  }

  lemma StampedRefusal(env: Surroundings, cache: JwksCache, hs: Headers)
    ensures var r := CheckBearer(env.lib, cache, Stamp(hs, RequestId(env.hi, env.lo)));
            r.Block? ==> Unwelcome(env.lib, cache, hs, r.status, r.body)
  {
    var stamped := Stamp(hs, RequestId(env.hi, env.lo));
    if CheckBearer(env.lib, cache, stamped).Block? {
      BlockSaysWhy(env.lib, cache, stamped);
      var m :| CheckBearer(env.lib, cache, stamped) == Block(401, Unauthorized(m))
               && TurnedAway(env.lib, cache, stamped, m);
      SameBearer(env.lib, cache, hs, stamped, m) by {
        NamesDistinct();
        StampKeeps(hs, RequestId(env.hi, env.lo), AUTHORIZATION);
      }
    }
  }

  lemma SameBearer(lib: TokenLibrary, cache: JwksCache, a: Headers, b: Headers, message: string)
    requires Values(a, AUTHORIZATION) == Values(b, AUTHORIZATION)
    ensures TurnedAway(lib, cache, a, message) <==> TurnedAway(lib, cache, b, message)
  {
  }

  /** What a JWT layer says to a request it refuses: about the header, then about its token. */
  ghost predicate TurnedAway(lib: TokenLibrary, cache: JwksCache, hs: Headers, message: string) {
    if ClientSays(hs, "Authorization", "") then message == "missing Authorization header"
    else if forall token :: Values(hs, "Authorization") == ["Bearer " + token] ==> token == ""
    then message == "Authorization must be Bearer token"
    else forall token | Values(hs, "Authorization") == ["Bearer " + token] :: RefusedFor(lib, cache, token, message)
  }

  lemma BlockSaysWhy(lib: TokenLibrary, cache: JwksCache, hs: Headers)
    requires CheckBearer(lib, cache, hs).Block?
    ensures var r := CheckBearer(lib, cache, hs);
            exists m :: r == Block(401, Unauthorized(m)) && TurnedAway(lib, cache, hs, m)
  {
    var auth := GetSingleOrEmpty(hs, AUTHORIZATION);
    BearerPassesIff(lib, cache, hs);
    if auth == "" {
      assert TurnedAway(lib, cache, hs, "missing Authorization header");
    } else if |auth| <= |BEARER| || auth[..|BEARER|] != BEARER {
      forall token | Values(hs, "Authorization") == ["Bearer " + token]
        ensures token == ""
      {
        assert auth == BEARER + token;
        assert auth[..|BEARER|] == BEARER;
      }
      assert TurnedAway(lib, cache, hs, "Authorization must be Bearer token");
    } else {
      var token := auth[|BEARER|..];
      var m := CheckToken(lib, cache, token).message;
      RefusalSaysWhy(lib, cache, token, m);
      assert Values(hs, "Authorization") == ["Bearer " + token] by { assert auth == BEARER + token; }
      forall t | Values(hs, "Authorization") == ["Bearer " + t]
        ensures t == token
      {
        assert t == auth[|BEARER|..];
      }
      assert TurnedAway(lib, cache, hs, m);
    }
  }

  /** Stamping the ids changes neither the bearer check nor, past it, the limiter's key. */
  lemma StampedBearer(env: Surroundings, cache: JwksCache, hs: Headers)
    ensures var r := CheckBearer(env.lib, cache, Stamp(hs, RequestId(env.hi, env.lo)));
            (r.Pass? <==> BearerGood(env.lib, cache, hs)) && (r.Pass? ==> KeyOf(r.headers) == KeyOf(hs))
  {
    var id := RequestId(env.hi, env.lo);
    var hs1 := Stamp(hs, id);
    BearerPassesIff(env.lib, cache, hs1);
    assert BearerGood(env.lib, cache, hs1) <==> BearerGood(env.lib, cache, hs) by {
      NamesDistinct();
      StampKeeps(hs, id, AUTHORIZATION);
    }
    if CheckBearer(env.lib, cache, hs1).Pass? {
      var v := CheckToken(env.lib, cache, GetSingleOrEmpty(hs1, AUTHORIZATION)[|BEARER|..]);
      KeyUntouched(hs, id, v.subject, v.issuer);
    }
  }

  // ---------------------------------------------------------------- what the terminal sees

  const ID_NAMES := {Lower(REQUEST_ID), Lower(TRACE_ID)}

  /** The lower-case names whose headers a chain may change for this request. */
  function EditedNames(v: Option<Verdict>): set<string> {
    ID_NAMES +
    match v
    case Some(Accept(_, issuer)) =>
      {Lower(JWT_SUBJECT), Lower(AUTH_METHOD), Lower(AUTHORIZATION)}
      + (if issuer.Some? then {Lower(JWT_ISSUER)} else {})
    case _ => {}
  }

  lemma StampOutside(hs: Headers, id: string, names: set<string>)
    requires ID_NAMES <= names
    ensures Without(Stamp(hs, id), names) == Without(hs, names)
  {
    var a := if GetSingleOrEmpty(hs, REQUEST_ID) == "" then Set(hs, REQUEST_ID, id) else hs;
    SetOutside(hs, REQUEST_ID, id, names);
    SetOutside(a, TRACE_ID, GetSingleOrEmpty(a, REQUEST_ID), names);
  }

  /** Afterwards both ids have exactly one value, and it is not empty; an id the client sent is kept. */
  lemma StampIds(hs: Headers, id: string)
    requires id != ""
    ensures |Values(Stamp(hs, id), "x-request-id")| == 1 == |Values(Stamp(hs, id), "x-trace-id")|
    ensures GetSingleOrEmpty(Stamp(hs, id), "x-request-id") ==
            if GetSingleOrEmpty(hs, "x-request-id") != "" then GetSingleOrEmpty(hs, "x-request-id") else id
    ensures GetSingleOrEmpty(Stamp(hs, id), "x-trace-id") ==
            if GetSingleOrEmpty(hs, "x-trace-id") != "" then GetSingleOrEmpty(hs, "x-trace-id")
            else GetSingleOrEmpty(Stamp(hs, id), "x-request-id")
  {
    NamesDistinct();
    var a := if GetSingleOrEmpty(hs, REQUEST_ID) == "" then Set(hs, REQUEST_ID, id) else hs;
    SetValues(hs, REQUEST_ID, id, REQUEST_ID);
    SetValues(hs, REQUEST_ID, id, TRACE_ID);
    SetValues(a, TRACE_ID, GetSingleOrEmpty(a, REQUEST_ID), REQUEST_ID);
    SetValues(a, TRACE_ID, GetSingleOrEmpty(a, REQUEST_ID), TRACE_ID);
  }

  lemma IdentifyOutside(hs: Headers, subject: string, issuer: Option<string>, names: set<string>)
    requires EditedNames(Some(Accept(subject, issuer))) <= names
    ensures Without(Identify(hs, subject, issuer), names) == Without(hs, names)
  {
    var a := Set(hs, JWT_SUBJECT, subject);
    var b := if issuer.Some? then Set(a, JWT_ISSUER, issuer.value) else a;
    SetOutside(hs, JWT_SUBJECT, subject, names);
    if issuer.Some? { SetOutside(a, JWT_ISSUER, issuer.value, names); }
    SetOutside(b, AUTH_METHOD, "jwt", names);
    RemoveOutside(Set(b, AUTH_METHOD, "jwt"), AUTHORIZATION, names);
  }

  /** The verdict of the one JWT layer on the client's token, when there is such a layer. */
  function TokenVerdict(env: Surroundings, caches: seq<JwksCache>, hs: Headers): Option<Verdict> {
    var auth := GetSingleOrEmpty(hs, AUTHORIZATION);
    if |caches| == 1 && |auth| > |BEARER| then Some(CheckToken(env.lib, caches[0], auth[|BEARER|..])) else None
  }

  /** A passed JWT layer accepted the token of the client's own Authorization header. */
  lemma PassedWith(env: Surroundings, cache: JwksCache, hs: Headers)
    requires CheckBearer(env.lib, cache, Stamp(hs, RequestId(env.hi, env.lo))).Pass?
    ensures var v := TokenVerdict(env, [cache], hs);
            && v.Some? && v.value.Accept?
            && CheckBearer(env.lib, cache, Stamp(hs, RequestId(env.hi, env.lo))).headers
               == Identify(Stamp(hs, RequestId(env.hi, env.lo)), v.value.subject, v.value.issuer)
  {
    NamesDistinct();
    StampKeeps(hs, RequestId(env.hi, env.lo), AUTHORIZATION);
  }

  /** The headers that reach the terminal, in closed form. */
  lemma ReachedHeaders(env: Surroundings, caches: seq<JwksCache>, hs: Headers, out: Headers)
    requires Through(env, ChainOf(caches), hs) == Reached(out)
    ensures var v, stamped := TokenVerdict(env, caches, hs), Stamp(hs, RequestId(env.hi, env.lo));
            if caches == [] then v.None? && out == stamped
            else v.Some? && v.value.Accept? && out == Identify(stamped, v.value.subject, v.value.issuer)
  {
    ThroughChain(env, caches, hs);
    if caches != [] {
      assert caches == [caches[0]];
      PassedWith(env, caches[0], hs);
    }
  }

  /** What reaches the terminal agrees with what the client sent, in order and with duplicates, on every name
      outside the edited ones. The ids are single and not empty, and the identity headers are the accepted token's
      behind a JWT layer and the client's without one. */
  lemma TerminalHeaders(env: Surroundings, caches: seq<JwksCache>, hs: Headers, out: Headers)
    requires Through(env, ChainOf(caches), hs) == Reached(out)
    ensures var v := TokenVerdict(env, caches, hs);
            && Without(out, EditedNames(v)) == Without(hs, EditedNames(v))
            && |Values(out, REQUEST_ID)| == 1 == |Values(out, TRACE_ID)|
            && Values(out, REQUEST_ID)[0] != "" && Values(out, TRACE_ID)[0] != ""
            && (if caches == [] then v.None? else v.Some? && v.value.Accept?)
            && Identified(v, hs, out)
  {
    var id, v := RequestId(env.hi, env.lo), TokenVerdict(env, caches, hs);
    ReachedHeaders(env, caches, hs, out);
    StampIds(hs, id);
    StampOutside(hs, id, EditedNames(v));
    StampIdentity(hs, id);
    if caches != [] {
      IdentifyOutside(Stamp(hs, id), v.value.subject, v.value.issuer, EditedNames(v));
      IdentityValues(Stamp(hs, id), v.value.subject, v.value.issuer);
    }
  }

  /** Every value of every identity header: from the accepted token, but for an issuer the token does not name, which
      stays the client's; all the client's when no token was accepted. */
  predicate Identified(v: Option<Verdict>, client: Headers, out: Headers) {
    match v
    case Some(Accept(subject, issuer)) =>
      && Values(out, "x-jwt-subject") == [subject] && Values(out, "x-auth-method") == ["jwt"]
      && Values(out, "Authorization") == []
      && Values(out, "x-jwt-issuer") == if issuer.Some? then [issuer.value] else Values(client, "x-jwt-issuer")
    case _ => SameIdentity(client, out)
  }

  /** The verifier keeps its word: it passes a token only if it has the issuer and the audience that are demanded, where
      `meantFor` tells the audiences of a token. */
  ghost predicate Demanding(lib: TokenLibrary, meantFor: (Token, string) -> bool) {
    forall pem, issuer, audience, token | lib.verify(pem, issuer, audience, token) == Verified ::
      && (issuer.Some? ==> token.issuer == Text(issuer.value))
      && (audience.Some? ==> meantFor(token, audience.value))
  }

  /** What a policy configures is enforced: behind a JWT layer with an issuer, the issuer header of every request that
      reaches the terminal is that issuer; with an audience, the client's token was meant for it. */
  lemma DemandsEnforced(env: Surroundings, caches: seq<JwksCache>, hs: Headers, out: Headers,
                        meantFor: (Token, string) -> bool)
    requires caches != [] && Through(env, ChainOf(caches), hs) == Reached(out) && Demanding(env.lib, meantFor)
    ensures caches[0].cfg.issuer != "" ==> Values(out, "x-jwt-issuer") == [caches[0].cfg.issuer]
    ensures caches[0].cfg.audience != "" ==>
              exists text, token ::
                && Values(hs, "Authorization") == ["Bearer " + text] && env.lib.decode(text) == Some(token)
                && meantFor(token, caches[0].cfg.audience)
  {
    var text, token := TokenBehind(env, caches, hs, out);
    assert Judged(env.lib, caches[0], text, token, Verified);
    if token.issuer.Text? {
      assert Values(out, "x-jwt-issuer") == [token.issuer.s];
    }
  }

  /** The token that let a request through. */
  lemma TokenBehind(env: Surroundings, caches: seq<JwksCache>, hs: Headers, out: Headers)
    returns (text: string, token: Token)
    requires caches != [] && Through(env, ChainOf(caches), hs) == Reached(out)
    ensures Values(hs, "Authorization") == ["Bearer " + text] && Judged(env.lib, caches[0], text, token, Verified)
    ensures token.issuer.Text? ==> Values(out, "x-jwt-issuer") == [token.issuer.s]
  {
    ReachedHeaders(env, caches, hs, out);
    var v := TokenVerdict(env, caches, hs).value;
    assert v.issuer.Some? ==> Values(out, "x-jwt-issuer") == [v.issuer.value] by {
      IdentityValues(Stamp(hs, RequestId(env.hi, env.lo)), v.subject, v.issuer);
    }
    assert |caches| == 1 && BearerGood(env.lib, caches[0], hs) by { ReachesTerminalIff(env, caches, hs); }
    text :| Values(hs, "Authorization") == ["Bearer " + text] && text != "" && TokenGood(env.lib, caches[0], text);
    assert GetSingleOrEmpty(hs, AUTHORIZATION)[|BEARER|..] == text;
    AcceptedIffGood(env.lib, caches[0], text, v.subject, v.issuer);
    token :| Judged(env.lib, caches[0], text, token, Verified) && token.subject == Text(v.subject)
             && token.issuer == if v.issuer.Some? then Text(v.issuer.value) else Absent;
  }

  predicate SameIdentity(client: Headers, out: Headers) {
    && Values(out, JWT_SUBJECT) == Values(client, JWT_SUBJECT) && Values(out, JWT_ISSUER) == Values(client, JWT_ISSUER)
    && Values(out, AUTH_METHOD) == Values(client, AUTH_METHOD)
    && Values(out, AUTHORIZATION) == Values(client, AUTHORIZATION)
  }

  lemma StampIdentity(hs: Headers, id: string)
    ensures SameIdentity(hs, Stamp(hs, id))
  {
    NamesDistinct();
    StampKeeps(hs, id, JWT_SUBJECT);
    StampKeeps(hs, id, JWT_ISSUER);
    StampKeeps(hs, id, AUTH_METHOD);
    StampKeeps(hs, id, AUTHORIZATION);
  }

  lemma IdentityValues(hs: Headers, subject: string, issuer: Option<string>)
    ensures var out := Identify(hs, subject, issuer);
            && Identified(Some(Accept(subject, issuer)), hs, out)
            && Values(out, REQUEST_ID) == Values(hs, REQUEST_ID) && Values(out, TRACE_ID) == Values(hs, TRACE_ID)
  {
    NamesDistinct();
    IdentifyValues(hs, subject, issuer, JWT_SUBJECT);
    IdentifyValues(hs, subject, issuer, JWT_ISSUER);
    IdentifyValues(hs, subject, issuer, AUTH_METHOD);
    IdentifyValues(hs, subject, issuer, AUTHORIZATION);
    IdentifyValues(hs, subject, issuer, REQUEST_ID);
    IdentifyValues(hs, subject, issuer, TRACE_ID);
  }
}
