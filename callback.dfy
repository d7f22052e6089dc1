/** `AuthProviderCallback`: the short-lived record of one upstream login
    round trip. `login_start` stores it under a random id and sends the browser
    to the provider's authorization endpoint; `login_finish` reads the id back
    from the encrypted cookie, checks state, presence, anti-forgery token and
    PKCE verifier in that order (deleting the record on the three mismatches),
    exchanges the code at the token endpoint and hands the ID token to the
    identity reconciler. */
module UpstreamCallback {
  import opened Common
  import opened Strings
  import opened ProviderTypes
  import opened AuthProviders
  import opened IdentityReconciler
  import Discovery

  /** The stored record of one login attempt. */
  datatype Callback = Callback(
    callbackId: string,
    xsrfToken: string,
    typ: AuthProviderType,
    clientId: string,
    clientScope: seq<string>,
    clientForceMfa: bool,
    clientRedirectUri: string,
    clientState: Option<string>,
    clientNonce: Option<string>,
    clientCodeChallenge: Option<string>,
    clientCodeChallengeMethod: Option<string>,
    providerId: string,
    providerIssuer: string,
    providerTokenEndpoint: string,
    providerClientId: string,
    providerSecret: Option<seq<byte>>,
    allowInsecureRequests: bool,
    usePkce: bool,
    rootPem: Option<string>,
    pkceChallenge: string)

  /** `ProviderLoginRequest`: what the login page sends to start. */
  datatype LoginRequest = LoginRequest(
    providerId: string,
    clientId: string,
    scopes: Option<seq<string>>,
    redirectUri: string,
    state: Option<string>,
    nonce: Option<string>,
    codeChallenge: Option<string>,
    codeChallengeMethod: Option<string>,
    pkceChallenge: string)

  /** The parts of the requesting client that the start reads. */
  datatype Client = Client(id: string, forceMfa: bool, allowedOrigins: Option<seq<string>>)

  /** The client directory: `Client::find` and `sanitize_login_scopes`. */
  datatype Clients = Clients(
    find: string -> Result<Client>,
    sanitizeScopes: (Client, Option<seq<string>>) -> Result<seq<string>>)

  datatype SameSite = Strict | Lax | Unrestricted

  datatype Cookie = Cookie(
    name: string, value: string, secure: bool, httpOnly: bool,
    sameSite: SameSite, maxAge: int, path: string)

  /** What a successful start returns: the cookie, the anti-forgery token, the
      redirect location and the client's allowed origins. */
  datatype LoginStarted = LoginStarted(
    cookie: Cookie, xsrfToken: string, location: string, allowedOrigins: Option<seq<string>>)

  /** `ProviderCallbackRequest`: what the browser posts after the redirect back. */
  datatype CallbackRequest = CallbackRequest(state: string, code: string, xsrfToken: string, pkceVerifier: string)

  /** The deployment's fixed values and the foreign encoding and crypto:
      `callbackUri` is `PROVIDER_CALLBACK_URI`, `timeoutSecs` is
      `UPSTREAM_AUTH_CALLBACK_TIMEOUT_SECS`, `pkceHash` is SHA-256 followed by
      URL-safe base64, and `buildClient` is `build_client` on the record's
      insecure flag and root certificate (only its failure matters here). */
  datatype Env = Env(
    callbackUri: string,
    cookieName: string,
    timeoutSecs: int,
    cipher: Cipher,
    base64Encode: seq<byte> -> string,
    base64Decode: string -> Option<seq<byte>>,
    pkceHash: string -> string,
    buildClient: (bool, Option<string>) -> Result<()>)

  ghost predicate Base64RoundTrips(env: Env) {
    forall bytes :: env.base64Decode(env.base64Encode(bytes)) == Some(bytes)
  }

  const StateMismatchMessage := "`state` does not match"
  const NotFoundMessage := "Callback Code not found - timeout reached?"
  const CsrfMessage := "invalid CSRF token"
  const PkceMessage := "invalid PKCE verifier"

  // ---------------------------------------------------------------------
  // The cookie
  // ---------------------------------------------------------------------

  /** The cookie value: the callback id, encrypted, then base64. */
  function CookieValue(callbackId: string, env: Env): (r: Result<string>)
    ensures r.Err? <==> env.cipher.encrypt(callbackId).None?
    ensures r.Ok? ==> r.value == env.base64Encode(env.cipher.encrypt(callbackId).value)
  {
    match env.cipher.encrypt(callbackId)
    case None => Err(ErrorResponse(Internal, "callback id encryption failed"))
    case Some(bytes) => Ok(env.base64Encode(bytes))
  }

  /** The callback id a cookie value carries: base64-decoded, then decrypted. */
  function CookieCallbackId(value: string, env: Env): (r: Result<string>)
    ensures r.Ok? <==> env.base64Decode(value).Some? && env.cipher.decrypt(env.base64Decode(value).value).Some?
    ensures r.Ok? ==> r.value == env.cipher.decrypt(env.base64Decode(value).value).value
  {
    match env.base64Decode(value)
    case None => Err(ErrorResponse(BadRequest, "callback cookie is not valid base64"))
    case Some(bytes) =>
      match env.cipher.decrypt(bytes)
      case None => Err(ErrorResponse(BadRequest, "callback cookie could not be decrypted"))
      case Some(id) => Ok(id)
  }

  /** The cookie a start hands out carries exactly the callback id back. */
  lemma CookieRoundTrip(callbackId: string, env: Env)
    requires RoundTrips(env.cipher) && Base64RoundTrips(env)
    requires CookieValue(callbackId, env).Ok?
    ensures CookieCallbackId(CookieValue(callbackId, env).value, env) == Ok(callbackId)
  {
    var bytes := env.cipher.encrypt(callbackId).value;
    assert env.base64Decode(env.base64Encode(bytes)) == Some(bytes);
    assert env.cipher.decrypt(bytes) == Some(callbackId);
  }

  // ---------------------------------------------------------------------
  // The authorization request location
  // ---------------------------------------------------------------------

  /** `prefix` followed by `&name=value` for each parameter, in order. */
  function Render(prefix: string, params: seq<(string, string)>): string
    decreases |params|
  {
    if params == [] then prefix
    else Render(prefix + ("&" + params[0].0 + "=") + params[0].1, params[1..])
  }

  /** `endpoint` with the query `?name=value&name=value...`. */
  function WithQuery(endpoint: string, params: seq<(string, string)>): string {
    if params == [] then endpoint
    else Render(endpoint + ("?" + params[0].0 + "=") + params[0].1, params[1..])
  }

  /** The parameters of the upstream authorization request, in order; the
      challenge and its method are present only when the provider uses PKCE. */
  function AuthorizationParams(clientId: string, redirectUri: string, scope: string, state: string,
                               usePkce: bool, pkceChallenge: string): seq<(string, string)> {
    [("client_id", clientId), ("redirect_uri", redirectUri), ("response_type", "code"),
     ("scope", scope), ("state", state)]
    + (if usePkce then [("code_challenge", pkceChallenge), ("code_challenge_method", "S256")] else [])
  }

  function AuthorizationUrl(endpoint: string, clientId: string, redirectUri: string, scope: string,
                            state: string, usePkce: bool, pkceChallenge: string): string {
    WithQuery(endpoint, AuthorizationParams(clientId, redirectUri, scope, state, usePkce, pkceChallenge))
  }

  /** The location of `login_start`: the fixed query written out with
      `format!`, the PKCE pair appended with `write!` when the provider uses
      PKCE. It is the authorization endpoint with exactly the parameters above. */
  method AuthorizationLocation(endpoint: string, clientId: string, redirectUri: string, scope: string,
                               state: string, usePkce: bool, pkceChallenge: string)
    returns (location: string)
    ensures location == AuthorizationUrl(endpoint, clientId, redirectUri, scope, state, usePkce, pkceChallenge)
  {
    location := endpoint + "?client_id=" + clientId + "&redirect_uri=" + redirectUri
                + "&response_type=" + "code" + "&scope=" + scope + "&state=" + state;
    if usePkce {
      location := location + "&code_challenge=" + pkceChallenge + "&code_challenge_method=S256";
    }
    AuthorizationUrlSpelledOut(endpoint, clientId, redirectUri, scope, state, usePkce, pkceChallenge);
  }

  /** One step of rendering: the first parameter appended to the prefix. */
  lemma RenderStep(prefix: string, ps: seq<(string, string)>, literal: string)
    requires |ps| >= 1 && literal == "&" + ps[0].0 + "="
    ensures Render(prefix, ps) == Render(prefix + literal + ps[0].1, ps[1..])
  {
  }

  /** The parameter list rendered as one string. */
  lemma AuthorizationUrlSpelledOut(endpoint: string, clientId: string, redirectUri: string, scope: string,
                                   state: string, usePkce: bool, pkceChallenge: string)
    ensures AuthorizationUrl(endpoint, clientId, redirectUri, scope, state, usePkce, pkceChallenge)
            == (var base := endpoint + "?client_id=" + clientId + "&redirect_uri=" + redirectUri
                            + "&response_type=" + "code" + "&scope=" + scope + "&state=" + state;
                if usePkce then base + "&code_challenge=" + pkceChallenge + "&code_challenge_method=S256" else base)
  {
    var ps := AuthorizationParams(clientId, redirectUri, scope, state, usePkce, pkceChallenge);
    var p1 := endpoint + "?client_id=" + clientId;
    assert "?" + ps[0].0 + "=" == "?client_id=";
    assert WithQuery(endpoint, ps) == Render(p1, ps[1..]);
    assert ps[1..][1..] == ps[2..] && ps[2..][1..] == ps[3..];
    assert ps[3..][1..] == ps[4..] && ps[4..][1..] == ps[5..];
    RenderStep(p1, ps[1..], "&redirect_uri=");
    var p2 := p1 + "&redirect_uri=" + redirectUri;
    RenderStep(p2, ps[2..], "&response_type=");
    var p3 := p2 + "&response_type=" + "code";
    RenderStep(p3, ps[3..], "&scope=");
    var p4 := p3 + "&scope=" + scope;
    RenderStep(p4, ps[4..], "&state=");
    var p5 := p4 + "&state=" + state;
    if usePkce {
      assert ps[5..][1..] == ps[6..];
      RenderStep(p5, ps[5..], "&code_challenge=");
      var p6 := p5 + "&code_challenge=" + pkceChallenge;
      RenderStep(p6, ps[6..], "&code_challenge_method=");
      assert ps[6..][1..] == [];
      assert p6 + "&code_challenge_method=" + "S256" == p6 + "&code_challenge_method=S256";
    } else {
      assert ps[5..] == [];
    }
  }

  lemma LocationEndsWithChallengeIffPkce(endpoint: string, clientId: string, redirectUri: string, scope: string,
                                         state: string, usePkce: bool, pkceChallenge: string)
    requires |state| == 32 && forall i | 0 <= i < |state| :: IsAlnum(state[i])
    ensures EndsWith(AuthorizationUrl(endpoint, clientId, redirectUri, scope, state, usePkce, pkceChallenge),
                     "&code_challenge=" + pkceChallenge + "&code_challenge_method=S256")
            <==> usePkce
  {
    AuthorizationUrlSpelledOut(endpoint, clientId, redirectUri, scope, state, usePkce, pkceChallenge);
    var url := AuthorizationUrl(endpoint, clientId, redirectUri, scope, state, usePkce, pkceChallenge);
    var suffix := "&code_challenge=" + pkceChallenge + "&code_challenge_method=S256";
    var base := endpoint + "?client_id=" + clientId + "&redirect_uri=" + redirectUri
                + "&response_type=" + "code" + "&scope=" + scope + "&state=" + state;
    if usePkce {
      assert url == base + "&code_challenge=" + pkceChallenge + "&code_challenge_method=S256";
      assert url == base + suffix;
    } else {
      assert url == base;
      assert url[|url| - 5] == state[27];
      assert suffix[|suffix| - 5] == '=';
      assert url[|url| - 5] != suffix[|suffix| - 5];
    }
  }

  // ---------------------------------------------------------------------
  // The checks of login_finish
  // ---------------------------------------------------------------------

  /** The record `login_start` stores. */
  function NewCallback(callbackId: string, xsrfToken: string, provider: AuthProvider, client: Client,
                       clientScope: seq<string>, payload: LoginRequest): (rec: Callback)
    ensures rec.callbackId == callbackId && rec.xsrfToken == xsrfToken
    ensures rec.pkceChallenge == payload.pkceChallenge && rec.clientRedirectUri == payload.redirectUri
    ensures rec.clientState == payload.state && rec.clientNonce == payload.nonce
    ensures rec.clientCodeChallenge == payload.codeChallenge
    ensures rec.clientCodeChallengeMethod == payload.codeChallengeMethod
    ensures rec.clientId == client.id && rec.clientForceMfa == client.forceMfa && rec.clientScope == clientScope
    ensures rec.typ == provider.typ && rec.providerId == provider.id && rec.providerIssuer == provider.issuer
    ensures rec.providerTokenEndpoint == provider.tokenEndpoint && rec.providerClientId == provider.clientId
    ensures rec.providerSecret == provider.secret && rec.allowInsecureRequests == provider.allowInsecureRequests
    ensures rec.usePkce == provider.usePkce && rec.rootPem == provider.rootPem
  {
    Callback(
      callbackId, xsrfToken, provider.typ,
      client.id, clientScope, client.forceMfa, payload.redirectUri, payload.state, payload.nonce,
      payload.codeChallenge, payload.codeChallengeMethod,
      provider.id, provider.issuer, provider.tokenEndpoint, provider.clientId, provider.secret,
      provider.allowInsecureRequests, provider.usePkce, provider.rootPem,
      payload.pkceChallenge)
  }

  /** The check sequence of `login_finish` on the stored records, in its fixed
      order: state, presence, anti-forgery token, PKCE verifier. */
  function CheckCallback(entries: map<string, Callback>, callbackId: string, payload: CallbackRequest,
                         pkceHash: string -> string): (r: Result<Callback>)
    ensures r.Ok? <==>
              && callbackId == payload.state && callbackId in entries
              && entries[callbackId].xsrfToken == payload.xsrfToken
              && entries[callbackId].pkceChallenge == pkceHash(payload.pkceVerifier)
    ensures r.Ok? ==> r.value == entries[callbackId]
    ensures callbackId != payload.state ==> r == Err(ErrorResponse(BadRequest, StateMismatchMessage))
    ensures callbackId == payload.state && callbackId !in entries ==>
              r == Err(ErrorResponse(NotFound, NotFoundMessage))
    ensures callbackId == payload.state && callbackId in entries
            && entries[callbackId].xsrfToken != payload.xsrfToken ==>
              r == Err(ErrorResponse(Unauthorized, CsrfMessage))
    ensures callbackId == payload.state && callbackId in entries
            && entries[callbackId].xsrfToken == payload.xsrfToken
            && entries[callbackId].pkceChallenge != pkceHash(payload.pkceVerifier) ==>
              r == Err(ErrorResponse(Unauthorized, PkceMessage))
  {
    if callbackId != payload.state then Err(ErrorResponse(BadRequest, StateMismatchMessage))
    else if callbackId !in entries then Err(ErrorResponse(NotFound, NotFoundMessage))
    else if entries[callbackId].xsrfToken != payload.xsrfToken then Err(ErrorResponse(Unauthorized, CsrfMessage))
    else if entries[callbackId].pkceChallenge != pkceHash(payload.pkceVerifier) then
      Err(ErrorResponse(Unauthorized, PkceMessage))
    else Ok(entries[callbackId])
  }

  /** A failed check deletes the record, except when there was none. */
  predicate DeletesOnCheck(r: Result<Callback>) {
    r.Err? && r.error.kind != NotFound
  }

  /** A started login comes back through the checks with the cookie's id as
      `state`, the xsrf token handed out, and a verifier matching the
      challenge; the checks then return the very record that was stored. */
  lemma StartedLoginPassesChecks(entries: map<string, Callback>, callbackId: string, xsrfToken: string,
                                 provider: AuthProvider, client: Client, clientScope: seq<string>,
                                 payload: LoginRequest, code: string, verifier: string,
                                 pkceHash: string -> string)
    requires pkceHash(verifier) == payload.pkceChallenge
    ensures var rec := NewCallback(callbackId, xsrfToken, provider, client, clientScope, payload);
            CheckCallback(entries[callbackId := rec], callbackId,
                          CallbackRequest(callbackId, code, xsrfToken, verifier), pkceHash) == Ok(rec)
  {
  }

  /** Every failed check except "not found" leaves no record behind, so the
      same callback cannot be replayed. */
  lemma FailedCheckIsNotReplayable(entries: map<string, Callback>, callbackId: string,
                                   payload: CallbackRequest, pkceHash: string -> string)
    requires DeletesOnCheck(CheckCallback(entries, callbackId, payload, pkceHash))
    ensures CheckCallback(entries - {callbackId}, callbackId, payload, pkceHash).Err?
  {
  }

  // ---------------------------------------------------------------------
  // The token exchange
  // ---------------------------------------------------------------------

  /** The POST to the token endpoint: its target, HTTP Basic credentials and
      the form. */
  datatype TokenRequest = TokenRequest(
    endpoint: string,
    basicUser: string,
    basicPassword: Option<string>,
    clientId: string,
    clientSecret: Option<string>,
    code: string,
    codeVerifier: Option<string>,
    grantType: string,
    redirectUri: string)

  /** `AuthProviderTokenSet`. */
  datatype TokenSet = TokenSet(
    accessToken: string, tokenType: Option<string>, idToken: Option<string>,
    expiresIn: int, refreshToken: Option<string>)

  datatype TokenBody = TokenSetBody(tokenSet: TokenSet) | Malformed(reason: string)

  /** The token endpoint's answer: the status, the body as text (absent when it
      cannot be read) and the body as a token set. */
  datatype TokenResponse = TokenResponse(status: nat, text: Option<string>, json: TokenBody)

  /** The request sent for a validated callback: the stored client id and
      decrypted secret (both as Basic credentials and in the form), the code,
      the verifier only when the provider uses PKCE, and the fixed grant type
      and callback URI. */
  function TokenRequestFor(rec: Callback, payload: CallbackRequest, secret: Option<string>,
                           callbackUri: string): (req: TokenRequest)
    ensures req.codeVerifier.Some? <==> rec.usePkce
    ensures req.codeVerifier.Some? ==> req.codeVerifier.value == payload.pkceVerifier
    ensures req.grantType == "authorization_code" && req.redirectUri == callbackUri && req.code == payload.code
    ensures req.endpoint == rec.providerTokenEndpoint
    ensures req.basicUser == rec.providerClientId && req.clientId == rec.providerClientId
    ensures req.basicPassword == secret && req.clientSecret == secret
  {
    TokenRequest(
      rec.providerTokenEndpoint,
      rec.providerClientId, secret,
      rec.providerClientId, secret, payload.code,
      if rec.usePkce then Some(payload.pkceVerifier) else None,
      "authorization_code", callbackUri)
  }

  /** The diagnostic for a non-2xx token response. */
  function TokenFailureMessage(status: nat, endpoint: string, clientId: string, body: Option<string>): (m: string)
    ensures StartsWith(m, "HTTP " + NatToString(status) + " during POST " + endpoint
                          + " for upstream auth provider '" + clientId + "'")
    ensures body.Some? ==> EndsWith(m, "'\n" + body.value)
    ensures body.None? ==> EndsWith(m, "' without any body")
  {
    var head := "HTTP " + NatToString(status) + " during POST " + endpoint
                + " for upstream auth provider '" + clientId + "'";
    match body
    case Some(text) =>
      assert head + "\n" + text == head + ("\n" + text);
      head + "\n" + text
    case None =>
      head + " without any body"
  }

  /** The ID token of a token response: only a 2xx answer that decodes and
      carries an ID token yields one; every other outcome is an internal error. */
  function IdTokenOf(rec: Callback, res: TokenResponse): (r: Result<string>)
    ensures r.Ok? <==> Discovery.IsSuccess(res.status) && res.json.TokenSetBody? && res.json.tokenSet.idToken.Some?
    ensures r.Ok? ==> r.value == res.json.tokenSet.idToken.value
    ensures r.Err? ==> r.error.kind == Internal
    ensures !Discovery.IsSuccess(res.status) ==>
              r.error.message == TokenFailureMessage(res.status, rec.providerTokenEndpoint, rec.providerClientId, res.text)
    ensures Discovery.IsSuccess(res.status) && res.json.Malformed? ==>
              r.error.message == "Deserializing /token response from auth provider " + rec.providerClientId
                                 + ": " + res.json.reason
    ensures Discovery.IsSuccess(res.status) && res.json.TokenSetBody? && res.json.tokenSet.idToken.None? ==>
              r.error.message == "Did not receive an ID token from " + rec.providerIssuer + " when one was expected"
  {
    if !Discovery.IsSuccess(res.status) then
      Err(ErrorResponse(Internal, TokenFailureMessage(res.status, rec.providerTokenEndpoint, rec.providerClientId, res.text)))
    else
      match res.json
      case Malformed(reason) =>
        Err(ErrorResponse(Internal, "Deserializing /token response from auth provider " + rec.providerClientId
                                    + ": " + reason))
      case TokenSetBody(ts) =>
        if ts.idToken.None? then
          Err(ErrorResponse(Internal, "Did not receive an ID token from " + rec.providerIssuer + " when one was expected"))
        else Ok(ts.idToken.value)
  }

  /** Build the HTTP client, decrypt the stored secret, POST the code, read
      the ID token, in that order; the first failure is the result. `send`
      stands for the HTTP round trip; its errors are passed on. */
  function ExchangeToken(rec: Callback, payload: CallbackRequest, env: Env,
                         send: TokenRequest -> Result<TokenResponse>): (r: Result<string>)
    ensures env.buildClient(rec.allowInsecureRequests, rec.rootPem).Err? ==>
              r == Err(env.buildClient(rec.allowInsecureRequests, rec.rootPem).error)
    ensures env.buildClient(rec.allowInsecureRequests, rec.rootPem).Ok?
            && SecretCleartext(rec.providerSecret, env.cipher).Err? ==>
              r == Err(SecretCleartext(rec.providerSecret, env.cipher).error)
    ensures env.buildClient(rec.allowInsecureRequests, rec.rootPem).Ok?
            && SecretCleartext(rec.providerSecret, env.cipher).Ok? ==>
              var req := TokenRequestFor(rec, payload, SecretCleartext(rec.providerSecret, env.cipher).value, env.callbackUri);
              r == (if send(req).Err? then Err(send(req).error) else IdTokenOf(rec, send(req).value))
  {
    var _ :- env.buildClient(rec.allowInsecureRequests, rec.rootPem);
    var secret :- SecretCleartext(rec.providerSecret, env.cipher);
    var res :- send(TokenRequestFor(rec, payload, secret, env.callbackUri));
    IdTokenOf(rec, res)
  }

  // ---------------------------------------------------------------------
  // The record store and the two operations
  // ---------------------------------------------------------------------

  /** The reconciler's collaborators for one login: the clock, the id a new
      user would get, the claims decoder and the locale mapping. */
  datatype UserLogin = UserLogin(
    now: int,
    newId: string,
    decode: string -> Result<IdClaims>,
    languageOf: string -> string,
    defaultLanguage: string)

  /** The outcome of `login_finish` for the cookie id `callbackId`.
      `deleteLate` says whether a failure after the checks also deletes the
      record: false is the code as written, true is what its doc comment
      promises. */
  ghost predicate Finished(entries0: map<string, Callback>, entries1: map<string, Callback>,
                           users0: map<string, User>, values0: map<string, UserValues>,
                           users1: map<string, User>, values1: map<string, UserValues>,
                           callbackId: string, payload: CallbackRequest, env: Env,
                           send: TokenRequest -> Result<TokenResponse>, login: UserLogin,
                           existing: Option<User>, oldEmail: Option<string>, r: Result<User>,
                           deleteLate: bool)
  {
    match CheckCallback(entries0, callbackId, payload, env.pkceHash)
    case Err(e) =>
      && r == Err(e)
      && entries1 == (if e.kind == NotFound then entries0 else entries0 - {callbackId})
      && users1 == users0 && values1 == values0
    case Ok(rec) =>
      match ExchangeToken(rec, payload, env, send)
      case Err(e) =>
        && r == Err(e)
        && entries1 == (if deleteLate then entries0 - {callbackId} else entries0)
        && users1 == users0 && values1 == values0
      case Ok(token) =>
        && UpdatedFromToken(users0, values0, users1, values1, token, rec.providerId, login.now,
                            login.decode, login.languageOf, login.defaultLanguage, login.newId,
                            existing, r, oldEmail)
        && entries1 == (if deleteLate && r.Err? then entries0 - {callbackId} else entries0)
  }

  /** The callback cache, keyed by callback id. */
  class CallbackStore {
    var entries: map<string, Callback>

    /** Each record is stored under its own id. */
    ghost predicate Valid()
      reads this
    {
      forall id | id in entries :: entries[id].callbackId == id
    }

    constructor()
      ensures Valid() && entries == map[]
    {
      entries := map[];
    }

    /** `delete`. */
    method Delete(callbackId: string)
      requires Valid()
      modifies this
      ensures Valid() && entries == old(entries) - {callbackId}
    {
      entries := entries - {callbackId};
    }

    /** `find`: an absent record (never stored, deleted or expired) is NotFound. */
    method Find(callbackId: string) returns (r: Result<Callback>)
      requires Valid()
      ensures r.Ok? <==> callbackId in entries
      ensures r.Ok? ==> r.value == entries[callbackId] && r.value.callbackId == callbackId
      ensures r.Err? ==> r.error == ErrorResponse(NotFound, NotFoundMessage)
    {
      if callbackId !in entries {
        return Err(ErrorResponse(NotFound, NotFoundMessage));
      }
      r := Ok(entries[callbackId]);
    }

    /** `save`. */
    method Save(rec: Callback)
      requires Valid()
      modifies this
      ensures Valid() && entries == old(entries)[rec.callbackId := rec]
    {
      entries := entries[rec.callbackId := rec];
    }

    /** `login_start`. `callbackId` and `xsrfToken` stand for the two values of
        `secure_random_alnum(32)`. Every failure comes before the record is
        stored. */
    method LoginStart(registry: ProviderRegistry, clients: Clients, payload: LoginRequest,
                      callbackId: string, xsrfToken: string, env: Env)
      returns (r: Result<LoginStarted>)
      requires Valid() && registry.Valid()
      modifies this, registry
      ensures Valid() && registry.Valid() && registry.db == old(registry.db)
      ensures old(registry.Coherent()) ==> registry.Coherent()
      ensures CacheIdx(payload.providerId) in old(registry.cache) || payload.providerId !in old(registry.db) ==>
                registry.cache == old(registry.cache)
      ensures CacheIdx(payload.providerId) !in old(registry.cache) && payload.providerId in old(registry.db) ==>
                registry.cache == old(registry.cache)[CacheIdx(payload.providerId) := Single(old(registry.db)[payload.providerId])]
      ensures r.Ok? <==>
                && Served(old(registry.db), old(registry.cache), payload.providerId).Some?
                && clients.find(payload.clientId).Ok?
                && clients.sanitizeScopes(clients.find(payload.clientId).value, payload.scopes).Ok?
                && CookieValue(callbackId, env).Ok?
      ensures old(registry.Coherent()) ==>
                (r.Ok? <==>
                  && payload.providerId in registry.db
                  && clients.find(payload.clientId).Ok?
                  && clients.sanitizeScopes(clients.find(payload.clientId).value, payload.scopes).Ok?
                  && CookieValue(callbackId, env).Ok?)
      ensures old(registry.Coherent()) && r.Ok? ==>
                Served(old(registry.db), old(registry.cache), payload.providerId)
                == Some(registry.db[payload.providerId])
      ensures Served(old(registry.db), old(registry.cache), payload.providerId).None? ==>
                && r.Err?
                && (CacheIdx(payload.providerId) !in old(registry.cache) ==> r.error.kind == NotFound)
                && (CacheIdx(payload.providerId) in old(registry.cache) ==> r.error.kind == Internal)
      ensures Served(old(registry.db), old(registry.cache), payload.providerId).Some?
              && clients.find(payload.clientId).Err? ==>
                r == Err(clients.find(payload.clientId).error)
      ensures Served(old(registry.db), old(registry.cache), payload.providerId).Some?
              && clients.find(payload.clientId).Ok?
              && clients.sanitizeScopes(clients.find(payload.clientId).value, payload.scopes).Err? ==>
                r == Err(clients.sanitizeScopes(clients.find(payload.clientId).value, payload.scopes).error)
      ensures Served(old(registry.db), old(registry.cache), payload.providerId).Some?
              && clients.find(payload.clientId).Ok?
              && clients.sanitizeScopes(clients.find(payload.clientId).value, payload.scopes).Ok?
              && CookieValue(callbackId, env).Err? ==>
                r == Err(CookieValue(callbackId, env).error)
      ensures r.Err? ==> entries == old(entries)
      ensures r.Ok? ==>
                var provider := Served(old(registry.db), old(registry.cache), payload.providerId).value;
                var client := clients.find(payload.clientId).value;
                var scope := clients.sanitizeScopes(client, payload.scopes).value;
                && entries == old(entries)[callbackId := NewCallback(callbackId, xsrfToken, provider, client, scope, payload)]
                && r.value.location == AuthorizationUrl(provider.authorizationEndpoint, provider.clientId,
                                                        env.callbackUri, provider.scope, callbackId,
                                                        provider.usePkce, payload.pkceChallenge)
                && r.value.cookie == Cookie(env.cookieName, CookieValue(callbackId, env).value,
                                            true, true, Lax, env.timeoutSecs, "/auth")
                && r.value.xsrfToken == xsrfToken
                && r.value.allowedOrigins == client.allowedOrigins
    {
      var found := registry.Find(payload.providerId);
      if found.Err? {
        return Err(found.error);
      }
      var provider := found.value;
      var client := clients.find(payload.clientId);
      if client.Err? {
        return Err(client.error);
      }
      var clientScope := clients.sanitizeScopes(client.value, payload.scopes);
      if clientScope.Err? {
        return Err(clientScope.error);
      }
      var allowedOrigins := client.value.allowedOrigins;

      var slf := NewCallback(callbackId, xsrfToken, provider, client.value, clientScope.value, payload);
      var location := AuthorizationLocation(provider.authorizationEndpoint, slf.providerClientId,
                                            env.callbackUri, provider.scope, slf.callbackId,
                                            provider.usePkce, slf.pkceChallenge);

      var idB64 := CookieValue(slf.callbackId, env);
      if idB64.Err? {
        return Err(idB64.error);
      }
      var cookie := Cookie(env.cookieName, idB64.value, true, true, Lax, env.timeoutSecs, "/auth");

      Save(slf);
      r := Ok(LoginStarted(cookie, slf.xsrfToken, location, allowedOrigins));
    }

    /** The check sequence of `login_finish`, with its deletions: a state
        mismatch deletes the cookie's id, an xsrf or PKCE mismatch deletes the
        record, success and "not found" leave the records alone. */
    method ValidateCallback(callbackId: string, payload: CallbackRequest, pkceHash: string -> string)
      returns (r: Result<Callback>)
      requires Valid()
      modifies this
      ensures Valid()
      ensures r == CheckCallback(old(entries), callbackId, payload, pkceHash)
      ensures entries == if DeletesOnCheck(r) then old(entries) - {callbackId} else old(entries)
    {
      if callbackId != payload.state {
        Delete(callbackId);
        return Err(ErrorResponse(BadRequest, StateMismatchMessage));
      }
      var found := Find(callbackId);
      if found.Err? {
        return Err(found.error);
      }
      var slf := found.value;
      if slf.xsrfToken != payload.xsrfToken {
        Delete(slf.callbackId);
        return Err(ErrorResponse(Unauthorized, CsrfMessage));
      }
      var hashBase64 := pkceHash(payload.pkceVerifier);
      if slf.pkceChallenge != hashBase64 {
        Delete(slf.callbackId);
        return Err(ErrorResponse(Unauthorized, PkceMessage));
      }
      r := Ok(slf);
    }

    /** `login_finish` as written, up to the `todo!()` tail, which is replaced
        by returning the reconciled user. A failure after the checks leaves the
        record in place. */
    method LoginFinishAsWritten(cookieValue: string, payload: CallbackRequest, env: Env,
                                send: TokenRequest -> Result<TokenResponse>,
                                users: UserStore, login: UserLogin)
      returns (r: Result<User>, ghost existing: Option<User>, ghost oldEmail: Option<string>)
      requires Valid() && users.Valid() && login.newId !in users.users
      modifies this, users
      ensures Valid() && users.Valid()
      ensures CookieCallbackId(cookieValue, env).Err? ==>
                && r == Err(CookieCallbackId(cookieValue, env).error) && entries == old(entries)
                && users.users == old(users.users) && users.values == old(users.values)
      ensures CookieCallbackId(cookieValue, env).Ok? ==>
                Finished(old(entries), entries, old(users.users), old(users.values), users.users, users.values,
                         CookieCallbackId(cookieValue, env).value, payload, env, send, login,
                         existing, oldEmail, r, false)
    {
      existing, oldEmail := None, None;
      var callbackId := CookieCallbackId(cookieValue, env);
      if callbackId.Err? {
        return Err(callbackId.error), existing, oldEmail;
      }
      var slf := ValidateCallback(callbackId.value, payload, env.pkceHash);
      if slf.Err? {
        return Err(slf.error), existing, oldEmail;
      }
      var idToken := ExchangeToken(slf.value, payload, env, send);
      if idToken.Err? {
        return Err(idToken.error), existing, oldEmail;
      }
      r, oldEmail, existing := users.ValidateUpdateUser(idToken.value, slf.value.providerId, login.now,
                                                        login.decode, login.languageOf,
                                                        login.defaultLanguage, login.newId);
    }

    /** `login_finish` as its doc comment describes it: the record is deleted
        on any error once the cookie has been read, so no failed attempt can
        be replayed. */
    method LoginFinish(cookieValue: string, payload: CallbackRequest, env: Env,
                       send: TokenRequest -> Result<TokenResponse>,
                       users: UserStore, login: UserLogin)
      returns (r: Result<User>, ghost existing: Option<User>, ghost oldEmail: Option<string>)
      requires Valid() && users.Valid() && login.newId !in users.users
      modifies this, users
      ensures Valid() && users.Valid()
      ensures CookieCallbackId(cookieValue, env).Err? ==>
                && r == Err(CookieCallbackId(cookieValue, env).error) && entries == old(entries)
                && users.users == old(users.users) && users.values == old(users.values)
      ensures CookieCallbackId(cookieValue, env).Ok? ==>
                Finished(old(entries), entries, old(users.users), old(users.values), users.users, users.values,
                         CookieCallbackId(cookieValue, env).value, payload, env, send, login,
                         existing, oldEmail, r, true)
      ensures CookieCallbackId(cookieValue, env).Ok? && r.Err? ==> CookieCallbackId(cookieValue, env).value !in entries
    {
      existing, oldEmail := None, None;
      var callbackId := CookieCallbackId(cookieValue, env);
      if callbackId.Err? {
        return Err(callbackId.error), existing, oldEmail;
      }
      var slf := ValidateCallback(callbackId.value, payload, env.pkceHash);
      if slf.Err? {
        return Err(slf.error), existing, oldEmail;
      }
      var idToken := ExchangeToken(slf.value, payload, env, send);
      if idToken.Err? {
        Delete(slf.value.callbackId);
        return Err(idToken.error), existing, oldEmail;
      }
      r, oldEmail, existing := users.ValidateUpdateUser(idToken.value, slf.value.providerId, login.now,
                                                        login.decode, login.languageOf,
                                                        login.defaultLanguage, login.newId);
      if r.Err? {
        Delete(slf.value.callbackId);
      }
    }
  }

  /** As written, a callback whose token exchange fails stays stored: the same
      cookie and payload pass every check again. */
  method LateFailureLeavesCallbackReplayable() returns (first: Result<User>, replay: Result<Callback>)
    ensures first.Err? && replay.Ok?
  {
    var env := Env("https://iam.example/auth/v1/providers/callback", "upstream_auth_callback", 300,
                   Cipher(s => Some([]), b => Some("cb")),
                   b => "c", s => Some([]), v => "h", (insecure: bool, pem: Option<string>) => Ok(()));
    var rec := Callback("cb", "x", OIDC, "client", [], false, "https://app.example", None, None, None, None,
                        "provider", "https://idp.example", "https://idp.example/token", "rauthy", None,
                        false, true, None, "h");
    var payload := CallbackRequest("cb", "code", "x", "verifier");
    var send := (req: TokenRequest) => Ok(TokenResponse(500, Some("unavailable"), Malformed("not json")));
    var login := UserLogin(0, "u1", (t: string) => Err(ErrorResponse(BadRequest, "unreadable")), (l: string) => l, "en");

    var store := new CallbackStore();
    store.Save(rec);
    var users := new UserStore();
    ghost var existing, oldEmail;
    first, existing, oldEmail := store.LoginFinishAsWritten("c", payload, env, send, users, login);
    replay := store.ValidateCallback("cb", payload, env.pkceHash);
  }
}
