/** The pure decisions of the Starlette `RemoteApp`: which endpoint is used,
    which side of a parameter merge wins, what the callback yields, how a
    resource request finds its URL and its token, and how an ID token is set
    up for verification. None of these touches the app's mutable state. */
module RemoteAppRules {
  import opened Json
  import opened Collaborators

  /** The app's static configuration (fields of `BaseApp`). A parameter dict
      that Python keeps as `None` is the empty map here: `update` with it
      changes nothing either way. `fetchToken` is the optional `fetch_token`
      hook, called with the inbound request; it answers a token (`None` for
      none) or fails with an exception. */
  datatype Config = Config(
    clientId: Value,
    authorizeUrl: Value,
    accessTokenUrl: Value,
    requestTokenUrl: Value,
    apiBaseUrl: Value,
    authorizeParams: Dict,
    accessTokenParams: Dict,
    requestTokenParams: Dict,
    fetchToken: Option<HttpRequest -> Reply>)

  /** OAuth 1 (the redirection-based flow of section 2 of RFC 5849) is
      configured exactly when a request-token URL is set; otherwise the app
      runs the authorization-code grant of section 4.1 of RFC 6749. */
  predicate IsOAuth1(cfg: Config) {
    Truthy(cfg.requestTokenUrl)
  }

  // ---------------------------------------------------------------------
  // Endpoint selection

  /** A configured endpoint, or for OAuth 2 only when none is configured,
      the one the discovery document names under `key`. */
  function ConfiguredOrDiscovered(cfg: Config, configured: Value, metadata: Dict, key: string): Value {
    if !Truthy(configured) && !IsOAuth1(cfg) then Get(metadata, key) else configured
  }

  /** The authorization endpoint of `create_authorization_url`. */
  function AuthorizationEndpoint(cfg: Config, metadata: Dict): (r: Result<Value>)
    ensures r.Ok? ==> Truthy(r.value)
    ensures Truthy(cfg.authorizeUrl) ==> r == Ok(cfg.authorizeUrl)
    ensures r.Ok? && r.value != cfg.authorizeUrl ==>
              !IsOAuth1(cfg) && r.value == Get(metadata, "authorization_endpoint")
    ensures r.Err? <==>
              !Truthy(cfg.authorizeUrl)
              && (IsOAuth1(cfg) || !Truthy(Get(metadata, "authorization_endpoint")))
    ensures r.Err? ==> r.error == MissingAuthorizeUrl
  {
    var endpoint := ConfiguredOrDiscovered(cfg, cfg.authorizeUrl, metadata, "authorization_endpoint");
    if !Truthy(endpoint) then Err(MissingAuthorizeUrl) else Ok(endpoint)
  }

  /** The token endpoint of `fetch_access_token`. No error is raised when it
      is missing: the empty value goes on to the OAuth client. */
  function TokenEndpoint(cfg: Config, metadata: Dict): (r: Value)
    ensures IsOAuth1(cfg) ==> r == cfg.accessTokenUrl
    ensures Truthy(cfg.accessTokenUrl) ==> r == cfg.accessTokenUrl
    ensures !IsOAuth1(cfg) && !Truthy(cfg.accessTokenUrl) ==> r == Get(metadata, "token_endpoint")
    ensures r != cfg.accessTokenUrl ==> !IsOAuth1(cfg) && r == Get(metadata, "token_endpoint")
  {
    ConfiguredOrDiscovered(cfg, cfg.accessTokenUrl, metadata, "token_endpoint")
  }

  /** Under OAuth 1 both endpoints come from the configuration alone. */
  lemma OAuth1EndpointsIgnoreMetadata(cfg: Config, m1: Dict, m2: Dict)
    requires IsOAuth1(cfg)
    ensures AuthorizationEndpoint(cfg, m1) == AuthorizationEndpoint(cfg, m2)
    ensures TokenEndpoint(cfg, m1) == TokenEndpoint(cfg, m2)
  {
  }

  // ---------------------------------------------------------------------
  // Parameter merges

  /** `kwargs.update(self.authorize_params)`: the static authorize params
      win on a shared key; every other caller key is kept. */
  function AuthorizeKwargs(cfg: Config, kwargs: Dict): (r: Dict)
    ensures r.Keys == kwargs.Keys + cfg.authorizeParams.Keys
    ensures forall k | k in cfg.authorizeParams :: r[k] == cfg.authorizeParams[k]
    ensures forall k | k in kwargs && k !in cfg.authorizeParams :: r[k] == kwargs[k]
  {
    if cfg.authorizeParams != map[] then Update(kwargs, cfg.authorizeParams) else kwargs
  }

  /** The OAuth 1 credential: the request token updated with the callback
      params, so verifier params override request-token fields. */
  function OAuth1Credential(requestToken: Dict, params: Dict): (r: Dict)
    ensures r.Keys == requestToken.Keys + params.Keys
    ensures forall k | k in params :: r[k] == params[k]
    ensures forall k | k in requestToken && k !in params :: r[k] == requestToken[k]
  {
    var token := Update(map[], requestToken);
    Update(token, params)
  }

  /** The OAuth 2 exchange kwargs: the static access-token params, each
      overridden by the caller's params. */
  function OAuth2ExchangeKwargs(cfg: Config, params: Dict): (r: Dict)
    ensures r.Keys == cfg.accessTokenParams.Keys + params.Keys
    ensures forall k | k in params :: r[k] == params[k]
    ensures forall k | k in cfg.accessTokenParams && k !in params :: r[k] == cfg.accessTokenParams[k]
  {
    var empty: Dict := map[];
    var kwargs := if cfg.accessTokenParams != map[] then Update(empty, cfg.accessTokenParams) else empty;
    Update(kwargs, params)
  }

  /** The token exchange of `fetch_access_token` on the loaded `metadata`:
      under OAuth 1 the merged credential at `access_token_url` with the
      static params, under OAuth 2 the merged kwargs at the selected token
      endpoint. */
  function ExchangeCall(cfg: Config, metadata: Dict, redirectUri: Value, requestToken: Option<Dict>,
                        params: Dict): (r: Call)
    requires IsOAuth1(cfg) ==> requestToken.Some?
    ensures r.OAuth1AccessToken? <==> IsOAuth1(cfg)
    ensures r.OAuth2AccessToken? <==> !IsOAuth1(cfg)
    ensures (r.OAuth1AccessToken? || r.OAuth2AccessToken?)
            && r.clientMetadata == metadata && r.redirectUri == redirectUri
    ensures r.OAuth1AccessToken? ==>
              r.endpoint == cfg.accessTokenUrl && r.credential == OAuth1Credential(requestToken.value, params)
              && r.kwargs == cfg.accessTokenParams
    ensures r.OAuth2AccessToken? ==>
              r.endpoint == TokenEndpoint(cfg, metadata) && r.kwargs == OAuth2ExchangeKwargs(cfg, params)
  {
    var endpoint := TokenEndpoint(cfg, metadata);
    if IsOAuth1(cfg) then
      OAuth1AccessToken(metadata, redirectUri, OAuth1Credential(requestToken.value, params),
                        endpoint, cfg.accessTokenParams)
    else OAuth2AccessToken(metadata, redirectUri, endpoint, OAuth2ExchangeKwargs(cfg, params))
  }

  // ---------------------------------------------------------------------
  // Callback parameters

  /** `request.query_params.get(name)`. */
  function QueryParam(request: HttpRequest, name: string): Value {
    if name in request.query then Str(request.query[name]) else Null
  }

  /** `_generate_access_token_params`: the request scope under OAuth 1,
      otherwise exactly `code` and `state` from the query string. */
  function GenerateAccessTokenParams(cfg: Config, request: HttpRequest): (r: Dict)
    ensures IsOAuth1(cfg) ==> r == request.scope
    ensures !IsOAuth1(cfg) ==> r.Keys == {"code", "state"}
    ensures !IsOAuth1(cfg) ==>
              forall name | name in r ::
                (name in request.query ==> r[name] == Str(request.query[name]))
                && (name !in request.query ==> r[name] == Null)
  {
    if IsOAuth1(cfg) then request.scope
    else map["code" := QueryParam(request, "code"), "state" := QueryParam(request, "state")]
  }

  /** The code of an OAuth 2 callback reaches the token exchange, whatever
      the static access-token params say about `code`. */
  lemma CallbackCodeReachesExchange(cfg: Config, request: HttpRequest)
    requires !IsOAuth1(cfg) && "code" in request.query
    ensures "code" in OAuth2ExchangeKwargs(cfg, GenerateAccessTokenParams(cfg, request))
    ensures OAuth2ExchangeKwargs(cfg, GenerateAccessTokenParams(cfg, request))["code"]
            == Str(request.query["code"])
  {
  }

  // ---------------------------------------------------------------------
  // Resource requests

  /** `url.startswith(('https://', 'http://'))`. */
  predicate IsAbsoluteUrl(s: string) {
    "https://" <= s || "http://" <= s
  }

  /** The URL a request goes to: joined with `api_base_url` only when that
      is set and the URL is not absolute. */
  function ResolveUrl(cfg: Config, urljoin: (Value, string) -> Value, url: Value): (r: Result<Value>)
    ensures !Truthy(cfg.apiBaseUrl) ==> r == Ok(url)
    ensures url.Str? && IsAbsoluteUrl(url.s) ==> r == Ok(url)
    ensures Truthy(cfg.apiBaseUrl) && url.Str? && !IsAbsoluteUrl(url.s) ==>
              r == Ok(urljoin(cfg.apiBaseUrl, url.s))
    ensures r.Err? <==> Truthy(cfg.apiBaseUrl) && !url.Str?
    ensures r.Err? ==> r.error == NotAString
  {
    if !Truthy(cfg.apiBaseUrl) then Ok(url)
    else match url
      case Str(s) => if IsAbsoluteUrl(s) then Ok(url) else Ok(urljoin(cfg.apiBaseUrl, s))
      case _ => Err(NotAString)
  }

  predicate WithholdsToken(kwargs: Dict) {
    Truthy(Get(kwargs, "withhold_token"))
  }

  /** The token of a request that does not withhold one: the explicit token,
      else (only when it is `None` and a request is supplied) the
      `fetch_token` hook's answer, whose exception propagates. `Ok(Null)`
      means none was found. */
  function ResolveToken(cfg: Config, token: Value, request: Option<HttpRequest>): (r: Result<Value>)
    ensures token != Null ==> r == Ok(token)
    ensures token == Null && request.Some? && cfg.fetchToken.Some? ==>
              r == Lift(cfg.fetchToken.value(request.value))
    ensures token == Null && (request.None? || cfg.fetchToken.None?) ==> r == Ok(Null)
    ensures r.Err? ==> r.error.External?
  {
    if token == Null && request.Some? && cfg.fetchToken.Some? then Lift(cfg.fetchToken.value(request.value))
    else Ok(token)
  }

  /** `request(method, url, token, **kwargs)` up to the HTTP call: the call
      it sends, or the error it raises before sending anything. */
  function PrepareRequest(cfg: Config, urljoin: (Value, string) -> Value, httpMethod: string,
                          url: Value, token: Value, request: Option<HttpRequest>, kwargs: Dict)
    : (r: Result<Call>)
    ensures r.Ok? ==> r.value.Send? && r.value.httpMethod == httpMethod && r.value.kwargs == kwargs
                      && ResolveUrl(cfg, urljoin, url) == Ok(r.value.url)
    ensures ResolveUrl(cfg, urljoin, url).Err? ==> r == Err(NotAString)
    ensures WithholdsToken(kwargs) ==>
              (r.Ok? <==> ResolveUrl(cfg, urljoin, url).Ok?) && (r.Ok? ==> r.value.token == Null)
    ensures !WithholdsToken(kwargs) && r.Ok? ==> r.value.token != Null
    ensures !WithholdsToken(kwargs) && token != Null && ResolveUrl(cfg, urljoin, url).Ok? ==>
              r.Ok? && r.value.token == token
    ensures !WithholdsToken(kwargs) && token == Null && (request.None? || cfg.fetchToken.None?)
            && ResolveUrl(cfg, urljoin, url).Ok? ==>
              r == Err(MissingToken)
    ensures !WithholdsToken(kwargs) && token == Null && request.Some? && cfg.fetchToken.Some?
            && ResolveUrl(cfg, urljoin, url).Ok? ==>
              match cfg.fetchToken.value(request.value)
              case Failed(reason) => r == Err(External(reason))
              case Replied(answer) =>
                (r.Ok? <==> answer != Null)
                && (r.Ok? ==> r.value.token == answer)
                && (r.Err? ==> r.error == MissingToken)
  {
    match ResolveUrl(cfg, urljoin, url)
    case Err(e) => Err(e)
    case Ok(target) =>
      if WithholdsToken(kwargs) then Ok(Send(httpMethod, target, Null, kwargs))
      else
        match ResolveToken(cfg, token, request)
        case Err(e) => Err(e)
        case Ok(resolved) =>
          if resolved == Null then Err(MissingToken) else Ok(Send(httpMethod, target, resolved, kwargs))
  }

  /** `withhold_token` bypasses the token lookup: the hook is never consulted. */
  lemma WithholdIgnoresHook(cfg: Config, hook: Option<HttpRequest -> Reply>,
                            urljoin: (Value, string) -> Value, httpMethod: string, url: Value,
                            token: Value, request: Option<HttpRequest>, kwargs: Dict)
    requires WithholdsToken(kwargs)
    ensures PrepareRequest(cfg, urljoin, httpMethod, url, token, request, kwargs)
            == PrepareRequest(cfg.(fetchToken := hook), urljoin, httpMethod, url, Null, None, kwargs)
  {
  }

  /** An explicit token wins: the hook is not consulted either. */
  lemma ExplicitTokenIgnoresHook(cfg: Config, hook: Option<HttpRequest -> Reply>,
                                 urljoin: (Value, string) -> Value, httpMethod: string, url: Value,
                                 token: Value, request: Option<HttpRequest>, kwargs: Dict)
    requires token != Null
    ensures PrepareRequest(cfg, urljoin, httpMethod, url, token, request, kwargs)
            == PrepareRequest(cfg.(fetchToken := hook), urljoin, httpMethod, url, token, None, kwargs)
  {
  }

  // ---------------------------------------------------------------------
  // ID token set-up (the validation itself is the JOSE library's)

  datatype ClaimsSetup = ClaimsSetup(kind: ClaimsKind, params: Dict)

  /** The claims class and claims params of `parse_id_token`: a code-flow ID
      token exactly when the token response carries an access token, which
      then goes into the params for the `at_hash` check. */
  function SetUpClaims(cfg: Config, token: Dict, nonce: Value): (r: ClaimsSetup)
    ensures r.kind == CodeIDToken <==> "access_token" in token
    ensures r.params.Keys == {"nonce", "client_id"} + (if "access_token" in token then {"access_token"} else {})
    ensures r.params["nonce"] == nonce && r.params["client_id"] == cfg.clientId
    ensures "access_token" in token ==> r.params["access_token"] == token["access_token"]
  {
    var params := map["nonce" := nonce, "client_id" := cfg.clientId];
    if "access_token" in token then ClaimsSetup(CodeIDToken, params["access_token" := token["access_token"]])
    else ClaimsSetup(ImplicitIDToken, params)
  }

  /** `{'iss': {'values': [issuer]}}`: the claims option that makes the
      validator require `iss` to equal the discovered issuer (the `issuer`
      of section 3 of OpenID Connect Discovery 1.0, checked as in section
      3.1.3.7 of OpenID Connect Core 1.0). */
  function IssuerOption(issuer: Value): Value {
    Object(map["iss" := Object(map["values" := List([issuer])])])
  }

  /** The caller's claims options, else the issuer check when the metadata
      has an `issuer` key, else none. Caller options win even when empty. */
  function DefaultClaimsOptions(claimsOptions: Value, metadata: Dict): (r: Value)
    ensures claimsOptions != Null ==> r == claimsOptions
    ensures claimsOptions == Null && "issuer" in metadata ==> r == IssuerOption(metadata["issuer"])
    ensures claimsOptions == Null && "issuer" !in metadata ==> r == Null
  {
    if claimsOptions == Null && "issuer" in metadata then IssuerOption(metadata["issuer"])
    else claimsOptions
  }

  const DefaultAlgorithms: Value := List([Str("RS256")])

  /** The algorithm allow-list: the discovered
      `id_token_signing_alg_values_supported`, or `['RS256']` when that is
      missing or empty. The list handed to the decoder is never empty. */
  function SigningAlgorithms(metadata: Dict): (r: Value)
    ensures Truthy(r)
    ensures Truthy(Get(metadata, "id_token_signing_alg_values_supported")) ==>
              r == metadata["id_token_signing_alg_values_supported"]
    ensures !Truthy(Get(metadata, "id_token_signing_alg_values_supported")) ==> r == DefaultAlgorithms
  {
    var algs := Get(metadata, "id_token_signing_alg_values_supported");
    if !Truthy(algs) then DefaultAlgorithms else algs
  }

  /** The decode-and-validate call of `parse_id_token` with the key set
      `jwkSet` and the loaded `metadata`. */
  function DecodeCall(cfg: Config, token: Dict, nonce: Value, claimsOptions: Value, metadata: Dict,
                      jwkSet: Value): (r: Call)
    requires "id_token" in token
    ensures r.DecodeIdToken? && r.idToken == token["id_token"] && r.jwkSet == jwkSet
    ensures r.kind == CodeIDToken <==> "access_token" in token
    ensures r.claimsParams == SetUpClaims(cfg, token, nonce).params
    ensures Truthy(r.algorithms) && r.algorithms == SigningAlgorithms(metadata)
    ensures r.claimsOptions == DefaultClaimsOptions(claimsOptions, metadata)
  {
    var claims := SetUpClaims(cfg, token, nonce);
    DecodeIdToken(token["id_token"], SigningAlgorithms(metadata), jwkSet, claims.kind,
                  DefaultClaimsOptions(claimsOptions, metadata), claims.params)
  }

  // ---------------------------------------------------------------------
  // JSON Web Key Set (section 5 of RFC 7517)

  datatype KeySetSource = Cached(jwks: Value) | Remote(uri: Value) | NoJwksUri

  /** Where `_fetch_jwk_set` takes the key set from: the cached `jwks` unless
      forced or empty, else `jwks_uri`, else nowhere. */
  function LocateKeySet(metadata: Dict, force: bool): (r: KeySetSource)
    ensures r.Cached? <==> !force && Truthy(Get(metadata, "jwks"))
    ensures r.Cached? ==> r.jwks == metadata["jwks"]
    ensures r.Remote? ==> Truthy(r.uri) && r.uri == Get(metadata, "jwks_uri")
    ensures r.NoJwksUri? <==> (force || !Truthy(Get(metadata, "jwks"))) && !Truthy(Get(metadata, "jwks_uri"))
  {
    var cached := Get(metadata, "jwks");
    if Truthy(cached) && !force then Cached(cached)
    else
      var uri := Get(metadata, "jwks_uri");
      if !Truthy(uri) then NoJwksUri else Remote(uri)
  }
}
