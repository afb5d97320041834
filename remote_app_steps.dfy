/** The operations of `RemoteApp` that read or change its metadata cache,
    each as a function from the old state to the new state, the calls made
    (in order) and the result. The class in `StarletteClient` is proved to
    behave exactly like these; the properties of the source are stated here. */
module RemoteAppSteps {
  import opened Json
  import opened Collaborators
  import opened RemoteAppRules

  /** The mutable part of the app: `server_metadata` and `_server_metadata_url`. */
  datatype State = State(metadata: Dict, discoveryUrl: Value)

  /** The outcome of one operation. */
  datatype Step<T> = Step(state: State, events: seq<Event>, result: Result<T>)

  /** 1 while a discovery fetch is still due, else 0. */
  function Pending(url: Value): nat {
    if Truthy(url) then 1 else 0
  }

  predicate OnlySends(events: seq<Event>) {
    forall e | e in events :: e.call.Send?
  }

  /** Every recorded reply is the collaborators' answer to the recorded call. */
  predicate Answered(events: seq<Event>, env: Env) {
    forall e | e in events :: e.reply == env.respond(e.call)
  }

  const WithholdToken: Dict := map["withhold_token" := Bool(true)]

  /** The GET request `_fetch_server_metadata` sends for `url`, written with
      the token lookup already skipped (see `MetadataRequestWithholdsToken`). */
  function MetadataRequest(cfg: Config, env: Env, url: Value): Result<Call> {
    match ResolveUrl(cfg, env.urljoin, url)
    case Err(e) => Err(e)
    case Ok(target) => Ok(Send("GET", target, Null, WithholdToken))
  }

  /** `_fetch_server_metadata` goes through `request` with
      `withhold_token=True`, so no token is looked up or attached. */
  lemma MetadataRequestWithholdsToken(cfg: Config, env: Env, url: Value)
    ensures MetadataRequest(cfg, env, url) == PrepareRequest(cfg, env.urljoin, "GET", url, Null, None, WithholdToken)
  {
  }

  datatype Fetched = Fetched(events: seq<Event>, result: Result<Value>)

  /** `_fetch_server_metadata(url)`: one unauthenticated GET through
      `request`, or no call at all when the URL cannot be resolved. */
  function FetchServerMetadata(cfg: Config, purpose: Purpose, url: Value, env: Env): (r: Fetched)
    ensures |r.events| <= 1 && OnlySends(r.events)
    ensures forall e | e in r.events :: e.purpose == purpose && e.call.token == Null
    ensures forall e | e in r.events :: e.reply == env.respond(e.call)
    ensures r.events == [] <==> r.result == Err(NotAString)
    ensures r.events == [] <==> ResolveUrl(cfg, env.urljoin, url).Err?
    ensures r.events != [] ==>
              r.events[0].call == Send("GET", ResolveUrl(cfg, env.urljoin, url).value, Null, WithholdToken)
              && r.result == Lift(r.events[0].reply)
  {
    match MetadataRequest(cfg, env, url)
    case Err(e) => Fetched([], Err(e))
    case Ok(call) =>
      var reply := env.respond(call);
      Fetched([Event(purpose, call, reply)], Lift(reply))
  }

  /** `_load_server_metadata`: fetch the discovery document once, clear the
      URL, merge the document into the metadata (fetched keys win). */
  function LoadServerMetadata(cfg: Config, s: State, env: Env): (r: Step<Dict>)
    ensures !Truthy(s.discoveryUrl) ==> r == Step(s, [], Ok(s.metadata))
    ensures Truthy(s.discoveryUrl) ==>
              var fetched := FetchServerMetadata(cfg, Discovery, s.discoveryUrl, env);
              && r.events == fetched.events
              && (fetched.result.Err? ==> r.result == Err(fetched.result.error))
              && (fetched.result.Ok? ==>
                    (r.result.Ok? <==> fetched.result.value.Object?)
                    && (r.result.Err? ==> r.result == Err(MalformedDocument)))
    ensures |r.events| <= 1 && OnlySends(r.events)
    ensures forall e | e in r.events :: e.purpose == Discovery
    ensures r.result.Ok? ==> r.state.metadata == r.result.value && !Truthy(r.state.discoveryUrl)
    ensures Truthy(s.discoveryUrl) && r.result.Ok? ==>
              |r.events| == 1 && r.events[0].reply.Replied? && r.events[0].reply.body.Object?
              && r.state.metadata == Update(s.metadata, r.events[0].reply.body.fields)
    ensures r.result.Err? && r.result.error != MalformedDocument ==> r.state == s
    ensures r.result == Err(MalformedDocument) ==>
              r.state == State(s.metadata, Null) && |r.events| == 1 && r.events[0].reply.Replied?
    ensures Pending(r.state.discoveryUrl) + Discoveries(r.events) == Pending(s.discoveryUrl)
  {
    if Truthy(s.discoveryUrl) then
      var fetched := FetchServerMetadata(cfg, Discovery, s.discoveryUrl, env);
      match fetched.result
      case Err(e) => Step(s, fetched.events, Err(e))
      case Ok(document) =>
        assert Discoveries(fetched.events) == 1 by {
          assert fetched.events[1..] == [];
        }
        // the URL is cleared before the document is merged
        var cleared := State(s.metadata, Null);
        if document.Object? then
          var merged := Update(cleared.metadata, document.fields);
          Step(State(merged, cleared.discoveryUrl), fetched.events, Ok(merged))
        else Step(cleared, fetched.events, Err(MalformedDocument))
    else Step(s, [], Ok(s.metadata))
  }

  /** Loading twice fetches the discovery document at most once, and
      after a successful load the second call changes nothing. */
  lemma {:induction false} LoadTwiceFetchesOnce(cfg: Config, s: State, env: Env)
    ensures var first := LoadServerMetadata(cfg, s, env);
            var second := LoadServerMetadata(cfg, first.state, env);
            Discoveries(first.events + second.events) <= 1
            && (first.result.Ok? ==> second == Step(first.state, [], first.result))
  {
    var first := LoadServerMetadata(cfg, s, env);
    var second := LoadServerMetadata(cfg, first.state, env);
    DiscoveriesAppend(first.events, second.events);
  }

  /** `_fetch_jwk_set(force)`: the cached key set unless forced or empty,
      else the document at `jwks_uri`, stored under `jwks`. */
  function FetchJwkSet(cfg: Config, s: State, force: bool, env: Env): (r: Step<Value>)
    ensures var load := LoadServerMetadata(cfg, s, env);
            && load.events <= r.events
            && (load.result.Err? ==> r == Step(load.state, load.events, Err(load.result.error)))
            && (load.result.Ok? ==>
                  match LocateKeySet(load.result.value, force)
                  case Cached(jwks) => r == Step(load.state, load.events, Ok(jwks))
                  case NoJwksUri => r == Step(load.state, load.events, Err(MissingJwksUri))
                  case Remote(uri) =>
                    var fetched := FetchServerMetadata(cfg, KeySet, uri, env);
                    r.events == load.events + fetched.events && r.result == fetched.result
                    && (r.result.Ok? ==>
                          r.state == State(load.state.metadata["jwks" := r.result.value], load.state.discoveryUrl))
                    && (r.result.Err? ==> r.state == load.state))
    ensures OnlySends(r.events)
    ensures Pending(r.state.discoveryUrl) + Discoveries(r.events) == Pending(s.discoveryUrl)
  {
    var load := LoadServerMetadata(cfg, s, env);
    if load.result.Err? then Step(load.state, load.events, Err(load.result.error))
    else
      match LocateKeySet(load.result.value, force)
      case Cached(jwks) => Step(load.state, load.events, Ok(jwks))
      case NoJwksUri => Step(load.state, load.events, Err(MissingJwksUri))
      case Remote(uri) =>
        var fetched := FetchServerMetadata(cfg, KeySet, uri, env);
        DiscoveriesAppend(load.events, fetched.events);
        NoDiscoveryEvents(fetched.events);
        assert (load.events + fetched.events)[|load.events|..] == fetched.events;
        match fetched.result
        case Err(e) => Step(load.state, load.events + fetched.events, Err(e))
        case Ok(jwks) =>
          Step(State(load.state.metadata["jwks" := jwks], load.state.discoveryUrl),
               load.events + fetched.events, Ok(jwks))
  }

  /** Every reply `_fetch_jwk_set` records is the collaborators' answer. */
  lemma FetchJwkSetAnswered(cfg: Config, s: State, force: bool, env: Env)
    ensures Answered(FetchJwkSet(cfg, s, force, env).events, env)
  {
  }

  /** The OAuth client calls of `create_authorization_url` once the
      endpoint is known: for OAuth 1 the request-token fetch, then (if it
      answered) the URL built with that token; for OAuth 2 the one URL
      build. */
  function AuthorizationCalls(cfg: Config, metadata: Dict, redirectUri: Value, endpoint: Value,
                              kwargs: Dict, env: Env): (r: seq<Event>)
    ensures 1 <= |r| <= 2
    ensures forall e | e in r :: e.purpose == Client && e.reply == env.respond(e.call)
    ensures IsOAuth1(cfg) ==>
              && r[0].call == FetchRequestToken(metadata, redirectUri, cfg.requestTokenUrl, cfg.requestTokenParams)
              && (|r| == 2 <==> r[0].reply.Replied?)
              && (|r| == 2 ==> r[1].call == OAuth1AuthorizationUrl(metadata, redirectUri, r[0].reply.body, endpoint, kwargs))
    ensures !IsOAuth1(cfg) ==> |r| == 1 && r[0].call == OAuth2AuthorizationUrl(metadata, redirectUri, endpoint, kwargs)
  {
    if IsOAuth1(cfg) then
      var fetch := FetchRequestToken(metadata, redirectUri, cfg.requestTokenUrl, cfg.requestTokenParams);
      var token := env.respond(fetch);
      if token.Failed? then [Event(Client, fetch, token)]
      else
        var build := OAuth1AuthorizationUrl(metadata, redirectUri, token.body, endpoint, kwargs);
        [Event(Client, fetch, token), Event(Client, build, env.respond(build))]
    else
      var build := OAuth2AuthorizationUrl(metadata, redirectUri, endpoint, kwargs);
      [Event(Client, build, env.respond(build))]
  }

  /** What `create_authorization_url` returns from those calls: under
      OAuth 1 `{'url': ..., 'request_token': ...}`, under OAuth 2 what
      `_create_oauth2_authorization_url` returned. */
  function AuthorizationResult(cfg: Config, calls: seq<Event>): (r: Result<Value>)
    requires 1 <= |calls|
    requires IsOAuth1(cfg) ==> (|calls| == 2 <==> calls[0].reply.Replied?)
    ensures IsOAuth1(cfg) && r.Ok? ==>
              r.value.Object? && r.value.fields.Keys == {"url", "request_token"}
              && calls[0].reply == Replied(r.value.fields["request_token"])
              && calls[1].reply == Replied(r.value.fields["url"])
    ensures IsOAuth1(cfg) && calls[0].reply.Replied? && calls[1].reply.Replied? ==>
              r == Ok(Object(map["url" := calls[1].reply.body, "request_token" := calls[0].reply.body]))
    ensures IsOAuth1(cfg) && calls[0].reply.Failed? ==> r == Err(External(calls[0].reply.reason))
    ensures IsOAuth1(cfg) && calls[0].reply.Replied? && calls[1].reply.Failed? ==>
              r == Err(External(calls[1].reply.reason))
    ensures !IsOAuth1(cfg) ==> r == Lift(calls[0].reply)
    ensures r.Err? ==> r.error.External?
  {
    if IsOAuth1(cfg) then
      if calls[0].reply.Failed? then Err(External(calls[0].reply.reason))
      else if calls[1].reply.Failed? then Err(External(calls[1].reply.reason))
      else Ok(Object(map["url" := calls[1].reply.body, "request_token" := calls[0].reply.body]))
    else Lift(calls[0].reply)
  }

  /** `create_authorization_url(redirect_uri, **kwargs)`: load the metadata,
      choose the endpoint (raising before any client call when there is
      none), merge the authorize params, then call the OAuth client. */
  function CreateAuthorizationUrl(cfg: Config, s: State, redirectUri: Value, kwargs: Dict, env: Env)
    : (r: Step<Value>)
    ensures var load := LoadServerMetadata(cfg, s, env);
            && r.state == load.state
            && load.events <= r.events
            && (load.result.Err? ==> r == Step(load.state, load.events, Err(load.result.error)))
            && (r.result == Err(MissingAuthorizeUrl) <==>
                  load.result.Ok? && AuthorizationEndpoint(cfg, load.result.value).Err?)
            && (r.result == Err(MissingAuthorizeUrl) ==> r.events == load.events)
            && (load.result.Ok? && AuthorizationEndpoint(cfg, load.result.value).Ok? ==>
                  var calls := AuthorizationCalls(cfg, load.result.value, redirectUri,
                                                  AuthorizationEndpoint(cfg, load.result.value).value,
                                                  AuthorizeKwargs(cfg, kwargs), env);
                  r.events == load.events + calls && r.result == AuthorizationResult(cfg, calls))
    ensures Pending(r.state.discoveryUrl) + Discoveries(r.events) == Pending(s.discoveryUrl)
  {
    var load := LoadServerMetadata(cfg, s, env);
    if load.result.Err? then Step(load.state, load.events, Err(load.result.error))
    else
      var metadata := load.result.value;
      var endpoint := AuthorizationEndpoint(cfg, metadata);
      if endpoint.Err? then Step(load.state, load.events, Err(endpoint.error))
      else
        var calls := AuthorizationCalls(cfg, metadata, redirectUri, endpoint.value,
                                        AuthorizeKwargs(cfg, kwargs), env);
        DiscoveriesAppend(load.events, calls);
        NoDiscoveryEvents(calls);
        Step(load.state, load.events + calls, AuthorizationResult(cfg, calls))
  }

  /** `fetch_access_token(redirect_uri, request_token, **params)`. */
  function FetchAccessToken(cfg: Config, s: State, redirectUri: Value, requestToken: Option<Dict>,
                            params: Dict, env: Env): (r: Step<Value>)
    ensures var load := LoadServerMetadata(cfg, s, env);
            && r.state == load.state
            && (load.result.Err? ==> r.events == load.events && r.result == Err(load.result.error))
            && (load.result.Ok? && IsOAuth1(cfg) && requestToken.None? ==>
                  r.events == load.events && r.result == Err(MissingRequestToken))
            && (load.result.Ok? && (!IsOAuth1(cfg) || requestToken.Some?) ==>
                  var exchange := ExchangeCall(cfg, load.result.value, redirectUri, requestToken, params);
                  r.events == load.events + [Event(Client, exchange, env.respond(exchange))]
                  && r.result == Lift(env.respond(exchange)))
    ensures Answered(r.events, env)
    ensures Pending(r.state.discoveryUrl) + Discoveries(r.events) == Pending(s.discoveryUrl)
  {
    var load := LoadServerMetadata(cfg, s, env);
    if load.result.Err? then Step(load.state, load.events, Err(load.result.error))
    else if IsOAuth1(cfg) && requestToken.None? then Step(load.state, load.events, Err(MissingRequestToken))
    else
      var exchange := ExchangeCall(cfg, load.result.value, redirectUri, requestToken, params);
      var last := [Event(Client, exchange, env.respond(exchange))];
      DiscoveriesAppend(load.events, last);
      Step(load.state, load.events + last, Lift(env.respond(exchange)))
  }

  /** The exchange calls of `fetch_access_token`: none before the load, none
      at all without a request token under OAuth 1, and each one set up as
      the protocol in force says. */
  lemma FetchAccessTokenExchanges(cfg: Config, s: State, redirectUri: Value, requestToken: Option<Dict>,
                                  params: Dict, env: Env)
    ensures var r := FetchAccessToken(cfg, s, redirectUri, requestToken, params, env);
            var load := LoadServerMetadata(cfg, s, env);
            && load.events <= r.events
            && |r.events| <= |load.events| + 1
            && (IsOAuth1(cfg) && requestToken.None? ==> r.events == load.events)
            && (forall e | e in r.events && e.call.OAuth1AccessToken? ::
                  IsOAuth1(cfg) && requestToken.Some? && e.call.redirectUri == redirectUri
                  && e.call.clientMetadata == load.result.value
                  && e.call.endpoint == cfg.accessTokenUrl
                  && e.call.credential == OAuth1Credential(requestToken.value, params)
                  && e.call.kwargs == cfg.accessTokenParams)
            && (forall e | e in r.events && e.call.OAuth2AccessToken? ::
                  !IsOAuth1(cfg) && e.call.redirectUri == redirectUri
                  && e.call.clientMetadata == load.result.value
                  && e.call.endpoint == TokenEndpoint(cfg, load.result.value)
                  && e.call.kwargs == OAuth2ExchangeKwargs(cfg, params))
  {
    var r := FetchAccessToken(cfg, s, redirectUri, requestToken, params, env);
    var load := LoadServerMetadata(cfg, s, env);
    if load.result.Ok? && (!IsOAuth1(cfg) || requestToken.Some?) {
      var exchange := ExchangeCall(cfg, load.result.value, redirectUri, requestToken, params);
      forall e | e in r.events && (e.call.OAuth1AccessToken? || e.call.OAuth2AccessToken?)
        ensures e.call == exchange
      {
        assert e in load.events || e == Event(Client, exchange, env.respond(exchange));
      }
    }
  }

  /** The part of `parse_id_token` after the metadata was loaded: the key
      set (loaded through `_fetch_jwk_set`), then the decode-and-validate
      call with the signing algorithms and claims options of `metadata`. */
  function DecodeWithKeys(cfg: Config, s: State, token: Dict, nonce: Value, claimsOptions: Value,
                          metadata: Dict, env: Env): (r: Step<Option<Value>>)
    requires "id_token" in token
    ensures r.result != Ok(None)
    ensures Pending(r.state.discoveryUrl) + Discoveries(r.events) == Pending(s.discoveryUrl)
  {
    var keys := FetchJwkSet(cfg, s, false, env);
    if keys.result.Err? then Step(keys.state, keys.events, Err(keys.result.error))
    else
      var decode := DecodeCall(cfg, token, nonce, claimsOptions, metadata, keys.result.value);
      var reply := env.respond(decode);
      var last := [Event(Client, decode, reply)];
      DiscoveriesAppend(keys.events, last);
      Step(keys.state, keys.events + last, Decoded(reply))
  }

  /** The decoder's answer as `parse_id_token` returns it: the claims, or
      the decoder's error raised. */
  function Decoded(reply: Reply): (r: Result<Option<Value>>)
    ensures reply.Replied? <==> r.Ok?
    ensures reply.Replied? ==> r.value == Some(reply.body)
    ensures reply.Failed? ==> r.error == External(reply.reason)
  {
    match reply
    case Replied(claims) => Ok(Some(claims))
    case Failed(reason) => Err(External(reason))
  }

  /** `DecodeWithKeys` loads the key set first and raises its error; with a
      key set it makes exactly one more call, the decode with that key set,
      whose answer is the result. */
  lemma DecodeWithKeysSteps(cfg: Config, s: State, token: Dict, nonce: Value, claimsOptions: Value,
                            metadata: Dict, env: Env)
    requires "id_token" in token
    ensures var r := DecodeWithKeys(cfg, s, token, nonce, claimsOptions, metadata, env);
            var keys := FetchJwkSet(cfg, s, false, env);
            && r.state == keys.state
            && (keys.result.Err? ==> r.events == keys.events && r.result == Err(keys.result.error))
            && (keys.result.Ok? ==>
                  var decode := DecodeCall(cfg, token, nonce, claimsOptions, metadata, keys.result.value);
                  r.events == keys.events + [Event(Client, decode, env.respond(decode))]
                  && r.result == Decoded(env.respond(decode)))
  {
  }

  /** Every reply `DecodeWithKeys` records is the collaborators' answer. */
  lemma DecodeWithKeysAnswered(cfg: Config, s: State, token: Dict, nonce: Value, claimsOptions: Value,
                               metadata: Dict, env: Env)
    requires "id_token" in token
    ensures Answered(DecodeWithKeys(cfg, s, token, nonce, claimsOptions, metadata, env).events, env)
  {
    DecodeWithKeysSteps(cfg, s, token, nonce, claimsOptions, metadata, env);
    FetchJwkSetAnswered(cfg, s, false, env);
  }

  /** The only decode call `DecodeWithKeys` makes is the one with the key
      set `_fetch_jwk_set` returned, and a successful result is its answer. */
  lemma DecodeUsesFetchedKeys(cfg: Config, s: State, token: Dict, nonce: Value, claimsOptions: Value,
                              metadata: Dict, env: Env)
    requires "id_token" in token
    ensures var r := DecodeWithKeys(cfg, s, token, nonce, claimsOptions, metadata, env);
            var keys := FetchJwkSet(cfg, s, false, env);
            forall e | e in r.events && e.call.DecodeIdToken? ::
              keys.result.Ok? && e.call == DecodeCall(cfg, token, nonce, claimsOptions, metadata, keys.result.value)
    ensures var r := DecodeWithKeys(cfg, s, token, nonce, claimsOptions, metadata, env);
            r.result.Ok? ==>
              |r.events| > 0 && r.events[|r.events| - 1].call.DecodeIdToken?
              && r.events[|r.events| - 1].reply == Replied(r.result.value.value)
  {
    var r := DecodeWithKeys(cfg, s, token, nonce, claimsOptions, metadata, env);
    var keys := FetchJwkSet(cfg, s, false, env);
    DecodeWithKeysSteps(cfg, s, token, nonce, claimsOptions, metadata, env);
    if keys.result.Ok? {
      var decode := DecodeCall(cfg, token, nonce, claimsOptions, metadata, keys.result.value);
      forall e | e in r.events && e.call.DecodeIdToken? ensures e.call == decode {
        assert e in keys.events || e == Event(Client, decode, env.respond(decode));
      }
    }
  }

  /** `parse_id_token(request, token, claims_options)` up to and including
      the decode-and-validate call; `nonce` is what the session holds. */
  function ParseIdToken(cfg: Config, s: State, token: Dict, nonce: Value, claimsOptions: Value, env: Env)
    : (r: Step<Option<Value>>)
    ensures r.result == Ok(None) <==> "id_token" !in token
    ensures "id_token" !in token ==> r.state == s && r.events == []
    ensures "id_token" in token ==>
              var load := LoadServerMetadata(cfg, s, env);
              && (load.result.Err? ==> r == Step(load.state, load.events, Err(load.result.error)))
              && (load.result.Ok? ==>
                    var rest := DecodeWithKeys(cfg, load.state, token, nonce, claimsOptions, load.result.value, env);
                    r == Step(rest.state, load.events + rest.events, rest.result))
    ensures Answered(r.events, env)
    ensures Pending(r.state.discoveryUrl) + Discoveries(r.events) == Pending(s.discoveryUrl)
  {
    if "id_token" !in token then Step(s, [], Ok(None))
    else
      var load := LoadServerMetadata(cfg, s, env);
      if load.result.Err? then Step(load.state, load.events, Err(load.result.error))
      else
        var rest := DecodeWithKeys(cfg, load.state, token, nonce, claimsOptions, load.result.value, env);
        DiscoveriesAppend(load.events, rest.events);
        Step(rest.state, load.events + rest.events, rest.result)
  }

  /** Every decode call of `parse_id_token` is set up from the loaded
      metadata and the key set `_fetch_jwk_set` returned on it, and a
      returned claims object is the decoder's answer. */
  lemma ParseIdTokenDecodeSetUp(cfg: Config, s: State, token: Dict, nonce: Value, claimsOptions: Value, env: Env)
    ensures var r := ParseIdToken(cfg, s, token, nonce, claimsOptions, env);
            var load := LoadServerMetadata(cfg, s, env);
            forall e | e in r.events && e.call.DecodeIdToken? ::
              && "id_token" in token && load.result.Ok?
              && FetchJwkSet(cfg, load.state, false, env).result.Ok?
              && e.call == DecodeCall(cfg, token, nonce, claimsOptions, load.result.value,
                                      FetchJwkSet(cfg, load.state, false, env).result.value)
    ensures var r := ParseIdToken(cfg, s, token, nonce, claimsOptions, env);
            r.result.Ok? && r.result.value.Some? ==>
              |r.events| > 0 && r.events[|r.events| - 1].call.DecodeIdToken?
              && r.events[|r.events| - 1].reply == Replied(r.result.value.value)
  {
    var r := ParseIdToken(cfg, s, token, nonce, claimsOptions, env);
    var load := LoadServerMetadata(cfg, s, env);
    if "id_token" in token && load.result.Ok? {
      var rest := DecodeWithKeys(cfg, load.state, token, nonce, claimsOptions, load.result.value, env);
      DecodeUsesFetchedKeys(cfg, load.state, token, nonce, claimsOptions, load.result.value, env);
      forall e | e in r.events && e.call.DecodeIdToken? ensures e in rest.events {
        assert e in load.events || e in rest.events;
      }
    }
  }
}
