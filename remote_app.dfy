/** The Starlette `RemoteApp` as an object: its metadata cache and discovery
    URL are fields that the methods update in place, and every call into a
    collaborator is appended to a ghost trace. Each method is proved to do
    exactly what the matching function of `RemoteAppSteps` describes, and to
    keep the fetch-once invariant. */
module StarletteClient {
  import opened Json
  import opened Collaborators
  import opened RemoteAppRules
  import S = RemoteAppSteps

  class RemoteApp {
    const config: Config
    /** `server_metadata` */
    var serverMetadata: Dict
    /** `_server_metadata_url`; `Null` once the discovery document was received */
    var serverMetadataUrl: Value
    /** every call made into a collaborator, in order */
    ghost var trace: seq<Event>

    /** Fetch-once: at most one discovery document is ever received, and none
        while the discovery URL is still set. */
    ghost predicate Valid()
      reads this
    {
      Discoveries(trace) + S.Pending(serverMetadataUrl) <= 1
    }

    function CurrentState(): S.State
      reads this`serverMetadata, this`serverMetadataUrl
    {
      S.State(serverMetadata, serverMetadataUrl)
    }

    constructor (config: Config, serverMetadata: Dict, serverMetadataUrl: Value)
      ensures Valid()
      ensures this.config == config
      ensures CurrentState() == S.State(serverMetadata, serverMetadataUrl) && trace == []
    {
      this.config := config;
      this.serverMetadata := serverMetadata;
      this.serverMetadataUrl := serverMetadataUrl;
      trace := [];
    }

    /** One call into a collaborator. */
    method Perform(ghost purpose: Purpose, call: Call, env: Env) returns (reply: Reply)
      modifies this`trace
      ensures reply == env.respond(call)
      ensures trace == old(trace) + [Event(purpose, call, reply)]
    {
      reply := env.respond(call);
      trace := trace + [Event(purpose, call, reply)];
    }

    /** `_fetch_server_metadata(url)`. */
    method FetchServerMetadata(ghost purpose: Purpose, url: Value, env: Env) returns (r: Result<Value>)
      modifies this`trace
      ensures var fetched := S.FetchServerMetadata(config, purpose, url, env);
              trace == old(trace) + fetched.events && r == fetched.result
    {
      var prepared := PrepareRequest(config, env.urljoin, "GET", url, Null, None, S.WithholdToken);
      if prepared.Err? {
        return Err(prepared.error);
      }
      var reply := Perform(purpose, prepared.value, env);
      r := Lift(reply);
    }

    /** `_load_server_metadata()`. */
    method LoadServerMetadata(env: Env) returns (r: Result<Dict>)
      requires Valid()
      modifies this
      ensures var step := S.LoadServerMetadata(config, old(CurrentState()), env);
              CurrentState() == step.state && trace == old(trace) + step.events && r == step.result
      ensures Valid()
    {
      DiscoveriesAppend(trace, S.LoadServerMetadata(config, CurrentState(), env).events);
      if Truthy(serverMetadataUrl) {
        var metadata := FetchServerMetadata(Discovery, serverMetadataUrl, env);
        if metadata.Err? {
          return Err(metadata.error);
        }
        serverMetadataUrl := Null;
        if !metadata.value.Object? {
          return Err(MalformedDocument);
        }
        serverMetadata := Update(serverMetadata, metadata.value.fields);
      }
      r := Ok(serverMetadata);
    }

    /** `_fetch_jwk_set(force)`. */
    method FetchJwkSet(force: bool, env: Env) returns (r: Result<Value>)
      requires Valid()
      modifies this
      ensures var step := S.FetchJwkSet(config, old(CurrentState()), force, env);
              CurrentState() == step.state && trace == old(trace) + step.events && r == step.result
      ensures Valid()
    {
      ghost var t0, load := trace, S.LoadServerMetadata(config, CurrentState(), env);
      DiscoveriesAppend(trace, S.FetchJwkSet(config, CurrentState(), force, env).events);
      var metadata := LoadServerMetadata(env);
      if metadata.Err? {
        return Err(metadata.error);
      }
      match LocateKeySet(metadata.value, force)
      case Cached(jwkSet) =>
        r := Ok(jwkSet);
      case NoJwksUri =>
        r := Err(MissingJwksUri);
      case Remote(uri) =>
        AppendAssociates(t0, load.events, S.FetchServerMetadata(config, KeySet, uri, env).events);
        var jwkSet := FetchServerMetadata(KeySet, uri, env);
        if jwkSet.Err? {
          return Err(jwkSet.error);
        }
        serverMetadata := serverMetadata["jwks" := jwkSet.value];
        r := Ok(jwkSet.value);
    }

    /** `create_authorization_url(redirect_uri, **kwargs)`. */
    method CreateAuthorizationUrl(redirectUri: Value, kwargs: Dict, env: Env) returns (r: Result<Value>)
      requires Valid()
      modifies this
      ensures var step := S.CreateAuthorizationUrl(config, old(CurrentState()), redirectUri, kwargs, env);
              CurrentState() == step.state && trace == old(trace) + step.events && r == step.result
      ensures Valid()
    {
      ghost var t0, load := trace, S.LoadServerMetadata(config, CurrentState(), env);
      DiscoveriesAppend(trace, S.CreateAuthorizationUrl(config, CurrentState(), redirectUri, kwargs, env).events);
      var metadata := LoadServerMetadata(env);
      if metadata.Err? {
        return Err(metadata.error);
      }
      var endpoint := AuthorizationEndpoint(config, metadata.value);
      if endpoint.Err? {
        return Err(endpoint.error);
      }
      var merged := kwargs;
      if config.authorizeParams != map[] {
        merged := Update(merged, config.authorizeParams);
      }
      AppendAssociates(t0, load.events, S.AuthorizationCalls(config, metadata.value, redirectUri, endpoint.value, merged, env));
      r := AuthorizeWithClient(metadata.value, redirectUri, endpoint.value, merged, env);
    }

    /** The client part of `create_authorization_url`: under OAuth 1
        `_create_oauth1_authorization_url` (request token first, then the
        URL), under OAuth 2 `_create_oauth2_authorization_url`. */
    method AuthorizeWithClient(metadata: Dict, redirectUri: Value, endpoint: Value, kwargs: Dict, env: Env)
      returns (r: Result<Value>)
      modifies this`trace
      ensures var calls := S.AuthorizationCalls(config, metadata, redirectUri, endpoint, kwargs, env);
              trace == old(trace) + calls && r == S.AuthorizationResult(config, calls)
    {
      if IsOAuth1(config) {
        var params := config.requestTokenParams;
        var token := Perform(Client, FetchRequestToken(metadata, redirectUri, config.requestTokenUrl, params), env);
        if token.Failed? {
          return Err(External(token.reason));
        }
        var url := Perform(Client, OAuth1AuthorizationUrl(metadata, redirectUri, token.body, endpoint, kwargs), env);
        if url.Failed? {
          return Err(External(url.reason));
        }
        r := Ok(Object(map["url" := url.body, "request_token" := token.body]));
      } else {
        var reply := Perform(Client, OAuth2AuthorizationUrl(metadata, redirectUri, endpoint, kwargs), env);
        r := Lift(reply);
      }
    }

    /** `fetch_access_token(redirect_uri, request_token, **params)`. */
    method FetchAccessToken(redirectUri: Value, requestToken: Option<Dict>, params: Dict, env: Env)
      returns (r: Result<Value>)
      requires Valid()
      modifies this
      ensures var step := S.FetchAccessToken(config, old(CurrentState()), redirectUri, requestToken, params, env);
              CurrentState() == step.state && trace == old(trace) + step.events && r == step.result
      ensures Valid()
    {
      ghost var t0, load := trace, S.LoadServerMetadata(config, CurrentState(), env);
      DiscoveriesAppend(trace, S.FetchAccessToken(config, CurrentState(), redirectUri, requestToken, params, env).events);
      var metadata := LoadServerMetadata(env);
      if metadata.Err? {
        return Err(metadata.error);
      }
      var tokenEndpoint := TokenEndpoint(config, metadata.value);
      var reply;
      if IsOAuth1(config) {
        if requestToken.None? {
          return Err(MissingRequestToken);
        }
        var token: Dict := map[];
        token := Update(token, requestToken.value);
        token := Update(token, params);
        reply := Perform(Client, OAuth1AccessToken(metadata.value, redirectUri, token, tokenEndpoint,
                                                   config.accessTokenParams), env);
        AppendAssociates(t0, load.events, [Event(Client, OAuth1AccessToken(metadata.value, redirectUri, token, tokenEndpoint,
                                                   config.accessTokenParams), reply)]);
      } else {
        var exchange: Dict := map[];
        if config.accessTokenParams != map[] {
          exchange := Update(exchange, config.accessTokenParams);
        }
        exchange := Update(exchange, params);
        reply := Perform(Client, OAuth2AccessToken(metadata.value, redirectUri, tokenEndpoint, exchange), env);
        AppendAssociates(t0, load.events, [Event(Client, OAuth2AccessToken(metadata.value, redirectUri, tokenEndpoint, exchange), reply)]);
      }
      r := Lift(reply);
    }

    /** `request(method, url, token, **kwargs)`: a resource request to the
        provider's API. `request` is the `request` keyword argument, which
        is taken out of the keyword arguments before sending. */
    method Request(httpMethod: string, url: Value, token: Value, request: Option<HttpRequest>, kwargs: Dict,
                   env: Env) returns (r: Result<Value>)
      requires Valid()
      modifies this`trace
      ensures match PrepareRequest(config, env.urljoin, httpMethod, url, token, request, kwargs)
              case Err(e) => r == Err(e) && trace == old(trace)
              case Ok(call) => trace == old(trace) + [Event(Resource, call, env.respond(call))]
                               && r == Lift(env.respond(call))
      ensures Valid()
    {
      NonDiscoveryKeepsCount(trace, Resource);
      var target := ResolveUrl(config, env.urljoin, url);
      if target.Err? {
        return Err(target.error);
      }
      var reply;
      if WithholdsToken(kwargs) {
        reply := Perform(Resource, Send(httpMethod, target.value, Null, kwargs), env);
        return Lift(reply);
      }
      var resolved := token;
      if resolved == Null && request.Some? && config.fetchToken.Some? {
        var answer := config.fetchToken.value(request.value);
        if answer.Failed? {
          return Err(External(answer.reason));
        }
        resolved := answer.body;
      }
      if resolved == Null {
        return Err(MissingToken);
      }
      reply := Perform(Resource, Send(httpMethod, target.value, resolved, kwargs), env);
      r := Lift(reply);
    }

    /** `parse_id_token(request, token, claims_options)`; `nonce` is the
        value the session holds for the request. */
    method ParseIdToken(token: Dict, nonce: Value, claimsOptions: Value, env: Env)
      returns (r: Result<Option<Value>>)
      requires Valid()
      modifies this
      ensures var step := S.ParseIdToken(config, old(CurrentState()), token, nonce, claimsOptions, env);
              CurrentState() == step.state && trace == old(trace) + step.events && r == step.result
      ensures Valid()
    {
      ghost var t0, load := trace, S.LoadServerMetadata(config, CurrentState(), env);
      DiscoveriesAppend(trace, S.ParseIdToken(config, CurrentState(), token, nonce, claimsOptions, env).events);
      if "id_token" !in token {
        return Ok(None);
      }
      var metadata := LoadServerMetadata(env);
      if metadata.Err? {
        return Err(metadata.error);
      }
      ghost var rest := S.DecodeWithKeys(config, load.state, token, nonce, claimsOptions, metadata.value, env);
      r := DecodeWithKeys(token, nonce, claimsOptions, metadata.value, env);
      AppendAssociates(t0, load.events, rest.events);
    }

    /** The decode call of `parse_id_token` and its answer. */
    method Decode(call: Call, env: Env) returns (r: Result<Option<Value>>)
      modifies this`trace
      ensures trace == old(trace) + [Event(Client, call, env.respond(call))]
      ensures r == S.Decoded(env.respond(call))
    {
      var reply := Perform(Client, call, env);
      match reply
      case Replied(claims) =>
        r := Ok(Some(claims));
      case Failed(reason) =>
        r := Err(External(reason));
    }

    /** The rest of `parse_id_token` once the metadata is loaded. */
    method DecodeWithKeys(token: Dict, nonce: Value, claimsOptions: Value, metadata: Dict, env: Env)
      returns (r: Result<Option<Value>>)
      requires Valid() && "id_token" in token
      modifies this
      ensures var step := S.DecodeWithKeys(config, old(CurrentState()), token, nonce, claimsOptions, metadata, env);
              CurrentState() == step.state && trace == old(trace) + step.events && r == step.result
      ensures Valid()
    {
      ghost var t0, keys := trace, S.FetchJwkSet(config, CurrentState(), false, env);
      S.DecodeWithKeysSteps(config, CurrentState(), token, nonce, claimsOptions, metadata, env);
      var jwkSet := FetchJwkSet(false, env);
      if jwkSet.Err? {
        return Err(jwkSet.error);
      }
      var decode := DecodeCall(config, token, nonce, claimsOptions, metadata, jwkSet.value);
      NonDiscoveryKeepsCount(trace, Client);
      r := Decode(decode, env);
      AppendAssociates(t0, keys.events, [Event(Client, decode, env.respond(decode))]);
    }
  }
}
