# Starlette OAuth client: `RemoteApp` decision logic

This project models the client side of authlib's Starlette integration, the
class `RemoteApp` in `authlib/integrations/starlette_client/remote_app.py`,
and proves its decision rules:

- the fetch-once cache of the discovery document (`server_metadata`,
  `_server_metadata_url`);
- the cached JSON Web Key Set lookup (section 5 of RFC 7517);
- the choice between configured and discovered endpoints, for OAuth 1 (the
  redirection-based flow of section 2 of RFC 5849) and OAuth 2 (the
  authorization-code grant of section 4.1 of RFC 6749);
- which side wins in each parameter merge;
- the order in which `request` looks for a token;
- how `parse_id_token` sets up ID-token validation: claims class, `iss`
  option (section 3 of OpenID Connect Discovery 1.0, checked as in section
  3.1.3.7 of OpenID Connect Core 1.0) and the algorithm allow-list.

Layout, one module per file:

- `json.dfy` (`Json`): Python values as JSON values. `Null` is `None`. The
  file also defines Python truthiness, `dict.get` and `dict.update`.
- `collaborators.dfy` (`Collaborators`): what the app consumes from outside.
  - Every call into the OAuth client, the HTTP transport or the JOSE library
    is a `Call` value.
  - An oracle `Env` answers each call, and also supplies `urljoin`.
  - The app's own errors are kept apart from errors its collaborators
    raise, which are passed through unchanged (`External`).
- `remote_app_rules.dfy` (`RemoteAppRules`): the pure decisions. It covers
  endpoints, merges, callback parameters, URL and token resolution,
  claims set-up and where the key set comes from.
- `remote_app_steps.dfy` (`RemoteAppSteps`): each operation that touches the
  metadata cache, written as a function. It maps the old state to the new
  state, the calls made (in order) and the result or error raised. Most of
  the properties are stated here.
- `remote_app.dfy` (`StarletteClient`): the class `RemoteApp`.
  - Its fields `serverMetadata` and `serverMetadataUrl` are updated in place.
  - A ghost `trace` records every collaborator call with its answer.
  - Each method that touches the metadata cache is proved to end in exactly
    the new state, calls and result that its `RemoteAppSteps` function
    gives. `Request` sends exactly the call `RemoteAppRules.PrepareRequest`
    gives, and `Perform` records one call with the oracle's answer.
  - Every operation keeps the class invariant `Valid()`: at most one
    discovery document is ever received, and none while the discovery URL is
    still set. The helpers `Perform`, `FetchServerMetadata`,
    `AuthorizeWithClient` and `Decode` touch only the trace and make no
    promise about it.
  - A recorded reply is always the oracle's answer to the recorded call.

The model follows the code, which:

- raises no error in `fetch_access_token` for a missing token endpoint. The
  empty value is handed on to the OAuth client.
- performs no check in `fetch_access_token` that the returned `state`
  matches.
- never re-fetches the key set in `parse_id_token` after a key lookup fails
  (`remote_app.py:210` is a TODO).
- raises the missing request token of OAuth 1 `fetch_access_token` only
  after the metadata was loaded. So the discovery fetch can still happen
  before the error (`RemoteAppSteps.FetchAccessToken` states exactly this).

## Model

| member | source | states |
|---|---|---|
| Json.Update | authlib/integrations/starlette_client/remote_app.py:26 | `dict.update`: the keys are the union; the keys of the argument overwrite; all other keys are kept |
| RemoteAppRules.AuthorizationEndpoint | authlib/integrations/starlette_client/remote_app.py:70-75 | a set `authorize_url` is used as is; otherwise, only under OAuth 2, the discovered `authorization_endpoint`; `MissingAuthorizeUrl` exactly when both are empty (or OAuth 1 has no URL); the endpoint returned is never empty |
| RemoteAppRules.TokenEndpoint | authlib/integrations/starlette_client/remote_app.py:122-124 | OAuth 1 or a set `access_token_url` gives `access_token_url`; under OAuth 2 with no `access_token_url`, exactly the discovered `token_endpoint` |
| RemoteAppRules.OAuth1EndpointsIgnoreMetadata | authlib/integrations/starlette_client/remote_app.py:70-72 | under OAuth 1 both endpoints are the same whatever the discovery document holds |
| RemoteAppRules.AuthorizeKwargs | authlib/integrations/starlette_client/remote_app.py:77-78 | static `authorize_params` win on a shared key; every other caller key is kept |
| RemoteAppRules.OAuth1Credential | authlib/integrations/starlette_client/remote_app.py:132-134 | exactly the keys of both; verifier params override request-token fields |
| RemoteAppRules.OAuth2ExchangeKwargs | authlib/integrations/starlette_client/remote_app.py:141-144 | exactly the keys of both; caller params override static `access_token_params` |
| RemoteAppRules.ExchangeCall | authlib/integrations/starlette_client/remote_app.py:126-145 | the token exchange on the loaded metadata and redirect URI: under OAuth 1 to `access_token_url` with the merged credential and `access_token_params`; under OAuth 2 to the selected token endpoint with the merged kwargs |
| RemoteAppRules.GenerateAccessTokenParams | authlib/integrations/starlette_client/remote_app.py:43-49 | OAuth 1: the request scope; OAuth 2: exactly the keys `code` and `state`, each the query value or `None` when absent |
| RemoteAppRules.CallbackCodeReachesExchange | authlib/integrations/starlette_client/remote_app.py:43-49 | the callback `code` of an OAuth 2 redirect ends up in the exchange kwargs, whatever the static params say |
| RemoteAppRules.ResolveUrl | authlib/integrations/starlette_client/remote_app.py:149-150 | joined with `api_base_url` exactly when that is set and the URL starts with neither `https://` nor `http://`; otherwise unchanged; fails only when a base is set and the URL is not a string |
| RemoteAppRules.ResolveToken | authlib/integrations/starlette_client/remote_app.py:156-161 | an explicit token wins; with no token, a request and a hook, exactly the hook's answer, or its error raised; otherwise `None`; the only error is the hook's |
| RemoteAppRules.PrepareRequest | authlib/integrations/starlette_client/remote_app.py:148-167 | the call sent carries the method, the resolved URL and the caller's kwargs; under `withhold_token` no token is attached and nothing is looked up; otherwise the explicit token, else the hook's answer, else `MissingToken` with nothing sent; a failing hook's error is raised with nothing sent |
| RemoteAppRules.WithholdIgnoresHook | authlib/integrations/starlette_client/remote_app.py:153-154 | with `withhold_token` the result does not depend on the token, the request or the hook |
| RemoteAppRules.ExplicitTokenIgnoresHook | authlib/integrations/starlette_client/remote_app.py:157 | with an explicit token the result does not depend on the request or the hook |
| RemoteAppRules.SetUpClaims | authlib/integrations/starlette_client/remote_app.py:189-197 | `CodeIDToken` exactly when the token response has `access_token`, and then the params carry it; the params always carry the nonce and the client id, and nothing else |
| RemoteAppRules.DefaultClaimsOptions | authlib/integrations/starlette_client/remote_app.py:200-201 | caller options are kept; only when they are `None` and `issuer` is discovered do they become the `iss` check on that issuer |
| RemoteAppRules.DecodeCall | authlib/integrations/starlette_client/remote_app.py:188-219 | the decode call: the token's `id_token`, the given key set, `CodeIDToken` exactly when there is an `access_token`, the claims params, the defaulted options and the non-empty algorithm list of the metadata |
| RemoteAppRules.SigningAlgorithms | authlib/integrations/starlette_client/remote_app.py:203-205 | the discovered algorithm list when it is non-empty, else `['RS256']`; never empty |
| RemoteAppRules.LocateKeySet | authlib/integrations/starlette_client/remote_app.py:225-231 | the cached `jwks` exactly when not forced and non-empty; otherwise a non-empty `jwks_uri`; `MissingJwksUri` exactly when neither applies |
| RemoteAppSteps.FetchServerMetadata | authlib/integrations/starlette_client/remote_app.py:237-239 | at most one unauthenticated GET to the resolved URL, with `withhold_token`, answered by the oracle; its answer is the result; no call at all only when the URL cannot be resolved |
| RemoteAppSteps.MetadataRequestWithholdsToken | authlib/integrations/starlette_client/remote_app.py:238 | the metadata GET is exactly what `request` prepares for `GET url` with `withhold_token` and no token |
| RemoteAppSteps.LoadServerMetadata | authlib/integrations/starlette_client/remote_app.py:22-27 | without a URL nothing is fetched and the metadata is returned; with one exactly the fetch of `_server_metadata_url`, whose error is raised; an answer succeeds exactly when it is a JSON object, and then the URL is cleared and the fetched keys overwrite old ones; any other answer clears the URL and raises `MalformedDocument`; a failed fetch leaves the state as it was; one document received exactly when the pending URL is consumed |
| RemoteAppSteps.LoadTwiceFetchesOnce | authlib/integrations/starlette_client/remote_app.py:22-27 | two loads in a row receive at most one document; after a successful load a second one changes nothing and makes no call |
| RemoteAppSteps.FetchJwkSet | authlib/integrations/starlette_client/remote_app.py:223-235 | load first; a cached key set is returned with no further call; no `jwks_uri` raises `MissingJwksUri`; otherwise exactly the fetch of `jwks_uri`, whose answer is the result and, on success, is stored under `jwks`; the fetch-once count is kept |
| RemoteAppSteps.FetchJwkSetAnswered | authlib/integrations/starlette_client/remote_app.py:223-235 | every reply `_fetch_jwk_set` records is the oracle's answer |
| RemoteAppSteps.AuthorizationCalls | authlib/integrations/starlette_client/remote_app.py:51-60 | OAuth 1: the request-token fetch with `request_token_params`, then (if it answered) the URL built with that token; OAuth 2: one URL build; each with the metadata and redirect URI |
| RemoteAppSteps.AuthorizationResult | authlib/integrations/starlette_client/remote_app.py:51-60 | OAuth 1 with both calls answered returns exactly `url` and `request_token` from the two answers, and a failure of either call is that call's error; OAuth 2 returns the client's answer |
| RemoteAppSteps.CreateAuthorizationUrl | authlib/integrations/starlette_client/remote_app.py:62-88 | the load comes first; `MissingAuthorizeUrl` exactly when no endpoint is found, and then no client call is made; otherwise the client calls are made with the merged kwargs on the loaded metadata |
| RemoteAppSteps.FetchAccessToken | authlib/integrations/starlette_client/remote_app.py:112-146 | load first, raising its error; OAuth 1 without a request token raises `MissingRequestToken` with no exchange call; otherwise exactly the `ExchangeCall` on the loaded metadata, answered by the oracle, its answer being the result |
| RemoteAppSteps.FetchAccessTokenExchanges | authlib/integrations/starlette_client/remote_app.py:121-146 | no exchange without a request token under OAuth 1, at most one exchange after the load, and each exchange has the endpoint, credential or kwargs, metadata and redirect URI of the protocol in force |
| RemoteAppSteps.DecodeWithKeys | authlib/integrations/starlette_client/remote_app.py:207-221 | never `None` once an `id_token` is present; the fetch-once count is kept |
| RemoteAppSteps.DecodeWithKeysSteps | authlib/integrations/starlette_client/remote_app.py:207-221 | `_fetch_jwk_set` first, its error raised and its state kept; with a key set exactly one more call, the `DecodeCall` with that key set, whose oracle answer (claims or error) is the result |
| RemoteAppSteps.DecodeWithKeysAnswered | authlib/integrations/starlette_client/remote_app.py:207-221 | every recorded reply is the oracle's answer |
| RemoteAppSteps.DecodeUsesFetchedKeys | authlib/integrations/starlette_client/remote_app.py:207-221 | every decode call is `DecodeCall` with the key set `_fetch_jwk_set` returned, and a success is the answer of the last call, a decode |
| RemoteAppSteps.ParseIdToken | authlib/integrations/starlette_client/remote_app.py:183-221 | `None` exactly when there is no `id_token`, and then nothing is done; otherwise the load, its error raised, then `DecodeWithKeys` on the loaded state and metadata; every reply is the oracle's; the fetch-once count is kept |
| RemoteAppSteps.ParseIdTokenDecodeSetUp | authlib/integrations/starlette_client/remote_app.py:183-221 | every decode call is set up from the loaded metadata with the key set `_fetch_jwk_set` returned on the loaded state, and returned claims are the decoder's answer |
| StarletteClient.RemoteApp.FetchServerMetadata | authlib/integrations/starlette_client/remote_app.py:237-239 | appends exactly the calls of `RemoteAppSteps.FetchServerMetadata` to the trace and returns its result |
| StarletteClient.RemoteApp.LoadServerMetadata | authlib/integrations/starlette_client/remote_app.py:22-27 | the fields change as `RemoteAppSteps.LoadServerMetadata` says, with the same calls and result; keeps the fetch-once invariant |
| StarletteClient.RemoteApp.FetchJwkSet | authlib/integrations/starlette_client/remote_app.py:223-235 | as `RemoteAppSteps.FetchJwkSet`, storing the fetched key set in `serverMetadata` in place; keeps the invariant |
| StarletteClient.RemoteApp.CreateAuthorizationUrl | authlib/integrations/starlette_client/remote_app.py:62-88 | as `RemoteAppSteps.CreateAuthorizationUrl`, merging the kwargs step by step; keeps the invariant |
| StarletteClient.RemoteApp.AuthorizeWithClient | authlib/integrations/starlette_client/remote_app.py:51-60 | the client calls of `RemoteAppSteps.AuthorizationCalls` and their result |
| StarletteClient.RemoteApp.FetchAccessToken | authlib/integrations/starlette_client/remote_app.py:112-146 | as `RemoteAppSteps.FetchAccessToken`, building the credential and the kwargs by successive updates; keeps the invariant |
| StarletteClient.RemoteApp.Request | authlib/integrations/starlette_client/remote_app.py:148-167 | sends exactly the call `PrepareRequest` gives and returns its answer, or raises its error (including a failing `fetch_token` hook's) with nothing sent; keeps the invariant |
| StarletteClient.RemoteApp.ParseIdToken | authlib/integrations/starlette_client/remote_app.py:183-221 | as `RemoteAppSteps.ParseIdToken`; keeps the invariant |
| StarletteClient.RemoteApp.Decode | authlib/integrations/starlette_client/remote_app.py:214-221 | records the decode call with the oracle's answer and returns that answer as `parse_id_token` does |
| StarletteClient.RemoteApp.DecodeWithKeys | authlib/integrations/starlette_client/remote_app.py:207-221 | as `RemoteAppSteps.DecodeWithKeys`; keeps the invariant |

## Left out

- `async`/`await` and the `inspect.iscoroutinefunction` choice between sync and async hooks (`remote_app.py:158-161`). A hook is a plain optional function that answers or fails; both hook kinds give the same value.
- `_send_token_update` (`remote_app.py:29-41`): it only forwards to the user's `update_token` hook and decides nothing.
- `userinfo` (`remote_app.py:169-181`): it sends through `get`, which lives in `BaseApp`, and `BaseApp` is not part of this model. Its compliance hook is the metadata entry `userinfo_compliance_fix` (`remote_app.py:175`), a callable that the JSON metadata of this model cannot hold.
- `authorize_redirect` and `authorize_access_token` (`remote_app.py:90-110`): they depend on `save_authorize_data` and `retrieve_access_token_params` of `BaseApp`, which is not part of this model.
- The OAuth client, the HTTP transport, the JOSE decoder and `urlparse.urljoin` are oracles (`Env`). The model fixes which call is made with which arguments, never what comes back.
- Signature checking and claims validation (`JsonWebToken.decode`, `jwk.loads`, `claims.validate(leeway=120)`) are a single decode call to the oracle.
- The session nonce (`_get_session_data`) is a parameter of `ParseIdToken`.
- Assignments to `client.redirect_uri` and `client.token` are arguments of the call they precede. Resetting `client.redirect_uri` to `None` after the OAuth 1 exchange is not modelled, since the client is discarded right after.
- Logging and the Starlette `RedirectResponse` are not modelled.
- A parameter dict that may be `None` (`authorize_params`, `access_token_params`, `request_token_params`) is the empty map. `update` with either changes nothing.
- Python aliasing of the returned metadata dict is not modelled.
  - A load returns the value of the cache.
  - The only in-place change after a load is `_fetch_jwk_set` storing `jwks`, and that store is modelled on the field.
- A discovery document that is not a JSON object makes `update` fail (`MalformedDocument`). Python's `update` also accepts any iterable of key/value pairs, so an empty list or an empty string changes nothing there instead of failing; that form is not modelled.
- StarletteClient.RemoteApp.Request: the `request` keyword arrives as a separate parameter. So on the `withhold_token` path it is not forwarded in the sent kwargs, as Python would forward it.
- RemoteAppRules.ResolveToken: a supplied request counts as truthy. A Starlette request is falsy only when its ASGI scope is empty, which a served request never is.
- RemoteAppRules.ResolveToken: the `fetch_token` hook's own call is not recorded in the trace; only its answer or its error is modelled.
- No state-mismatch check and no key-set reload on an unknown key id. This file has neither (see above); a state check elsewhere, in `BaseApp`, is not part of this model.
