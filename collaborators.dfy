/** What the remote app consumes from outside: the errors it raises, the
    calls it makes into the OAuth client, the HTTP transport and the JOSE
    library, and the record of those calls. The collaborators themselves are
    an oracle (`Env`): the model fixes which call is made with which
    arguments, never what the other side answers. */
module Collaborators {
  import opened Json

  datatype Option<T> = None | Some(value: T)

  /** The exceptions the remote app raises, plus a pass-through for those
      raised by its collaborators. */
  datatype Error =
    | MissingAuthorizeUrl       // RuntimeError('Missing "authorize_url" value')
    | MissingRequestToken       // MissingRequestTokenError
    | MissingToken              // MissingTokenError
    | MissingJwksUri            // RuntimeError('Missing "jwks_uri" in metadata')
    | NotAString                // `url.startswith(...)` on a URL that is not a string
    | MalformedDocument         // `dict.update` on a discovery document that is not an object
    | External(reason: string)  // raised by a collaborator, passed through unchanged

  datatype Result<T> = Ok(value: T) | Err(error: Error)

  /** What a collaborator answers: a JSON body, or a failure it raises. */
  datatype Reply = Replied(body: Value) | Failed(reason: string)

  function Lift(reply: Reply): Result<Value> {
    match reply
    case Replied(body) => Ok(body)
    case Failed(reason) => Err(External(reason))
  }

  /** The inbound Starlette request: its ASGI scope and its query string. */
  datatype HttpRequest = HttpRequest(scope: Dict, query: map<string, string>)

  /** The claims class handed to the JWT decoder. */
  datatype ClaimsKind = CodeIDToken | ImplicitIDToken

  /** One call into a collaborator, with every argument the remote app
      decides. `clientMetadata` is the metadata the OAuth client is built
      from (`_get_oauth_client(**metadata)`); `redirectUri` is what the app
      assigns to `client.redirect_uri` before the call. */
  datatype Call =
      /** `client.request(method, url, **kwargs)`; `token` is `Null` when the
          app attaches none. The reply stands for the response object that
          `request` returns; for the fetches of `_fetch_server_metadata` it
          stands for `resp.json()`, and a body that does not parse is a
          `Failed` reply. */
    | Send(httpMethod: string, url: Value, token: Value, kwargs: Dict)
      /** `client.fetch_request_token(request_token_url, **params)` (OAuth 1). */
    | FetchRequestToken(clientMetadata: Dict, redirectUri: Value, url: Value, params: Dict)
      /** `client.create_authorization_url(endpoint, **kwargs)` (OAuth 1),
          after the request token was obtained. */
    | OAuth1AuthorizationUrl(clientMetadata: Dict, redirectUri: Value, requestToken: Value,
                             endpoint: Value, kwargs: Dict)
      /** `_create_oauth2_authorization_url(client, endpoint, **kwargs)`. */
    | OAuth2AuthorizationUrl(clientMetadata: Dict, redirectUri: Value, endpoint: Value, kwargs: Dict)
      /** `client.fetch_access_token(endpoint, **kwargs)` with `client.token = credential` (OAuth 1). */
    | OAuth1AccessToken(clientMetadata: Dict, redirectUri: Value, credential: Dict,
                        endpoint: Value, kwargs: Dict)
      /** `client.fetch_token(endpoint, **kwargs)` (OAuth 2). */
    | OAuth2AccessToken(clientMetadata: Dict, redirectUri: Value, endpoint: Value, kwargs: Dict)
      /** `JsonWebToken(algorithms).decode(...)` followed by `claims.validate(leeway=120)`. */
    | DecodeIdToken(idToken: Value, algorithms: Value, jwkSet: Value, kind: ClaimsKind,
                    claimsOptions: Value, claimsParams: Dict)

  /** Why a call was made; only the bookkeeping of the model looks at it. */
  datatype Purpose = Discovery | KeySet | Resource | Client

  /** One call made, with the answer it got. */
  datatype Event = Event(purpose: Purpose, call: Call, reply: Reply)

  /** The collaborators: every call's answer, and `urlparse.urljoin`. */
  datatype Env = Env(respond: Call -> Reply, urljoin: (Value, string) -> Value)

  /** Number of discovery documents that were actually received. */
  function Discoveries(events: seq<Event>): nat {
    if events == [] then 0
    else (if events[0].purpose == Discovery && events[0].reply.Replied? then 1 else 0)
         + Discoveries(events[1..])
  }

  lemma {:induction false} DiscoveriesAppend(a: seq<Event>, b: seq<Event>)
    ensures Discoveries(a + b) == Discoveries(a) + Discoveries(b)
  {
    if a == [] {
      assert a + b == b;
    } else {
      assert (a + b)[1..] == a[1..] + b;
      DiscoveriesAppend(a[1..], b);
    }
  }

  /** Regrouping appended traces. */
  lemma AppendAssociates(a: seq<Event>, b: seq<Event>, c: seq<Event>)
    ensures a + b + c == a + (b + c)
  {
  }

  /** A trace holding no discovery event leaves the count alone; used for
      every call the app makes that is not a discovery fetch. */
  lemma {:induction false} NoDiscoveryEvents(events: seq<Event>)
    requires forall e | e in events :: e.purpose != Discovery
    ensures Discoveries(events) == 0
  {
    if events != [] {
      assert events[0] in events;
      forall e | e in events[1..] ensures e.purpose != Discovery {
        assert e in events;
      }
      NoDiscoveryEvents(events[1..]);
    }
  }

  /** Appending one call made for another purpose leaves the count alone. */
  lemma NonDiscoveryKeepsCount(events: seq<Event>, purpose: Purpose)
    requires purpose != Discovery
    ensures forall call, reply :: Discoveries(events + [Event(purpose, call, reply)]) == Discoveries(events)
  {
    forall call, reply ensures Discoveries(events + [Event(purpose, call, reply)]) == Discoveries(events) {
      var e := Event(purpose, call, reply);
      DiscoveriesAppend(events, [e]);
      assert [e][1..] == [];
    }
  }
}
