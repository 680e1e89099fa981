/** The authorization request: validate the client, open a local session and
    an upstream session sharing one sessionId and state, and answer with the
    upstream IdP's authorization URL. */
module Authorization {
  import opened OAuthTypes
  import opened Storage
  import opened Registration
  import Metadata

  /** Scope used when the request names none. */
  const DefaultScope := "openid profile email"

  /** validateAuthorizationClient: the redirect URI must be one of the
      client's, compared exactly, and the client must allow the 'code'
      response type (whatever response_type the request names). */
  function ValidateAuthorizationClient(args: AuthorizationRequest, client: Client): (c: Check)
    ensures c.Pass? <==> args.redirectUri in client.redirectUris && "code" in client.responseTypes
    ensures c == Fail(InvalidRedirectUri) <==> args.redirectUri !in client.redirectUris
    ensures c == Fail(UnsupportedResponseType) <==>
              args.redirectUri in client.redirectUris && "code" !in client.responseTypes
  {
    if args.redirectUri !in client.redirectUris then Fail(InvalidRedirectUri)
    else if "code" !in client.responseTypes then Fail(UnsupportedResponseType)
    else Pass
  }

  /** The local session opened for an accepted request. Its code challenge is
      the one derived from the locally generated verifier; the state is the
      locally generated one. */
  function NewAuthSession(env: Collaborators, args: AuthorizationRequest, client: Client,
                          sessionId: string, codeVerifier: string, state: string,
                          sessionTTL: int, nowMs: int): AuthSession
  {
    AuthSession(
      sessionId := sessionId,
      clientId := client.clientId,
      redirectUri := args.redirectUri,
      scope := GetOr(args.scope, DefaultScope),
      state := state,
      codeChallenge := env.codeChallengeOf(codeVerifier),
      codeChallengeMethod := GetOr(args.codeChallengeMethod, "S256"),
      expiresAt := nowMs + sessionTTL * 1000,
      responseType := args.responseType,
      createdAt := nowMs / 1000)
  }

  /** handleAuthorization. `secret` is the random client secret drawn if the
      client must be auto-registered; `sessionId`, `codeVerifier` and `state`
      are the random values drawn for the sessions; `nowMs` is the clock. */
  function HandleAuthorization(s: Store, env: Collaborators, cfg: Config, args: AuthorizationRequest,
                               secret: string, sessionId: string, codeVerifier: string, state: string,
                               nowMs: int): (t: Transition<Result<string>>)
    // it fails exactly on a schema failure or a known client that rejects the request
    ensures t.result.Err? <==>
              || !env.schemaAccepts(args)
              || (args.clientId in s.clients &&
                  ValidateAuthorizationClient(args, s.clients[args.clientId]).Fail?)
    ensures !env.schemaAccepts(args) ==> t.result == Err(InvalidRequest)
    // a known client that rejects the request gives the validation's own error
    ensures env.schemaAccepts(args) && args.clientId in s.clients &&
            ValidateAuthorizationClient(args, s.clients[args.clientId]).Fail? ==>
              t.result == Err(ValidateAuthorizationClient(args, s.clients[args.clientId]).error)
    // every failure happens before anything is written
    ensures t.result.Err? ==> t.store == s
    // success: one session of each kind under sessionId, sharing the state
    ensures t.result.Ok? ==>
              && t.store.tokens == s.tokens
              && args.clientId in t.store.clients
              // the clients table is the one left by resolving the client
              && t.store.clients == GetClientOrRegister(s, cfg, args, secret, nowMs).store.clients
              && t.store.authSessions.Keys == s.authSessions.Keys + {sessionId}
              && t.store.auth0Sessions.Keys == s.auth0Sessions.Keys + {sessionId}
              && (forall k :: k in s.authSessions && k != sessionId ==>
                    t.store.authSessions[k] == s.authSessions[k])
              && (forall k :: k in s.auth0Sessions && k != sessionId ==>
                    t.store.auth0Sessions[k] == s.auth0Sessions[k])
              && var a := t.store.authSessions[sessionId];
                 var u := t.store.auth0Sessions[sessionId];
                 && a.sessionId == sessionId && u.sessionId == sessionId
                 && a.state == state && u.state == state
                 && a.clientId == (if args.clientId in s.clients then s.clients[args.clientId].clientId
                                   else args.clientId)
                 && a.scope == GetOr(args.scope, DefaultScope)
                 && a.responseType == args.responseType
                 && a.redirectUri == args.redirectUri
                 && u.originalSession == a
                 && u.codeVerifier == codeVerifier
                 && a.codeChallenge == env.codeChallengeOf(codeVerifier)
                 && a.codeChallengeMethod == GetOr(args.codeChallengeMethod, "S256")
                 && a.expiresAt == nowMs + cfg.sessionTTL * 1000
                 && u.expiresAt == nowMs + cfg.sessionTTL * 1000
                 && t.result.value == env.authorizationUrl(UpstreamParams(
                      Metadata.CallbackUri(cfg), state, a.codeChallenge, a.codeChallengeMethod, a.scope))
  {
    if !env.schemaAccepts(args) then
      Transition(s, Err(InvalidRequest))
    else
      var resolved := GetClientOrRegister(s, cfg, args, secret, nowMs);
      var client := resolved.result.value;
      match ValidateAuthorizationClient(args, client)
      case Fail(e) => Transition(resolved.store, Err(e))
      case Pass =>
        var authSession := NewAuthSession(env, args, client, sessionId, codeVerifier, state, cfg.sessionTTL, nowMs);
        var auth0Session := Auth0Session(
          sessionId := sessionId,
          state := state,
          codeVerifier := codeVerifier,
          originalSession := authSession,
          createdAt := nowMs,
          expiresAt := nowMs + cfg.sessionTTL * 1000);
        var written := resolved.store.(
          authSessions := resolved.store.authSessions[sessionId := authSession],
          auth0Sessions := resolved.store.auth0Sessions[sessionId := auth0Session]);
        var url := env.authorizationUrl(UpstreamParams(
          redirectUri := Metadata.CallbackUri(cfg),
          state := state,
          codeChallenge := authSession.codeChallenge,
          codeChallengeMethod := authSession.codeChallengeMethod,
          scope := GetOr(args.scope, DefaultScope)));
        Transition(written, Ok(url))
  }
}
