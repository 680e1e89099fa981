/** The storage invariant every operation of the service preserves, and its
    preservation along any sequence of requests. */
module Invariants {
  import opened OAuthTypes
  import opened Storage
  import opened Registration
  import opened Authorization
  import opened TokenGrants
  import opened Access

  /** Well-formed storage:
      - each client, token record and session is stored under its own key;
      - every token record and every authorization session belongs to a
        registered client;
      - every upstream session shares its sessionId and state with the
        authorization session it embeds, which is the one stored under that
        sessionId, and that session's code challenge is the challenge of the
        upstream session's verifier (the two PKCE legs stay bound). */
  ghost predicate Wf(env: Collaborators, s: Store)
  {
    && (forall id :: id in s.clients ==> s.clients[id].clientId == id)
    && (forall k :: k in s.tokens ==> s.tokens[k].accessToken == k && s.tokens[k].clientId in s.clients)
    && (forall k :: k in s.authSessions ==>
          s.authSessions[k].sessionId == k && s.authSessions[k].clientId in s.clients)
    && (forall k :: k in s.auth0Sessions ==>
          && k in s.authSessions
          && s.auth0Sessions[k].sessionId == k
          && s.auth0Sessions[k].originalSession == s.authSessions[k]
          && s.auth0Sessions[k].state == s.authSessions[k].state
          && s.authSessions[k].codeChallenge == env.codeChallengeOf(s.auth0Sessions[k].codeVerifier))
  }

  /** One request of the service, with the values it draws from outside
      (random values, signed tokens, the clock, storage faults, and the
      storage's answer to a lookup by refresh token). Validation reads only. */
  datatype Op =
    | Register(registration: RegistrationRequest, idHex: string, clientSecret: string, registeredAtMs: int)
    | Authorize(request: AuthorizationRequest, autoSecret: string, sessionId: string,
                codeVerifier: string, state: string, authorizedAtMs: int)
    | Token(tokenRequest: TokenRequest, found: Option<TokenRecord>, accessToken: string, refreshToken: string,
            tokenNowMs: int, storeFails: bool, deleteFails: bool)
    | Revoke(token: string, revokeFails: bool, revokeByRefreshFails: bool)

  /** Request `op`, served on storage `s`, leaves storage `s'`. */
  ghost predicate StepBy(env: Collaborators, cfg: Config, s: Store, op: Op, s': Store)
  {
    match op
    case Register(req, idHex, secret, nowMs) =>
      s' == RegisterClient(s, cfg, req, idHex, secret, nowMs).store
    case Authorize(args, secret, sessionId, codeVerifier, state, nowMs) =>
      s' == HandleAuthorization(s, env, cfg, args, secret, sessionId, codeVerifier, state, nowMs).store
    case Token(args, found, accessToken, refreshToken, nowMs, storeFails, deleteFails) =>
      && (NonEmpty(args.refreshToken) ==> RefreshLookup(s.tokens, args.refreshToken.value, found))
      && s' == HandleTokenRequest(s, cfg, args, found, accessToken, refreshToken, nowMs, storeFails, deleteFails).store
    case Revoke(token, deleteFails, deleteByRefreshFails) =>
      s' == RevokeToken(s, token, deleteFails, deleteByRefreshFails).store
  }

  lemma RegisterKeepsWf(env: Collaborators, cfg: Config, s: Store, req: RegistrationRequest,
                        idHex: string, secret: string, nowMs: int)
    requires Wf(env, s)
    ensures Wf(env, RegisterClient(s, cfg, req, idHex, secret, nowMs).store)
    ensures s.clients.Keys <= RegisterClient(s, cfg, req, idHex, secret, nowMs).store.clients.Keys
  {
  }

  /** Resolving the client keeps the invariant and yields a registered
      client stored under the requested client_id. */
  lemma ResolvedClientWf(env: Collaborators, cfg: Config, s: Store, args: AuthorizationRequest,
                         secret: string, nowMs: int)
    requires Wf(env, s)
    ensures var resolved := GetClientOrRegister(s, cfg, args, secret, nowMs);
            && Wf(env, resolved.store)
            && s.clients.Keys <= resolved.store.clients.Keys
            && resolved.result.value.clientId == args.clientId
            && args.clientId in resolved.store.clients
  {
  }

  /** Storing a matching pair of sessions keeps the invariant. */
  lemma AddSessionsKeepsWf(env: Collaborators, s: Store, a: AuthSession, u: Auth0Session)
    requires Wf(env, s)
    requires u.sessionId == a.sessionId && u.originalSession == a && u.state == a.state
    requires a.clientId in s.clients && a.codeChallenge == env.codeChallengeOf(u.codeVerifier)
    ensures Wf(env, s.(authSessions := s.authSessions[a.sessionId := a],
                       auth0Sessions := s.auth0Sessions[a.sessionId := u]))
  {
  }

  lemma AuthorizeKeepsWf(env: Collaborators, cfg: Config, s: Store, args: AuthorizationRequest,
                         secret: string, sessionId: string, codeVerifier: string, state: string, nowMs: int)
    requires Wf(env, s)
    ensures Wf(env, HandleAuthorization(s, env, cfg, args, secret, sessionId, codeVerifier, state, nowMs).store)
    ensures s.clients.Keys <=
            HandleAuthorization(s, env, cfg, args, secret, sessionId, codeVerifier, state, nowMs).store.clients.Keys
  {
    var t := HandleAuthorization(s, env, cfg, args, secret, sessionId, codeVerifier, state, nowMs);
    if t.result.Ok? {
      var resolved := GetClientOrRegister(s, cfg, args, secret, nowMs);
      ResolvedClientWf(env, cfg, s, args, secret, nowMs);
      var client := resolved.result.value;
      var a := NewAuthSession(env, args, client, sessionId, codeVerifier, state, cfg.sessionTTL, nowMs);
      var u := Auth0Session(sessionId, state, codeVerifier, a, nowMs, nowMs + cfg.sessionTTL * 1000);
      AddSessionsKeepsWf(env, resolved.store, a, u);
      assert t.store == resolved.store.(authSessions := resolved.store.authSessions[sessionId := a],
                                        auth0Sessions := resolved.store.auth0Sessions[sessionId := u]);
    }
  }

  lemma TokenRequestKeepsWf(env: Collaborators, cfg: Config, s: Store, args: TokenRequest,
                            found: Option<TokenRecord>, accessToken: string, refreshToken: string,
                            nowMs: int, storeFails: bool, deleteFails: bool)
    requires Wf(env, s)
    requires NonEmpty(args.refreshToken) ==> RefreshLookup(s.tokens, args.refreshToken.value, found)
    ensures Wf(env, HandleTokenRequest(s, cfg, args, found, accessToken, refreshToken, nowMs, storeFails, deleteFails).store)
    ensures HandleTokenRequest(s, cfg, args, found, accessToken, refreshToken, nowMs, storeFails, deleteFails).store.clients
            == s.clients
  {
  }

  lemma RevokeKeepsWf(env: Collaborators, s: Store, token: string, deleteFails: bool, deleteByRefreshFails: bool)
    requires Wf(env, s)
    ensures Wf(env, RevokeToken(s, token, deleteFails, deleteByRefreshFails).store)
    ensures RevokeToken(s, token, deleteFails, deleteByRefreshFails).store.clients == s.clients
  {
  }

  /** Every request preserves the invariant and never removes a client. */
  lemma StepKeepsWf(env: Collaborators, cfg: Config, s: Store, op: Op, s': Store)
    requires Wf(env, s) && StepBy(env, cfg, s, op, s')
    ensures Wf(env, s') && s.clients.Keys <= s'.clients.Keys
  {
    match op
    case Register(req, idHex, secret, nowMs) =>
      RegisterKeepsWf(env, cfg, s, req, idHex, secret, nowMs);
    case Authorize(args, secret, sessionId, codeVerifier, state, nowMs) =>
      AuthorizeKeepsWf(env, cfg, s, args, secret, sessionId, codeVerifier, state, nowMs);
    case Token(args, found, accessToken, refreshToken, nowMs, storeFails, deleteFails) =>
      TokenRequestKeepsWf(env, cfg, s, args, found, accessToken, refreshToken, nowMs, storeFails, deleteFails);
    case Revoke(token, deleteFails, deleteByRefreshFails) =>
      RevokeKeepsWf(env, s, token, deleteFails, deleteByRefreshFails);
  }

  /** `states` is a run of the service: each storage follows from the one
      before it by serving the matching request. */
  ghost predicate IsRun(env: Collaborators, cfg: Config, states: seq<Store>, ops: seq<Op>)
  {
    && |states| == |ops| + 1
    && forall i :: 0 <= i < |ops| ==> StepBy(env, cfg, states[i], ops[i], states[i + 1])
  }

  /** Along any run that starts well-formed, every storage is well-formed and
      no client registered earlier disappears. */
  lemma {:induction false} RunKeepsWf(env: Collaborators, cfg: Config, states: seq<Store>, ops: seq<Op>)
    requires IsRun(env, cfg, states, ops) && Wf(env, states[0])
    ensures forall i :: 0 <= i < |states| ==> Wf(env, states[i])
    ensures forall i :: 0 <= i < |states| ==> states[0].clients.Keys <= states[i].clients.Keys
    decreases |ops|
  {
    if ops != [] {
      var n := |ops| - 1;
      assert IsRun(env, cfg, states[..n + 1], ops[..n]) by {
        forall i | 0 <= i < n
          ensures StepBy(env, cfg, states[..n + 1][i], ops[..n][i], states[..n + 1][i + 1])
        {
          assert StepBy(env, cfg, states[i], ops[i], states[i + 1]);
        }
      }
      RunKeepsWf(env, cfg, states[..n + 1], ops[..n]);
      assert Wf(env, states[..n + 1][n]);
      StepKeepsWf(env, cfg, states[n], ops[n], states[n + 1]);
      forall i | 0 <= i < |states|
        ensures Wf(env, states[i]) && states[0].clients.Keys <= states[i].clients.Keys
      {
        if i <= n {
          assert states[i] == states[..n + 1][i];
        }
      }
    }
  }

  /** The storage the service starts with is well-formed. */
  lemma EmptyStoreWf(env: Collaborators)
    ensures Wf(env, Store(map[], map[], map[], map[]))
  {
  }
}
