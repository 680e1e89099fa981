/** Properties that relate several requests, or two variants of one request. */
module Scenarios {
  import opened OAuthTypes
  import opened Storage
  import opened Registration
  import opened Authorization
  import opened TokenGrants
  import opened Access
  import opened Invariants
  import Metadata

  /** Two registrations that draw different random hex for the client_id
      register two different clients, and the first survives the second. */
  lemma {:induction false} GeneratedClientIdsDistinct(s: Store, cfg: Config,
                                                      req1: RegistrationRequest, hex1: string, secret1: string, now1: int,
                                                      req2: RegistrationRequest, hex2: string, secret2: string, now2: int)
    requires req1.clientId.None? && req2.clientId.None? && hex1 != hex2
    ensures var t1 := RegisterClient(s, cfg, req1, hex1, secret1, now1);
            var t2 := RegisterClient(t1.store, cfg, req2, hex2, secret2, now2);
            && t1.result.clientId != t2.result.clientId
            && t2.store.clients[t1.result.clientId] == t1.store.clients[t1.result.clientId]
            && Describe(t2.store.clients[t1.result.clientId]) == t1.result
  {
    var prefix := "mcp_";
    assert (prefix + hex1)[|prefix|..] == hex1;
    assert (prefix + hex2)[|prefix|..] == hex2;
  }

  /** An authorization request for a known client whose redirect URIs do not
      include the request's redirect_uri fails with InvalidRedirectUri and
      writes nothing. */
  lemma UnknownRedirectRejected(s: Store, env: Collaborators, cfg: Config, args: AuthorizationRequest,
                                secret: string, sessionId: string, codeVerifier: string, state: string, nowMs: int)
    requires env.schemaAccepts(args)
    requires args.clientId in s.clients && args.redirectUri !in s.clients[args.clientId].redirectUris
    ensures HandleAuthorization(s, env, cfg, args, secret, sessionId, codeVerifier, state, nowMs)
            == Transition(s, Err(InvalidRedirectUri))
  {
  }

  /** Registering a client with one redirect URI and then asking to authorize
      with that URI succeeds and opens a session that expires sessionTTL
      seconds later. */
  lemma RegisterThenAuthorize(s: Store, env: Collaborators, cfg: Config,
                              req: RegistrationRequest, idHex: string, secret: string, regMs: int,
                              args: AuthorizationRequest, autoSecret: string, sessionId: string,
                              codeVerifier: string, state: string, nowMs: int)
    requires req.responseTypes.None? && |req.redirectUris| == 1
    requires env.schemaAccepts(args)
    requires args.clientId == RegisterClient(s, cfg, req, idHex, secret, regMs).result.clientId
    requires args.redirectUri == req.redirectUris[0]
    ensures var s1 := RegisterClient(s, cfg, req, idHex, secret, regMs).store;
            var t := HandleAuthorization(s1, env, cfg, args, autoSecret, sessionId, codeVerifier, state, nowMs);
            && t.result.Ok?
            && sessionId in t.store.authSessions
            && t.store.authSessions[sessionId].expiresAt == nowMs + cfg.sessionTTL * 1000
            && t.store.authSessions[sessionId].clientId == args.clientId
            && t.store.clients == s1.clients
  {
    var t1 := RegisterClient(s, cfg, req, idHex, secret, regMs);
    var c := t1.store.clients[args.clientId];
    assert Describe(c) == t1.result;
    assert c.responseTypes == ["code"] && c.redirectUris == req.redirectUris;
    assert ValidateAuthorizationClient(args, c).Pass?;
  }

  /** The session the authorization request opens names the requested
      client, on a well-formed storage. */
  lemma AuthorizedSessionNamesClient(s: Store, env: Collaborators, cfg: Config, args: AuthorizationRequest,
                                     secret: string, sessionId: string, codeVerifier: string, state: string, nowMs: int)
    requires Wf(env, s)
    requires HandleAuthorization(s, env, cfg, args, secret, sessionId, codeVerifier, state, nowMs).result.Ok?
    ensures HandleAuthorization(s, env, cfg, args, secret, sessionId, codeVerifier, state, nowMs)
              .store.authSessions[sessionId].clientId == args.clientId
  {
    ResolvedClientWf(env, cfg, s, args, secret, nowMs);
  }

  /** The client's own state and code_challenge are not read: two requests
      that differ only in them (and that the schema judges alike) are served
      identically. */
  lemma ClientStateAndChallengeIgnored(s: Store, env: Collaborators, cfg: Config,
                                       args: AuthorizationRequest, clientState: Option<string>, clientChallenge: Option<string>,
                                       secret: string, sessionId: string, codeVerifier: string, state: string, nowMs: int)
    requires env.schemaAccepts(args) == env.schemaAccepts(args.(state := clientState, codeChallenge := clientChallenge))
    ensures HandleAuthorization(s, env, cfg, args, secret, sessionId, codeVerifier, state, nowMs)
            == HandleAuthorization(s, env, cfg, args.(state := clientState, codeChallenge := clientChallenge),
                                   secret, sessionId, codeVerifier, state, nowMs)
  {
  }

  /** The URL sent upstream does not depend on the client's redirect_uri:
      two accepted requests that differ only in it yield the same URL. */
  lemma UpstreamUrlIgnoresClientRedirect(s: Store, env: Collaborators, cfg: Config,
                                         args: AuthorizationRequest, otherRedirect: string,
                                         secret: string, sessionId: string, codeVerifier: string, state: string, nowMs: int)
    requires HandleAuthorization(s, env, cfg, args, secret, sessionId, codeVerifier, state, nowMs).result.Ok?
    requires HandleAuthorization(s, env, cfg, args.(redirectUri := otherRedirect),
                                 secret, sessionId, codeVerifier, state, nowMs).result.Ok?
    ensures HandleAuthorization(s, env, cfg, args, secret, sessionId, codeVerifier, state, nowMs).result
            == HandleAuthorization(s, env, cfg, args.(redirectUri := otherRedirect),
                                   secret, sessionId, codeVerifier, state, nowMs).result
  {
  }

  /** A code, once exchanged, cannot be exchanged again: repeating the same
      request fails with TokenNotFound and writes nothing. */
  lemma CodeIsSingleUse(s: Store, cfg: Config, args: TokenRequest,
                        access1: string, refresh1: string, now1: int,
                        access2: string, refresh2: string, now2: int, storeFails: bool, deleteFails: bool)
    requires AuthorizationCodeGrant(s, cfg, args, access1, refresh1, now1, false, false).result.Ok?
    ensures var s1 := AuthorizationCodeGrant(s, cfg, args, access1, refresh1, now1, false, false).store;
            AuthorizationCodeGrant(s1, cfg, args, access2, refresh2, now2, storeFails, deleteFails)
            == Transition(s1, Err(TokenNotFound))
  {
    var s1 := AuthorizationCodeGrant(s, cfg, args, access1, refresh1, now1, false, false).store;
    assert s1.clients == s.clients;
    assert CheckCodeRequest(s1, args) == Err(TokenNotFound);
  }

  /** The exchanged token is stored exactly when it differs from the code:
      a minted access token equal to the code would be deleted with it. */
  lemma IssuedTokenStoredIffFresh(s: Store, cfg: Config, args: TokenRequest,
                                  accessToken: string, refreshToken: string, nowMs: int)
    requires AuthorizationCodeGrant(s, cfg, args, accessToken, refreshToken, nowMs, false, false).result.Ok?
    ensures accessToken in AuthorizationCodeGrant(s, cfg, args, accessToken, refreshToken, nowMs, false, false).store.tokens
            <==> accessToken != args.code.value
  {
  }

  /** An access token obtained from a code validates afterwards, provided it
      differs from the code and verifies with claims naming a registered client. */
  lemma IssuedTokenValidates(s: Store, cfg: Config, verify: string -> Option<Claims>, args: TokenRequest,
                             accessToken: string, refreshToken: string, nowMs: int)
    requires AuthorizationCodeGrant(s, cfg, args, accessToken, refreshToken, nowMs, false, false).result.Ok?
    requires accessToken != args.code.value
    requires verify(accessToken).Some? && verify(accessToken).value.clientId in s.clients
    ensures var t := AuthorizationCodeGrant(s, cfg, args, accessToken, refreshToken, nowMs, false, false);
            var v := ValidateAccessToken(t.store, verify, accessToken);
            && v.valid
            && v.tokenRecord.value.clientId == args.clientId
            && v.tokenRecord.value.userId == s.tokens[args.code.value].userId
  {
  }

  /** A refresh token of one client is refused to another client, when every
      record carrying it belongs to the first. */
  lemma RefreshByOtherClientRejected(s: Store, cfg: Config, args: TokenRequest, found: Option<TokenRecord>,
                                     accessToken: string, nowMs: int, storeFails: bool)
    requires NonEmpty(args.refreshToken) && RefreshLookup(s.tokens, args.refreshToken.value, found)
    requires CarriesRefreshToken(s.tokens, args.refreshToken.value)
    requires forall k :: k in s.tokens && s.tokens[k].refreshToken == args.refreshToken.value ==>
                         s.tokens[k].clientId != args.clientId
    requires args.clientId in s.clients && args.clientSecret == Some(s.clients[args.clientId].clientSecret)
    ensures RefreshTokenGrant(s, cfg, args, found, accessToken, nowMs, storeFails)
            == Transition(s, Err(ClientMismatch))
  {
  }

  /** A refresh keeps the refresh token usable: the renewed record carries
      it, so the same refresh token can be presented again. */
  lemma RefreshTokenReusable(s: Store, cfg: Config, args: TokenRequest, found: Option<TokenRecord>,
                             accessToken: string, nowMs: int)
    requires NonEmpty(args.refreshToken) && RefreshLookup(s.tokens, args.refreshToken.value, found)
    requires RefreshTokenGrant(s, cfg, args, found, accessToken, nowMs, false).result.Ok?
    ensures var t := RefreshTokenGrant(s, cfg, args, found, accessToken, nowMs, false);
            && CarriesRefreshToken(t.store.tokens, args.refreshToken.value)
            && CheckRefreshRequest(t.store, args, Some(t.store.tokens[accessToken])).Ok?
  {
    var t := RefreshTokenGrant(s, cfg, args, found, accessToken, nowMs, false);
    assert t.store.tokens[accessToken].refreshToken == args.refreshToken.value;
  }

  /** With a working storage, revoking the same token twice answers true
      then false, when the token is not both an access token and a refresh
      token of stored records. */
  lemma {:induction false} RevokeTwice(s: Store, token: string)
    requires token in s.tokens || CarriesRefreshToken(s.tokens, token)
    requires !(token in s.tokens && CarriesRefreshToken(s.tokens, token))
    ensures var t1 := RevokeToken(s, token, false, false);
            var t2 := RevokeToken(t1.store, token, false, false);
            t1.result && t2 == Transition(t1.store, false)
  {
    var t1 := RevokeToken(s, token, false, false);
    if token in s.tokens {
      assert t1.store.tokens == DeleteKey(s.tokens, token).tokens;
      forall k | k in t1.store.tokens ensures t1.store.tokens[k].refreshToken != token {
        assert t1.store.tokens[k] == s.tokens[k];
      }
    }
    assert !CarriesRefreshToken(t1.store.tokens, token);
  }

  /** A revoked token no longer validates, whatever it verifies to. */
  lemma RevokedTokenInvalid(s: Store, verify: string -> Option<Claims>, token: string)
    ensures !ValidateAccessToken(RevokeToken(s, token, false, false).store, verify, token).valid
  {
  }

  /** The discovery document advertises only grant types and the response
      type that the endpoints accept. */
  lemma MetadataMatchesEndpoints(cfg: Config, client: Client, args: AuthorizationRequest)
    ensures forall g :: g in Metadata.AuthorizationServer(cfg).grantTypesSupported ==> SupportedGrantType(g)
    ensures ValidateAuthorizationClient(args, client).Pass? ==>
            forall rt :: rt in Metadata.AuthorizationServer(cfg).responseTypesSupported ==> rt in client.responseTypes
  {
  }
}
