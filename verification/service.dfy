/** The OAuth service object. Each handler updates the storage step by step,
    as the source does, and is proved to leave exactly the storage and return
    exactly the result of the matching transition function. */
module Service {
  import opened OAuthTypes
  import opened Storage
  import opened Registration
  import opened Authorization
  import opened TokenGrants
  import opened Access
  import opened Invariants
  import Metadata

  class OAuthService {
    const storage: StorageService
    const cfg: Config
    const env: Collaborators

    ghost predicate Valid()
      reads this, storage
    {
      Wf(env, storage.Snapshot())
    }

    constructor (cfg: Config, env: Collaborators)
      ensures Valid() && fresh(storage) && this.cfg == cfg
      ensures this.env.schemaAccepts == env.schemaAccepts
      ensures this.env.codeChallengeOf == env.codeChallengeOf
      ensures this.env.authorizationUrl == env.authorizationUrl
      ensures this.env.verifyAccessToken == env.verifyAccessToken
      ensures storage.Snapshot() == Store(map[], map[], map[], map[])
    {
      this.cfg := cfg;
      this.env := env;
      storage := new StorageService();
      EmptyStoreWf(env);
    }

    method RegisterClient(req: RegistrationRequest, idHex: string, secret: string, nowMs: int)
      returns (response: RegistrationResponse)
      requires Valid()
      modifies storage
      ensures Valid()
      ensures Transition(storage.Snapshot(), response)
              == Registration.RegisterClient(old(storage.Snapshot()), cfg, req, idHex, secret, nowMs)
    {
      ghost var s0 := storage.Snapshot();
      var client := NewClient(cfg, req, idHex, secret, nowMs);
      storage.RegisterClient(client);
      response := Describe(client);
      RegisterKeepsWf(env, cfg, s0, req, idHex, secret, nowMs);
    }

    method GetClientOrRegister(args: AuthorizationRequest, secret: string, nowMs: int)
      returns (client: Option<Client>)
      requires Valid()
      modifies storage
      ensures Valid()
      ensures Transition(storage.Snapshot(), client)
              == Registration.GetClientOrRegister(old(storage.Snapshot()), cfg, args, secret, nowMs)
    {
      ghost var s0 := storage.Snapshot();
      ResolvedClientWf(env, cfg, s0, args, secret, nowMs);
      client := storage.GetClient(args.clientId);
      if client.None? {
        var registered := RegisterClient(AutoRegistration(cfg, args), "", secret, nowMs);
        client := storage.GetClient(registered.clientId);
      }
    }

    method HandleAuthorization(args: AuthorizationRequest, secret: string, sessionId: string,
                               codeVerifier: string, state: string, nowMs: int)
      returns (res: Result<string>)
      requires Valid()
      modifies storage
      ensures Valid()
      ensures Transition(storage.Snapshot(), res)
              == Authorization.HandleAuthorization(old(storage.Snapshot()), env, cfg, args, secret,
                                                   sessionId, codeVerifier, state, nowMs)
    {
      ghost var s0 := storage.Snapshot();
      AuthorizeKeepsWf(env, cfg, s0, args, secret, sessionId, codeVerifier, state, nowMs);
      if !env.schemaAccepts(args) {
        return Err(InvalidRequest);
      }
      var client := GetClientOrRegister(args, secret, nowMs);
      var checked := ValidateAuthorizationClient(args, client.value);
      if checked.Fail? {
        return Err(checked.error);
      }
      var authSession := NewAuthSession(env, args, client.value, sessionId, codeVerifier, state, cfg.sessionTTL, nowMs);
      var auth0Session := Auth0Session(
        sessionId := sessionId,
        state := state,
        codeVerifier := codeVerifier,
        originalSession := authSession,
        createdAt := nowMs,
        expiresAt := nowMs + cfg.sessionTTL * 1000);
      storage.CreateAuthSession(authSession);
      storage.CreateAuth0Session(auth0Session);
      var url := env.authorizationUrl(UpstreamParams(
        redirectUri := Metadata.CallbackUri(cfg),
        state := state,
        codeChallenge := authSession.codeChallenge,
        codeChallengeMethod := authSession.codeChallengeMethod,
        scope := GetOr(args.scope, DefaultScope)));
      res := Ok(url);
    }

    method HandleTokenRequest(args: TokenRequest, accessToken: string, refreshToken: string, nowMs: int,
                              storeFails: bool, deleteFails: bool)
      returns (res: Result<TokenResponse>, ghost found: Option<TokenRecord>)
      requires Valid()
      modifies storage
      ensures Valid()
      ensures NonEmpty(args.refreshToken) ==> RefreshLookup(old(storage.tokens), args.refreshToken.value, found)
      ensures Transition(storage.Snapshot(), res)
              == TokenGrants.HandleTokenRequest(old(storage.Snapshot()), cfg, args, found, accessToken,
                                                refreshToken, nowMs, storeFails, deleteFails)
    {
      ghost var s0 := storage.Snapshot();
      found := SomeRefreshAnswer(s0.tokens, GetOr(args.refreshToken, ""));
      if args.grantType == AuthorizationCodeGrantType {
        res := HandleAuthorizationCodeGrant(args, accessToken, refreshToken, nowMs, storeFails, deleteFails);
        return;
      }
      if args.grantType == RefreshTokenGrantType {
        res, found := HandleRefreshTokenGrant(args, accessToken, nowMs, storeFails);
        return;
      }
      res := Err(UnsupportedGrantType);
    }

    method StoreAuthorizationCodeGrantToken(accessToken: string, refreshToken: string, record: TokenRecord,
                                            args: TokenRequest, nowMs: int, storeFails: bool)
      returns (stored: Result<TokenRecord>)
      modifies storage
      ensures stored == if storeFails then Err(StorageFailure)
                        else Ok(CodeGrantRecord(cfg, record, args, accessToken, refreshToken, nowMs))
      ensures storage.Snapshot() == if storeFails then old(storage.Snapshot())
              else old(storage.Snapshot()).(tokens := old(storage.tokens)[accessToken :=
                     CodeGrantRecord(cfg, record, args, accessToken, refreshToken, nowMs)])
    {
      var newRecord := CodeGrantRecord(cfg, record, args, accessToken, refreshToken, nowMs);
      var c := storage.StoreToken(newRecord, storeFails);
      if c.Fail? {
        return Err(c.error);
      }
      stored := Ok(newRecord);
    }

    method DeleteAuthorizationCodeGrantToken(code: string, deleteFails: bool) returns (c: Check)
      modifies storage
      ensures c == if deleteFails then Fail(StorageFailure) else Pass
      ensures storage.Snapshot() == if deleteFails then old(storage.Snapshot())
              else old(storage.Snapshot()).(tokens := old(storage.tokens) - {code})
    {
      var r := storage.DeleteToken(code, deleteFails);
      c := if r.Err? then Fail(r.error) else Pass;
    }

    method HandleAuthorizationCodeGrant(args: TokenRequest, accessToken: string, refreshToken: string,
                                        nowMs: int, storeFails: bool, deleteFails: bool)
      returns (res: Result<TokenResponse>)
      requires Valid()
      modifies storage
      ensures Valid()
      ensures Transition(storage.Snapshot(), res)
              == AuthorizationCodeGrant(old(storage.Snapshot()), cfg, args, accessToken, refreshToken,
                                        nowMs, storeFails, deleteFails)
    {
      ghost var s0 := storage.Snapshot();
      TokenRequestKeepsWf(env, cfg, s0, args.(grantType := AuthorizationCodeGrantType),
                          SomeRefreshAnswer(s0.tokens, GetOr(args.refreshToken, "")),
                          accessToken, refreshToken, nowMs, storeFails, deleteFails);
      var client := storage.GetClient(args.clientId);
      if client.None? {
        return Err(ClientNotFound);
      }
      if ValidateAuthorizationCodeClientSecret(args, client.value).Fail? {
        return Err(InvalidClientSecret);
      }
      if !NonEmpty(args.code) {
        return Err(CodeRequired);
      }
      var record := storage.GetToken(args.code.value);
      if record.None? {
        return Err(TokenNotFound);
      }
      if ValidateAuthorizationCodeToken(record.value, args).Fail? {
        return Err(ClientMismatch);
      }
      var stored := StoreAuthorizationCodeGrantToken(accessToken, refreshToken, record.value, args, nowMs, storeFails);
      if stored.Err? {
        return Err(stored.error);
      }
      var deleted := DeleteAuthorizationCodeGrantToken(args.code.value, deleteFails);
      if deleted.Fail? {
        return Err(deleted.error);
      }
      res := Ok(ResponseOf(cfg, stored.value));
    }

    method HandleRefreshTokenGrant(args: TokenRequest, accessToken: string, nowMs: int, storeFails: bool)
      returns (res: Result<TokenResponse>, ghost found: Option<TokenRecord>)
      requires Valid()
      modifies storage
      ensures Valid()
      ensures NonEmpty(args.refreshToken) ==> RefreshLookup(old(storage.tokens), args.refreshToken.value, found)
      ensures Transition(storage.Snapshot(), res)
              == RefreshTokenGrant(old(storage.Snapshot()), cfg, args, found, accessToken, nowMs, storeFails)
    {
      ghost var s0 := storage.Snapshot();
      found := SomeRefreshAnswer(s0.tokens, GetOr(args.refreshToken, ""));
      var client := storage.GetClient(args.clientId);
      if client.None? {
        return Err(ClientNotFound), found;
      }
      if args.clientSecret != Some(client.value.clientSecret) {
        return Err(InvalidClientSecret), found;
      }
      if !NonEmpty(args.refreshToken) {
        return Err(RefreshTokenRequired), found;
      }
      var record := storage.GetTokenByRefreshToken(args.refreshToken.value);
      found := record;
      TokenRequestKeepsWf(env, cfg, s0, args.(grantType := RefreshTokenGrantType), found,
                          accessToken, "", nowMs, storeFails, false);
      if record.None? {
        return Err(TokenNotFound), found;
      }
      if record.value.clientId != args.clientId {
        return Err(ClientMismatch), found;
      }
      var newRecord := RefreshGrantRecord(cfg, record.value, accessToken, nowMs);
      var c := storage.StoreToken(newRecord, storeFails);
      if c.Fail? {
        return Err(c.error), found;
      }
      res := Ok(ResponseOf(cfg, newRecord));
    }

    /** Reads only; never fails. */
    method ValidateAccessToken(token: string) returns (v: Validation)
      ensures v == Access.ValidateAccessToken(storage.Snapshot(), env.verifyAccessToken, token)
    {
      var claims := env.verifyAccessToken(token);
      if claims.None? {
        return Invalid;
      }
      var record := storage.GetToken(token);
      if record.None? {
        return Invalid;
      }
      var client := storage.GetClient(claims.value.clientId);
      if client.None? {
        return Invalid;
      }
      v := Validation(true, claims, record);
    }

    /** Never fails: a throwing storage yields false. */
    method RevokeToken(token: string, deleteFails: bool, deleteByRefreshFails: bool) returns (revoked: bool)
      requires Valid()
      modifies storage
      ensures Valid()
      ensures Transition(storage.Snapshot(), revoked)
              == Access.RevokeToken(old(storage.Snapshot()), token, deleteFails, deleteByRefreshFails)
    {
      ghost var s0 := storage.Snapshot();
      RevokeKeepsWf(env, s0, token, deleteFails, deleteByRefreshFails);
      var byAccess := storage.DeleteToken(token, deleteFails);
      if byAccess.Err? {
        return false;
      }
      if byAccess.value {
        return true;
      }
      assert storage.tokens == s0.tokens;
      var byRefresh := storage.DeleteTokenByRefreshToken(token, deleteByRefreshFails);
      if byRefresh.Err? {
        return false;
      }
      if byRefresh.value {
        return true;
      }
      assert storage.tokens == s0.tokens;
      return false;
    }
  }
}
