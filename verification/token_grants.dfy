/** The token endpoint: the authorization-code grant (RFC 6749 section 4.1.3),
    the refresh grant (RFC 6749 section 6), and the rejection of every other
    grant type (RFC 6749 section 5.2). The signed tokens, the clock and the
    storage faults are inputs. */
module TokenGrants {
  import opened OAuthTypes
  import opened Storage

  const AuthorizationCodeGrantType := "authorization_code"
  const RefreshTokenGrantType := "refresh_token"

  /** The grant types the token endpoint dispatches on. */
  predicate SupportedGrantType(g: string)
  {
    g == AuthorizationCodeGrantType || g == RefreshTokenGrantType
  }

  /** validateAuthorizationCodeClientSecret: a wrong (or missing) secret is
      tolerated when a non-empty code_verifier is present. The verifier is
      not compared with anything. */
  function ValidateAuthorizationCodeClientSecret(args: TokenRequest, client: Client): (c: Check)
    ensures c.Pass? <==> args.clientSecret == Some(client.clientSecret) || NonEmpty(args.codeVerifier)
    ensures c.Fail? ==> c.error == InvalidClientSecret
  {
    if args.clientSecret != Some(client.clientSecret) && !NonEmpty(args.codeVerifier) then
      Fail(InvalidClientSecret)
    else
      Pass
  }

  /** validateAuthorizationCodeToken: the code's record must belong to the
      client presenting it. */
  function ValidateAuthorizationCodeToken(record: TokenRecord, args: TokenRequest): (c: Check)
    ensures c.Pass? <==> record.clientId == args.clientId
    ensures c.Fail? ==> c.error == ClientMismatch
  {
    if record.clientId != args.clientId then Fail(ClientMismatch) else Pass
  }

  /** The response both grants return for a stored record. */
  function ResponseOf(cfg: Config, r: TokenRecord): (resp: TokenResponse)
    ensures resp.accessToken == r.accessToken && resp.refreshToken == r.refreshToken
    ensures resp.tokenType == r.tokenType && resp.scope == r.scope
    ensures resp.expiresIn == cfg.tokenTTL
  {
    TokenResponse(r.accessToken, r.tokenType, cfg.tokenTTL, r.refreshToken, r.scope)
  }

  /** The record the code grant stores: newly minted tokens for the presenting
      client, with scope, user and upstream tokens taken from the code's record. */
  function CodeGrantRecord(cfg: Config, code: TokenRecord, args: TokenRequest,
                           accessToken: string, refreshToken: string, nowMs: int): TokenRecord
  {
    TokenRecord(
      accessToken := accessToken,
      refreshToken := refreshToken,
      tokenType := "Bearer",
      expiresAt := nowMs + cfg.tokenTTL * 1000,
      scope := code.scope,
      clientId := args.clientId,
      userId := code.userId,
      auth0AccessToken := code.auth0AccessToken,
      auth0RefreshToken := code.auth0RefreshToken,
      auth0IdToken := code.auth0IdToken,
      createdAt := nowMs)
  }

  /** The checks of the code grant, in the source's order, each reading the
      storage only. On success, the code's record. */
  function CheckCodeRequest(s: Store, args: TokenRequest): (r: Result<TokenRecord>)
    ensures r.Ok? <==>
              && args.clientId in s.clients
              && (args.clientSecret == Some(s.clients[args.clientId].clientSecret) || NonEmpty(args.codeVerifier))
              && NonEmpty(args.code)
              && args.code.value in s.tokens
              && s.tokens[args.code.value].clientId == args.clientId
    ensures r.Ok? ==> r.value == s.tokens[args.code.value]
    // each failed check raises its own error, the first failing check wins
    ensures r == Err(ClientNotFound) <==> args.clientId !in s.clients
    ensures r == Err(InvalidClientSecret) <==>
              && args.clientId in s.clients
              && ValidateAuthorizationCodeClientSecret(args, s.clients[args.clientId]).Fail?
    ensures r == Err(CodeRequired) <==>
              && args.clientId in s.clients
              && ValidateAuthorizationCodeClientSecret(args, s.clients[args.clientId]).Pass?
              && !NonEmpty(args.code)
    ensures r == Err(TokenNotFound) <==>
              && args.clientId in s.clients
              && ValidateAuthorizationCodeClientSecret(args, s.clients[args.clientId]).Pass?
              && NonEmpty(args.code)
              && args.code.value !in s.tokens
    ensures r == Err(ClientMismatch) <==>
              && args.clientId in s.clients
              && ValidateAuthorizationCodeClientSecret(args, s.clients[args.clientId]).Pass?
              && NonEmpty(args.code)
              && args.code.value in s.tokens
              && s.tokens[args.code.value].clientId != args.clientId
  {
    match Lookup(s.clients, args.clientId)
    case None => Err(ClientNotFound)
    case Some(client) =>
      if ValidateAuthorizationCodeClientSecret(args, client).Fail? then Err(InvalidClientSecret)
      else if !NonEmpty(args.code) then Err(CodeRequired)
      else match Lookup(s.tokens, args.code.value)
        case None => Err(TokenNotFound)
        case Some(record) =>
          if ValidateAuthorizationCodeToken(record, args).Fail? then Err(ClientMismatch)
          else Ok(record)
  }

  /** handleAuthorizationCodeGrant: after the checks, store the new record,
      then delete the code's record. `storeFails` and `deleteFails` stand for
      the storage throwing in storeToken and deleteToken. */
  function AuthorizationCodeGrant(s: Store, cfg: Config, args: TokenRequest,
                                  accessToken: string, refreshToken: string, nowMs: int,
                                  storeFails: bool, deleteFails: bool): (t: Transition<Result<TokenResponse>>)
    // every check failure happens before any write
    ensures CheckCodeRequest(s, args).Err? ==> t == Transition(s, Err(CheckCodeRequest(s, args).error))
    ensures t.result.Ok? <==> CheckCodeRequest(s, args).Ok? && !storeFails && !deleteFails
    // a failed store writes nothing, so the code stays redeemable
    ensures CheckCodeRequest(s, args).Ok? && storeFails ==> t == Transition(s, Err(StorageFailure))
    // a failed delete keeps the new record and the code's record
    ensures CheckCodeRequest(s, args).Ok? && !storeFails && deleteFails ==>
              var stored := CodeGrantRecord(cfg, s.tokens[args.code.value], args, accessToken, refreshToken, nowMs);
              && t == Transition(s.(tokens := s.tokens[accessToken := stored]), Err(StorageFailure))
              && args.code.value in t.store.tokens
    // success: the new record under the new token, then the code removed
    ensures t.result.Ok? ==>
              var code := args.code.value;
              var old_ := s.tokens[code];
              var stored := CodeGrantRecord(cfg, old_, args, accessToken, refreshToken, nowMs);
              && stored.clientId == args.clientId && stored.tokenType == "Bearer"
              && stored.scope == old_.scope && stored.userId == old_.userId
              && stored.auth0AccessToken == old_.auth0AccessToken
              && stored.auth0RefreshToken == old_.auth0RefreshToken
              && stored.auth0IdToken == old_.auth0IdToken
              && t.store == s.(tokens := s.tokens[accessToken := stored] - {code})
              && code !in t.store.tokens
              && t.result.value == ResponseOf(cfg, stored)
              && t.result.value.expiresIn == cfg.tokenTTL
  {
    match CheckCodeRequest(s, args)
    case Err(e) => Transition(s, Err(e))
    case Ok(record) =>
      var newRecord := CodeGrantRecord(cfg, record, args, accessToken, refreshToken, nowMs);
      if storeFails then Transition(s, Err(StorageFailure))
      else
        var stored := s.(tokens := s.tokens[newRecord.accessToken := newRecord]);
        if deleteFails then Transition(stored, Err(StorageFailure))
        else
          var deleted := DeleteKey(stored.tokens, args.code.value);
          Transition(stored.(tokens := deleted.tokens), Ok(ResponseOf(cfg, newRecord)))
  }

  /** The checks of the refresh grant, in the source's order. `found` is the
      storage's answer to the lookup by refresh token. No PKCE exemption: the
      secret must match exactly. */
  function CheckRefreshRequest(s: Store, args: TokenRequest, found: Option<TokenRecord>): (r: Result<TokenRecord>)
    requires NonEmpty(args.refreshToken) ==> RefreshLookup(s.tokens, args.refreshToken.value, found)
    ensures r.Ok? <==>
              && args.clientId in s.clients
              && args.clientSecret == Some(s.clients[args.clientId].clientSecret)
              && NonEmpty(args.refreshToken)
              && CarriesRefreshToken(s.tokens, args.refreshToken.value)
              && found.value.clientId == args.clientId
    ensures r.Ok? ==> r == Ok(found.value) && r.value.refreshToken == args.refreshToken.value
    // each failed check raises its own error, the first failing check wins
    ensures r == Err(ClientNotFound) <==> args.clientId !in s.clients
    ensures r == Err(InvalidClientSecret) <==>
              args.clientId in s.clients && args.clientSecret != Some(s.clients[args.clientId].clientSecret)
    ensures r == Err(RefreshTokenRequired) <==>
              && args.clientId in s.clients
              && args.clientSecret == Some(s.clients[args.clientId].clientSecret)
              && !NonEmpty(args.refreshToken)
    ensures r == Err(TokenNotFound) <==>
              && args.clientId in s.clients
              && args.clientSecret == Some(s.clients[args.clientId].clientSecret)
              && NonEmpty(args.refreshToken)
              && !CarriesRefreshToken(s.tokens, args.refreshToken.value)
    ensures r == Err(ClientMismatch) <==>
              && args.clientId in s.clients
              && args.clientSecret == Some(s.clients[args.clientId].clientSecret)
              && NonEmpty(args.refreshToken)
              && CarriesRefreshToken(s.tokens, args.refreshToken.value)
              && found.value.clientId != args.clientId
  {
    match Lookup(s.clients, args.clientId)
    case None => Err(ClientNotFound)
    case Some(client) =>
      if args.clientSecret != Some(client.clientSecret) then Err(InvalidClientSecret)
      else if !NonEmpty(args.refreshToken) then Err(RefreshTokenRequired)
      else match found
        case None => Err(TokenNotFound)
        case Some(record) =>
          if record.clientId != args.clientId then Err(ClientMismatch)
          else Ok(record)
  }

  /** The record the refresh grant stores: the found record with a new access
      token, token type Bearer and a new expiry; its refresh token is kept. */
  function RefreshGrantRecord(cfg: Config, record: TokenRecord, accessToken: string, nowMs: int): (r: TokenRecord)
    ensures r.(accessToken := record.accessToken, tokenType := record.tokenType, expiresAt := record.expiresAt) == record
    ensures r.accessToken == accessToken && r.tokenType == "Bearer"
    ensures r.expiresAt == nowMs + cfg.tokenTTL * 1000
  {
    record.(
      accessToken := accessToken,
      refreshToken := record.refreshToken,
      tokenType := "Bearer",
      expiresAt := nowMs + cfg.tokenTTL * 1000)
  }

  /** handleRefreshTokenGrant: after the checks, store the renewed record. */
  function RefreshTokenGrant(s: Store, cfg: Config, args: TokenRequest, found: Option<TokenRecord>,
                             accessToken: string, nowMs: int, storeFails: bool): (t: Transition<Result<TokenResponse>>)
    requires NonEmpty(args.refreshToken) ==> RefreshLookup(s.tokens, args.refreshToken.value, found)
    // every check failure carries the check's error and happens before any write
    ensures CheckRefreshRequest(s, args, found).Err? ==>
              t == Transition(s, Err(CheckRefreshRequest(s, args, found).error))
    // a failed store is rethrown and writes nothing
    ensures CheckRefreshRequest(s, args, found).Ok? && storeFails ==> t == Transition(s, Err(StorageFailure))
    ensures t.result.Err? ==> t.store == s
    ensures t.result.Ok? <==> CheckRefreshRequest(s, args, found).Ok? && !storeFails
    ensures t.result.Ok? ==>
              accessToken in t.store.tokens &&
              var stored := t.store.tokens[accessToken];
              && t.store == s.(tokens := s.tokens[accessToken := stored])
              // nothing is deleted
              && s.tokens.Keys <= t.store.tokens.Keys
              // the stored record differs from the found one only in these three fields
              && stored.(accessToken := found.value.accessToken, tokenType := found.value.tokenType,
                         expiresAt := found.value.expiresAt) == found.value
              && stored == RefreshGrantRecord(cfg, found.value, accessToken, nowMs)
              && stored.accessToken == accessToken && stored.tokenType == "Bearer"
              && stored.expiresAt == nowMs + cfg.tokenTTL * 1000
              && stored.refreshToken == args.refreshToken.value
              && stored.clientId == args.clientId
              && t.result.value == ResponseOf(cfg, stored)
  {
    match CheckRefreshRequest(s, args, found)
    case Err(e) => Transition(s, Err(e))
    case Ok(record) =>
      var newRecord := RefreshGrantRecord(cfg, record, accessToken, nowMs);
      if storeFails then Transition(s, Err(StorageFailure))
      else Transition(s.(tokens := s.tokens[newRecord.accessToken := newRecord]), Ok(ResponseOf(cfg, newRecord)))
  }

  /** handleTokenRequest: dispatch on grant_type. The refresh grant mints only
      an access token, so `refreshToken` is read by the code grant alone;
      `deleteFails` likewise. */
  function HandleTokenRequest(s: Store, cfg: Config, args: TokenRequest, found: Option<TokenRecord>,
                              accessToken: string, refreshToken: string, nowMs: int,
                              storeFails: bool, deleteFails: bool): (t: Transition<Result<TokenResponse>>)
    requires NonEmpty(args.refreshToken) ==> RefreshLookup(s.tokens, args.refreshToken.value, found)
    // authorization_code and refresh_token requests get their grant's outcome
    ensures args.grantType == AuthorizationCodeGrantType ==>
              t == AuthorizationCodeGrant(s, cfg, args, accessToken, refreshToken, nowMs, storeFails, deleteFails)
    ensures args.grantType == RefreshTokenGrantType ==>
              t == RefreshTokenGrant(s, cfg, args, found, accessToken, nowMs, storeFails)
    ensures !SupportedGrantType(args.grantType) ==> t == Transition(s, Err(UnsupportedGrantType))
    ensures t.result == Err(UnsupportedGrantType) <==> !SupportedGrantType(args.grantType)
    ensures t.result.Ok? ==> t.result.value.tokenType == "Bearer" && t.result.value.accessToken == accessToken
  {
    if args.grantType == AuthorizationCodeGrantType then
      AuthorizationCodeGrant(s, cfg, args, accessToken, refreshToken, nowMs, storeFails, deleteFails)
    else if args.grantType == RefreshTokenGrantType then
      RefreshTokenGrant(s, cfg, args, found, accessToken, nowMs, storeFails)
    else
      Transition(s, Err(UnsupportedGrantType))
  }
}
