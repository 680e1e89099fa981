/** Entities, requests and responses of the OAuth service, and the collaborators
    it consults (schema check, PKCE hashing, upstream URL builder, JWT verifier). */
module OAuthTypes {

  datatype Option<+T> = None | Some(value: T)

  function GetOr<T>(o: Option<T>, default: T): T
  {
    match o
    case Some(v) => v
    case None => default
  }

  /** True when an optional string is present and not the empty string. */
  predicate NonEmpty(o: Option<string>)
  {
    o.Some? && o.value != ""
  }

  /** The errors the service throws, one per distinct failure of the source. */
  datatype Error =
    | InvalidRequest           // schema rejected the authorization request
    | ClientNotFound           // unknown client_id at the token endpoint
    | InvalidRedirectUri       // redirect_uri not among the client's redirect URIs
    | UnsupportedResponseType  // client does not allow the 'code' response type
    | InvalidClientSecret
    | CodeRequired
    | RefreshTokenRequired
    | TokenNotFound
    | ClientMismatch
    | UnsupportedGrantType
    | StorageFailure           // storeToken or deleteToken threw

  datatype Result<+T> = Ok(value: T) | Err(error: Error)

  /** Outcome of a validation step that either passes or throws. */
  datatype Check = Pass | Fail(error: Error)

  /** The configuration values the service reads. `port` is the decimal text
      that the source interpolates into its URLs. */
  datatype Config = Config(
    host: string,
    port: string,
    issuer: string,
    serverName: string,
    auth0Scope: string,
    sessionTTL: int,
    tokenTTL: int)

  datatype Client = Client(
    clientId: string,
    clientIdIssuedAt: int,
    clientSecret: string,
    clientSecretExpiresAt: Option<int>,
    applicationType: string,
    redirectUris: seq<string>,
    clientName: string,
    scope: string,
    grantTypes: seq<string>,
    responseTypes: seq<string>,
    tokenEndpointAuthMethod: string)

  /** The fields of a registration request that registration reads. */
  datatype RegistrationRequest = RegistrationRequest(
    clientId: Option<string>,
    redirectUris: seq<string>,
    clientName: Option<string>,
    scope: Option<string>,
    grantTypes: Option<seq<string>>,
    responseTypes: Option<seq<string>>,
    tokenEndpointAuthMethod: Option<string>)

  datatype RegistrationResponse = RegistrationResponse(
    applicationType: string,
    clientId: string,
    clientSecret: string,
    redirectUris: seq<string>,
    clientName: string,
    scope: string,
    grantTypes: seq<string>,
    responseTypes: seq<string>,
    tokenEndpointAuthMethod: string,
    clientIdIssuedAt: int,
    clientSecretExpiresAt: int)

  datatype AuthorizationRequest = AuthorizationRequest(
    clientId: string,
    redirectUri: string,
    responseType: string,
    scope: Option<string>,
    state: Option<string>,
    codeChallenge: Option<string>,
    codeChallengeMethod: Option<string>)

  /** The local authorization session. */
  datatype AuthSession = AuthSession(
    sessionId: string,
    clientId: string,
    redirectUri: string,
    scope: string,
    state: string,
    codeChallenge: string,
    codeChallengeMethod: string,
    expiresAt: int,
    responseType: string,
    createdAt: int)

  /** The upstream (Auth0) session correlated with an AuthSession. */
  datatype Auth0Session = Auth0Session(
    sessionId: string,
    state: string,
    codeVerifier: string,
    originalSession: AuthSession,
    createdAt: int,
    expiresAt: int)

  /** Parameters handed to the upstream authorization URL builder. */
  datatype UpstreamParams = UpstreamParams(
    redirectUri: string,
    state: string,
    codeChallenge: string,
    codeChallengeMethod: string,
    scope: string)

  datatype TokenRequest = TokenRequest(
    grantType: string,
    clientId: string,
    clientSecret: Option<string>,
    code: Option<string>,
    codeVerifier: Option<string>,
    refreshToken: Option<string>)

  datatype TokenRecord = TokenRecord(
    accessToken: string,
    refreshToken: string,
    tokenType: string,
    expiresAt: int,
    scope: string,
    clientId: string,
    userId: string,
    auth0AccessToken: string,
    auth0RefreshToken: string,
    auth0IdToken: string,
    createdAt: int)

  datatype TokenResponse = TokenResponse(
    accessToken: string,
    tokenType: string,
    expiresIn: int,
    refreshToken: string,
    scope: string)

  /** The claims of a verified access token that the service reads. */
  datatype Claims = Claims(clientId: string, userId: string, scope: string)

  datatype Validation = Validation(
    valid: bool,
    claims: Option<Claims>,
    tokenRecord: Option<TokenRecord>)

  /** Deterministic collaborators whose code is not part of this model:
      the request schema, the PKCE S256 challenge of a verifier, the upstream
      authorization URL builder and JWT verification. */
  datatype Collaborators = Collaborators(
    schemaAccepts: AuthorizationRequest -> bool,
    codeChallengeOf: string -> string,
    authorizationUrl: UpstreamParams -> string,
    verifyAccessToken: string -> Option<Claims>)
}
