/** The two discovery documents: authorization-server metadata (RFC 8414) and
    protected-resource metadata (RFC 9728). Both are built from configuration
    alone. */
module Metadata {
  import opened OAuthTypes

  datatype AuthorizationServerMetadata = AuthorizationServerMetadata(
    issuer: string,
    authorizationEndpoint: string,
    tokenEndpoint: string,
    registrationEndpoint: string,
    responseTypesSupported: seq<string>,
    grantTypesSupported: seq<string>,
    tokenEndpointAuthMethodsSupported: seq<string>,
    scopesSupported: seq<string>,
    codeChallengeMethodsSupported: seq<string>)

  datatype ProtectedResourceMetadata = ProtectedResourceMetadata(
    resource: string,
    authorizationServers: seq<string>,
    scopesSupported: seq<string>,
    bearerMethodsSupported: seq<string>,
    dpopSigningAlgValuesSupported: seq<string>,
    tlsClientCertificateBoundAccessTokens: bool,
    resourceName: string,
    resourceDocumentation: string)

  /** The server's own origin, from its configured host and port. */
  function BaseUrl(cfg: Config): string
  {
    "http://" + cfg.host + ":" + cfg.port
  }

  /** The fixed local callback that the upstream IdP redirects back to. */
  function CallbackUri(cfg: Config): (u: string)
    ensures BaseUrl(cfg) <= u
  {
    BaseUrl(cfg) + "/oauth/auth0-callback"
  }

  /** Two URLs built on the same base with paths that differ at a given
      position are different. */
  lemma {:induction false} DistinctPaths(base: string, p: string, q: string, i: nat)
    requires i < |p| && i < |q| && p[i] != q[i]
    ensures base + p != base + q
  {
    assert (base + p)[|base| + i] == p[i];
    assert (base + q)[|base| + i] == q[i];
  }

  function AuthorizationServer(cfg: Config): (m: AuthorizationServerMetadata)
    ensures m.issuer == cfg.issuer
    ensures BaseUrl(cfg) <= m.authorizationEndpoint
    ensures BaseUrl(cfg) <= m.tokenEndpoint
    ensures BaseUrl(cfg) <= m.registrationEndpoint
    ensures m.authorizationEndpoint != m.tokenEndpoint
    ensures m.authorizationEndpoint != m.registrationEndpoint
    ensures m.tokenEndpoint != m.registrationEndpoint
    ensures m.codeChallengeMethodsSupported == ["S256"]
    ensures m.responseTypesSupported == ["code"]
  {
    var base := BaseUrl(cfg);
    DistinctPaths(base, "/oauth/authorize", "/oauth/token", 7);
    DistinctPaths(base, "/oauth/authorize", "/oauth/register", 7);
    DistinctPaths(base, "/oauth/token", "/oauth/register", 7);
    AuthorizationServerMetadata(
      issuer := cfg.issuer,
      authorizationEndpoint := base + "/oauth/authorize",
      tokenEndpoint := base + "/oauth/token",
      registrationEndpoint := base + "/oauth/register",
      responseTypesSupported := ["code"],
      grantTypesSupported := ["authorization_code"],
      tokenEndpointAuthMethodsSupported := ["client_secret_post"],
      scopesSupported := ["openid", "profile", "email"],
      codeChallengeMethodsSupported := ["S256"])
  }

  function ProtectedResource(cfg: Config): (m: ProtectedResourceMetadata)
    ensures m.resource == AuthorizationServer(cfg).issuer
    ensures m.authorizationServers == [m.resource]
    ensures m.resourceDocumentation == m.resource + "/docs"
    ensures m.resourceName == cfg.serverName
    ensures !m.tlsClientCertificateBoundAccessTokens
  {
    ProtectedResourceMetadata(
      resource := cfg.issuer,
      authorizationServers := [cfg.issuer],
      scopesSupported := ["all"],
      bearerMethodsSupported := ["header", "query", "body"],
      dpopSigningAlgValuesSupported := ["RS256"],
      tlsClientCertificateBoundAccessTokens := false,
      resourceName := cfg.serverName,
      resourceDocumentation := cfg.issuer + "/docs")
  }
}
