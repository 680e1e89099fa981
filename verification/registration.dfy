/** Dynamic client registration (RFC 7591) and the lookup-or-auto-register
    step of the authorization request. */
module Registration {
  import opened OAuthTypes
  import opened Storage

  /** The client a registration request describes. `idHex` is the random hex
      used only when the request names no client_id; `secret` is the random
      client secret. The default client name interpolates the request's
      client_id, so a request without one is named "MCP Client undefined". */
  function NewClient(cfg: Config, req: RegistrationRequest, idHex: string, secret: string, nowMs: int): Client
  {
    Client(
      clientId := GetOr(req.clientId, "mcp_" + idHex),
      clientIdIssuedAt := nowMs / 1000,
      clientSecret := secret,
      clientSecretExpiresAt := None,
      applicationType := "web",
      redirectUris := req.redirectUris,
      clientName := GetOr(req.clientName, "MCP Client " + GetOr(req.clientId, "undefined")),
      scope := GetOr(req.scope, cfg.auth0Scope),
      grantTypes := GetOr(req.grantTypes, ["authorization_code"]),
      responseTypes := GetOr(req.responseTypes, ["code"]),
      tokenEndpointAuthMethod := GetOr(req.tokenEndpointAuthMethod, "client_secret_post"))
  }

  /** The registration response describing a stored client. */
  function Describe(c: Client): RegistrationResponse
  {
    RegistrationResponse(
      applicationType := c.applicationType,
      clientId := c.clientId,
      clientSecret := c.clientSecret,
      redirectUris := c.redirectUris,
      clientName := c.clientName,
      scope := c.scope,
      grantTypes := c.grantTypes,
      responseTypes := c.responseTypes,
      tokenEndpointAuthMethod := c.tokenEndpointAuthMethod,
      clientIdIssuedAt := c.clientIdIssuedAt,
      clientSecretExpiresAt := GetOr(c.clientSecretExpiresAt, 0))
  }

  /** registerClient: store a new client and describe it to the caller. */
  function RegisterClient(s: Store, cfg: Config, req: RegistrationRequest, idHex: string, secret: string, nowMs: int)
    : (t: Transition<RegistrationResponse>)
    // the returned client_id is retrievable, and the stored client is the one described
    ensures t.result.clientId in t.store.clients
    ensures Describe(t.store.clients[t.result.clientId]) == t.result
    // a caller-supplied client_id is kept, otherwise one is generated with the mcp_ prefix
    ensures req.clientId.Some? ==> t.result.clientId == req.clientId.value
    ensures req.clientId.None? ==> t.result.clientId == "mcp_" + idHex
    ensures t.result.clientSecret == secret
    ensures t.result.redirectUris == req.redirectUris
    // the secret never expires (RFC 7591 section 3.2.1: 0 means no expiry)
    ensures t.result.clientSecretExpiresAt == 0
    // the defaults the request may leave out
    ensures t.result.applicationType == "web"
    ensures t.result.clientIdIssuedAt == nowMs / 1000
    ensures t.result.clientName == GetOr(req.clientName, "MCP Client " + GetOr(req.clientId, "undefined"))
    ensures t.result.scope == GetOr(req.scope, cfg.auth0Scope)
    ensures t.result.grantTypes == GetOr(req.grantTypes, ["authorization_code"])
    ensures t.result.responseTypes == GetOr(req.responseTypes, ["code"])
    ensures t.result.tokenEndpointAuthMethod == GetOr(req.tokenEndpointAuthMethod, "client_secret_post")
    // every other client is kept and no other table changes
    ensures forall id :: id in s.clients && id != t.result.clientId ==>
              id in t.store.clients && t.store.clients[id] == s.clients[id]
    ensures t.store.clients.Keys == s.clients.Keys + {t.result.clientId}
    ensures t.store.(clients := s.clients) == s
  {
    var client := NewClient(cfg, req, idHex, secret, nowMs);
    Transition(s.(clients := s.clients[client.clientId := client]), Describe(client))
  }

  /** The registration request the authorization endpoint issues for an
      unknown client_id. */
  function AutoRegistration(cfg: Config, args: AuthorizationRequest): (req: RegistrationRequest)
    ensures req.clientId == Some(args.clientId)
    ensures req.redirectUris == [args.redirectUri]
  {
    RegistrationRequest(
      clientId := Some(args.clientId),
      redirectUris := [args.redirectUri],
      clientName := Some("MCP Client " + args.clientId),
      scope := Some(cfg.auth0Scope),
      grantTypes := Some(["authorization_code"]),
      responseTypes := Some(["code"]),
      tokenEndpointAuthMethod := Some("client_secret_post"))
  }

  /** getClientOrRegister: the stored client for args.clientId, registering
      one (with only the request's redirect URI) when none is stored. The
      random hex for a generated client_id is never drawn, since the
      request always names a client_id. */
  function GetClientOrRegister(s: Store, cfg: Config, args: AuthorizationRequest, secret: string, nowMs: int)
    : (t: Transition<Option<Client>>)
    ensures t.result.Some?
    ensures args.clientId in s.clients ==> t == Transition(s, Some(s.clients[args.clientId]))
    ensures args.clientId !in s.clients ==>
              && t.result.value.clientId == args.clientId
              && t.result.value.redirectUris == [args.redirectUri]
              && t.result.value.responseTypes == ["code"]
              && t.result.value.grantTypes == ["authorization_code"]
              && t.result.value.clientSecret == secret
              && t.store == s.(clients := s.clients[args.clientId := t.result.value])
  {
    match Lookup(s.clients, args.clientId)
    case Some(c) => Transition(s, Some(c))
    case None =>
      var registered := RegisterClient(s, cfg, AutoRegistration(cfg, args), "", secret, nowMs);
      Transition(registered.store, Lookup(registered.store.clients, registered.result.clientId))
  }
}
