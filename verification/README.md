# OAuthService in Dafny

A model of `OAuthService` (`src/core/server/auth/services/oauthService.ts`). This is the protocol core of an
OAuth 2.0 authorization server that hands user authentication to an upstream IdP (Auth0) and issues its own
bearer tokens. The model covers these parts:

- dynamic client registration (RFC 7591);
- lookup-or-auto-register of unknown clients;
- the authorization request, which opens a local session and an upstream session;
- the token endpoint: the authorization-code grant (RFC 6749 section 4.1.3), the refresh grant (RFC 6749
  section 6) and the rejection of every other grant type (RFC 6749 section 5.2);
- access-token validation and revocation;
- the two discovery documents.

## Layout

| file | module | what it holds |
|---|---|---|
| types.dfy | `OAuthTypes` | entities, requests, responses, errors, configuration. `Collaborators` holds the deterministic outside functions: the request schema, the PKCE S256 challenge, the upstream URL builder and JWT verification. |
| storage.dfy | `Storage` | the storage as four maps (`Store`) and the `Transition` result of a request. It has pure delete and lookup functions and the `StorageService` class, whose methods update the maps in place. |
| metadata.dfy | `Metadata` | the authorization-server and protected-resource metadata. |
| registration.dfy | `Registration` | `registerClient` and `getClientOrRegister` as transition functions. |
| authorization.dfy | `Authorization` | `validateAuthorizationClient` and `handleAuthorization`. |
| token_grants.dfy | `TokenGrants` | the validation predicates, the two grants and the dispatcher. |
| access.dfy | `Access` | `validateAccessToken` and `revokeToken`. |
| invariants.dfy | `Invariants` | the storage invariant `Wf`, a proof that every request preserves it, and a proof that it holds along any run. |
| scenarios.dfy | `Scenarios` | properties that span several requests. |
| service.dfy | `Service` | the `OAuthService` class. Each handler updates the storage step by step, as the source does, and is proved equal to its transition function. |

Each handler has a pure transition function from the old storage and the request to a
`Transition(store, result)`. Thrown errors become `Err(...)`.

The service draws some values from outside. These are inputs to the model:

- random bytes: the client secret, the generated client_id hex, the session id, the PKCE verifier and the state;
- the signed JWTs;
- `Date.now()`, as one `nowMs` per request;
- whether `storeToken` or a delete throws.

The storage's lookup by refresh token can return any one of several records that share a refresh token.
`RefreshLookup` says which answers are allowed. The storage's actual answer is a parameter of the refresh grant
and a ghost out-parameter of the methods.

In these points the code departs from RFC 6749 and RFC 7636, or from what its names suggest. The model follows the code:

- The code grant never compares `expiresAt` with the clock (oauthService.ts:383-389). Given the storage assumption below, an expired code record is still redeemable.
- The refresh grant stores the renewed record under the new access token. It does not delete the old record, so
  several records can carry one refresh token.
- The client's `state` and `code_challenge` are never stored. The session keeps the locally generated state and
  the challenge of the locally generated verifier (`Scenarios.ClientStateAndChallengeIgnored`).
- `code_challenge_method` defaults to `S256`, not to `plain` as section 4.3 of RFC 7636 would.
- A wrong client secret is accepted at the code grant whenever `code_verifier` is non-empty. The verifier is not
  compared with anything.
- The response-type check asks whether the client allows the literal `code`, not the request's `response_type`.
- The metadata advertises only `authorization_code`, although the token endpoint also accepts `refresh_token`.
- A client registered with neither a client_id nor a client_name gets the default name `MCP Client undefined`,
  because the default name is built from the request's client_id (oauthService.ts:84).

Assumptions about `StorageService`, whose code is not part of this model:

- `registerClient` stores a client under its clientId and replaces any earlier client there.
- The two session tables are keyed by sessionId.
- `deleteToken` removes the key and reports whether it was present.
- A new `StorageService` starts with empty tables: storage is not durable across restarts.
- `getClient` and `getToken` return the record stored under the key, whatever its `expiresAt`.
- `getTokenByRefreshToken` returns some record that carries the refresh token.
- `deleteTokenByRefreshToken` removes every record that carries the refresh token and reports whether there
  was one.

## Model

| member | source | states |
|---|---|---|
| Storage.DeleteKey | src/core/server/auth/services/oauthService.ts:552 | deleteToken reports whether the key was stored and removes exactly that key, leaving the other records unchanged |
| Storage.DeleteByRefreshToken | src/core/server/auth/services/oauthService.ts:556 | deleteTokenByRefreshToken reports whether some record carried the token; afterwards none does, and the other records are unchanged |
| Storage.SomeRefreshAnswer | src/core/server/auth/services/oauthService.ts:431-433 | the lookup by refresh token always has an admissible answer |
| Storage.StorageService.constructor | src/core/server/auth/services/oauthService.ts:33-37 | the service starts with empty tables |
| Storage.StorageService.RegisterClient | src/core/server/auth/services/oauthService.ts:92 | stores the client under its clientId; no other table changes |
| Storage.StorageService.GetClient | src/core/server/auth/services/oauthService.ts:114 | finds a client exactly when one is stored under the client_id, and returns that client (also lines 371 and 518) |
| Storage.StorageService.GetToken | src/core/server/auth/services/oauthService.ts:383 | finds a record exactly when one is stored under the key, and returns that record (also line 504) |
| Storage.StorageService.GetTokenByRefreshToken | src/core/server/auth/services/oauthService.ts:431-433 | returns a stored record carrying the refresh token, or nothing exactly when no record carries it |
| Storage.StorageService.StoreToken | src/core/server/auth/services/oauthService.ts:343-351 | stores the record under its access token, or throws and writes nothing |
| Storage.StorageService.DeleteToken | src/core/server/auth/services/oauthService.ts:357-365 | removes the key and reports whether it was present, or throws and writes nothing |
| Storage.StorageService.DeleteTokenByRefreshToken | src/core/server/auth/services/oauthService.ts:556 | removes every record carrying the refresh token, or throws and writes nothing |
| Storage.StorageService.CreateAuthSession | src/core/server/auth/services/oauthService.ts:219 | stores the local session under its sessionId |
| Storage.StorageService.CreateAuth0Session | src/core/server/auth/services/oauthService.ts:220 | stores the upstream session under its sessionId |
| Metadata.CallbackUri | src/core/server/auth/services/oauthService.ts:227 | the upstream callback lies on the server's own base URL |
| Metadata.DistinctPaths | src/core/server/auth/services/oauthService.ts:46-48 | endpoint URLs on one base with different paths differ |
| Metadata.AuthorizationServer | src/core/server/auth/services/oauthService.ts:39-55 | the issuer is the configured one; the three endpoints lie on the base URL and are pairwise distinct; only S256 PKCE and the code response type are advertised |
| Metadata.ProtectedResource | src/core/server/auth/services/oauthService.ts:57-68 | the resource is the authorization server's issuer and names itself as its only authorization server; docs live under it; no certificate-bound tokens |
| Registration.RegisterClient | src/core/server/auth/services/oauthService.ts:70-109 | the returned client_id is stored and the stored client is exactly what the response describes; a supplied client_id is kept, else an mcp_-prefixed one is generated; the secret never expires (0, RFC 7591 section 3.2.1); issued-at is now in seconds, application type web, and name, scope, grant types, response types and auth method take the request's value or the defaults of lines 84-89 (MCP Client <client_id>, the configured Auth0 scope, [authorization_code], [code], client_secret_post); other clients and tables unchanged |
| Registration.AutoRegistration | src/core/server/auth/services/oauthService.ts:116-131 | an unknown client is registered under the requested client_id with the request's redirect URI as its only one |
| Registration.GetClientOrRegister | src/core/server/auth/services/oauthService.ts:111-139 | always yields a client; a known client is returned unchanged with no write; an unknown one is registered with redirectUris [redirect_uri], responseTypes [code], grantTypes [authorization_code] |
| Authorization.ValidateAuthorizationClient | src/core/server/auth/services/oauthService.ts:141-152 | passes iff redirect_uri is exactly one of the client's redirect URIs and the client allows code; the redirect failure takes precedence |
| Authorization.HandleAuthorization | src/core/server/auth/services/oauthService.ts:170-236 | fails iff the schema rejects (InvalidRequest) or a known client rejects the request (with the validation's own error, InvalidRedirectUri or UnsupportedResponseType), and then writes nothing; on success the clients table is exactly the one left by GetClientOrRegister, tokens are unchanged, other sessions are kept, and it stores one session of each kind under sessionId with the same state, the resolved client's id, the request's redirect_uri, scope (default openid profile email) and response_type, the upstream session embedding the local one, both expiring at now + sessionTTL*1000, and returns the upstream URL built on the fixed callback |
| TokenGrants.ValidateAuthorizationCodeClientSecret | src/core/server/auth/services/oauthService.ts:258-279 | passes iff the secret matches or code_verifier is non-empty |
| TokenGrants.ValidateAuthorizationCodeToken | src/core/server/auth/services/oauthService.ts:281-288 | passes iff the code's record belongs to the presenting client |
| TokenGrants.ResponseOf | src/core/server/auth/services/oauthService.ts:405-411 | the response carries the stored record's tokens, type and scope, and expires_in = tokenTTL |
| TokenGrants.CheckCodeRequest | src/core/server/auth/services/oauthService.ts:371-389 | succeeds iff the client exists, the secret passes, code is non-empty, a record is stored under it and it belongs to the client; the first failing check decides the error: ClientNotFound, InvalidClientSecret, CodeRequired, TokenNotFound or ClientMismatch, each exactly when its check is the first to fail |
| TokenGrants.AuthorizationCodeGrant | src/core/server/auth/services/oauthService.ts:368-412 | every check failure writes nothing; a failed store writes nothing, so the code stays redeemable; a failed delete leaves exactly the storage after the store, the code's key still present; success stores the new Bearer record (scope, user, upstream tokens copied, client = client_id) and then removes the code |
| TokenGrants.CheckRefreshRequest | src/core/server/auth/services/oauthService.ts:417-441 | succeeds iff the client exists, the secret matches exactly, refresh_token is non-empty, a record carries it and the found record belongs to the client; the first failing check decides the error: ClientNotFound, InvalidClientSecret, RefreshTokenRequired, TokenNotFound or ClientMismatch, each exactly when its check is the first to fail |
| TokenGrants.RefreshGrantRecord | src/core/server/auth/services/oauthService.ts:451-457 | the renewed record equals the found one except that it carries the new access token, type Bearer and expiresAt = now + tokenTTL*1000 |
| TokenGrants.RefreshTokenGrant | src/core/server/auth/services/oauthService.ts:414-478 | a failed check returns that check's error and a failed store StorageFailure, both with no write; success adds one record under the new access token, deletes none, keeps the refresh token and stores exactly the renewed record of the found one, expiring at now + tokenTTL*1000 |
| TokenGrants.HandleTokenRequest | src/core/server/auth/services/oauthService.ts:238-256 | authorization_code requests get exactly the code grant's outcome and refresh_token requests the refresh grant's; any other grant type fails with UnsupportedGrantType and writes nothing, and only then; success returns a Bearer token |
| Access.ValidateAccessToken | src/core/server/auth/services/oauthService.ts:480-548 | valid iff the token verifies, a record is stored under it and the claimed client is registered; otherwise valid=false with no claims and no record |
| Access.RevokeToken | src/core/server/auth/services/oauthService.ts:550-568 | with a working storage, true iff a record was stored under or carried the token; a hit by access token removes exactly that record, otherwise exactly the records carrying it as refresh token are removed; nothing is added or changed; false (and no write) whenever a delete throws |
| Invariants.RegisterKeepsWf | src/core/server/auth/services/oauthService.ts:70-109 | registration preserves the storage invariant and keeps every client |
| Invariants.ResolvedClientWf | src/core/server/auth/services/oauthService.ts:111-139 | on a well-formed storage the resolved client is stored under the requested client_id |
| Invariants.AddSessionsKeepsWf | src/core/server/auth/services/oauthService.ts:195-220 | storing a local and an upstream session that share sessionId and state, with the challenge of the retained verifier, preserves the invariant |
| Invariants.AuthorizeKeepsWf | src/core/server/auth/services/oauthService.ts:170-236 | the authorization request preserves the invariant and keeps every client |
| Invariants.TokenRequestKeepsWf | src/core/server/auth/services/oauthService.ts:238-478 | both grants preserve the invariant and leave the clients unchanged |
| Invariants.RevokeKeepsWf | src/core/server/auth/services/oauthService.ts:550-568 | revocation preserves the invariant and leaves the clients unchanged |
| Invariants.StepKeepsWf | src/core/server/auth/services/oauthService.ts:70-568 | every request preserves the invariant and removes no client |
| Invariants.RunKeepsWf | src/core/server/auth/services/oauthService.ts:70-568 | along any run from a well-formed storage every storage is well-formed and every earlier client is still registered |
| Invariants.EmptyStoreWf | src/core/server/auth/services/oauthService.ts:33-37 | the initial storage is well-formed |
| Scenarios.GeneratedClientIdsDistinct | src/core/server/auth/services/oauthService.ts:73 | two registrations with different random hex get different client_ids, and the first client remains retrievable as described |
| Scenarios.UnknownRedirectRejected | src/core/server/auth/services/oauthService.ts:145-147 | a known client with a foreign redirect_uri gets InvalidRedirectUri and nothing is written |
| Scenarios.RegisterThenAuthorize | src/core/server/auth/services/oauthService.ts:70-236 | register with one redirect URI, then authorize with it: success, and a session for that client expiring at now + sessionTTL*1000 |
| Scenarios.AuthorizedSessionNamesClient | src/core/server/auth/services/oauthService.ts:195-197 | on a well-formed storage the opened session names the requested client |
| Scenarios.ClientStateAndChallengeIgnored | src/core/server/auth/services/oauthService.ts:190-204 | the client's state and code_challenge have no effect on the storage or the result |
| Scenarios.UpstreamUrlIgnoresClientRedirect | src/core/server/auth/services/oauthService.ts:226-233 | the URL sent upstream does not depend on the client's redirect_uri |
| Scenarios.CodeIsSingleUse | src/core/server/auth/services/oauthService.ts:383-403 | after a successful exchange the same request fails with TokenNotFound and writes nothing |
| Scenarios.IssuedTokenStoredIffFresh | src/core/server/auth/services/oauthService.ts:396-403 | the issued token is stored iff it differs from the code; one equal to the code is deleted with it |
| Scenarios.IssuedTokenValidates | src/core/server/auth/services/oauthService.ts:396-403 | a fresh issued token that verifies with a registered client validates, with the record of the presenting client and the code's user |
| Scenarios.RefreshByOtherClientRejected | src/core/server/auth/services/oauthService.ts:439-441 | another client's refresh token is refused with ClientMismatch and nothing is written |
| Scenarios.RefreshTokenReusable | src/core/server/auth/services/oauthService.ts:451-460 | after a refresh the same refresh token still passes the refresh checks |
| Scenarios.RevokeTwice | src/core/server/auth/services/oauthService.ts:550-568 | revoking the same token twice answers true, then false with no write |
| Scenarios.RevokedTokenInvalid | src/core/server/auth/services/oauthService.ts:504-516 | a revoked token no longer validates |
| Scenarios.MetadataMatchesEndpoints | src/core/server/auth/services/oauthService.ts:49-50 | every advertised grant type is dispatched by the token endpoint; an accepted client allows every advertised response type |
| Service.OAuthService.constructor | src/core/server/auth/services/oauthService.ts:33-37 | a fresh, empty, well-formed storage |
| Service.OAuthService.RegisterClient | src/core/server/auth/services/oauthService.ts:70-109 | leaves exactly the storage and returns exactly the response of Registration.RegisterClient; keeps the invariant |
| Service.OAuthService.GetClientOrRegister | src/core/server/auth/services/oauthService.ts:111-139 | agrees with Registration.GetClientOrRegister |
| Service.OAuthService.HandleAuthorization | src/core/server/auth/services/oauthService.ts:170-236 | agrees with Authorization.HandleAuthorization; keeps the invariant |
| Service.OAuthService.HandleTokenRequest | src/core/server/auth/services/oauthService.ts:238-256 | agrees with TokenGrants.HandleTokenRequest for the storage's admissible refresh-lookup answer |
| Service.OAuthService.StoreAuthorizationCodeGrantToken | src/core/server/auth/services/oauthService.ts:315-354 | stores the new Bearer record under the new access token, or throws and writes nothing |
| Service.OAuthService.DeleteAuthorizationCodeGrantToken | src/core/server/auth/services/oauthService.ts:356-366 | removes the code's record, or throws and writes nothing |
| Service.OAuthService.HandleAuthorizationCodeGrant | src/core/server/auth/services/oauthService.ts:368-412 | agrees with TokenGrants.AuthorizationCodeGrant, store before delete |
| Service.OAuthService.HandleRefreshTokenGrant | src/core/server/auth/services/oauthService.ts:414-478 | agrees with TokenGrants.RefreshTokenGrant for the answer the storage gave |
| Service.OAuthService.ValidateAccessToken | src/core/server/auth/services/oauthService.ts:480-548 | reads only, and agrees with Access.ValidateAccessToken |
| Service.OAuthService.RevokeToken | src/core/server/auth/services/oauthService.ts:550-568 | agrees with Access.RevokeToken; a throwing storage yields false |

## Left out

- `setupHandlers` and the Express application (oauthService.ts:574-576): HTTP routing. The upstream callback that creates the code's token record lives in the Auth0 provider, which is not part of this model.
- `getStats` (oauthService.ts:570-572): it only forwards to the storage, whose code is not part of this model.
- `loggingContext.log` calls: logging only, with no effect on results.
- `validateAuthorization` (oauthService.ts:154-168): the zod schema's definition is not part of this model. Its verdict is the function `schemaAccepts`.
- `generateAccessAndRefreshTokens` (oauthService.ts:290-313) and JWT signing: the signed tokens are inputs. The claims they carry (audience, TTL strings) are not modelled. Verification is the function `verifyAccessToken`, so no link between signing and verifying is assumed.
- `randomBytes` and the Auth0 provider's verifier and state generators are inputs. The S256 challenge and the authorization URL builder are functions.
- `Date.now()`: one `nowMs` per request, although the source reads the clock several times in one request.
- Concurrency: the async interleaving of requests is not modelled. Requests run one after another.
- Storage failures are modelled only for `storeToken`, `deleteToken` and `deleteTokenByRefreshToken`, the calls the source wraps in try/catch. A throwing `registerClient`, `createAuthSession`, `createAuth0Session` or read is not modelled.
- The "Client not found or registered" error (oauthService.ts:183-185) cannot happen in the model, because registration always stores the client. The null-client branches of the two validation helpers are never reached, because their callers check first.
- In `validateAccessToken`, the path where an exception is caught (oauthService.ts:541-547) is absent: verification and storage reads are total here.
- Request fields that `registerClient` ignores (`client_secret`, `application_type`, `client_uri`, `contacts`, `tos_uri`, `policy_uri`, `jwks_uri`) are not part of the request type.
- src/tools/project/index.ts, jest.config.ts and test/globalSetup.ts are not part of this model: a filesystem search tool and test configuration.
- Scenarios.RevokeTwice: proved only when the token is not both the key of one record and the refresh token of another. If it were both, the first call deletes only by key, so the second call would still find the refresh token.
- Scenarios.CodeIsSingleUse: stated for a repetition of the same request. A retry by another client or with another secret may fail earlier, with ClientNotFound or InvalidClientSecret.
- Scenarios.RefreshByOtherClientRejected: requires every record carrying the refresh token to belong to another client, because the storage may return any of them.
