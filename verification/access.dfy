/** Access-token validation and revocation: the two operations that never
    throw. Every failure, including a throwing storage, collapses into a
    negative answer. */
module Access {
  import opened OAuthTypes
  import opened Storage

  const Invalid := Validation(false, None, None)

  /** validateAccessToken: valid only when the token verifies, a record is
      stored under it and the client its claims name is registered. The
      record's own clientId is not compared with the claims. */
  function ValidateAccessToken(s: Store, verify: string -> Option<Claims>, token: string): (v: Validation)
    ensures v.valid <==> verify(token).Some? && token in s.tokens && verify(token).value.clientId in s.clients
    ensures v.valid ==> v.claims == verify(token) && v.tokenRecord == Some(s.tokens[token])
    ensures !v.valid ==> v == Invalid
  {
    match verify(token)
    case None => Invalid
    case Some(claims) =>
      match Lookup(s.tokens, token)
      case None => Invalid
      case Some(record) =>
        match Lookup(s.clients, claims.clientId)
        case None => Invalid
        case Some(_) => Validation(true, Some(claims), Some(record))
  }

  /** revokeToken: try deleting by access token, then by refresh token;
      `deleteFails` and `deleteByRefreshFails` stand for the storage throwing
      in either delete, which the service turns into `false`. */
  function RevokeToken(s: Store, token: string, deleteFails: bool, deleteByRefreshFails: bool): (t: Transition<bool>)
    // with a working storage: true exactly when some record was stored under or carried the token
    ensures !deleteFails && (token in s.tokens || deleteByRefreshFails) ==>
              t.result == (token in s.tokens)
    ensures !deleteFails && !deleteByRefreshFails ==>
              (t.result <==> token in s.tokens || CarriesRefreshToken(s.tokens, token))
    // a throwing storage is caught: false, and nothing written
    ensures deleteFails ==> t == Transition(s, false)
    // a hit by access token removes exactly that record; otherwise every
    // record carrying the token as its refresh token goes, and no other
    ensures !deleteFails && token in s.tokens ==> t.store.tokens == s.tokens - {token}
    ensures !deleteFails && token !in s.tokens && !deleteByRefreshFails ==>
              t.store.tokens == DeleteByRefreshToken(s.tokens, token).tokens
    // afterwards no record is stored under the token
    ensures !deleteFails && !(token !in s.tokens && deleteByRefreshFails) ==> token !in t.store.tokens
    // only token records are removed, nothing is added or changed
    ensures t.store.(tokens := s.tokens) == s
    ensures t.store.tokens.Keys <= s.tokens.Keys
    ensures forall k :: k in t.store.tokens ==> t.store.tokens[k] == s.tokens[k]
    ensures !t.result ==> t.store == s
  {
    if deleteFails then Transition(s, false)
    else
      var byAccess := DeleteKey(s.tokens, token);
      if byAccess.deleted then Transition(s.(tokens := byAccess.tokens), true)
      else if deleteByRefreshFails then Transition(s, false)
      else
        var byRefresh := DeleteByRefreshToken(s.tokens, token);
        if byRefresh.deleted then Transition(s.(tokens := byRefresh.tokens), true)
        else Transition(s, false)
  }
}
