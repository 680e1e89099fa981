/** The persistence layer the service talks to, modelled as four keyed tables.
    Only the operations the service calls are modelled, each as a map
    operation: clients keyed by clientId, token records keyed by their access
    token (the authorization code is such a key too), authorization sessions
    and upstream sessions keyed by sessionId. */
module Storage {
  import opened OAuthTypes

  /** The abstract value of the storage: its four tables. */
  datatype Store = Store(
    clients: map<string, Client>,
    tokens: map<string, TokenRecord>,
    authSessions: map<string, AuthSession>,
    auth0Sessions: map<string, Auth0Session>)

  function Lookup<K, V>(m: map<K, V>, k: K): (r: Option<V>)
    ensures r.Some? <==> k in m
    ensures r.Some? ==> r.value == m[k]
  {
    if k in m then Some(m[k]) else None
  }

  /** Some stored record carries `rt` as its refresh token. */
  predicate CarriesRefreshToken(tokens: map<string, TokenRecord>, rt: string)
  {
    exists k :: k in tokens && tokens[k].refreshToken == rt
  }

  /** `found` is an answer the lookup by refresh token may give: a stored
      record carrying `rt`, or nothing when no record carries it. Several
      records can carry the same refresh token, so more than one answer may be
      admissible; the storage's choice among them is not modelled. */
  predicate RefreshLookup(tokens: map<string, TokenRecord>, rt: string, found: Option<TokenRecord>)
  {
    match found
    case None => !CarriesRefreshToken(tokens, rt)
    case Some(r) => r.refreshToken == rt && exists k :: k in tokens && tokens[k] == r
  }

  /** Some admissible answer of the lookup by refresh token always exists. */
  ghost function SomeRefreshAnswer(tokens: map<string, TokenRecord>, rt: string): (found: Option<TokenRecord>)
    ensures RefreshLookup(tokens, rt, found)
  {
    if CarriesRefreshToken(tokens, rt) then
      var k :| k in tokens && tokens[k].refreshToken == rt;
      Some(tokens[k])
    else
      None
  }

  /** The outcome of a delete: whether a record was removed, and the table after it. */
  datatype Deletion = Deletion(deleted: bool, tokens: map<string, TokenRecord>)

  /** deleteToken: remove the record stored under `key`. */
  function DeleteKey(tokens: map<string, TokenRecord>, key: string): (d: Deletion)
    ensures d.deleted <==> key in tokens
    ensures key !in d.tokens
    ensures forall k :: k in d.tokens <==> k in tokens && k != key
    ensures forall k :: k in d.tokens ==> d.tokens[k] == tokens[k]
  {
    Deletion(key in tokens, tokens - {key})
  }

  /** deleteTokenByRefreshToken: remove every record carrying `rt`. */
  function DeleteByRefreshToken(tokens: map<string, TokenRecord>, rt: string): (d: Deletion)
    ensures d.deleted <==> CarriesRefreshToken(tokens, rt)
    ensures !CarriesRefreshToken(d.tokens, rt)
    ensures forall k :: k in d.tokens <==> k in tokens && tokens[k].refreshToken != rt
    ensures forall k :: k in d.tokens ==> d.tokens[k] == tokens[k]
  {
    var kept := map k | k in tokens && tokens[k].refreshToken != rt :: tokens[k];
    Deletion(CarriesRefreshToken(tokens, rt), kept)
  }

  /** The result of one request: the storage after it and what it returns. */
  datatype Transition<+R> = Transition(store: Store, result: R)

  /** The storage object the service owns. Its tables are updated in place. */
  class StorageService {
    var clients: map<string, Client>
    var tokens: map<string, TokenRecord>
    var authSessions: map<string, AuthSession>
    var auth0Sessions: map<string, Auth0Session>

    constructor ()
      ensures Snapshot() == Store(map[], map[], map[], map[])
    {
      clients, tokens, authSessions, auth0Sessions := map[], map[], map[], map[];
    }

    function Snapshot(): Store
      reads this
    {
      Store(clients, tokens, authSessions, auth0Sessions)
    }

    function GetClient(clientId: string): (r: Option<Client>)
      reads this
      ensures r.Some? <==> clientId in clients
      ensures r.Some? ==> r.value == clients[clientId]
    {
      Lookup(clients, clientId)
    }

    function GetToken(key: string): (r: Option<TokenRecord>)
      reads this
      ensures r.Some? <==> key in tokens
      ensures r.Some? ==> r.value == tokens[key]
    {
      Lookup(tokens, key)
    }

    /** registerClient: store the client under its clientId, replacing any
        client already stored there. */
    method RegisterClient(client: Client)
      modifies this
      ensures Snapshot() == old(Snapshot()).(clients := old(clients)[client.clientId := client])
    {
      clients := clients[client.clientId := client];
    }

    method GetTokenByRefreshToken(rt: string) returns (found: Option<TokenRecord>)
      ensures RefreshLookup(tokens, rt, found)
    {
      if CarriesRefreshToken(tokens, rt) {
        var k :| k in tokens && tokens[k].refreshToken == rt;
        found := Some(tokens[k]);
      } else {
        found := None;
      }
    }

    /** storeToken: store the record under its access token; `fault` stands
        for the storage throwing, in which case nothing is written. */
    method StoreToken(record: TokenRecord, fault: bool) returns (c: Check)
      modifies this
      ensures c == if fault then Fail(StorageFailure) else Pass
      ensures Snapshot() == if fault then old(Snapshot())
                            else old(Snapshot()).(tokens := old(tokens)[record.accessToken := record])
    {
      if fault {
        return Fail(StorageFailure);
      }
      tokens := tokens[record.accessToken := record];
      c := Pass;
    }

    /** deleteToken: report whether a record was stored under `key` and remove it. */
    method DeleteToken(key: string, fault: bool) returns (r: Result<bool>)
      modifies this
      ensures r == if fault then Err(StorageFailure) else Ok(DeleteKey(old(tokens), key).deleted)
      ensures Snapshot() == if fault then old(Snapshot())
                            else old(Snapshot()).(tokens := DeleteKey(old(tokens), key).tokens)
    {
      if fault {
        return Err(StorageFailure);
      }
      var d := DeleteKey(tokens, key);
      tokens := d.tokens;
      r := Ok(d.deleted);
    }

    /** deleteTokenByRefreshToken: remove every record carrying `rt`. */
    method DeleteTokenByRefreshToken(rt: string, fault: bool) returns (r: Result<bool>)
      modifies this
      ensures r == if fault then Err(StorageFailure) else Ok(DeleteByRefreshToken(old(tokens), rt).deleted)
      ensures Snapshot() == if fault then old(Snapshot())
                            else old(Snapshot()).(tokens := DeleteByRefreshToken(old(tokens), rt).tokens)
    {
      if fault {
        return Err(StorageFailure);
      }
      var d := DeleteByRefreshToken(tokens, rt);
      tokens := d.tokens;
      r := Ok(d.deleted);
    }

    method CreateAuthSession(session: AuthSession)
      modifies this
      ensures Snapshot() == old(Snapshot()).(authSessions := old(authSessions)[session.sessionId := session])
    {
      authSessions := authSessions[session.sessionId := session];
    }

    method CreateAuth0Session(session: Auth0Session)
      modifies this
      ensures Snapshot() == old(Snapshot()).(auth0Sessions := old(auth0Sessions)[session.sessionId := session])
    {
      auth0Sessions := auth0Sessions[session.sessionId := session];
    }
  }
}
