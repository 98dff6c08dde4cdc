/**
 What every handler that writes the OAuth tables does to them when it runs as a whole: the grants of
 OAuthGrants, the claim, refresh rotation, the revocations of src/oauth/provider.py, and the writes of
 the admin and portal routes that go past the provider.
 */
module TokenOps {
  import opened Prelude
  import opened OAuthTables
  import opened OAuthGrants
  import ClaimClient

  // ---------------------------------------------------------------------------------------------
  // Single statements
  // ---------------------------------------------------------------------------------------------

  function RevokeAccess(access: AccessTokens, h: Hash): AccessTokens {
    if h in access then access[h := access[h].(revoked := true)] else access
  }

  function RevokeAccessOf(access: AccessTokens, client: string): AccessTokens {
    map h | h in access :: if access[h].client == client then access[h].(revoked := true) else access[h]
  }

  function RevokeRefresh(refresh: RefreshTokens, h: Hash): RefreshTokens {
    if h in refresh then refresh[h := refresh[h].(revoked := true)] else refresh
  }

  function RevokeLinked(refresh: RefreshTokens, access: Hash): RefreshTokens {
    map h | h in refresh :: if refresh[h].access == Some(access) then refresh[h].(revoked := true) else refresh[h]
  }

  function RevokeRefreshOf(refresh: RefreshTokens, client: string): RefreshTokens {
    map h | h in refresh :: if refresh[h].client == client then refresh[h].(revoked := true) else refresh[h]
  }

  // ---------------------------------------------------------------------------------------------
  // Handlers
  // ---------------------------------------------------------------------------------------------

  datatype RefreshError = RefreshNotFound | RefreshClientMismatch | RefreshRevoked | RefreshExpired

  function CheckRefresh(refresh: RefreshTokens, h: Hash, client: string, now: int): Option<RefreshError> {
    if h !in refresh then Some(RefreshNotFound)
    else if refresh[h].client != client then Some(RefreshClientMismatch)
    else if refresh[h].revoked then Some(RefreshRevoked)
    else if refresh[h].expiresAt.Some? && refresh[h].expiresAt.value != 0 && refresh[h].expiresAt.value < now then Some(RefreshExpired)
    else None
  }

  /** The user carried to the new pair; a legacy row without one takes the client's owner. */
  function CarriedUser(clients: Clients, row: RefreshRow): Option<string> {
    if row.user.Some? then row.user
    else if row.client in clients then clients[row.client].owner
    else None
  }

  function RotatedAccess(row: RefreshRow, user: Option<string>, pair: TokenPair, now: int): AccessRow {
    AccessRow(row.client, user, row.scopes, Plain(None), Some(now + pair.ttl), false)
  }

  function RotatedRefresh(row: RefreshRow, user: Option<string>, pair: TokenPair, now: int): RefreshRow {
    RefreshRow(row.client, user, row.scopes, Some(Sha256(pair.access)), Some(now + pair.refreshTtl), false)
  }

  /** exchange_refresh_token: the old refresh token and its access token are revoked, a new pair is issued. */
  function Refresh(db: Tables, token: string, client: string, pair: TokenPair, now: int): (Tables, Option<RefreshError>) {
    var h := Sha256(token);
    var refusal := CheckRefresh(db.refresh, h, client, now);
    if refusal.Some? then (db, refusal)
    else
      var row := db.refresh[h];
      var user := CarriedUser(db.clients, row);
      var revoked := if row.access.Some? then RevokeAccess(db.access, row.access.value) else db.access;
      (db.(
         access := revoked[Sha256(pair.access) := RotatedAccess(row, user, pair, now)],
         refresh := RevokeRefresh(db.refresh, h)[Sha256(pair.refresh) := RotatedRefresh(row, user, pair, now)]),
       None)
  }

  /** revoke_token: an access token with the refresh tokens linked to it, or else a refresh token. */
  function Revoke(db: Tables, token: string): Tables {
    var h := Sha256(token);
    if h in db.access then db.(access := RevokeAccess(db.access, h), refresh := RevokeLinked(db.refresh, h))
    else db.(refresh := RevokeRefresh(db.refresh, h))
  }

  function RevokeClientTokens(db: Tables, client: string): Tables {
    db.(access := RevokeAccessOf(db.access, client), refresh := RevokeRefreshOf(db.refresh, client))
  }

  function DeleteClient(db: Tables, client: string): Tables {
    Tables(
      db.clients - {client},
      map k | k in db.codes && db.codes[k].client != client :: db.codes[k],
      map h | h in db.access && db.access[h].client != client :: db.access[h],
      map h | h in db.refresh && db.refresh[h].client != client :: db.refresh[h])
  }

  /** The admin route: the same update statements as revoke_token, without the provider. */
  function AdminRevoke(db: Tables, h: Hash): Tables {
    db.(access := RevokeAccess(db.access, h), refresh := RevokeLinked(db.refresh, h))
  }

  /** The portal routes: the owner deactivates a device and revokes its tokens, without the provider. */
  function PortalRevoke(db: Tables, client: string, user: string): Tables {
    if client in db.clients && db.clients[client].owner == Some(user) then
      RevokeClientTokens(db.(clients := db.clients[client := db.clients[client].(active := false)]), client)
    else db
  }

  /** The plugin login inserts an access token that never expires and has no refresh token. */
  function PluginLogin(db: Tables, client: string, user: string, token: string): Tables {
    if client in db.clients && db.clients[client].owner == Some(user) then
      db.(access := db.access[Sha256(token) := AccessRow(client, Some(user), ["mcp"], Plain(None), Some(0), false)])
    else db
  }

  datatype Write =
    | Register(client: string, row: ClientRow)
    | Claim(client: string, claimer: string)
    | NewSession(session: string, terms: Terms)
    | ApproveSession(key: string, consenting: Option<string>, code: string)
    | DenySession(key: string)
    | ExchangeCode(code: string, client: string, verifier: Option<string>, pair: TokenPair)
    | ExchangeRefresh(token: string, client: string, pair: TokenPair)
    | RevokeToken(token: string)
    | RevokeClient(client: string)
    | RemoveClient(client: string)
    | RevokeFromAdmin(hash: Hash)
    | RevokeFromPortal(client: string, claimer: string)
    | LoginPlugin(client: string, claimer: string, token: string)

  /** The writes of admin and portal routes do not know the provider's cache. */
  predicate BypassesProvider(w: Write) {
    w.RevokeFromAdmin? || w.RevokeFromPortal?
  }

  function Written(db: Tables, w: Write, now: int): Tables {
    match w
    case Register(client, row) => db.(clients := db.clients[client := row])
    case Claim(client, user) => db.(clients := ClaimClient.Claim(db.clients, client, user).0)
    case NewSession(session, terms) => Authorize(db, session, terms, now)
    case ApproveSession(key, user, code) => Approve(db, key, user, code, now).0
    case DenySession(key) => Deny(db, key)
    case ExchangeCode(code, client, verifier, pair) => Exchange(db, code, client, verifier, pair, now).0
    case ExchangeRefresh(token, client, pair) => Refresh(db, token, client, pair, now).0
    case RevokeToken(token) => Revoke(db, token)
    case RevokeClient(client) => RevokeClientTokens(db, client)
    case RemoveClient(client) => DeleteClient(db, client)
    case RevokeFromAdmin(h) => AdminRevoke(db, h)
    case RevokeFromPortal(client, user) => PortalRevoke(db, client, user)
    case LoginPlugin(client, user, token) => PluginLogin(db, client, user, token)
  }

  /** The values a handler generates. */
  function Generated(w: Write): set<string> {
    match w
    case Register(client, _) => {client}
    case NewSession(session, _) => {session}
    case ApproveSession(_, _, code) => {code}
    case ExchangeCode(_, _, _, pair) => {pair.access, pair.refresh}
    case ExchangeRefresh(_, _, pair) => {pair.access, pair.refresh}
    case LoginPlugin(_, _, token) => {token}
    case _ => {}
  }

  /** Generated values are new and distinct; a public client is registered without an owner. */
  ghost predicate Fresh(minted: set<string>, w: Write) {
    && Generated(w) !! minted
    && (w.Register? && w.row.isPublic ==> w.row.owner.None?)
    && (w.NewSession? ==> w.terms.client in minted)
    && (w.ExchangeCode? || w.ExchangeRefresh? ==> w.pair.access != w.pair.refresh)
  }
}
