/**
 What the handlers of src/oauth/provider.py that lead from a pending session to a token pair do to
 the tables when each runs as a whole.  Generated values and the clock are parameters.
 */
module OAuthGrants {
  import opened Prelude
  import opened OAuthTables

  const SESSION_EXPIRY_SECONDS := 1800
  const CODE_EXPIRY_SECONDS := 600

  datatype GrantError =
    | NotFound | ClientMismatch | Expired | PkceFailed | AlreadyUsed | MissingUserBinding

  /** The parameters of an authorization request, as the pending session keeps them. */
  datatype Terms = Terms(
    client: string, redirectUri: Option<string>, scopes: seq<string>, challenge: Option<Challenge>, resource: Option<string>)

  function SessionRow(terms: Terms, now: int): CodeRow {
    CodeRow(terms.client, terms.redirectUri, terms.scopes, terms.challenge, Session(terms.resource),
            now + SESSION_EXPIRY_SECONDS, None)
  }

  function Authorize(db: Tables, session: string, terms: Terms, now: int): Tables {
    db.(codes := db.codes[session := SessionRow(terms, now)])
  }

  /** The resource parameter get_pending_session finds in the column; text that is no JSON object reads as none. */
  function PendingResource(row: CodeRow): Option<string> {
    if row.resource.Session? then row.resource.resource else None
  }

  /** The user an approval records when its caller names none: the claimer of a client that is not public. */
  function Claimer(clients: Clients, client: string): Option<string> {
    if client in clients && !clients[client].isPublic then clients[client].owner else None
  }

  /** The row after approval; a user already recorded stays when the approval brings none. */
  function ApprovedRow(row: CodeRow, user: Option<string>, resource: Option<string>, now: int): CodeRow {
    row.(resource := Plain(resource), expiresAt := now + CODE_EXPIRY_SECONDS, user := if user.Some? then user else row.user)
  }

  /** mark_session_approved: the row at `key` moves to the fresh `code`. */
  function Approve(db: Tables, key: string, user: Option<string>, code: string, now: int): (Tables, Result<string, GrantError>) {
    if key !in db.codes then (db, Err(NotFound))
    else
      var row := db.codes[key];
      var bound := if user.Some? then user else Claimer(db.clients, row.client);
      if row.expiresAt < now then (db, Err(Expired))
      else
        (db.(codes := (db.codes - {key})[code := ApprovedRow(row, bound, PendingResource(row), now)]), Ok(code))
  }

  function Deny(db: Tables, key: string): Tables {
    db.(codes := db.codes - {key})
  }

  /** The user bound to the tokens: the one who consented, else the claimer of a client that is not public. */
  function BoundUser(clients: Clients, client: string, consented: Option<string>): Result<Option<string>, GrantError> {
    if client in clients && clients[client].isPublic then
      if Truthy(consented) then Ok(consented) else Err(MissingUserBinding)
    else
      Ok(if Truthy(consented) then consented
         else if client in clients then clients[client].owner
         else None)
  }

  /** The checks before the code is deleted. */
  function CheckCode(codes: Codes, code: string, client: string, verifier: Option<string>, now: int): Option<GrantError> {
    if code !in codes then Some(NotFound)
    else if codes[code].client != client then Some(ClientMismatch)
    else if codes[code].expiresAt < now then Some(Expired)
    else if !PkcePasses(codes[code].challenge, verifier) then Some(PkceFailed)
    else None
  }

  function NewAccess(row: CodeRow, user: Option<string>, expiresAt: int): AccessRow {
    AccessRow(row.client, user, row.scopes, row.resource, Some(expiresAt), false)
  }

  function NewRefresh(row: CodeRow, user: Option<string>, access: Hash, expiresAt: int): RefreshRow {
    RefreshRow(row.client, user, row.scopes, Some(access), Some(expiresAt), false)
  }

  /** A raw access token, a raw refresh token and their lifetimes. */
  datatype TokenPair = TokenPair(access: string, refresh: string, ttl: nat, refreshTtl: nat)

  function Exchange(db: Tables, code: string, client: string, verifier: Option<string>, issued: TokenPair, now: int)
    : (Tables, Option<GrantError>)
  {
    var refusal := CheckCode(db.codes, code, client, verifier, now);
    if refusal.Some? then (db, refusal)
    else
      var row := db.codes[code];
      var taken := db.(codes := db.codes - {code});
      var user := BoundUser(db.clients, client, row.user);
      if user.Err? then (taken, Some(user.error))
      else
        (taken.(
           access := db.access[Sha256(issued.access) := NewAccess(row, user.value, now + issued.ttl)],
           refresh := db.refresh[Sha256(issued.refresh) := NewRefresh(row, user.value, Sha256(issued.access), now + issued.refreshTtl)]),
         None)
  }

  /**
   A pending session id is itself a code: before any approval it can be exchanged for a pair bound to the
   client's owner.  Only the missing user of a public client prevents it.
   */
  lemma PendingSessionIsExchangeable(db: Tables, session: string, terms: Terms, verifier: Option<string>, issued: TokenPair, now: int)
    requires terms.client in db.clients && PkcePasses(terms.challenge, verifier)
    ensures var (after, refusal) := Exchange(Authorize(db, session, terms, now), session, terms.client, verifier, issued, now);
            if db.clients[terms.client].isPublic then refusal == Some(MissingUserBinding)
            else
              && refusal.None? && Sha256(issued.access) in after.access
              && after.access[Sha256(issued.access)].user == db.clients[terms.client].owner
  {
  }
}
