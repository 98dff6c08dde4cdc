/**
 When a rotation succeeds, which error it raises otherwise, and what rotations, revocations, deletions
 and loads do to each row and each cache entry: said of the rows themselves.
 */
module TokenOutcomes {
  import opened Prelude
  import opened OAuthTables
  import opened OAuthGrants
  import opened TokenOps
  import opened TokenCache
  import ClaimClient
  import TtlCache

  // ---------------------------------------------------------------------------------------------
  // Rotation
  // ---------------------------------------------------------------------------------------------

  /** An expiry column that does not stop the row: absent, zero, or not before now. */
  predicate NotPast(expiresAt: Option<int>, now: int) {
    expiresAt.None? || expiresAt.value == 0 || now <= expiresAt.value
  }

  /** A refresh token is rotated if and only if it is stored for the caller, unrevoked and not past its expiry. */
  lemma RefreshIff(db: Tables, token: string, client: string, pair: TokenPair, now: int)
    ensures Refresh(db, token, client, pair, now).1.None?
            <==> && Sha256(token) in db.refresh
                 && var row := db.refresh[Sha256(token)];
                    row.client == client && !row.revoked && NotPast(row.expiresAt, now)
  {
  }

  /** The error of every other case, in the order of the checks; none changes a row. */
  lemma RefreshRefusals(db: Tables, token: string, client: string, pair: TokenPair, now: int)
    ensures var (after, refusal) := Refresh(db, token, client, pair, now);
            && (refusal.Some? ==> after == db)
            && (Sha256(token) !in db.refresh ==> refusal == Some(RefreshNotFound))
            && (Sha256(token) in db.refresh ==>
                  var row := db.refresh[Sha256(token)];
                  && (row.client != client ==> refusal == Some(RefreshClientMismatch))
                  && (row.client == client && row.revoked ==> refusal == Some(RefreshRevoked))
                  && (row.client == client && !row.revoked && !NotPast(row.expiresAt, now) ==> refusal == Some(RefreshExpired)))
  {
  }

  /** The user of the new pair: the old token's, or the client's owner for a row without one. */
  ghost predicate Carries(db: Tables, row: RefreshRow, user: Option<string>) {
    if row.user.Some? then user == row.user
    else user == if row.client in db.clients then db.clients[row.client].owner else None
  }

  /** Both new rows, column by column, each for its lifetime from now. */
  lemma RefreshIssues(db: Tables, token: string, client: string, pair: TokenPair, now: int)
    requires Refresh(db, token, client, pair, now).1.None?
    ensures var after := Refresh(db, token, client, pair, now).0;
            var a, r := Sha256(pair.access), Sha256(pair.refresh);
            && Sha256(token) in db.refresh && a in after.access && r in after.refresh
            && var row, access, refresh := db.refresh[Sha256(token)], after.access[a], after.refresh[r];
               && access.client == client == refresh.client && access.scopes == row.scopes == refresh.scopes
               && Carries(db, row, access.user) && refresh.user == access.user
               && access.resource == Plain(None) && refresh.access == Some(a)
               && access.expiresAt == Some(now + pair.ttl) && refresh.expiresAt == Some(now + pair.refreshTtl)
               && !access.revoked && !refresh.revoked
  {
    RefreshIff(db, token, client, pair, now);
  }

  /** Of the old rows, exactly the presented refresh token and the access token it names become revoked. */
  lemma RefreshRevokesOld(db: Tables, token: string, client: string, pair: TokenPair, now: int)
    requires Refresh(db, token, client, pair, now).1.None?
    ensures var after := Refresh(db, token, client, pair, now).0;
            var h, a, r := Sha256(token), Sha256(pair.access), Sha256(pair.refresh);
            && after.clients == db.clients && after.codes == db.codes
            && after.access.Keys == db.access.Keys + {a} && after.refresh.Keys == db.refresh.Keys + {r}
            && h in db.refresh
            && (forall g :: g in db.access && g != a ==>
                  after.access[g] == db.access[g].(revoked := db.access[g].revoked || db.refresh[h].access == Some(g)))
            && (forall g :: g in db.refresh && g != r ==>
                  after.refresh[g] == db.refresh[g].(revoked := db.refresh[g].revoked || g == h))
  {
  }

  // ---------------------------------------------------------------------------------------------
  // Revocation, deletion, the plugin login
  // ---------------------------------------------------------------------------------------------

  /** The same token rows, except that some become revoked: exactly the access rows in `access` and the refresh rows in `refresh`. */
  ghost predicate Revokes(before: Tables, after: Tables, access: set<Hash>, refresh: set<Hash>) {
    && after.codes == before.codes && after.access.Keys == before.access.Keys && after.refresh.Keys == before.refresh.Keys
    && (forall h :: h in before.access ==> after.access[h] == before.access[h].(revoked := before.access[h].revoked || h in access))
    && forall h :: h in before.refresh ==> after.refresh[h] == before.refresh[h].(revoked := before.refresh[h].revoked || h in refresh)
  }

  ghost function AccessOf(db: Tables, client: string): set<Hash> {
    set h | h in db.access && db.access[h].client == client
  }

  ghost function RefreshOf(db: Tables, client: string): set<Hash> {
    set h | h in db.refresh && db.refresh[h].client == client
  }

  ghost function LinkedTo(db: Tables, access: Hash): set<Hash> {
    set h | h in db.refresh && db.refresh[h].access == Some(access)
  }

  /** A stored access token goes with the refresh tokens linked to it; any other text revokes the refresh token it is, if any. */
  lemma RevokeTokenRevokes(db: Tables, token: string, now: int)
    ensures var h, after := Sha256(token), Written(db, RevokeToken(token), now);
            && after.clients == db.clients
            && if h in db.access then Revokes(db, after, {h}, LinkedTo(db, h)) else Revokes(db, after, {}, {h})
  {
  }

  lemma AdminRevokes(db: Tables, h: Hash, now: int)
    ensures var after := Written(db, RevokeFromAdmin(h), now);
            after.clients == db.clients && Revokes(db, after, {h}, LinkedTo(db, h))
  {
  }

  lemma ClientRevokes(db: Tables, client: string, now: int)
    ensures var after := Written(db, RevokeClient(client), now);
            after.clients == db.clients && Revokes(db, after, AccessOf(db, client), RefreshOf(db, client))
  {
  }

  /** Only the owner of a device can revoke it in the portal; the device is then inactive and all its tokens are revoked. */
  lemma PortalRevokes(db: Tables, client: string, user: string, now: int)
    ensures var after := Written(db, RevokeFromPortal(client, user), now);
            if client in db.clients && db.clients[client].owner == Some(user) then
              && after.clients == db.clients[client := db.clients[client].(active := false)]
              && Revokes(db, after, AccessOf(db, client), RefreshOf(db, client))
            else after == db
  {
  }

  /** No row of a deleted client is left in any table, and every other row is. */
  lemma DeletionRemoves(db: Tables, client: string, now: int)
    ensures var after := Written(db, RemoveClient(client), now);
            && (forall c :: c in after.clients <==> c in db.clients && c != client)
            && (forall k :: k in after.codes <==> k in db.codes && db.codes[k].client != client)
            && (forall h :: h in after.access <==> h in db.access && db.access[h].client != client)
            && (forall h :: h in after.refresh <==> h in db.refresh && db.refresh[h].client != client)
            && (forall c :: c in after.clients ==> after.clients[c] == db.clients[c])
            && (forall k :: k in after.codes ==> after.codes[k] == db.codes[k])
            && (forall h :: h in after.access ==> after.access[h] == db.access[h])
            && (forall h :: h in after.refresh ==> after.refresh[h] == db.refresh[h])
  {
  }

  /** The plugin's token: for a device of the user only, with the tool scope, no resource, and no end. */
  lemma LoginInserts(db: Tables, client: string, user: string, token: string, now: int)
    ensures var after := Written(db, LoginPlugin(client, user, token), now);
            && after.clients == db.clients && after.codes == db.codes && after.refresh == db.refresh
            && if client in db.clients && db.clients[client].owner == Some(user) then
                 && after.access.Keys == db.access.Keys + {Sha256(token)}
                 && (forall h :: h in db.access && h != Sha256(token) ==> after.access[h] == db.access[h])
                 && var row := after.access[Sha256(token)];
                    && row.client == client && row.user == Some(user) && row.scopes == ["mcp"]
                    && row.resource == Plain(None) && row.expiresAt == Some(0) && !row.revoked
               else after.access == db.access
  {
  }

  /** A registration adds its row, and a claim changes the client table as the claim does; neither touches a token or a code. */
  lemma ClientWrites(db: Tables, client: string, row: ClientRow, user: string, now: int)
    ensures var after := Written(db, Register(client, row), now);
            && after.codes == db.codes && after.access == db.access && after.refresh == db.refresh
            && after.clients.Keys == db.clients.Keys + {client} && after.clients[client] == row
            && forall c :: c in db.clients && c != client ==> after.clients[c] == db.clients[c]
    ensures var after := Written(db, Claim(client, user), now);
            && after.codes == db.codes && after.access == db.access && after.refresh == db.refresh
            && after.clients == ClaimClient.Claim(db.clients, client, user).0
  {
  }

  /** The writes of sessions, approvals, denials, exchanges and rotations are those of their handlers. */
  lemma SessionWrites(db: Tables, key: string, terms: Terms, user: Option<string>, client: string, verifier: Option<string>, pair: TokenPair, now: int)
    ensures Written(db, NewSession(key, terms), now) == Authorize(db, key, terms, now)
    ensures Written(db, ApproveSession(key, user, pair.access), now) == Approve(db, key, user, pair.access, now).0
    ensures Written(db, DenySession(key), now) == Deny(db, key)
    ensures Written(db, ExchangeCode(key, client, verifier, pair), now) == Exchange(db, key, client, verifier, pair, now).0
    ensures Written(db, ExchangeRefresh(key, client, pair), now) == Refresh(db, key, client, pair, now).0
  {
  }

  // ---------------------------------------------------------------------------------------------
  // The cache
  // ---------------------------------------------------------------------------------------------

  /** The entries a write drops: the rotated pair's access token, the presented token, or all of them. */
  lemma WriteDropsExactly(db: Tables, store: Store, w: Write, now: int, h: Hash)
    ensures var after := StoreAfter(db, store, w, now);
            && (h in after ==> h in store && after[h] == store[h])
            && (h in store && h !in after <==>
                  h in store
                  && match w
                     case ExchangeRefresh(token, client, pair) =>
                       && Refresh(db, token, client, pair, now).1.None?
                       && Sha256(token) in db.refresh && db.refresh[Sha256(token)].access == Some(h)
                     case RevokeToken(token) => h == Sha256(token)
                     case RevokeClient(_) => true
                     case RemoveClient(_) => true
                     case _ => false)
  {
  }

  /** The entry of a row that was found: for sixty seconds, or until its expiry when that comes first; none for one already expired. */
  lemma LoadCaches(before: World, token: string, at: real, after: World, answer: Option<AccessToken>)
    requires Loads(before, token, at, after, answer)
    requires var h := Sha256(token); h !in before.store || before.store[h].expiresAt <= at
    ensures var h := Sha256(token);
            && after.db == before.db
            && (h !in before.db.access ==> answer.None? && h !in after.store)
            && (h in before.db.access ==>
                  var row := before.db.access[h];
                  && answer == Some(AccessToken(token, row))
                  && (row.expiresAt.None? || row.expiresAt.value == 0 ==>
                        h in after.store && after.store[h] == TtlCache.Entry(AccessToken(token, row), at + 60.0))
                  && (row.expiresAt.Some? && row.expiresAt.value != 0 ==>
                        var left := row.expiresAt.value - at.Floor;
                        && (left <= 0 ==> h !in after.store)
                        && (0 < left < 60 ==>
                              h in after.store && after.store[h] == TtlCache.Entry(AccessToken(token, row), at + left as real))
                        && (left >= 60 ==>
                              h in after.store && after.store[h] == TtlCache.Entry(AccessToken(token, row), at + 60.0))))
  {
  }

  /** An unexpired entry is the answer, and nothing changes. */
  lemma LoadHits(before: World, token: string, at: real, after: World, answer: Option<AccessToken>)
    requires Loads(before, token, at, after, answer)
    requires var h := Sha256(token); h in before.store && at < before.store[h].expiresAt
    ensures answer == Some(before.store[Sha256(token)].value) && after == before
  {
  }
}
