/**
 The provider's token handlers as they run: statements against the tables, one after the other, and
 calls of the module's token cache.  Each method is tied to its effect in TokenOps and TokenCache.
 */
module TokenProvider {
  import opened Prelude
  import opened OAuthTables
  import opened OAuthGrants
  import opened TokenOps
  import opened TokenCache
  import TtlCache

  class Database {
    var clients: Clients
    var codes: Codes
    var access: AccessTokens
    var refresh: RefreshTokens

    constructor (clients: Clients)
      ensures View() == Tables(clients, map[], map[], map[])
    {
      this.clients, codes, access, refresh := clients, map[], map[], map[];
    }

    ghost function View(): Tables
      reads this
    {
      Tables(clients, codes, access, refresh)
    }
  }

  // ---------------------------------------------------------------------------------------------
  // The three ways a lookup past the cache ends
  // ---------------------------------------------------------------------------------------------

  lemma MissedStore(before: World, h: Hash, at: real, after: World)
    requires TtlCache.Step(CACHE_SIZE, before.store, TtlCache.Get(h, at), after.store)
    requires TtlCache.Answer(before.store, h, at).None?
    ensures after.store == before.store - {h}
  {
  }

  lemma MissLoads(before: World, token: string, at: real)
    requires TtlCache.Answer(before.store, Sha256(token), at).None?
    requires Sha256(token) in before.db.access ==> CacheTtl(before.db.access[Sha256(token)], at.Floor).None?
    ensures Loads(before, token, at, World(before.db, before.store - {Sha256(token)}), Lookup(before.db, token))
  {
  }

  lemma StoredLoads(before: World, token: string, at: real, ttl: int, store: Store)
    requires TtlCache.Answer(before.store, Sha256(token), at).None? && Sha256(token) in before.db.access
    requires CacheTtl(before.db.access[Sha256(token)], at.Floor) == Some(ttl)
    requires TtlCache.Step(CACHE_SIZE, before.store - {Sha256(token)},
                           TtlCache.Set(Sha256(token), Lookup(before.db, token).value, ttl as real, at), store)
    ensures Loads(before, token, at, World(before.db, store), Lookup(before.db, token))
  {
  }

  class Provider {
    const db: Database
    const cache: TtlCache.Cache<Hash, AccessToken>

    constructor (db: Database)
      ensures this.db == db && fresh(cache) && cache.maxsize == CACHE_SIZE && cache.store == map[]
    {
      this.db := db;
      cache := new TtlCache.Cache(ACCESS_TOKEN_CACHE_TTL as real, CACHE_SIZE);
    }

    ghost function View(): World
      reads db, cache
    {
      World(db.View(), cache.store)
    }

    method Authorize(session: string, terms: Terms, now: real)
      modifies db
      ensures View() == World(Written(old(db.View()), NewSession(session, terms), now.Floor), old(cache.store))
    {
      db.codes := db.codes[session := SessionRow(terms, now.Floor)];
    }

    method GetPendingSession(session: string, now: real) returns (pending: Option<CodeRow>)
      ensures pending == if session in db.codes && db.codes[session].expiresAt >= now.Floor then Some(db.codes[session]) else None
    {
      if session !in db.codes || db.codes[session].expiresAt < now.Floor {
        return None;
      }
      return Some(db.codes[session]);
    }

    method MarkSessionApproved(session: string, user: Option<string>, code: string, now: real) returns (answer: Result<string, GrantError>)
      modifies db
      ensures View() == World(Written(old(db.View()), ApproveSession(session, user, code), now.Floor), old(cache.store))
      ensures answer == Approve(old(db.View()), session, user, code, now.Floor).1
    {
      if session !in db.codes {
        return Err(NotFound);
      }
      var client := db.codes[session].client;
      var bound := user;
      if user.None? && client in db.clients && !db.clients[client].isPublic {
        bound := db.clients[client].owner;
      }
      var pending := GetPendingSession(session, now);
      if pending.None? {
        return Err(Expired);
      }
      if pending.value.client != client {
        return Err(ClientMismatch);
      }
      var row := db.codes[session];
      db.codes := (db.codes - {session})[code := row.(
        resource := Plain(PendingResource(pending.value)),
        expiresAt := now.Floor + CODE_EXPIRY_SECONDS,
        user := if bound.Some? then bound else row.user)];
      return Ok(code);
    }

    method MarkSessionDenied(session: string)
      modifies db
      ensures View() == World(Written(old(db.View()), DenySession(session), 0), old(cache.store))
    {
      db.codes := db.codes - {session};
    }

    method ExchangeAuthorizationCode(code: string, client: string, verifier: Option<string>, pair: TokenPair, now: real)
      returns (refusal: Option<GrantError>)
      modifies db
      ensures View() == World(Written(old(db.View()), ExchangeCode(code, client, verifier, pair), now.Floor), old(cache.store))
      ensures refusal == Exchange(old(db.View()), code, client, verifier, pair, now.Floor).1
    {
      if code !in db.codes {
        return Some(NotFound);
      }
      var row := db.codes[code];
      if row.client != client {
        return Some(ClientMismatch);
      }
      if row.expiresAt < now.Floor {
        return Some(Expired);
      }
      if !PkcePasses(row.challenge, verifier) {
        return Some(PkceFailed);
      }
      db.codes := db.codes - {code};
      var user := row.user;
      if client in db.clients && db.clients[client].isPublic {
        if !Truthy(user) {
          return Some(MissingUserBinding);
        }
      } else if !Truthy(user) {
        user := if client in db.clients then db.clients[client].owner else None;
      }
      db.access := db.access[
        Sha256(pair.access) := AccessRow(client, user, row.scopes, row.resource, Some(now.Floor + pair.ttl), false)];
      db.refresh := db.refresh[
        Sha256(pair.refresh) := RefreshRow(client, user, row.scopes, Some(Sha256(pair.access)), Some(now.Floor + pair.refreshTtl), false)];
      return None;
    }

    method LoadAccessToken(token: string, now: real) returns (answer: Option<AccessToken>)
      requires cache.maxsize == CACHE_SIZE
      modifies cache
      ensures Loads(old(View()), token, now, View(), answer)
    {
      var hashed := Sha256(token);
      var cached := cache.Get(hashed, now);
      if cached.Some? {
        return cached;
      }
      ghost var missed := View();
      MissedStore(old(View()), hashed, now, missed);
      if hashed !in db.access {
        MissLoads(old(View()), token, now);
        return None;
      }
      var row := db.access[hashed];
      var ttl := ACCESS_TOKEN_CACHE_TTL;
      if row.expiresAt.Some? && row.expiresAt.value != 0 {
        var remaining := row.expiresAt.value - now.Floor;
        if remaining <= 0 {
          MissLoads(old(View()), token, now);
          return Some(AccessToken(token, row));
        }
        ttl := if remaining < ttl then remaining else ttl;
      }
      cache.Set(hashed, AccessToken(token, row), ttl as real, now);
      StoredLoads(old(View()), token, now, ttl, cache.store);
      return Some(AccessToken(token, row));
    }

    method ExchangeRefreshToken(token: string, client: string, pair: TokenPair, now: real) returns (refusal: Option<RefreshError>)
      modifies db, cache
      ensures View() == World(Written(old(db.View()), ExchangeRefresh(token, client, pair), now.Floor),
                              StoreAfter(old(db.View()), old(cache.store), ExchangeRefresh(token, client, pair), now.Floor))
      ensures refusal == Refresh(old(db.View()), token, client, pair, now.Floor).1
    {
      var hashed := Sha256(token);
      if hashed !in db.refresh {
        return Some(RefreshNotFound);
      }
      var row := db.refresh[hashed];
      if row.client != client {
        return Some(RefreshClientMismatch);
      }
      if row.revoked {
        return Some(RefreshRevoked);
      }
      if row.expiresAt.Some? && row.expiresAt.value != 0 && row.expiresAt.value < now.Floor {
        return Some(RefreshExpired);
      }
      db.refresh := db.refresh[hashed := row.(revoked := true)];
      if row.access.Some? {
        cache.Pop(row.access.value);
        db.access := RevokeAccess(db.access, row.access.value);
      }
      var user := row.user;
      if user.None? && client in db.clients {
        user := db.clients[client].owner;
      }
      db.access := db.access[
        Sha256(pair.access) := AccessRow(client, user, row.scopes, Plain(None), Some(now.Floor + pair.ttl), false)];
      db.refresh := db.refresh[
        Sha256(pair.refresh) := RefreshRow(client, user, row.scopes, Some(Sha256(pair.access)), Some(now.Floor + pair.refreshTtl), false)];
      return None;
    }

    method RevokeToken(token: string)
      modifies db, cache
      ensures View() == World(Written(old(db.View()), TokenOps.RevokeToken(token), 0),
                              StoreAfter(old(db.View()), old(cache.store), TokenOps.RevokeToken(token), 0))
    {
      var hashed := Sha256(token);
      cache.Pop(hashed);
      if hashed in db.access {
        db.access := RevokeAccess(db.access, hashed);
        db.refresh := RevokeLinked(db.refresh, hashed);
      } else {
        db.refresh := RevokeRefresh(db.refresh, hashed);
      }
    }

    method RevokeClientTokens(client: string)
      modifies db, cache
      ensures View() == World(Written(old(db.View()), RevokeClient(client), 0),
                              StoreAfter(old(db.View()), old(cache.store), RevokeClient(client), 0))
    {
      cache.Clear();
      db.access := RevokeAccessOf(db.access, client);
      db.refresh := RevokeRefreshOf(db.refresh, client);
    }

    method DeleteClient(client: string)
      modifies db, cache
      ensures View() == World(Written(old(db.View()), RemoveClient(client), 0),
                              StoreAfter(old(db.View()), old(cache.store), RemoveClient(client), 0))
    {
      cache.Clear();
      db.refresh := map h | h in db.refresh && db.refresh[h].client != client :: db.refresh[h];
      db.access := map h | h in db.access && db.access[h].client != client :: db.access[h];
      db.codes := map k | k in db.codes && db.codes[k].client != client :: db.codes[k];
      db.clients := db.clients - {client};
    }
  }

  /** The admin route updates the tables; no cache is in its reach. */
  method RevokeFromAdminRoute(db: Database, hash: Hash)
    modifies db
    ensures db.View() == Written(old(db.View()), RevokeFromAdmin(hash), 0)
  {
    db.access := RevokeAccess(db.access, hash);
    db.refresh := RevokeLinked(db.refresh, hash);
  }

  /** The portal routes: the owner's device is deactivated, its tokens are revoked; false stands for the 404. */
  method RevokeFromPortalRoute(db: Database, client: string, user: string) returns (found: bool)
    modifies db
    ensures db.View() == Written(old(db.View()), RevokeFromPortal(client, user), 0)
    ensures found <==> client in old(db.clients) && old(db.clients)[client].owner == Some(user)
  {
    found := client in db.clients && db.clients[client].owner == Some(user);
    if found {
      db.clients := db.clients[client := db.clients[client].(active := false)];
      db.access := RevokeAccessOf(db.access, client);
      db.refresh := RevokeRefreshOf(db.refresh, client);
    }
  }
}
