/**
 Exactly which loads of TokenCache answer from the cache, and exactly when a load misses a revocation
 that bypassed it.
 */
module TokenStaleness {
  import opened Prelude
  import opened OAuthTables
  import opened OAuthGrants
  import opened TokenOps
  import opened TokenCache
  import TtlCache

  /** Call f is a load that finds nothing unexpired in the cache, and stores the row it reads. */
  ghost predicate Fetches(worlds: seq<World>, calls: seq<Call>, f: nat, token: string) {
    && f < |calls| && f < |worlds| && calls[f].Load? && calls[f].token == token
    && TtlCache.Answer(worlds[f].store, Sha256(token), calls[f].at).None?
    && Lookup(worlds[f].db, token).Some? && CacheTtl(Lookup(worlds[f].db, token).value.row, calls[f].at.Floor).Some?
  }

  /** The moment the entry stored by call f expires. */
  ghost function Until(worlds: seq<World>, calls: seq<Call>, f: nat, token: string): real
    requires Fetches(worlds, calls, f, token)
  {
    calls[f].at + CacheTtl(Lookup(worlds[f].db, token).value.row, calls[f].at.Floor).value as real
  }

  /** The writes that drop the entry of h: those of the provider that revoke, rotate or delete it, or clear the cache. */
  predicate Invalidates(db: Tables, w: Write, now: int, h: Hash) {
    match w
    case ExchangeRefresh(presented, client, _) =>
      CheckRefresh(db.refresh, Sha256(presented), client, now).None? && db.refresh[Sha256(presented)].access == Some(h)
    case RevokeToken(token) => Sha256(token) == h
    case RevokeClient(_) => true
    case RemoveClient(_) => true
    case _ => false
  }

  /** Call j, a load of another token, throws the entry of h out. */
  ghost predicate Evicts(worlds: seq<World>, calls: seq<Call>, j: nat, h: Hash) {
    && j < |calls| && j + 1 < |worlds| && calls[j].Load? && Sha256(calls[j].token) != h
    && h in worlds[j].store && h !in worlds[j + 1].store
  }

  /** Between calls f and n no call invalidates the entry of h or throws it out. */
  ghost predicate Kept(worlds: seq<World>, calls: seq<Call>, f: nat, n: nat, h: Hash) {
    forall j :: f < j < n && j < |calls| && j < |worlds| ==>
      && !Evicts(worlds, calls, j, h)
      && (calls[j].Do? ==> !Invalidates(worlds[j].db, calls[j].write, calls[j].at.Floor, h))
  }

  /** The entry call f stored is still there before call n, and unexpired. */
  ghost predicate StillCached(worlds: seq<World>, calls: seq<Call>, f: nat, n: nat, token: string, now: real) {
    f < n && Fetches(worlds, calls, f, token) && Kept(worlds, calls, f, n, Sha256(token)) && now < Until(worlds, calls, f, token)
  }

  ghost function Stored(worlds: seq<World>, calls: seq<Call>, f: nat, token: string): TtlCache.Entry<AccessToken>
    requires Fetches(worlds, calls, f, token)
  {
    TtlCache.Entry(Lookup(worlds[f].db, token).value, Until(worlds, calls, f, token))
  }

  lemma FetchStores(worlds: seq<World>, calls: seq<Call>, answers: seq<Option<AccessToken>>, f: nat, token: string)
    requires Run(worlds, calls, answers) && Fetches(worlds, calls, f, token)
    ensures Sha256(token) in worlds[f + 1].store
    ensures worlds[f + 1].store[Sha256(token)] == Stored(worlds, calls, f, token)
  {
    assert Transition(worlds[f], calls[f], worlds[f + 1], answers[f]);
  }

  /** A write drops the entries it invalidates, and no others. */
  lemma StoreAfterDrops(db: Tables, store: Store, w: Write, now: int, h: Hash)
    ensures h in StoreAfter(db, store, w, now) <==> h in store && !Invalidates(db, w, now, h)
    ensures h in StoreAfter(db, store, w, now) ==> StoreAfter(db, store, w, now)[h] == store[h]
  {
  }

  /** A load leaves the entries of other tokens as they are, or throws one out. */
  lemma LoadKeepsOthers(before: World, token: string, at: real, after: World, answer: Option<AccessToken>, h: Hash)
    requires Loads(before, token, at, after, answer) && h != Sha256(token)
    ensures h in after.store ==> h in before.store && after.store[h] == before.store[h]
    ensures h in before.store && h !in after.store ==>
              |before.store - {Sha256(token)}| >= CACHE_SIZE && TtlCache.ClosestToExpiry(before.store - {Sha256(token)}, h)
  {
  }

  /** Only a full cache evicts, and then the entry closest to expiry. */
  lemma EvictionNeedsFullCache(worlds: seq<World>, calls: seq<Call>, answers: seq<Option<AccessToken>>, j: nat, h: Hash)
    requires Run(worlds, calls, answers) && Evicts(worlds, calls, j, h)
    ensures var others := worlds[j].store - {Sha256(calls[j].token)};
            |others| >= 4096 && TtlCache.ClosestToExpiry(others, h)
  {
    assert Transition(worlds[j], calls[j], worlds[j + 1], answers[j]);
    LoadKeepsOthers(worlds[j], calls[j].token, calls[j].at, worlds[j + 1], answers[j], h);
  }

  lemma {:induction false} KeptStays(
      worlds: seq<World>, calls: seq<Call>, answers: seq<Option<AccessToken>>, f: nat, n: nat, token: string, now: real)
    requires Run(worlds, calls, answers) && n <= |calls| && StillCached(worlds, calls, f, n, token, now)
    requires forall j :: 0 <= j < n ==> calls[j].at <= now
    ensures Sha256(token) in worlds[n].store && worlds[n].store[Sha256(token)] == Stored(worlds, calls, f, token)
  {
    var h := Sha256(token);
    if n == f + 1 {
      FetchStores(worlds, calls, answers, f, token);
    } else {
      var j := n - 1;
      assert Kept(worlds, calls, f, j, h);
      KeptStays(worlds, calls, answers, f, j, token, now);
      assert Transition(worlds[j], calls[j], worlds[n], answers[j]);
      if calls[j].Do? {
        StoreAfterDrops(worlds[j].db, worlds[j].store, calls[j].write, calls[j].at.Floor, h);
      } else if calls[j].token != token {
        assert Sha256(calls[j].token).token != h.token;
        LoadKeepsOthers(worlds[j], calls[j].token, calls[j].at, worlds[n], answers[j], h);
        assert !Evicts(worlds, calls, j, h);
      }
    }
  }

  lemma {:induction false} EntryWasFetched(
      worlds: seq<World>, calls: seq<Call>, answers: seq<Option<AccessToken>>, n: nat, token: string) returns (f: nat)
    requires Run(worlds, calls, answers) && n <= |calls| && Sha256(token) in worlds[n].store
    ensures f < n && Fetches(worlds, calls, f, token) && Kept(worlds, calls, f, n, Sha256(token))
    ensures worlds[n].store[Sha256(token)] == Stored(worlds, calls, f, token)
  {
    var h := Sha256(token);
    if n == 0 {
      assert false;
    }
    var j := n - 1;
    assert Transition(worlds[j], calls[j], worlds[n], answers[j]);
    if calls[j].Load? && calls[j].token == token && Fetches(worlds, calls, j, token) {
      f := j;
      FetchStores(worlds, calls, answers, j, token);
    } else {
      if calls[j].Do? {
        StoreAfterDrops(worlds[j].db, worlds[j].store, calls[j].write, calls[j].at.Floor, h);
      } else if calls[j].token != token {
        LoadKeepsOthers(worlds[j], calls[j].token, calls[j].at, worlds[n], answers[j], h);
      }
      f := EntryWasFetched(worlds, calls, answers, j, token);
    }
  }

  /**
   A load answers from the cache if and only if some earlier load stored the row, that entry is
   unexpired, and no call in between invalidated it or threw it out; the answer is the row of that load.
   */
  lemma CachedIff(worlds: seq<World>, calls: seq<Call>, answers: seq<Option<AccessToken>>, i: nat)
    requires Run(worlds, calls, answers) && i < |calls| && calls[i].Load?
    ensures var token, now := calls[i].token, calls[i].at;
            && (TtlCache.Answer(worlds[i].store, Sha256(token), now).Some?
                <==> exists f: nat :: StillCached(worlds, calls, f, i, token, now))
            && (forall f: nat :: StillCached(worlds, calls, f, i, token, now) ==> answers[i] == Lookup(worlds[f].db, token))
            && ((forall f: nat :: !StillCached(worlds, calls, f, i, token, now)) ==> answers[i] == Lookup(worlds[i].db, token))
  {
    var token, now := calls[i].token, calls[i].at;
    assert Transition(worlds[i], calls[i], worlds[i + 1], answers[i]);
    forall f: nat | StillCached(worlds, calls, f, i, token, now)
      ensures Sha256(token) in worlds[i].store && worlds[i].store[Sha256(token)] == Stored(worlds, calls, f, token)
    {
      KeptStays(worlds, calls, answers, f, i, token, now);
    }
    if TtlCache.Answer(worlds[i].store, Sha256(token), now).Some? {
      var f := EntryWasFetched(worlds, calls, answers, i, token);
      assert StillCached(worlds, calls, f, i, token, now);
    }
  }

  // ---------------------------------------------------------------------------------------------
  // Revocations that bypass the cache
  // ---------------------------------------------------------------------------------------------

  /** The admin's revocation of this token, or its owner's revocation of the device it belongs to. */
  predicate RevokesPastCache(db: Tables, w: Write, token: string) {
    match w
    case RevokeFromAdmin(hash) => hash == Sha256(token)
    case RevokeFromPortal(client, user) =>
      && client in db.clients && db.clients[client].owner == Some(user)
      && Sha256(token) in db.access && db.access[Sha256(token)].client == client
    case _ => false
  }

  lemma RevokedPastCacheIsDead(db: Tables, w: Write, now: int, token: string)
    requires RevokesPastCache(db, w, token)
    ensures Dead(Lookup(Written(db, w, now), token))
  {
  }

  lemma WriteKeepsDead(db: Tables, w: Write, now: int, token: string)
    requires Dead(Lookup(db, token)) && token !in Generated(w)
    ensures Dead(Lookup(Written(db, w, now), token))
  {
    assert Sha256(token).token == token;
    match w
    case ExchangeCode(_, _, _, _) =>
    case ExchangeRefresh(_, _, _) =>
    case LoginPlugin(_, _, _) =>
    case _ =>
  }

  /** After call r the token is not generated again: generated tokens are new. */
  ghost predicate NotReissued(calls: seq<Call>, r: nat, token: string) {
    forall j :: r < j < |calls| && calls[j].Do? ==> token !in Generated(calls[j].write)
  }

  lemma {:induction false} StaysDead(
      worlds: seq<World>, calls: seq<Call>, answers: seq<Option<AccessToken>>, r: nat, n: nat, token: string)
    requires Run(worlds, calls, answers) && r < n <= |calls| && NotReissued(calls, r, token)
    requires calls[r].Do? && RevokesPastCache(worlds[r].db, calls[r].write, token)
    ensures Dead(Lookup(worlds[n].db, token))
  {
    assert Transition(worlds[n - 1], calls[n - 1], worlds[n], answers[n - 1]);
    if n == r + 1 {
      RevokedPastCacheIsDead(worlds[r].db, calls[r].write, calls[r].at.Floor, token);
    } else {
      StaysDead(worlds, calls, answers, r, n - 1, token);
      if calls[n - 1].Do? {
        WriteKeepsDead(worlds[n - 1].db, calls[n - 1].write, calls[n - 1].at.Floor, token);
      }
    }
  }

  /**
   A load after a revocation by the admin or portal routes answers an unrevoked row if and only if a
   load before the revocation stored it, that entry is unexpired, and no provider write invalidated it
   and no eviction took it since.
   */
  lemma BypassedRevocationMissedIff(worlds: seq<World>, calls: seq<Call>, answers: seq<Option<AccessToken>>, r: nat, i: nat)
    requires Run(worlds, calls, answers) && r < i < |calls| && calls[r].Do? && calls[i].Load?
    requires RevokesPastCache(worlds[r].db, calls[r].write, calls[i].token) && NotReissued(calls, r, calls[i].token)
    ensures var token := calls[i].token;
            !Dead(answers[i])
            <==> exists f: nat :: f < r && StillCached(worlds, calls, f, i, token, calls[i].at) && !Dead(Lookup(worlds[f].db, token))
  {
    var token := calls[i].token;
    CachedIff(worlds, calls, answers, i);
    StaysDead(worlds, calls, answers, r, i, token);
    if !Dead(answers[i]) {
      var f: nat :| StillCached(worlds, calls, f, i, token, calls[i].at);
      if f > r {
        StaysDead(worlds, calls, answers, r, f, token);
      }
      assert f < r && !Dead(Lookup(worlds[f].db, token));
    }
  }

  /** The condition is met in practice: a load just before either route's revocation makes the next one answer the old row. */
  lemma BypassedRevocationCanBeMissed(db: Tables, w: Write, token: string)
    requires RevokesPastCache(db, w, token) && Sha256(token) in db.access && !db.access[Sha256(token)].revoked
    requires var expiresAt := db.access[Sha256(token)].expiresAt; expiresAt.Some? && (expiresAt.value == 0 || expiresAt.value > 2)
    ensures exists worlds: seq<World>, answers: seq<Option<AccessToken>> ::
              && Run(worlds, [Load(token, 0.0), Do(w, 1.0), Load(token, 2.0)], answers)
              && worlds[0].db == db && Dead(Lookup(worlds[2].db, token)) && !Dead(answers[2])
  {
    var h := Sha256(token);
    var found := Lookup(db, token);
    var calls := [Load(token, 0.0), Do(w, 1.0), Load(token, 2.0)];
    assert 0.0.Floor == 0 && 1.0.Floor == 1;
    var ttl := CacheTtl(found.value.row, 0).value as real;
    var empty: Store := map[];
    var cached := empty[h := TtlCache.Entry(found.value, 0.0 + ttl)];
    var revoked := Written(db, w, 1);
    RevokedPastCacheIsDead(db, w, 1, token);
    var worlds := [World(db, empty), World(db, cached), World(revoked, cached), World(revoked, cached)];
    var answers := [found, None, found];
    assert empty - {h} == empty;
    assert Transition(worlds[0], calls[0], worlds[1], answers[0]);
    assert Transition(worlds[1], calls[1], worlds[2], answers[1]);
    assert Transition(worlds[2], calls[2], worlds[3], answers[2]);
    assert Run(worlds, calls, answers);
  }
}
