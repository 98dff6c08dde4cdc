/**
 The access-token cache in front of the tables (src/oauth/provider.py): what each call may do to the
 tables and to the cache, and how far a cached answer can be from a plain lookup.

 One clock serves the tables and the cache; now_unix is its integer part.
 */
module TokenCache {
  import opened Prelude
  import opened OAuthTables
  import opened OAuthGrants
  import opened TokenOps
  import TtlCache

  const ACCESS_TOKEN_CACHE_TTL := 60
  const CACHE_SIZE: nat := 4096

  /** What load_access_token hands out: the row, with the presented token in place of its hash. */
  datatype AccessToken = AccessToken(token: string, row: AccessRow)

  type Store = TtlCache.Store<Hash, AccessToken>

  datatype World = World(db: Tables, store: Store)

  /** The answer without a cache. */
  function Lookup(db: Tables, token: string): Option<AccessToken> {
    if Sha256(token) in db.access then Some(AccessToken(token, db.access[Sha256(token)])) else None
  }

  /** How long a row is cached; not at all once it has expired. */
  function CacheTtl(row: AccessRow, now: int): Option<int> {
    if row.expiresAt.None? || row.expiresAt.value == 0 then Some(ACCESS_TOKEN_CACHE_TTL)
    else if row.expiresAt.value - now <= 0 then None
    else if row.expiresAt.value - now < ACCESS_TOKEN_CACHE_TTL then Some(row.expiresAt.value - now)
    else Some(ACCESS_TOKEN_CACHE_TTL)
  }

  ghost predicate Loads(before: World, token: string, at: real, after: World, answer: Option<AccessToken>) {
    var h := Sha256(token);
    var hit := TtlCache.Answer(before.store, h, at);
    && after.db == before.db
    && if hit.Some? then answer == hit && after.store == before.store
       else
         && answer == Lookup(before.db, token)
         && if answer.Some? && CacheTtl(answer.value.row, at.Floor).Some? then
              TtlCache.Step(CACHE_SIZE, before.store - {h},
                            TtlCache.Set(h, answer.value, CacheTtl(answer.value.row, at.Floor).value as real, at), after.store)
            else after.store == before.store - {h}
  }

  /** What a write invalidates; the admin and portal routes invalidate nothing. */
  function StoreAfter(db: Tables, store: Store, w: Write, now: int): Store {
    match w
    case ExchangeRefresh(token, client, _) =>
      var h := Sha256(token);
      if CheckRefresh(db.refresh, h, client, now).None? && db.refresh[h].access.Some? then store - {db.refresh[h].access.value}
      else store
    case RevokeToken(token) => store - {Sha256(token)}
    case RevokeClient(_) => map[]
    case RemoveClient(_) => map[]
    case _ => store
  }

  /** An inserted access token has a primary key of its own. */
  predicate Insertable(db: Tables, w: Write) {
    match w
    case ExchangeCode(_, _, _, pair) => Sha256(pair.access) !in db.access
    case ExchangeRefresh(_, _, pair) => Sha256(pair.access) !in db.access
    case LoginPlugin(_, _, token) => Sha256(token) !in db.access
    case _ => true
  }

  datatype Call = Load(token: string, at: real) | Do(write: Write, at: real)

  ghost predicate Transition(before: World, c: Call, after: World, answer: Option<AccessToken>) {
    match c
    case Load(token, at) => Loads(before, token, at, after, answer)
    case Do(w, at) =>
      && Insertable(before.db, w)
      && after == World(Written(before.db, w, at.Floor), StoreAfter(before.db, before.store, w, at.Floor))
  }

  /** `worlds` are the successive states of a process that starts with an empty cache and serves `calls`. */
  ghost predicate Run(worlds: seq<World>, calls: seq<Call>, answers: seq<Option<AccessToken>>) {
    && |worlds| == |calls| + 1 && |answers| == |calls|
    && worlds[0].store == map[]
    && (forall i :: 0 <= i < |calls| ==> Transition(worlds[i], calls[i], worlds[i + 1], answers[i]))
    && (forall i, j :: 0 <= i <= j < |calls| ==> calls[i].at <= calls[j].at)
  }

  // ---------------------------------------------------------------------------------------------
  // Provider operations only
  // ---------------------------------------------------------------------------------------------

  ghost predicate EntryCurrent(w: World, h: Hash)
    requires h in w.store
  {
    h in w.db.access && w.store[h].value == AccessToken(h.token, w.db.access[h])
  }

  /** Every entry, expired or not, equals the current row. */
  ghost predicate Coherent(w: World) {
    forall h :: h in w.store ==> EntryCurrent(w, h)
  }

  predicate ThroughProvider(c: Call) {
    c.Do? ==> !BypassesProvider(c.write)
  }

  lemma LoadKeepsCoherent(before: World, token: string, at: real, after: World, answer: Option<AccessToken>)
    requires Coherent(before) && Loads(before, token, at, after, answer)
    ensures Coherent(after) && answer == Lookup(before.db, token)
  {
    var h := Sha256(token);
    if h in before.store {
      assert EntryCurrent(before, h);
    }
    forall g | g in after.store ensures EntryCurrent(after, g) {
      if g != h || answer.None? || CacheTtl(answer.value.row, at.Floor).None? || TtlCache.Answer(before.store, h, at).Some? {
        assert EntryCurrent(before, g);
      }
    }
  }

  /** An entry that a write leaves in the cache belongs to a row the write leaves alone. */
  lemma WriteKeepsEntry(before: World, w: Write, now: int, h: Hash)
    requires Insertable(before.db, w) && !BypassesProvider(w)
    requires h in StoreAfter(before.db, before.store, w, now) && EntryCurrent(before, h)
    ensures h in Written(before.db, w, now).access && Written(before.db, w, now).access[h] == before.db.access[h]
  {
  }

  lemma WriteKeepsCoherent(before: World, w: Write, now: int)
    requires Coherent(before) && Insertable(before.db, w) && !BypassesProvider(w)
    ensures Coherent(World(Written(before.db, w, now), StoreAfter(before.db, before.store, w, now)))
  {
    var after := World(Written(before.db, w, now), StoreAfter(before.db, before.store, w, now));
    forall h | h in after.store ensures EntryCurrent(after, h) {
      assert EntryCurrent(before, h);
      WriteKeepsEntry(before, w, now, h);
    }
  }

  lemma TransitionKeepsCoherent(before: World, c: Call, after: World, answer: Option<AccessToken>)
    requires Coherent(before) && Transition(before, c, after, answer) && ThroughProvider(c)
    ensures Coherent(after)
    ensures c.Load? ==> answer == Lookup(before.db, c.token)
  {
    match c
    case Load(token, at) => LoadKeepsCoherent(before, token, at, after, answer);
    case Do(w, at) => WriteKeepsCoherent(before, w, at.Floor);
  }

  lemma {:induction false} StaysCoherent(worlds: seq<World>, calls: seq<Call>, answers: seq<Option<AccessToken>>, n: nat)
    requires Run(worlds, calls, answers) && n <= |calls|
    requires forall i :: 0 <= i < n ==> ThroughProvider(calls[i])
    ensures Coherent(worlds[n])
  {
    if n > 0 {
      StaysCoherent(worlds, calls, answers, n - 1);
      TransitionKeepsCoherent(worlds[n - 1], calls[n - 1], worlds[n], answers[n - 1]);
    }
  }

  /** As long as every revocation goes through the provider, a cached load answers exactly what the table says. */
  lemma CachedLoadIsPlainLookup(worlds: seq<World>, calls: seq<Call>, answers: seq<Option<AccessToken>>, i: nat)
    requires Run(worlds, calls, answers) && i < |calls| && calls[i].Load?
    requires forall j :: 0 <= j < i ==> ThroughProvider(calls[j])
    ensures answers[i] == Lookup(worlds[i].db, calls[i].token)
  {
    StaysCoherent(worlds, calls, answers, i);
    TransitionKeepsCoherent(worlds[i], calls[i], worlds[i + 1], answers[i]);
  }

  /** No access, or a revoked one. */
  predicate Dead(answer: Option<AccessToken>) {
    answer.Some? ==> answer.value.row.revoked
  }

  /** The write revokes or removes the access token: by itself, with its client, or by rotation. */
  predicate Kills(db: Tables, w: Write, now: int, token: string) {
    match w
    case RevokeToken(revoked) => revoked == token
    case RevokeClient(client) => Sha256(token) in db.access && db.access[Sha256(token)].client == client
    case RemoveClient(client) => Sha256(token) in db.access && db.access[Sha256(token)].client == client
    case ExchangeRefresh(presented, client, pair) =>
      CheckRefresh(db.refresh, Sha256(presented), client, now).None? && db.refresh[Sha256(presented)].access == Some(Sha256(token))
      && pair.access != token
    case _ => false
  }

  lemma KilledIsDead(db: Tables, w: Write, now: int, token: string)
    requires Kills(db, w, now, token)
    ensures Dead(Lookup(Written(db, w, now), token))
  {
  }

  /** A revocation, rotation or deletion through the provider is visible to the very next load. */
  lemma RevocationVisibleToNextLoad(worlds: seq<World>, calls: seq<Call>, answers: seq<Option<AccessToken>>, i: nat)
    requires Run(worlds, calls, answers) && i + 1 < |calls| && calls[i].Do? && calls[i + 1].Load?
    requires forall j :: 0 <= j <= i ==> ThroughProvider(calls[j])
    requires Kills(worlds[i].db, calls[i].write, calls[i].at.Floor, calls[i + 1].token)
    ensures Dead(answers[i + 1])
  {
    CachedLoadIsPlainLookup(worlds, calls, answers, i + 1);
    assert Transition(worlds[i], calls[i], worlds[i + 1], answers[i]);
    KilledIsDead(worlds[i].db, calls[i].write, calls[i].at.Floor, calls[i + 1].token);
  }

  // ---------------------------------------------------------------------------------------------
  // Revocations that bypass the cache
  // ---------------------------------------------------------------------------------------------

  /** The entry is the row as call j found it, kept for at most the cache's time to live. */
  ghost predicate FetchedAt(worlds: seq<World>, calls: seq<Call>, j: nat, h: Hash, entry: TtlCache.Entry<AccessToken>) {
    && j < |calls| && j < |worlds|
    && Lookup(worlds[j].db, h.token) == Some(entry.value)
    && entry.expiresAt <= calls[j].at + ACCESS_TOKEN_CACHE_TTL as real
  }

  /** A row that expires is not kept for a full second past its expiry. */
  predicate DiesInTime(entry: TtlCache.Entry<AccessToken>) {
    var expiresAt := entry.value.row.expiresAt;
    expiresAt.Some? && expiresAt.value != 0 ==> entry.expiresAt < expiresAt.value as real + 1.0
  }

  lemma WriteStoresNothing(db: Tables, store: Store, w: Write, now: int, h: Hash)
    requires h in StoreAfter(db, store, w, now)
    ensures h in store && StoreAfter(db, store, w, now)[h] == store[h]
  {
  }

  lemma LoadStoresItsRow(before: World, token: string, at: real, after: World, answer: Option<AccessToken>, h: Hash)
    requires Loads(before, token, at, after, answer) && h in after.store
    ensures (h in before.store && after.store[h] == before.store[h])
            || (&& Lookup(before.db, h.token) == Some(after.store[h].value)
                && after.store[h].expiresAt <= at + ACCESS_TOKEN_CACHE_TTL as real
                && DiesInTime(after.store[h]))
  {
  }

  /** A call leaves an entry as it was, or is the load that stores it. */
  lemma EntryOldOrFetched(before: World, c: Call, after: World, answer: Option<AccessToken>, h: Hash)
    requires Transition(before, c, after, answer) && h in after.store
    ensures (h in before.store && after.store[h] == before.store[h])
            || (&& Lookup(before.db, h.token) == Some(after.store[h].value)
                && after.store[h].expiresAt <= c.at + ACCESS_TOKEN_CACHE_TTL as real
                && DiesInTime(after.store[h]))
  {
    match c
    case Load(token, at) => LoadStoresItsRow(before, token, at, after, answer, h);
    case Do(w, at) => WriteStoresNothing(before.db, before.store, w, at.Floor, h);
  }

  lemma {:induction false} EntriesAreFetched(worlds: seq<World>, calls: seq<Call>, answers: seq<Option<AccessToken>>, n: nat, h: Hash)
    requires Run(worlds, calls, answers) && n <= |calls| && h in worlds[n].store
    ensures DiesInTime(worlds[n].store[h])
    ensures exists j :: 0 <= j < n && FetchedAt(worlds, calls, j, h, worlds[n].store[h])
  {
    if n > 0 {
      EntryOldOrFetched(worlds[n - 1], calls[n - 1], worlds[n], answers[n - 1], h);
      if h in worlds[n - 1].store && worlds[n].store[h] == worlds[n - 1].store[h] {
        EntriesAreFetched(worlds, calls, answers, n - 1, h);
      } else {
        assert FetchedAt(worlds, calls, n - 1, h, worlds[n].store[h]);
      }
    }
  }

  /**
   Whatever bypasses the cache, a load answers what the table said at the moment of some call less
   than sixty seconds earlier.
   */
  lemma AnswerIsUnderAMinuteOld(worlds: seq<World>, calls: seq<Call>, answers: seq<Option<AccessToken>>, i: nat)
    requires Run(worlds, calls, answers) && i < |calls| && calls[i].Load?
    ensures exists j :: 0 <= j <= i && answers[i] == Lookup(worlds[j].db, calls[i].token)
                        && calls[i].at - 60.0 < calls[j].at <= calls[i].at
  {
    var h := Sha256(calls[i].token);
    assert Transition(worlds[i], calls[i], worlds[i + 1], answers[i]);
    if TtlCache.Answer(worlds[i].store, h, calls[i].at).Some? {
      EntriesAreFetched(worlds, calls, answers, i, h);
      var j :| 0 <= j < i && FetchedAt(worlds, calls, j, h, worlds[i].store[h]);
      assert answers[i] == Lookup(worlds[j].db, calls[i].token);
    }
  }

  /** An access token that every table state of the last sixty seconds shows revoked is answered as revoked. */
  lemma BypassedRevocationShowsWithinAMinute(worlds: seq<World>, calls: seq<Call>, answers: seq<Option<AccessToken>>, i: nat)
    requires Run(worlds, calls, answers) && i < |calls| && calls[i].Load?
    requires forall j :: 0 <= j <= i && calls[i].at - 60.0 < calls[j].at ==> Dead(Lookup(worlds[j].db, calls[i].token))
    ensures Dead(answers[i])
  {
    AnswerIsUnderAMinuteOld(worlds, calls, answers, i);
  }

  lemma TransitionKeepsSize(before: World, c: Call, after: World, answer: Option<AccessToken>)
    requires Transition(before, c, after, answer) && |before.store| <= 4096
    ensures |after.store| <= 4096
  {
    match c
    case Load(token, at) =>
      var h := Sha256(token);
      SmallerStore(before.store - {h}, before.store);
      if TtlCache.Answer(before.store, h, at).None? && answer.Some? && CacheTtl(answer.value.row, at.Floor).Some? {
        TtlCache.StepKeepsSize(CACHE_SIZE, before.store - {h},
                               TtlCache.Set(h, answer.value, CacheTtl(answer.value.row, at.Floor).value as real, at), after.store);
      }
    case Do(w, at) => SmallerStore(after.store, before.store);
  }

  lemma SmallerStore(a: Store, b: Store)
    requires a.Keys <= b.Keys
    ensures |a| <= |b|
  {
    SubsetSize(a.Keys, b.Keys);
    assert |a.Keys| == |a| && |b.Keys| == |b|;
  }

  /** The cache never holds more than 4096 tokens. */
  lemma {:induction false} CacheStaysBounded(worlds: seq<World>, calls: seq<Call>, answers: seq<Option<AccessToken>>, n: nat)
    requires Run(worlds, calls, answers) && n <= |calls|
    ensures |worlds[n].store| <= 4096
  {
    if n > 0 {
      CacheStaysBounded(worlds, calls, answers, n - 1);
      TransitionKeepsSize(worlds[n - 1], calls[n - 1], worlds[n], answers[n - 1]);
    }
  }
}
