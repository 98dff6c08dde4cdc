/**
 The per-key TTL cache of src/cache.py.

 The class keeps the dictionary itself.  `Step` says what one call may do to that dictionary, and
 the lemmas compare every run of calls with `Recorded`, an unbounded map that never evicts.
 */
module TtlCache {
  import opened Prelude

  datatype Entry<V> = Entry(value: V, expiresAt: real)

  type Store<K, V> = map<K, Entry<V>>

  /** The calls a cache answers, with the clock reading of the moment they are made. */
  datatype Op<K, V> =
    | Get(key: K, at: real)
    | Set(key: K, value: V, ttl: real, at: real)
    | Pop(key: K, at: real)
    | Clear(at: real)

  /** The unexpired value a store holds for a key. */
  function Answer<K, V>(store: Store<K, V>, key: K, now: real): Option<V> {
    if key in store && store[key].expiresAt > now then Some(store[key].value) else None
  }

  predicate ClosestToExpiry<K, V>(store: Store<K, V>, key: K) {
    key in store && forall k :: k in store ==> store[key].expiresAt <= store[k].expiresAt
  }

  /** What one call may do to the dictionary; ties for the victim of an eviction are left open. */
  ghost predicate Step<K(!new), V>(maxsize: nat, before: Store<K, V>, op: Op<K, V>, after: Store<K, V>) {
    match op
    case Get(key, at) =>
      after == if key in before && before[key].expiresAt <= at then before - {key} else before
    case Set(key, value, ttl, at) =>
      if key in before || |before| < maxsize then
        after == before[key := Entry(value, at + ttl)]
      else
        exists victim :: ClosestToExpiry(before, victim)
                         && after == (before - {victim})[key := Entry(value, at + ttl)]
    case Pop(key, _) => after == before - {key}
    case Clear(_) => after == map[]
  }

  class Cache<K(==,!new), V> {
    const ttl: real
    const maxsize: nat
    var store: Store<K, V>

    constructor (ttl: real, maxsize: nat)
      requires maxsize >= 1
      ensures this.ttl == ttl && this.maxsize == maxsize && store == map[]
    {
      this.ttl, this.maxsize, store := ttl, maxsize, map[];
    }

    method Get(key: K, now: real) returns (answer: Option<V>)
      modifies this
      ensures Step(maxsize, old(store), Op.Get(key, now), store)
      ensures answer == Answer(old(store), key, now) == Answer(store, key, now)
    {
      if key !in store {
        return None;
      }
      var entry := store[key];
      if entry.expiresAt <= now {
        store := store - {key};
        return None;
      }
      return Some(entry.value);
    }

    method Set(key: K, value: V, ttl: real, now: real)
      requires maxsize >= 1
      modifies this
      ensures Step(maxsize, old(store), Op.Set(key, value, ttl, now), store)
      ensures key in store && store[key] == Entry(value, now + ttl)
      ensures forall k :: k in store && k != key ==> k in old(store) && store[k] == old(store)[k]
    {
      if key !in store && |store| >= maxsize {
        var oldest := Oldest();
        store := store - {oldest};
      }
      store := store[key := Entry(value, now + ttl)];
    }

    /** The linear scan for the entry closest to expiry. */
    method Oldest() returns (oldest: K)
      requires |store| > 0
      ensures ClosestToExpiry(store, oldest)
    {
      var rest := store.Keys;
      assert rest != {};
      oldest :| oldest in rest;
      rest := rest - {oldest};
      while rest != {}
        invariant oldest in store && rest <= store.Keys
        invariant forall k :: k in store && k !in rest ==> store[oldest].expiresAt <= store[k].expiresAt
        decreases |rest|
      {
        var k :| k in rest;
        if store[k].expiresAt < store[oldest].expiresAt {
          oldest := k;
        }
        rest := rest - {k};
      }
    }

    method Pop(key: K)
      modifies this
      ensures forall at :: Step(maxsize, old(store), Op.Pop(key, at), store)
      ensures store == old(store) - {key}
    {
      store := store - {key};
    }

    method Clear()
      modifies this
      ensures store == map[]
    {
      store := map[];
    }
  }

  // ---------------------------------------------------------------------------------------------
  // Every run of calls
  // ---------------------------------------------------------------------------------------------

  /** The unbounded timed map: what a cache of infinite size would hold after the calls `ops`. */
  function Recorded<K, V>(ops: seq<Op<K, V>>): Store<K, V> {
    if ops == [] then map[]
    else
      var before := Recorded(ops[..|ops| - 1]);
      match ops[|ops| - 1]
      case Get(_, _) => before
      case Set(key, value, ttl, at) => before[key := Entry(value, at + ttl)]
      case Pop(key, _) => before - {key}
      case Clear(_) => map[]
  }

  /** `stores` are the successive dictionaries of a cache that starts empty and answers `ops`. */
  ghost predicate Run<K(!new), V>(maxsize: nat, stores: seq<Store<K, V>>, ops: seq<Op<K, V>>) {
    && |stores| == |ops| + 1
    && stores[0] == map[]
    && (forall i :: 0 <= i < |ops| ==> Step(maxsize, stores[i], ops[i], stores[i + 1]))
    && (forall i, j :: 0 <= i <= j < |ops| ==> ops[i].at <= ops[j].at)
  }

  lemma RunPrefix<K(!new), V>(maxsize: nat, stores: seq<Store<K, V>>, ops: seq<Op<K, V>>)
    requires Run(maxsize, stores, ops) && ops != []
    ensures Run(maxsize, stores[..|ops|], ops[..|ops| - 1])
  {
  }

  lemma StepKeepsSize<K(!new), V>(maxsize: nat, before: Store<K, V>, op: Op<K, V>, after: Store<K, V>)
    requires maxsize >= 1 && |before| <= maxsize && Step(maxsize, before, op, after)
    ensures |after| <= maxsize
  {
    match op
    case Get(key, at) => assert after.Keys <= before.Keys; SubsetSize(after.Keys, before.Keys);
    case Pop(key, _) => assert after.Keys <= before.Keys; SubsetSize(after.Keys, before.Keys);
    case Clear(_) =>
    case Set(key, value, ttl, at) =>
      if key in before {
        assert after.Keys == before.Keys;
        SubsetSize(after.Keys, before.Keys);
      } else if |before| < maxsize {
        assert after.Keys == before.Keys + {key};
      } else {
        var victim :| ClosestToExpiry(before, victim)
                      && after == (before - {victim})[key := Entry(value, at + ttl)];
        assert after.Keys == before.Keys - {victim} + {key};
        assert |after.Keys| == |before.Keys|;
      }
  }

  /** The bounded cache never outgrows maxsize and never disagrees with the unbounded map. */
  lemma {:induction false} CacheRefinesTimedMap<K(!new), V>(maxsize: nat, stores: seq<Store<K, V>>, ops: seq<Op<K, V>>)
    requires maxsize >= 1 && Run(maxsize, stores, ops)
    ensures |stores[|ops|]| <= maxsize
    ensures forall k :: k in stores[|ops|] ==> k in Recorded(ops) && stores[|ops|][k] == Recorded(ops)[k]
    decreases |ops|
  {
    if ops != [] {
      var n := |ops|;
      RunPrefix(maxsize, stores, ops);
      CacheRefinesTimedMap(maxsize, stores[..n], ops[..n - 1]);
      assert Step(maxsize, stores[n - 1], ops[n - 1], stores[n]);
      StepKeepsSize(maxsize, stores[n - 1], ops[n - 1], stores[n]);
    }
  }

  /** A hit is the value of the latest set that no pop or clear has undone, and it is unexpired. */
  lemma HitIsLatestSet<K(!new), V>(maxsize: nat, stores: seq<Store<K, V>>, ops: seq<Op<K, V>>, key: K, now: real)
    requires maxsize >= 1 && Run(maxsize, stores, ops)
    ensures Answer(stores[|ops|], key, now).Some?
            ==> Answer(stores[|ops|], key, now) == Answer(Recorded(ops), key, now)
  {
    CacheRefinesTimedMap(maxsize, stores, ops);
  }

  /** Setting a key that is present evicts nothing. */
  lemma ResetEvictsNothing<K(!new), V>(maxsize: nat, before: Store<K, V>, key: K, value: V, ttl: real, at: real, after: Store<K, V>)
    requires key in before && Step(maxsize, before, Op.Set(key, value, ttl, at), after)
    ensures after.Keys == before.Keys
    ensures forall k :: k in before && k != key ==> after[k] == before[k]
  {
  }

  /** Call `i` of the run threw out the entry of `key` while every one of the maxsize entries was unexpired. */
  ghost predicate EvictedWhileFull<K(!new), V>(
      maxsize: nat, stores: seq<Store<K, V>>, ops: seq<Op<K, V>>, i: nat, key: K, entry: Entry<V>)
    requires |stores| == |ops| + 1
  {
    && i < |ops|
    && ops[i].Set? && ops[i].key != key
    && key in stores[i] && stores[i][key] == entry && key !in stores[i + 1]
    && |stores[i]| == maxsize
    && forall k :: k in stores[i] ==> stores[i][k].expiresAt > ops[i].at
  }

  /** An unexpired entry of the unbounded map is missing only if it was evicted from a cache full of unexpired entries. */
  lemma {:induction false} MissOnlyByFullEviction<K(!new), V>(
      maxsize: nat, stores: seq<Store<K, V>>, ops: seq<Op<K, V>>, key: K)
    requires maxsize >= 1 && Run(maxsize, stores, ops)
    requires key in Recorded(ops) && key !in stores[|ops|]
    requires forall i :: 0 <= i < |ops| ==> ops[i].at < Recorded(ops)[key].expiresAt
    ensures exists i :: EvictedWhileFull(maxsize, stores, ops, i, key, Recorded(ops)[key])
    decreases |ops|
  {
    var n := |ops|;
    var prefix := ops[..n - 1];
    RunPrefix(maxsize, stores, ops);
    CacheRefinesTimedMap(maxsize, stores[..n], prefix);
    assert Step(maxsize, stores[n - 1], ops[n - 1], stores[n]);
    assert Recorded(prefix)[key] == Recorded(ops)[key];
    if key in stores[n - 1] {
      assert EvictedWhileFull(maxsize, stores, ops, n - 1, key, Recorded(ops)[key]);
    } else {
      MissOnlyByFullEviction(maxsize, stores[..n], prefix, key);
      var i :| EvictedWhileFull(maxsize, stores[..n], prefix, i, key, Recorded(prefix)[key]);
      assert EvictedWhileFull(maxsize, stores, ops, i, key, Recorded(ops)[key]);
    }
  }

  // ---------------------------------------------------------------------------------------------
  // One call after another
  // ---------------------------------------------------------------------------------------------

  /** What was set is answered until its time to live has passed, and not from that moment on. */
  lemma SetIsAnsweredForItsTtl<K(!new), V>(maxsize: nat, before: Store<K, V>, key: K, value: V, ttl: real, at: real, after: Store<K, V>, later: real)
    requires Step(maxsize, before, Op.Set(key, value, ttl, at), after)
    ensures later < at + ttl ==> Answer(after, key, later) == Some(value)
    ensures later >= at + ttl ==> Answer(after, key, later).None?
  {
  }

  /** A get drops the entry it finds expired, and nothing else. */
  lemma GetDropsExpired<K(!new), V>(maxsize: nat, before: Store<K, V>, key: K, at: real, after: Store<K, V>)
    requires Step(maxsize, before, Op.Get(key, at), after)
    ensures key in after <==> key in before && at < before[key].expiresAt
    ensures forall k :: k != key ==> (k in after <==> k in before)
    ensures forall k :: k in after ==> after[k] == before[k]
  {
  }

  /** A set of a new key in a full store throws out one entry, which no other expires before; every other set throws out none. */
  lemma SetEvictsOnlyWhenFull<K(!new), V>(maxsize: nat, before: Store<K, V>, key: K, value: V, ttl: real, at: real, after: Store<K, V>)
    requires Step(maxsize, before, Op.Set(key, value, ttl, at), after)
    ensures key in before || |before| < maxsize ==> forall k :: k in before && k != key ==> k in after && after[k] == before[k]
    ensures key !in before && |before| >= maxsize ==>
              exists victim :: && victim in before && victim !in after
                               && (forall k :: k in before ==> before[victim].expiresAt <= before[k].expiresAt)
                               && (forall k :: k in before && k != victim ==> k in after && after[k] == before[k])
  {
    if key !in before && |before| >= maxsize {
      var victim :| ClosestToExpiry(before, victim) && after == (before - {victim})[key := Entry(value, at + ttl)];
      assert victim in before && victim !in after;
    }
  }

  /** A pop removes its key and a clear removes all. */
  lemma PopAndClearRemove<K(!new), V>(maxsize: nat, before: Store<K, V>, key: K, at: real, after: Store<K, V>)
    ensures Step(maxsize, before, Op.Pop(key, at), after) ==>
              (forall k :: k in after <==> k in before && k != key) && forall k :: k in after ==> after[k] == before[k]
    ensures Step(maxsize, before, Op.Clear(at), after) ==> after == map[]
  {
  }

  lemma {:induction false} SomeoneExpiresFirst<K(!new), V>(store: Store<K, V>) returns (first: K)
    requires store != map[]
    ensures first in store && forall k :: k in store ==> store[first].expiresAt <= store[k].expiresAt
    decreases |store|
  {
    assert store.Keys != {};
    first :| first in store;
    var rest := store - {first};
    assert rest.Keys == store.Keys - {first};
    assert forall k :: k in store ==> k == first || k in rest;
    if rest != map[] {
      var other := SomeoneExpiresFirst(rest);
      if store[other].expiresAt < store[first].expiresAt {
        first := other;
      }
    }
  }

  /** Every call goes through: a full store that is not empty has an entry to throw out. */
  lemma EveryCallGoesThrough<K(!new), V>(maxsize: nat, before: Store<K, V>, op: Op<K, V>)
    requires maxsize >= 1
    ensures exists after :: Step(maxsize, before, op, after)
  {
    match op
    case Get(key, at) =>
      assert Step(maxsize, before, op, if key in before && before[key].expiresAt <= at then before - {key} else before);
    case Set(key, value, ttl, at) =>
      if key in before || |before| < maxsize {
        assert Step(maxsize, before, op, before[key := Entry(value, at + ttl)]);
      } else {
        assert before.Keys != {};
        var victim := SomeoneExpiresFirst(before);
        assert ClosestToExpiry(before, victim);
        assert Step(maxsize, before, op, (before - {victim})[key := Entry(value, at + ttl)]);
      }
    case Pop(key, _) => assert Step(maxsize, before, op, before - {key});
    case Clear(_) => assert Step(maxsize, before, op, map[]);
  }
}
