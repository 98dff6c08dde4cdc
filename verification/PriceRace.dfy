/**
 One cached price lookup of src/gateway/billing.py at the granularity of its calls: the cache's get, the
 select, and the cache's set, with cost-model writes of src/admin/cost_model.py, each followed by its
 clearing of the caches, anywhere in between.

 All four lookups have this form; the value of a key is what a read of the tables gives for it, fallback
 included.  The history part of the state says which table contents an entry comes from.
 */
module PriceRace {
  import opened Prelude
  import opened TtlCache

  /** Where a value comes from: the version of the tables it was selected from, and when it was selected and set. */
  datatype Source = Source(version: nat, readAt: real, setVersion: nat, setAt: real)

  datatype Pc<V> =
    | Ask
    | Select
    | Put(value: V, version: nat, readAt: real)
    | Answered(value: V, source: Source, at: real)

  datatype Lookup<V> = Lookup(key: string, pc: Pc<V>)

  datatype State<V> = State(
    now: real,
    store: Store<string, V>,
    lookups: map<nat, Lookup<V>>,
    pending: set<nat>,              // write handlers that have written and not yet cleared
    tables: seq<string -> V>,       // history: all contents the tables have had, the present ones last
    writtenAt: seq<real>,           // history: since when
    sources: map<string, Source>    // history: where the entry of each key comes from
  )

  datatype Event<V> =
    | Tick(seconds: real)
    | Begin(n: nat, key: string)
    | RunGet(n: nat)
    | RunSelect(n: nat)
    | RunSet(n: nat, store: Store<string, V>)     // the store the set leaves, with the victim it chose
    | Write(handler: nat, table: string -> V)
    | Invalidate(handler: nat)

  ghost predicate Enabled<V(!new)>(maxsize: nat, ttl: real, s: State<V>, e: Event<V>) {
    match e
    case Tick(seconds) => seconds >= 0.0
    case Begin(n, _) => n !in s.lookups
    case RunGet(n) => n in s.lookups && s.lookups[n].pc.Ask?
    case RunSelect(n) => n in s.lookups && s.lookups[n].pc.Select? && s.tables != []
    case RunSet(n, store) =>
      && n in s.lookups && s.lookups[n].pc.Put? && s.tables != []
      && TtlCache.Step(maxsize, s.store, TtlCache.Set(s.lookups[n].key, s.lookups[n].pc.value, ttl, s.now), store)
    case Write(_, _) => true
    case Invalidate(handler) => handler in s.pending
  }

  function Goto<V>(s: State<V>, n: nat, pc: Pc<V>): State<V>
    requires n in s.lookups
  {
    s.(lookups := s.lookups[n := s.lookups[n].(pc := pc)])
  }

  function SourceOf<V>(s: State<V>, key: string): Source {
    if key in s.sources then s.sources[key] else Source(0, 0.0, 0, 0.0)
  }

  /** The store after a get: an expired entry is dropped. */
  function Asked<V>(s: State<V>, key: string): Store<string, V> {
    if key in s.store && s.store[key].expiresAt <= s.now then s.store - {key} else s.store
  }

  ghost function Apply<V(!new)>(maxsize: nat, ttl: real, s: State<V>, e: Event<V>): State<V>
    requires Enabled(maxsize, ttl, s, e)
  {
    match e
    case Tick(seconds) => s.(now := s.now + seconds)
    case Begin(n, key) => s.(lookups := s.lookups[n := Lookup(key, Ask)])
    case RunGet(n) =>
      var key := s.lookups[n].key;
      var hit := Answer(s.store, key, s.now);
      Goto(s, n, if hit.Some? then Answered(hit.value, SourceOf(s, key), s.now) else Select).(store := Asked(s, key))
    case RunSelect(n) =>
      var version := |s.tables| - 1;
      Goto(s, n, Put(s.tables[version](s.lookups[n].key), version, s.now))
    case RunSet(n, store) =>
      var l := s.lookups[n];
      var source := Source(l.pc.version, l.pc.readAt, |s.tables| - 1, s.now);
      Goto(s, n, Answered(l.pc.value, source, s.now)).(store := store, sources := s.sources[l.key := source])
    case Write(handler, table) =>
      s.(tables := s.tables + [table], writtenAt := s.writtenAt + [s.now], pending := s.pending + {handler})
    case Invalidate(handler) => s.(store := map[], pending := s.pending - {handler})
  }

  ghost function Step<V(!new)>(maxsize: nat, ttl: real, s: State<V>, e: Event<V>): State<V> {
    if Enabled(maxsize, ttl, s, e) then Apply(maxsize, ttl, s, e) else s
  }

  ghost function Run<V(!new)>(maxsize: nat, ttl: real, s: State<V>, events: seq<Event<V>>): State<V> {
    if |events| == 0 then s
    else Step(maxsize, ttl, Run(maxsize, ttl, s, events[..|events| - 1]), events[|events| - 1])
  }

  /** An empty cache in front of some tables. */
  function Start<V>(table: string -> V): State<V> {
    State(0.0, map[], map[], {}, [table], [0.0], map[])
  }

  // ---------------------------------------------------------------------------------------------
  // The invariant
  // ---------------------------------------------------------------------------------------------

  /** Read from version v at that moment: not before v was written, and not after the next version was. */
  ghost predicate ReadFits<V>(s: State<V>, v: nat, readAt: real) {
    && v < |s.tables| == |s.writtenAt| && s.writtenAt[v] <= readAt <= s.now
    && forall w :: v < w < |s.writtenAt| ==> readAt <= s.writtenAt[w]
  }

  ghost predicate SourceFits<V>(s: State<V>, key: string, value: V, source: Source) {
    && ReadFits(s, source.version, source.readAt) && s.tables[source.version](key) == value
    && source.version <= source.setVersion < |s.tables| && source.readAt <= source.setAt <= s.now
  }

  ghost predicate EntryFits<V>(ttl: real, s: State<V>, key: string)
    requires key in s.store
  {
    && key in s.sources && SourceFits(s, key, s.store[key].value, s.sources[key])
    && s.store[key].expiresAt == s.sources[key].setAt + ttl
    && (s.sources[key].setVersion < |s.tables| - 1 ==> s.pending != {})
  }

  ghost predicate LookupFits<V>(ttl: real, s: State<V>, l: Lookup<V>) {
    && (l.pc.Put? ==> ReadFits(s, l.pc.version, l.pc.readAt) && s.tables[l.pc.version](l.key) == l.pc.value)
    && (l.pc.Answered? ==>
          && SourceFits(s, l.key, l.pc.value, l.pc.source) && l.pc.source.setAt <= l.pc.at <= s.now
          && (l.pc.at < l.pc.source.setAt + ttl || l.pc.at == l.pc.source.setAt))
  }

  ghost predicate Inv<V(!new)>(ttl: real, s: State<V>) {
    && |s.tables| == |s.writtenAt| > 0
    && (forall v :: 0 <= v < |s.writtenAt| ==> s.writtenAt[v] <= s.now)
    && (forall k :: k in s.store ==> EntryFits(ttl, s, k))
    && (forall n :: n in s.lookups ==> LookupFits(ttl, s, s.lookups[n]))
  }

  lemma SetKeepsEntry<V(!new)>(maxsize: nat, ttl: real, s: State<V>, n: nat, store: Store<string, V>, k: string)
    requires Inv(ttl, s) && Enabled(maxsize, ttl, s, RunSet(n, store)) && k in store
    ensures EntryFits(ttl, Apply(maxsize, ttl, s, RunSet(n, store)), k)
  {
    assert LookupFits(ttl, s, s.lookups[n]);
    if k != s.lookups[n].key {
      assert EntryFits(ttl, s, k);
    }
  }

  lemma StepKeepsEntry<V(!new)>(maxsize: nat, ttl: real, s: State<V>, e: Event<V>, k: string)
    requires Inv(ttl, s) && Enabled(maxsize, ttl, s, e) && k in Apply(maxsize, ttl, s, e).store
    ensures EntryFits(ttl, Apply(maxsize, ttl, s, e), k)
  {
    if e.RunSet? {
      SetKeepsEntry(maxsize, ttl, s, e.n, e.store, k);
    } else {
      assert EntryFits(ttl, s, k);
    }
  }

  /** An answer or a value about to be set stays what it was, as time passes and tables are written. */
  lemma OtherKeepsLookup<V(!new)>(maxsize: nat, ttl: real, s: State<V>, e: Event<V>, n: nat)
    requires Inv(ttl, s) && Enabled(maxsize, ttl, s, e) && n in s.lookups
    requires Apply(maxsize, ttl, s, e).lookups[n] == s.lookups[n]
    ensures LookupFits(ttl, Apply(maxsize, ttl, s, e), s.lookups[n])
  {
    assert LookupFits(ttl, s, s.lookups[n]);
  }

  lemma MovedLookupFits<V(!new)>(maxsize: nat, ttl: real, s: State<V>, e: Event<V>, n: nat)
    requires Inv(ttl, s) && Enabled(maxsize, ttl, s, e) && n in s.lookups && (e.RunGet? || e.RunSelect? || e.RunSet?) && e.n == n
    ensures LookupFits(ttl, Apply(maxsize, ttl, s, e), Apply(maxsize, ttl, s, e).lookups[n])
  {
    assert LookupFits(ttl, s, s.lookups[n]);
    if e.RunGet? && s.lookups[n].key in s.store {
      assert EntryFits(ttl, s, s.lookups[n].key);
    }
  }

  lemma StepKeepsLookup<V(!new)>(maxsize: nat, ttl: real, s: State<V>, e: Event<V>, n: nat)
    requires Inv(ttl, s) && Enabled(maxsize, ttl, s, e) && n in Apply(maxsize, ttl, s, e).lookups
    ensures LookupFits(ttl, Apply(maxsize, ttl, s, e), Apply(maxsize, ttl, s, e).lookups[n])
  {
    if (e.RunGet? || e.RunSelect? || e.RunSet?) && e.n == n {
      MovedLookupFits(maxsize, ttl, s, e, n);
    } else if n in s.lookups {
      OtherKeepsLookup(maxsize, ttl, s, e, n);
    }
  }

  /** Every interleaving of lookups, writes and invalidations keeps track of where each value comes from. */
  lemma {:induction false} RunKeepsInv<V(!new)>(maxsize: nat, ttl: real, table: string -> V, events: seq<Event<V>>)
    ensures Inv(ttl, Run(maxsize, ttl, Start(table), events))
  {
    if |events| > 0 {
      var s, e := Run(maxsize, ttl, Start(table), events[..|events| - 1]), events[|events| - 1];
      RunKeepsInv(maxsize, ttl, table, events[..|events| - 1]);
      if Enabled(maxsize, ttl, s, e) {
        var t := Apply(maxsize, ttl, s, e);
        forall k | k in t.store ensures EntryFits(ttl, t, k) {
          StepKeepsEntry(maxsize, ttl, s, e, k);
        }
        forall n | n in t.lookups ensures LookupFits(ttl, t, t.lookups[n]) {
          StepKeepsLookup(maxsize, ttl, s, e, n);
        }
      }
    }
  }

  // ---------------------------------------------------------------------------------------------
  // How old an answer can be
  // ---------------------------------------------------------------------------------------------

  /**
   Every answer is what the tables held for its key at the moment of some select, and the set that
   followed that select was made in the answering call itself or less than the time to live before.
   */
  lemma AnswerWasRead<V(!new)>(maxsize: nat, ttl: real, table: string -> V, events: seq<Event<V>>, n: nat)
    requires var t := Run(maxsize, ttl, Start(table), events); n in t.lookups && t.lookups[n].pc.Answered?
    ensures var t := Run(maxsize, ttl, Start(table), events);
            var l := t.lookups[n];
            var source := l.pc.source;
            && ReadFits(t, source.version, source.readAt) && l.pc.value == t.tables[source.version](l.key)
            && source.readAt <= source.setAt <= l.pc.at
            && (l.pc.at == source.setAt || l.pc.at < source.setAt + ttl)
  {
    RunKeepsInv(maxsize, ttl, table, events);
    var t := Run(maxsize, ttl, Start(table), events);
    assert LookupFits(ttl, t, t.lookups[n]);
  }

  /**
   An answer that misses a write comes less than the time to live after it, plus the time one lookup
   took between its select and its set; and that lookup had selected before the write.
   */
  lemma MissedWriteIsRecent<V(!new)>(maxsize: nat, ttl: real, table: string -> V, events: seq<Event<V>>, n: nat, w: nat)
    requires ttl > 0.0
    requires var t := Run(maxsize, ttl, Start(table), events);
             n in t.lookups && t.lookups[n].pc.Answered? && t.lookups[n].pc.source.version < w < |t.writtenAt|
    ensures var t := Run(maxsize, ttl, Start(table), events);
            var source := t.lookups[n].pc.source;
            && source.readAt <= t.writtenAt[w]
            && t.lookups[n].pc.at < t.writtenAt[w] + (source.setAt - source.readAt) + ttl
  {
    AnswerWasRead(maxsize, ttl, table, events, n);
  }

  // ---------------------------------------------------------------------------------------------
  // What an invalidation leaves
  // ---------------------------------------------------------------------------------------------

  /** The tables have been written since the entry's value was selected. */
  predicate Outdated<V>(s: State<V>, k: string) {
    k in s.store && k in s.sources && s.sources[k].version < |s.tables| - 1
  }

  /** The entry is what the tables say now. */
  ghost predicate Current<V>(s: State<V>, k: string) {
    k in s.store && |s.tables| > 0 && s.store[k].value == s.tables[|s.tables| - 1](k)
  }

  /** A write fell between the select of the entry's value and its set. */
  predicate SetLate<V>(s: State<V>, k: string) {
    k in s.store && k in s.sources && s.sources[k].version < s.sources[k].setVersion
  }

  lemma OutdatedByInv<V(!new)>(ttl: real, s: State<V>, k: string)
    requires Inv(ttl, s) && s.pending == {} && k in s.store
    ensures Outdated(s, k) <==> SetLate(s, k)
    ensures !Outdated(s, k) ==> Current(s, k)
  {
    assert EntryFits(ttl, s, k);
  }

  /**
   Once every write handler has cleared the caches, an entry is outdated if and only if a write fell
   between the select and the set of the lookup that stored it.
   */
  lemma OutdatedIffSetLate<V(!new)>(maxsize: nat, ttl: real, table: string -> V, events: seq<Event<V>>, k: string)
    requires var t := Run(maxsize, ttl, Start(table), events); t.pending == {} && k in t.store
    ensures var t := Run(maxsize, ttl, Start(table), events);
            && (Outdated(t, k) <==> SetLate(t, k))
            && (!Outdated(t, k) ==> Current(t, k))
  {
    RunKeepsInv(maxsize, ttl, table, events);
    OutdatedByInv(ttl, Run(maxsize, ttl, Start(table), events), k);
  }

  /** A write while no lookup is between its select and its set. */
  predicate Apart<V>(s: State<V>, e: Event<V>) {
    e.Write? ==> forall n :: n in s.lookups ==> !s.lookups[n].pc.Put?
  }

  ghost predicate WritesApart<V(!new)>(maxsize: nat, ttl: real, s: State<V>, events: seq<Event<V>>) {
    |events| > 0 ==>
      var before := events[..|events| - 1];
      WritesApart(maxsize, ttl, s, before) && Apart(Run(maxsize, ttl, s, before), events[|events| - 1])
  }

  /** What is about to be set is current, and nothing was set late. */
  ghost predicate NoneLate<V>(s: State<V>) {
    && (forall n :: n in s.lookups && s.lookups[n].pc.Put? ==> s.lookups[n].pc.version == |s.tables| - 1)
    && forall k :: k in s.store ==> !SetLate(s, k)
  }

  lemma StepKeepsNoneLate<V(!new)>(maxsize: nat, ttl: real, s: State<V>, e: Event<V>)
    requires NoneLate(s) && Apart(s, e) && |s.tables| > 0
    ensures NoneLate(Step(maxsize, ttl, s, e))
  {
    if Enabled(maxsize, ttl, s, e) {
      var t := Apply(maxsize, ttl, s, e);
      forall k | k in t.store ensures !SetLate(t, k) {
        assert k in s.store ==> !SetLate(s, k);
      }
    }
  }

  lemma {:induction false} RunKeepsNoneLate<V(!new)>(maxsize: nat, ttl: real, table: string -> V, events: seq<Event<V>>)
    requires WritesApart(maxsize, ttl, Start(table), events)
    ensures NoneLate(Run(maxsize, ttl, Start(table), events))
  {
    if |events| > 0 {
      var before := events[..|events| - 1];
      RunKeepsNoneLate(maxsize, ttl, table, before);
      RunKeepsInv(maxsize, ttl, table, before);
      StepKeepsNoneLate(maxsize, ttl, Run(maxsize, ttl, Start(table), before), events[|events| - 1]);
    }
  }

  /** Where no write falls between a lookup's select and its set, the cache agrees with the tables whenever no handler is at work. */
  lemma ApartWritesStayCoherent<V(!new)>(maxsize: nat, ttl: real, table: string -> V, events: seq<Event<V>>, k: string)
    requires WritesApart(maxsize, ttl, Start(table), events)
    requires var t := Run(maxsize, ttl, Start(table), events); t.pending == {} && k in t.store
    ensures Current(Run(maxsize, ttl, Start(table), events), k)
  {
    RunKeepsNoneLate(maxsize, ttl, table, events);
    OutdatedIffSetLate(maxsize, ttl, table, events, k);
  }

  // ---------------------------------------------------------------------------------------------
  // A lookup that runs undisturbed
  // ---------------------------------------------------------------------------------------------

  lemma RunTwo<V(!new)>(maxsize: nat, ttl: real, s: State<V>, events: seq<Event<V>>, i: nat)
    requires i + 2 <= |events|
    ensures Run(maxsize, ttl, s, events[..i + 2])
            == Step(maxsize, ttl, Step(maxsize, ttl, Run(maxsize, ttl, s, events[..i]), events[i]), events[i + 1])
  {
    assert events[..i + 2][..i + 1] == events[..i + 1];
    assert events[..i + 1][..i] == events[..i];
  }

  function LookupEvents<V>(n: nat, key: string, store: Store<string, V>): seq<Event<V>> {
    [Begin(n, key), RunGet(n), RunSelect(n), RunSet(n, store)]
  }

  lemma UndisturbedGet<V(!new)>(maxsize: nat, ttl: real, s: State<V>, n: nat, key: string, store: Store<string, V>)
    requires n !in s.lookups
    ensures var hit := Answer(s.store, key, s.now);
            Run(maxsize, ttl, s, LookupEvents(n, key, store)[..2])
            == s.(store := Asked(s, key),
                  lookups := s.lookups[n := Lookup(key, if hit.Some? then Answered(hit.value, SourceOf(s, key), s.now) else Select)])
  {
    var e := LookupEvents(n, key, store);
    assert |e[..0]| == 0;
    RunTwo(maxsize, ttl, s, e, 0);
    assert Step(maxsize, ttl, s, e[0]) == s.(lookups := s.lookups[n := Lookup(key, Ask)]);
    assert s.lookups[n := Lookup(key, Ask)][n := Lookup(key, Select)] == s.lookups[n := Lookup(key, Select)];
  }

  lemma SelectAndSet<V(!new)>(maxsize: nat, ttl: real, s: State<V>, n: nat, store: Store<string, V>)
    requires n in s.lookups && s.lookups[n].pc.Select? && |s.tables| > 0
    requires TtlCache.Step(maxsize, s.store, TtlCache.Set(s.lookups[n].key, s.tables[|s.tables| - 1](s.lookups[n].key), ttl, s.now), store)
    ensures var t := Step(maxsize, ttl, Step(maxsize, ttl, s, RunSelect(n)), RunSet(n, store));
            && n in t.lookups && t.lookups[n].pc.Answered? && t.store == store
            && t.lookups[n].pc.value == s.tables[|s.tables| - 1](s.lookups[n].key)
  {
  }

  /** Without interleaving a lookup answers from the cache, or else what the tables say, and stores that. */
  lemma UndisturbedLookup<V(!new)>(maxsize: nat, ttl: real, s: State<V>, n: nat, key: string, store: Store<string, V>)
    requires n !in s.lookups && |s.tables| > 0
    requires TtlCache.Step(maxsize, Asked(s, key), TtlCache.Set(key, s.tables[|s.tables| - 1](key), ttl, s.now), store)
    ensures var t := Run(maxsize, ttl, s, LookupEvents(n, key, store));
            var hit := Answer(s.store, key, s.now);
            && n in t.lookups && t.lookups[n].pc.Answered?
            && t.lookups[n].pc.value == (if hit.Some? then hit.value else s.tables[|s.tables| - 1](key))
            && t.store == (if hit.Some? then s.store else store)
  {
    var e := LookupEvents(n, key, store);
    UndisturbedGet(maxsize, ttl, s, n, key, store);
    RunTwo(maxsize, ttl, s, e, 2);
    assert e[..4] == e;
    if Answer(s.store, key, s.now).None? {
      SelectAndSet(maxsize, ttl, Run(maxsize, ttl, s, e[..2]), n, store);
    }
  }

  // ---------------------------------------------------------------------------------------------
  // The race
  // ---------------------------------------------------------------------------------------------

  /** The select, then a whole write handler, then the set. */
  function LateSet<V>(key: string, value: V, newTable: string -> V, ttl: real): seq<Event<V>> {
    [Begin(1, key), RunGet(1), RunSelect(1), Write(2, newTable), Invalidate(2), RunSet(1, map[key := Entry(value, 0.0 + ttl)])]
  }

  /** For any tables, key and edit: a run after which the handler is done and the cache still holds the old value. */
  lemma LateSetLeavesOldValue<V(!new)>(maxsize: nat, ttl: real, table: string -> V, key: string, newTable: string -> V)
    requires maxsize >= 1
    ensures var t := Run(maxsize, ttl, Start(table), LateSet(key, table(key), newTable, ttl));
            && t.pending == {} && key in t.store && t.store[key].value == table(key)
            && |t.tables| > 0 && t.tables[|t.tables| - 1] == newTable
  {
    var s, e := Start(table), LateSet(key, table(key), newTable, ttl);
    assert |e[..0]| == 0;
    RunTwo(maxsize, ttl, s, e, 0);
    RunTwo(maxsize, ttl, s, e, 2);
    RunTwo(maxsize, ttl, s, e, 4);
    assert e[..6] == e;
  }

  // ---------------------------------------------------------------------------------------------
  // What happens around the lookups
  // ---------------------------------------------------------------------------------------------

  /** Time passes, tables are written and caches cleared whatever the lookups are at; a clearing follows its handler's write. */
  lemma OthersMove<V(!new)>(maxsize: nat, ttl: real, s: State<V>, seconds: real, handler: nat, table: string -> V)
    ensures seconds >= 0.0 ==> Step(maxsize, ttl, s, Tick(seconds)) == s.(now := s.now + seconds)
    ensures var t := Step(maxsize, ttl, s, Write(handler, table));
            && t.lookups == s.lookups && t.store == s.store && t.now == s.now && handler in t.pending
            && t.tables == s.tables + [table] && t.writtenAt == s.writtenAt + [s.now]
    ensures handler in s.pending ==>
              var t := Step(maxsize, ttl, s, Invalidate(handler));
              t.lookups == s.lookups && t.tables == s.tables && t.store == map[] && t.pending == s.pending - {handler}
  {
  }

  /** A get answers an unexpired entry; otherwise the lookup goes on to its select, and an expired entry is dropped. */
  lemma GetDecides<V(!new)>(maxsize: nat, ttl: real, s: State<V>, n: nat)
    requires n in s.lookups && s.lookups[n].pc.Ask?
    ensures var key, t := s.lookups[n].key, Step(maxsize, ttl, s, RunGet(n));
            && n in t.lookups
            && if key in s.store && s.now < s.store[key].expiresAt then
                 t.lookups[n].pc.Answered? && t.lookups[n].pc.value == s.store[key].value && t.store == s.store
               else t.lookups[n].pc.Select? && t.store == s.store - {key}
  {
  }

  /** Only a lookup at its get asks, only one at its select reads, and only one with a value sets. */
  lemma OutOfTurnNothingHappens<V(!new)>(maxsize: nat, ttl: real, s: State<V>, n: nat, store: Store<string, V>)
    requires n in s.lookups
    ensures !s.lookups[n].pc.Ask? ==> Step(maxsize, ttl, s, RunGet(n)) == s
    ensures !s.lookups[n].pc.Select? ==> Step(maxsize, ttl, s, RunSelect(n)) == s
    ensures !s.lookups[n].pc.Put? ==> Step(maxsize, ttl, s, RunSet(n, store)) == s
  {
  }
}
