/**
 * The synchronous cache-access contract (SyncCache.java).
 *
 * A cache is a map from keys to entries, each entry carrying its value and
 * a version. Every primitive of the contract is given a meaning as a pure
 * step on that map (a result and the store it leaves behind); the class
 * MapCache is a cache whose methods follow those steps, and carries the
 * interface's default overloads, each of which calls its primitive with the
 * DEFAULT options.
 *
 * Naming: a primitive keeps the Java name and takes the options; the
 * no-options overload is the same name with the suffix `Default`;
 * `remove(key, version)` is `RemoveVersion`; the varargs `getAll(options, K...)`
 * is `GetAllOf`.
 */
module SyncCache {
  import opened Common

  /** An opaque entry version, modelled as the reading of a logical clock. */
  type Version = nat

  /** An immutable snapshot of one entry (expiration metadata is not modelled). */
  datatype CacheEntry<K, V> = CacheEntry(key: K, value: V, version: Version)

  /** Per-call options. No step of the store depends on their settings. */
  datatype CacheOptions = CacheOptions(settings: map<string, string>)
  datatype CacheWriteOptions = CacheWriteOptions(settings: map<string, string>)
  datatype CacheProcessorOptions = CacheProcessorOptions(settings: map<string, string>)

  /** CacheOptions.DEFAULT, CacheWriteOptions.DEFAULT and CacheProcessorOptions.DEFAULT. */
  const DefaultOptions: CacheOptions := CacheOptions(map[])
  const DefaultWriteOptions: CacheWriteOptions := CacheWriteOptions(map[])
  const DefaultProcessorOptions: CacheProcessorOptions := CacheProcessorOptions(map[])

  /** The contents of a cache, with the clock that stamps the next write. */
  datatype Store<K, V> = Store(entries: map<K, CacheEntry<K, V>>, clock: Version)

  /** Every entry is filed under its own key and is older than the clock. */
  ghost predicate Consistent<K(!new), V>(s: Store<K, V>) {
    forall k :: k in s.entries ==> s.entries[k].key == k && s.entries[k].version < s.clock
  }

  /**
   * t comes from s by writes only: the clock did not go back, and every
   * entry of t is either the entry s had for that key or was written after s.
   */
  ghost predicate Evolves<K(!new), V>(s: Store<K, V>, t: Store<K, V>) {
    && s.clock <= t.clock
    && forall k :: k in t.entries ==>
         (k in s.entries && t.entries[k] == s.entries[k]) || s.clock <= t.entries[k].version
  }

  /** The result of a primitive and the store it leaves behind. */
  datatype Step<K, V, R> = Step(result: R, after: Store<K, V>)

  /** The entry held for key, or null. */
  function Lookup<K(!new), V>(s: Store<K, V>, key: K): (r: Option<CacheEntry<K, V>>)
    ensures r.Some? <==> key in s.entries
    ensures r.Some? ==> r.value == s.entries[key]
  {
    if key in s.entries then Some(s.entries[key]) else None
  }

  /** `entry == null ? null : entry.value()` */
  function EntryValue<K(!new), V>(entry: Option<CacheEntry<K, V>>): (r: Option<V>)
    ensures r.None? <==> entry.None?
    ensures r.Some? ==> r.value == entry.value.value
  {
    match entry
    case None => None
    case Some(e) => Some(e.value)
  }

  /** Files value under key with a version no entry has had. */
  function Write<K(!new), V>(s: Store<K, V>, key: K, value: V): (t: Store<K, V>)
    ensures t.clock == s.clock + 1
  {
    Store(s.entries[key := CacheEntry(key, value, s.clock)], s.clock + 1)
  }

  /** put: insert the pair; answer the previous value if present. */
  function PutStep<K(!new), V>(s: Store<K, V>, key: K, value: V): (r: Step<K, V, Option<V>>)
    ensures r.result.Some? <==> key in s.entries
    ensures key in s.entries ==> r.result.value == s.entries[key].value
    ensures Lookup(r.after, key) == Some(CacheEntry(key, value, s.clock))
    ensures forall j :: j != key ==> Lookup(r.after, j) == Lookup(s, j)
    ensures Consistent(s) ==> Consistent(r.after) && Evolves(s, r.after)
    ensures Consistent(s) && key in s.entries ==> s.entries[key].version < r.after.entries[key].version
  {
    Step(EntryValue(Lookup(s, key)), Write(s, key, value))
  }

  /** putIfAbsent: insert only when the key does not exist; answer the previous value if present. */
  function PutIfAbsentStep<K(!new), V>(s: Store<K, V>, key: K, value: V): (r: Step<K, V, Option<V>>)
    ensures r.result.Some? <==> key in s.entries
    ensures key in s.entries ==> r.result.value == s.entries[key].value && r.after == s
    ensures key !in s.entries ==>
      && Lookup(r.after, key) == Some(CacheEntry(key, value, s.clock))
      && forall j :: j != key ==> Lookup(r.after, j) == Lookup(s, j)
    ensures Consistent(s) ==> Consistent(r.after) && Evolves(s, r.after)
  {
    if key in s.entries then Step(Some(s.entries[key].value), s) else Step(None, Write(s, key, value))
  }

  /**
   * replace: compare-and-swap. The entry is replaced, with a newer version,
   * exactly when the key holds an entry of the expected version.
   */
  function ReplaceStep<K(!new), V>(s: Store<K, V>, key: K, value: V, version: Version): (r: Step<K, V, bool>)
    ensures r.result <==> key in s.entries && s.entries[key].version == version
    ensures r.result ==>
      && Lookup(r.after, key) == Some(CacheEntry(key, value, s.clock))
      && forall j :: j != key ==> Lookup(r.after, j) == Lookup(s, j)
    ensures !r.result ==> r.after == s
    ensures Consistent(s) ==> Consistent(r.after) && Evolves(s, r.after)
    ensures Consistent(s) && r.result ==> version < r.after.entries[key].version
  {
    if key in s.entries && s.entries[key].version == version then
      Step(true, Write(s, key, value))
    else
      Step(false, s)
  }

  /**
   * getOrReplaceEntry: a replace attempt that answers with the entry the key
   * holds afterwards: the new entry when the swap succeeded, else the current one.
   */
  function GetOrReplaceStep<K(!new), V>(s: Store<K, V>, key: K, value: V, version: Version)
    : (r: Step<K, V, Option<CacheEntry<K, V>>>)
    ensures r.after == ReplaceStep(s, key, value, version).after
    ensures ReplaceStep(s, key, value, version).result ==> r.result == Some(CacheEntry(key, value, s.clock))
    ensures !ReplaceStep(s, key, value, version).result ==> r.result == Lookup(s, key)
  {
    var replaced := ReplaceStep(s, key, value, version);
    Step(Lookup(replaced.after, key), replaced.after)
  }

  /** remove: delete the key; answer whether an entry was removed. */
  function RemoveStep<K(!new), V>(s: Store<K, V>, key: K): (r: Step<K, V, bool>)
    ensures r.result <==> key in s.entries
    ensures Lookup(r.after, key) == None
    ensures forall j :: j != key ==> Lookup(r.after, j) == Lookup(s, j)
    ensures Consistent(s) ==> Consistent(r.after) && Evolves(s, r.after)
  {
    Step(key in s.entries, Store(s.entries - {key}, s.clock))
  }

  /** remove(key, version): delete the key only if its version matches. */
  function RemoveVersionStep<K(!new), V>(s: Store<K, V>, key: K, version: Version): (r: Step<K, V, bool>)
    ensures r.result <==> key in s.entries && s.entries[key].version == version
    ensures r.result ==> r.after == RemoveStep(s, key).after
    ensures !r.result ==> r.after == s
    ensures Consistent(s) ==> Consistent(r.after) && Evolves(s, r.after)
  {
    if key in s.entries && s.entries[key].version == version then
      Step(true, RemoveStep(s, key).after)
    else
      Step(false, s)
  }

  /** getAndRemove: delete the key; answer its value before removal, or null. */
  function GetAndRemoveStep<K(!new), V>(s: Store<K, V>, key: K): (r: Step<K, V, Option<V>>)
    ensures r.result.Some? <==> key in s.entries
    ensures key in s.entries ==> r.result.value == s.entries[key].value
    ensures Lookup(r.after, key) == None
    ensures r.after == RemoveStep(s, key).after
  {
    Step(EntryValue(Lookup(s, key)), RemoveStep(s, key).after)
  }

  /** putAll: every pair of the batch is stored; other keys keep their entries. */
  function PutAllStep<K(!new), V>(s: Store<K, V>, batch: map<K, V>): (t: Store<K, V>)
    ensures forall k :: k in batch ==> Lookup(t, k) == Some(CacheEntry(k, batch[k], s.clock))
    ensures forall k :: k !in batch ==> Lookup(t, k) == Lookup(s, k)
    ensures Consistent(s) ==> Consistent(t) && Evolves(s, t)
  {
    Store(s.entries + map k | k in batch :: CacheEntry(k, batch[k], s.clock), s.clock + 1)
  }

  /** getAll: the values of those of the keys that are present. */
  function ReadAll<K(!new), V>(s: Store<K, V>, keys: set<K>): (r: map<K, V>)
    ensures forall k :: k in r <==> k in keys && k in s.entries
    ensures forall k :: k in r ==> r[k] == s.entries[k].value
  {
    map k | k in keys * s.entries.Keys :: s.entries[k].value
  }

  /** removeAll: delete the keys; answer the keys that were removed. */
  function RemoveAllStep<K(!new), V>(s: Store<K, V>, keys: set<K>): (r: Step<K, V, set<K>>)
    ensures forall k :: k in r.result <==> k in keys && k in s.entries
    ensures forall k :: k in keys ==> Lookup(r.after, k) == None
    ensures forall k :: k !in keys ==> Lookup(r.after, k) == Lookup(s, k)
    ensures Consistent(s) ==> Consistent(r.after) && Evolves(s, r.after)
  {
    Step(keys * s.entries.Keys, Store(s.entries - keys, s.clock))
  }

  /** getAndRemoveAll: delete the keys; answer the removed keys with their values before removal. */
  function GetAndRemoveAllStep<K(!new), V>(s: Store<K, V>, keys: set<K>): (r: Step<K, V, map<K, V>>)
    ensures r.result.Keys == RemoveAllStep(s, keys).result
    ensures forall k :: k in r.result ==> r.result[k] == s.entries[k].value
    ensures r.after == RemoveAllStep(s, keys).after
  {
    Step(ReadAll(s, keys), RemoveAllStep(s, keys).after)
  }

  /** clear: wipe every entry; the clock keeps going, so versions are not reissued. */
  function ClearStep<K(!new), V>(s: Store<K, V>): (t: Store<K, V>)
    ensures forall k :: Lookup(t, k) == None
    ensures Consistent(t) && Evolves(s, t)
  {
    Store(map[], s.clock)
  }

  /** A state-changing call of the contract, as it appears in a history of calls. */
  datatype Command<K, V> =
    | PutCall(key: K, value: V)
    | PutIfAbsentCall(key: K, value: V)
    | ReplaceCall(key: K, value: V, version: Version)
    | RemoveCall(key: K)
    | RemoveVersionCall(key: K, version: Version)
    | PutAllCall(batch: map<K, V>)
    | RemoveAllCall(keys: set<K>)
    | ClearCall

  /**
   * The store after one call. set, setIfAbsent, getOrReplaceEntry,
   * getAndRemove and getAndRemoveAll change the store as put, putIfAbsent,
   * replace, remove and removeAll do.
   */
  function Apply<K(!new), V>(s: Store<K, V>, c: Command<K, V>): (t: Store<K, V>)
    ensures Consistent(s) ==> Consistent(t) && Evolves(s, t)
  {
    match c
    case PutCall(k, v) => PutStep(s, k, v).after
    case PutIfAbsentCall(k, v) => PutIfAbsentStep(s, k, v).after
    case ReplaceCall(k, v, ver) => ReplaceStep(s, k, v, ver).after
    case RemoveCall(k) => RemoveStep(s, k).after
    case RemoveVersionCall(k, ver) => RemoveVersionStep(s, k, ver).after
    case PutAllCall(batch) => PutAllStep(s, batch)
    case RemoveAllCall(keys) => RemoveAllStep(s, keys).after
    case ClearCall => ClearStep(s)
  }

  /** The store after a history of calls, first call first. */
  function Run<K(!new), V>(s: Store<K, V>, history: seq<Command<K, V>>): (t: Store<K, V>)
    decreases |history|
  {
    if history == [] then s else Run(Apply(s, history[0]), history[1..])
  }

  lemma EvolvesTransitive<K(!new), V>(s: Store<K, V>, t: Store<K, V>, u: Store<K, V>)
    requires Evolves(s, t) && Evolves(t, u)
    ensures Evolves(s, u)
  {
    forall k | k in u.entries
      ensures (k in s.entries && u.entries[k] == s.entries[k]) || s.clock <= u.entries[k].version
    {
      if !(k in t.entries && u.entries[k] == t.entries[k]) {
        assert t.clock <= u.entries[k].version;
      }
    }
  }

  /** Any history of calls keeps the store consistent and only ever adds newer versions. */
  lemma {:induction false} RunEvolves<K(!new), V>(s: Store<K, V>, history: seq<Command<K, V>>)
    requires Consistent(s)
    ensures Consistent(Run(s, history)) && Evolves(s, Run(s, history))
    decreases |history|
  {
    if history != [] {
      var t := Apply(s, history[0]);
      RunEvolves(t, history[1..]);
      EvolvesTransitive(s, t, Run(t, history[1..]));
    }
  }

  /**
   * A version is never reused for another value of the same key: if, after
   * any history of calls, the key holds an entry of the version it had
   * before, it is the very same entry.
   */
  lemma VersionNeverReused<K(!new), V>(s: Store<K, V>, history: seq<Command<K, V>>, key: K)
    requires Consistent(s) && key in s.entries
    requires key in Run(s, history).entries
    requires Run(s, history).entries[key].version == s.entries[key].version
    ensures Run(s, history).entries[key] == s.entries[key]
  {
    RunEvolves(s, history);
  }

  /**
   * Optimistic concurrency: once the key has been written again, a replace or
   * a version-gated remove holding the version read before the write fails
   * and leaves the store as it is, while one holding the fresh version succeeds.
   */
  lemma StaleVersionRejected<K(!new), V>(s: Store<K, V>, key: K, value: V, other: V)
    requires Consistent(s) && key in s.entries
    ensures var t := PutStep(s, key, value).after;
      && ReplaceStep(t, key, other, s.entries[key].version) == Step(false, t)
      && RemoveVersionStep(t, key, s.entries[key].version) == Step(false, t)
      && ReplaceStep(t, key, other, t.entries[key].version).result
  {
  }

  /**
   * A cache whose state is a key -> entry map and a clock. It follows the
   * steps above for every primitive and carries the default overloads.
   */
  class MapCache<K(==,!new), V> {
    const name: string
    var entries: map<K, CacheEntry<K, V>>
    var clock: Version

    function State(): (s: Store<K, V>)
      reads this
    {
      Store(entries, clock)
    }

    ghost predicate Valid()
      reads this
    {
      Consistent(State())
    }

    /** An empty cache of the given name. */
    constructor (name: string)
      ensures this.name == name && entries == map[] && Valid()
    {
      this.name := name;
      entries := map[];
      clock := 0;
    }

    /** getEntry(key, options): the entry of the key if such exists, else null. */
    function GetEntry(key: K, options: CacheOptions): (r: Option<CacheEntry<K, V>>)
      reads this
      ensures r.Some? <==> key in entries
      ensures r.Some? ==> r.value == entries[key]
    {
      Lookup(State(), key)
    }

    /** getEntry(key) */
    function GetEntryDefault(key: K): (r: Option<CacheEntry<K, V>>)
      reads this
      ensures r == GetEntry(key, DefaultOptions)
    {
      GetEntry(key, DefaultOptions)
    }

    /** get(key, options): getEntry's value, or null; absence is not an error. */
    function Get(key: K, options: CacheOptions): (r: Option<V>)
      reads this
      ensures r.None? <==> GetEntry(key, options).None?
      ensures r.Some? ==> r.value == GetEntry(key, options).value.value
    {
      EntryValue(GetEntry(key, options))
    }

    /** get(key): the value of getEntry(key, DEFAULT), or null. */
    function GetDefault(key: K): (r: Option<V>)
      reads this
      ensures r.None? <==> GetEntry(key, DefaultOptions).None?
      ensures r.Some? ==> r.value == GetEntry(key, DefaultOptions).value.value
    {
      EntryValue(GetEntry(key, DefaultOptions))
    }

    method Put(key: K, value: V, options: CacheWriteOptions) returns (previous: Option<V>)
      requires Valid()
      modifies this
      ensures Valid()
      ensures previous == PutStep(old(State()), key, value).result
      ensures State() == PutStep(old(State()), key, value).after
    {
      previous := EntryValue(Lookup(State(), key));
      entries := entries[key := CacheEntry(key, value, clock)];
      clock := clock + 1;
    }

    method PutDefault(key: K, value: V) returns (previous: Option<V>)
      requires Valid()
      modifies this
      ensures Valid()
      ensures previous == PutStep(old(State()), key, value).result
      ensures State() == PutStep(old(State()), key, value).after
    {
      previous := Put(key, value, DefaultWriteOptions);
    }

    /** set: as put, without answering the previous value. */
    method Set(key: K, value: V, options: CacheWriteOptions)
      requires Valid()
      modifies this
      ensures Valid()
      ensures State() == PutStep(old(State()), key, value).after
    {
      entries := entries[key := CacheEntry(key, value, clock)];
      clock := clock + 1;
    }

    method SetDefault(key: K, value: V)
      requires Valid()
      modifies this
      ensures Valid()
      ensures State() == PutStep(old(State()), key, value).after
    {
      Set(key, value, DefaultWriteOptions);
    }

    method PutIfAbsent(key: K, value: V, options: CacheWriteOptions) returns (previous: Option<V>)
      requires Valid()
      modifies this
      ensures Valid()
      ensures previous == PutIfAbsentStep(old(State()), key, value).result
      ensures State() == PutIfAbsentStep(old(State()), key, value).after
    {
      if key in entries {
        previous := Some(entries[key].value);
      } else {
        previous := None;
        entries := entries[key := CacheEntry(key, value, clock)];
        clock := clock + 1;
      }
    }

    method PutIfAbsentDefault(key: K, value: V) returns (previous: Option<V>)
      requires Valid()
      modifies this
      ensures Valid()
      ensures previous == PutIfAbsentStep(old(State()), key, value).result
      ensures State() == PutIfAbsentStep(old(State()), key, value).after
    {
      previous := PutIfAbsent(key, value, DefaultWriteOptions);
    }

    /** setIfAbsent: as putIfAbsent; answers true exactly when the entry was set. */
    method SetIfAbsent(key: K, value: V, options: CacheWriteOptions) returns (wasSet: bool)
      requires Valid()
      modifies this
      ensures Valid()
      ensures wasSet <==> key !in old(entries)
      ensures State() == PutIfAbsentStep(old(State()), key, value).after
    {
      wasSet := key !in entries;
      if wasSet {
        entries := entries[key := CacheEntry(key, value, clock)];
        clock := clock + 1;
      }
    }

    method SetIfAbsentDefault(key: K, value: V) returns (wasSet: bool)
      requires Valid()
      modifies this
      ensures Valid()
      ensures wasSet <==> key !in old(entries)
      ensures State() == PutIfAbsentStep(old(State()), key, value).after
    {
      wasSet := SetIfAbsent(key, value, DefaultWriteOptions);
    }

    method Replace(key: K, value: V, version: Version, options: CacheWriteOptions) returns (replaced: bool)
      requires Valid()
      modifies this
      ensures Valid()
      ensures replaced == ReplaceStep(old(State()), key, value, version).result
      ensures State() == ReplaceStep(old(State()), key, value, version).after
    {
      replaced := key in entries && entries[key].version == version;
      if replaced {
        entries := entries[key := CacheEntry(key, value, clock)];
        clock := clock + 1;
      }
    }

    method ReplaceDefault(key: K, value: V, version: Version) returns (replaced: bool)
      requires Valid()
      modifies this
      ensures Valid()
      ensures replaced == ReplaceStep(old(State()), key, value, version).result
      ensures State() == ReplaceStep(old(State()), key, value, version).after
    {
      replaced := Replace(key, value, version, DefaultWriteOptions);
    }

    method GetOrReplaceEntry(key: K, value: V, version: Version, options: CacheWriteOptions)
      returns (entry: Option<CacheEntry<K, V>>)
      requires Valid()
      modifies this
      ensures Valid()
      ensures entry == GetOrReplaceStep(old(State()), key, value, version).result
      ensures State() == GetOrReplaceStep(old(State()), key, value, version).after
    {
      var replaced := Replace(key, value, version, options);
      entry := Lookup(State(), key);
    }

    method GetOrReplaceEntryDefault(key: K, value: V, version: Version) returns (entry: Option<CacheEntry<K, V>>)
      requires Valid()
      modifies this
      ensures Valid()
      ensures entry == GetOrReplaceStep(old(State()), key, value, version).result
      ensures State() == GetOrReplaceStep(old(State()), key, value, version).after
    {
      entry := GetOrReplaceEntry(key, value, version, DefaultWriteOptions);
    }

    method Remove(key: K, options: CacheOptions) returns (removed: bool)
      requires Valid()
      modifies this
      ensures Valid()
      ensures removed == RemoveStep(old(State()), key).result
      ensures State() == RemoveStep(old(State()), key).after
    {
      removed := key in entries;
      entries := entries - {key};
    }

    method RemoveDefault(key: K) returns (removed: bool)
      requires Valid()
      modifies this
      ensures Valid()
      ensures removed == RemoveStep(old(State()), key).result
      ensures State() == RemoveStep(old(State()), key).after
    {
      removed := Remove(key, DefaultOptions);
    }

    method RemoveVersion(key: K, version: Version, options: CacheOptions) returns (removed: bool)
      requires Valid()
      modifies this
      ensures Valid()
      ensures removed == RemoveVersionStep(old(State()), key, version).result
      ensures State() == RemoveVersionStep(old(State()), key, version).after
    {
      removed := key in entries && entries[key].version == version;
      if removed {
        entries := entries - {key};
      }
    }

    method RemoveVersionDefault(key: K, version: Version) returns (removed: bool)
      requires Valid()
      modifies this
      ensures Valid()
      ensures removed == RemoveVersionStep(old(State()), key, version).result
      ensures State() == RemoveVersionStep(old(State()), key, version).after
    {
      removed := RemoveVersion(key, version, DefaultOptions);
    }

    method GetAndRemove(key: K, options: CacheOptions) returns (previous: Option<V>)
      requires Valid()
      modifies this
      ensures Valid()
      ensures previous == GetAndRemoveStep(old(State()), key).result
      ensures State() == GetAndRemoveStep(old(State()), key).after
    {
      previous := Get(key, options);
      entries := entries - {key};
    }

    method GetAndRemoveDefault(key: K) returns (previous: Option<V>)
      requires Valid()
      modifies this
      ensures Valid()
      ensures previous == GetAndRemoveStep(old(State()), key).result
      ensures State() == GetAndRemoveStep(old(State()), key).after
    {
      previous := GetAndRemove(key, DefaultOptions);
    }

    method PutAll(batch: map<K, V>, options: CacheWriteOptions)
      requires Valid()
      modifies this
      ensures Valid()
      ensures State() == PutAllStep(old(State()), batch)
    {
      entries := entries + map k | k in batch :: CacheEntry(k, batch[k], clock);
      clock := clock + 1;
    }

    method PutAllDefault(batch: map<K, V>)
      requires Valid()
      modifies this
      ensures Valid()
      ensures State() == PutAllStep(old(State()), batch)
    {
      PutAll(batch, DefaultWriteOptions);
    }

    /** getAll(keys, options): the present keys among keys, with their values. */
    function GetAll(keys: set<K>, options: CacheOptions): (r: map<K, V>)
      reads this
      ensures r == ReadAll(State(), keys)
    {
      ReadAll(State(), keys)
    }

    function GetAllDefault(keys: set<K>): (r: map<K, V>)
      reads this
      ensures r == ReadAll(State(), keys)
    {
      GetAll(keys, DefaultOptions)
    }

    /** getAll(options, K... keys): as getAll over the keys listed. */
    function GetAllOf(options: CacheOptions, keys: seq<K>): (r: map<K, V>)
      reads this
      ensures forall k :: k in r <==> k in keys && k in entries
      ensures forall k :: k in r ==> r[k] == entries[k].value
    {
      GetAll((set k | k in keys), options)
    }

    function GetAllOfDefault(keys: seq<K>): (r: map<K, V>)
      reads this
      ensures r == GetAllOf(DefaultOptions, keys)
    {
      GetAllOf(DefaultOptions, keys)
    }

    method RemoveAll(keys: set<K>, options: CacheOptions) returns (removed: set<K>)
      requires Valid()
      modifies this
      ensures Valid()
      ensures removed == RemoveAllStep(old(State()), keys).result
      ensures State() == RemoveAllStep(old(State()), keys).after
    {
      removed := keys * entries.Keys;
      entries := entries - keys;
    }

    method RemoveAllDefault(keys: set<K>) returns (removed: set<K>)
      requires Valid()
      modifies this
      ensures Valid()
      ensures removed == RemoveAllStep(old(State()), keys).result
      ensures State() == RemoveAllStep(old(State()), keys).after
    {
      removed := RemoveAll(keys, DefaultOptions);
    }

    method GetAndRemoveAll(keys: set<K>, options: CacheOptions) returns (removed: map<K, V>)
      requires Valid()
      modifies this
      ensures Valid()
      ensures removed == GetAndRemoveAllStep(old(State()), keys).result
      ensures State() == GetAndRemoveAllStep(old(State()), keys).after
    {
      removed := GetAll(keys, options);
      entries := entries - keys;
    }

    method GetAndRemoveAllDefault(keys: set<K>) returns (removed: map<K, V>)
      requires Valid()
      modifies this
      ensures Valid()
      ensures removed == GetAndRemoveAllStep(old(State()), keys).result
      ensures State() == GetAndRemoveAllStep(old(State()), keys).after
    {
      removed := GetAndRemoveAll(keys, DefaultOptions);
    }

    /** estimateSize(options): the number of entries. */
    function EstimateSize(options: CacheOptions): (n: nat)
      reads this
      ensures n == |State().entries|
    {
      |entries|
    }

    function EstimateSizeDefault(): (n: nat)
      reads this
      ensures n == EstimateSize(DefaultOptions)
    {
      EstimateSize(DefaultOptions)
    }

    method Clear(options: CacheOptions)
      requires Valid()
      modifies this
      ensures Valid()
      ensures State() == ClearStep(old(State()))
    {
      entries := map[];
    }

    method ClearDefault()
      requires Valid()
      modifies this
      ensures Valid()
      ensures State() == ClearStep(old(State()))
    {
      Clear(DefaultOptions);
    }

    /** processAll(processor, options): the processor's answer over the whole contents. */
    function ProcessAll<T>(processor: map<K, CacheEntry<K, V>> -> T, options: CacheProcessorOptions): (r: T)
      reads this
      ensures r == processor(State().entries)
    {
      processor(entries)
    }

    function ProcessAllDefault<T>(processor: map<K, CacheEntry<K, V>> -> T): (r: T)
      reads this
      ensures r == ProcessAll(processor, DefaultProcessorOptions)
    {
      ProcessAll(processor, DefaultProcessorOptions)
    }
  }
}
