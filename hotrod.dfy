/**
 * The blocking Hot Rod adapter (HotRodSyncCache.java).
 *
 * Every SyncCache call either forwards to the remote cache and answers what
 * the remote call completes with, signals that it is not supported, or
 * answers null without consulting the remote cache. The remote cache is a
 * SyncCache.MapCache; waiting for a remote call is taken to yield its
 * completed value. Calls the Java class inherits from the interface's
 * default methods are written out with the suffix `Default`.
 */
module HotRod {
  import opened Common
  import opened SyncCache

  /**
   * What a call the adapter does not forward answers: a value (possibly null)
   * or UnsupportedOperationException. Forwarded calls never throw it and
   * answer the remote value directly.
   */
  datatype Reply<T> = Returned(value: T) | Unsupported

  /** The AutoCloseable handle a listener registration would answer. */
  datatype Subscription = Subscription

  class HotRodSyncCache<K(==,!new), V> {
    const remoteCache: MapCache<K, V>

    ghost predicate Valid()
      reads remoteCache
    {
      remoteCache.Valid()
    }

    constructor (remoteCache: MapCache<K, V>)
      requires remoteCache.Valid()
      ensures this.remoteCache == remoteCache && Valid()
    {
      this.remoteCache := remoteCache;
    }

    /** name(): the remote cache's own name, without waiting on the remote. */
    function Name(): (r: string)
      ensures r == remoteCache.name
    {
      remoteCache.name
    }

    /** getEntry(key, options): forwarded. */
    function GetEntry(key: K, options: CacheOptions): (r: Option<CacheEntry<K, V>>)
      reads remoteCache
      ensures r == Lookup(remoteCache.State(), key)
    {
      remoteCache.GetEntry(key, options)
    }

    /** Inherited getEntry(key). */
    function GetEntryDefault(key: K): (r: Option<CacheEntry<K, V>>)
      reads remoteCache
      ensures r == Lookup(remoteCache.State(), key)
    {
      GetEntry(key, DefaultOptions)
    }

    /** Inherited get(key, options): the value of the remote entry, or null. */
    function Get(key: K, options: CacheOptions): (r: Option<V>)
      reads remoteCache
      ensures r.None? <==> key !in remoteCache.entries
      ensures r.Some? ==> r.value == remoteCache.entries[key].value
    {
      EntryValue(GetEntry(key, options))
    }

    /** Inherited get(key): the value of the remote getEntry(key, DEFAULT), or null. */
    function GetDefault(key: K): (r: Option<V>)
      reads remoteCache
      ensures r == EntryValue(remoteCache.GetEntry(key, DefaultOptions))
      ensures r.None? <==> key !in remoteCache.entries
      ensures r.Some? ==> r.value == remoteCache.entries[key].value
    {
      EntryValue(GetEntry(key, DefaultOptions))
    }

    method Put(key: K, value: V, options: CacheWriteOptions) returns (previous: Option<V>)
      requires Valid()
      modifies remoteCache
      ensures Valid()
      ensures previous == PutStep(old(remoteCache.State()), key, value).result
      ensures remoteCache.State() == PutStep(old(remoteCache.State()), key, value).after
    {
      previous := remoteCache.Put(key, value, options);
    }

    method PutDefault(key: K, value: V) returns (previous: Option<V>)
      requires Valid()
      modifies remoteCache
      ensures Valid()
      ensures previous == PutStep(old(remoteCache.State()), key, value).result
      ensures remoteCache.State() == PutStep(old(remoteCache.State()), key, value).after
    {
      previous := Put(key, value, DefaultWriteOptions);
    }

    /** set: the remote state change, answering nothing. */
    method Set(key: K, value: V, options: CacheWriteOptions)
      requires Valid()
      modifies remoteCache
      ensures Valid()
      ensures remoteCache.State() == PutStep(old(remoteCache.State()), key, value).after
    {
      remoteCache.Set(key, value, options);
    }

    method SetDefault(key: K, value: V)
      requires Valid()
      modifies remoteCache
      ensures Valid()
      ensures remoteCache.State() == PutStep(old(remoteCache.State()), key, value).after
    {
      Set(key, value, DefaultWriteOptions);
    }

    method PutIfAbsent(key: K, value: V, options: CacheWriteOptions) returns (previous: Option<V>)
      requires Valid()
      modifies remoteCache
      ensures Valid()
      ensures previous == PutIfAbsentStep(old(remoteCache.State()), key, value).result
      ensures remoteCache.State() == PutIfAbsentStep(old(remoteCache.State()), key, value).after
    {
      previous := remoteCache.PutIfAbsent(key, value, options);
    }

    method PutIfAbsentDefault(key: K, value: V) returns (previous: Option<V>)
      requires Valid()
      modifies remoteCache
      ensures Valid()
      ensures previous == PutIfAbsentStep(old(remoteCache.State()), key, value).result
      ensures remoteCache.State() == PutIfAbsentStep(old(remoteCache.State()), key, value).after
    {
      previous := PutIfAbsent(key, value, DefaultWriteOptions);
    }

    method SetIfAbsent(key: K, value: V, options: CacheWriteOptions) returns (wasSet: bool)
      requires Valid()
      modifies remoteCache
      ensures Valid()
      ensures wasSet <==> key !in old(remoteCache.entries)
      ensures remoteCache.State() == PutIfAbsentStep(old(remoteCache.State()), key, value).after
    {
      wasSet := remoteCache.SetIfAbsent(key, value, options);
    }

    method SetIfAbsentDefault(key: K, value: V) returns (wasSet: bool)
      requires Valid()
      modifies remoteCache
      ensures Valid()
      ensures wasSet <==> key !in old(remoteCache.entries)
      ensures remoteCache.State() == PutIfAbsentStep(old(remoteCache.State()), key, value).after
    {
      wasSet := SetIfAbsent(key, value, DefaultWriteOptions);
    }

    method Replace(key: K, value: V, version: Version, options: CacheWriteOptions) returns (replaced: bool)
      requires Valid()
      modifies remoteCache
      ensures Valid()
      ensures replaced == ReplaceStep(old(remoteCache.State()), key, value, version).result
      ensures remoteCache.State() == ReplaceStep(old(remoteCache.State()), key, value, version).after
    {
      replaced := remoteCache.Replace(key, value, version, options);
    }

    method ReplaceDefault(key: K, value: V, version: Version) returns (replaced: bool)
      requires Valid()
      modifies remoteCache
      ensures Valid()
      ensures replaced == ReplaceStep(old(remoteCache.State()), key, value, version).result
      ensures remoteCache.State() == ReplaceStep(old(remoteCache.State()), key, value, version).after
    {
      replaced := Replace(key, value, version, DefaultWriteOptions);
    }

    method GetOrReplaceEntry(key: K, value: V, version: Version, options: CacheWriteOptions)
      returns (entry: Option<CacheEntry<K, V>>)
      requires Valid()
      modifies remoteCache
      ensures Valid()
      ensures entry == GetOrReplaceStep(old(remoteCache.State()), key, value, version).result
      ensures remoteCache.State() == GetOrReplaceStep(old(remoteCache.State()), key, value, version).after
    {
      entry := remoteCache.GetOrReplaceEntry(key, value, version, options);
    }

    method GetOrReplaceEntryDefault(key: K, value: V, version: Version) returns (entry: Option<CacheEntry<K, V>>)
      requires Valid()
      modifies remoteCache
      ensures Valid()
      ensures entry == GetOrReplaceStep(old(remoteCache.State()), key, value, version).result
      ensures remoteCache.State() == GetOrReplaceStep(old(remoteCache.State()), key, value, version).after
    {
      entry := GetOrReplaceEntry(key, value, version, DefaultWriteOptions);
    }

    method Remove(key: K, options: CacheOptions) returns (removed: bool)
      requires Valid()
      modifies remoteCache
      ensures Valid()
      ensures removed == RemoveStep(old(remoteCache.State()), key).result
      ensures remoteCache.State() == RemoveStep(old(remoteCache.State()), key).after
    {
      removed := remoteCache.Remove(key, options);
    }

    method RemoveDefault(key: K) returns (removed: bool)
      requires Valid()
      modifies remoteCache
      ensures Valid()
      ensures removed == RemoveStep(old(remoteCache.State()), key).result
      ensures remoteCache.State() == RemoveStep(old(remoteCache.State()), key).after
    {
      removed := Remove(key, DefaultOptions);
    }

    method RemoveVersion(key: K, version: Version, options: CacheOptions) returns (removed: bool)
      requires Valid()
      modifies remoteCache
      ensures Valid()
      ensures removed == RemoveVersionStep(old(remoteCache.State()), key, version).result
      ensures remoteCache.State() == RemoveVersionStep(old(remoteCache.State()), key, version).after
    {
      removed := remoteCache.RemoveVersion(key, version, options);
    }

    method RemoveVersionDefault(key: K, version: Version) returns (removed: bool)
      requires Valid()
      modifies remoteCache
      ensures Valid()
      ensures removed == RemoveVersionStep(old(remoteCache.State()), key, version).result
      ensures remoteCache.State() == RemoveVersionStep(old(remoteCache.State()), key, version).after
    {
      removed := RemoveVersion(key, version, DefaultOptions);
    }

    method GetAndRemove(key: K, options: CacheOptions) returns (previous: Option<V>)
      requires Valid()
      modifies remoteCache
      ensures Valid()
      ensures previous == GetAndRemoveStep(old(remoteCache.State()), key).result
      ensures remoteCache.State() == GetAndRemoveStep(old(remoteCache.State()), key).after
    {
      previous := remoteCache.GetAndRemove(key, options);
    }

    method GetAndRemoveDefault(key: K) returns (previous: Option<V>)
      requires Valid()
      modifies remoteCache
      ensures Valid()
      ensures previous == GetAndRemoveStep(old(remoteCache.State()), key).result
      ensures remoteCache.State() == GetAndRemoveStep(old(remoteCache.State()), key).after
    {
      previous := GetAndRemove(key, DefaultOptions);
    }

    /** keys(): overridden; not supported, the remote cache is not consulted. */
    function KeysDefault(): (r: Reply<seq<K>>)
      ensures r.Unsupported?
    {
      Unsupported
    }

    /** keys(options): not supported. */
    function Keys(options: CacheOptions): (r: Reply<seq<K>>)
      ensures r.Unsupported?
    {
      Unsupported
    }

    /** entries(): overridden; not supported. */
    function EntriesDefault(): (r: Reply<seq<CacheEntry<K, V>>>)
      ensures r.Unsupported?
    {
      Unsupported
    }

    /** entries(options): not supported. */
    function Entries(options: CacheOptions): (r: Reply<seq<CacheEntry<K, V>>>)
      ensures r.Unsupported?
    {
      Unsupported
    }

    /** putAll(entries, options): the remote state change, answering nothing. */
    method PutAll(batch: map<K, V>, options: CacheWriteOptions)
      requires Valid()
      modifies remoteCache
      ensures Valid()
      ensures remoteCache.State() == PutAllStep(old(remoteCache.State()), batch)
    {
      remoteCache.PutAll(batch, options);
    }

    method PutAllDefault(batch: map<K, V>)
      requires Valid()
      modifies remoteCache
      ensures Valid()
      ensures remoteCache.State() == PutAllStep(old(remoteCache.State()), batch)
    {
      PutAll(batch, DefaultWriteOptions);
    }

    /** getAll(keys): overridden; not supported. */
    function GetAllDefault(keys: set<K>): (r: Reply<map<K, V>>)
      ensures r.Unsupported?
    {
      Unsupported
    }

    /** getAll(keys, options): not supported. */
    function GetAll(keys: set<K>, options: CacheOptions): (r: Reply<map<K, V>>)
      ensures r.Unsupported?
    {
      Unsupported
    }

    /** getAll(options, K... keys): answers null without consulting the remote cache. */
    function GetAllOf(options: CacheOptions, keys: seq<K>): (r: Reply<Option<map<K, V>>>)
      ensures r == Returned(None)
    {
      Returned(None)
    }

    /** Inherited getAll(K... keys), which calls getAll(DEFAULT, keys): null as well. */
    function GetAllOfDefault(keys: seq<K>): (r: Reply<Option<map<K, V>>>)
      ensures r == Returned(None)
    {
      GetAllOf(DefaultOptions, keys)
    }

    /** removeAll(keys): overridden, so it does not reach removeAll(keys, DEFAULT); not supported. */
    function RemoveAllDefault(keys: set<K>): (r: Reply<set<K>>)
      ensures r.Unsupported?
    {
      Unsupported
    }

    /** removeAll(keys, options): answers null without removing anything. */
    function RemoveAll(keys: set<K>, options: CacheOptions): (r: Reply<Option<set<K>>>)
      ensures r == Returned(None)
    {
      Returned(None)
    }

    /** getAndRemoveAll(keys): overridden; not supported. */
    function GetAndRemoveAllDefault(keys: set<K>): (r: Reply<map<K, V>>)
      ensures r.Unsupported?
    {
      Unsupported
    }

    /** getAndRemoveAll(keys, options): not supported. */
    function GetAndRemoveAll(keys: set<K>, options: CacheOptions): (r: Reply<map<K, V>>)
      ensures r.Unsupported?
    {
      Unsupported
    }

    /** estimateSize(options): forwarded. */
    function EstimateSize(options: CacheOptions): (n: nat)
      reads remoteCache
      ensures n == remoteCache.EstimateSize(options)
      ensures n == |remoteCache.entries|
    {
      remoteCache.EstimateSize(options)
    }

    function EstimateSizeDefault(): (n: nat)
      reads remoteCache
      ensures n == |remoteCache.entries|
    {
      EstimateSize(DefaultOptions)
    }

    /** clear(options): the remote state change, answering nothing. */
    method Clear(options: CacheOptions)
      requires Valid()
      modifies remoteCache
      ensures Valid()
      ensures remoteCache.State() == ClearStep(old(remoteCache.State()))
    {
      remoteCache.Clear(options);
    }

    method ClearDefault()
      requires Valid()
      modifies remoteCache
      ensures Valid()
      ensures remoteCache.State() == ClearStep(old(remoteCache.State()))
    {
      Clear(DefaultOptions);
    }

    /** listen(listener): not supported. */
    function Listen<L>(listener: L): (r: Reply<Subscription>)
      ensures r.Unsupported?
    {
      Unsupported
    }

    /** process(keys, processor, options): not supported. */
    function Process<P, T>(keys: set<K>, processor: P, options: CacheProcessorOptions): (r: Reply<map<K, T>>)
      ensures r.Unsupported?
    {
      Unsupported
    }

    /** Inherited process(keys, processor), which calls process(keys, processor, DEFAULT): not supported. */
    function ProcessDefault<P, T>(keys: set<K>, processor: P): (r: Reply<map<K, T>>)
      ensures r.Unsupported?
    {
      Process(keys, processor, DefaultProcessorOptions)
    }

    /** processAll(processor, options): forwarded. */
    function ProcessAll<T>(processor: map<K, CacheEntry<K, V>> -> T, options: CacheProcessorOptions): (r: T)
      reads remoteCache
      ensures r == processor(remoteCache.entries)
    {
      remoteCache.ProcessAll(processor, options)
    }

    function ProcessAllDefault<T>(processor: map<K, CacheEntry<K, V>> -> T): (r: T)
      reads remoteCache
      ensures r == processor(remoteCache.entries)
    {
      ProcessAll(processor, DefaultProcessorOptions)
    }
  }
}
