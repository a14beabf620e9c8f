# Infinispan synchronous cache API, Hot Rod adapter and JDBC store configuration

This Dafny project models three pieces of Infinispan.

- **`SyncCache`** (`sync_cache.dfy`) is the blocking key/value cache interface. The interface declares primitives that take an
  options argument. Each convenience overload without options delegates to its primitive with the `DEFAULT` options
  constant. The interface promises behaviour the implementations must keep: put returns the previous value, putIfAbsent
  leaves an existing entry alone, the version-gated remove acts only on the expected version, and so on.
  These promises are stated once, in pure *step* functions over a `Store`. The primitives `replace` and
  `getOrReplaceEntry` carry no documentation; their step functions give them a compare-and-swap meaning of the model's
  own (see "## Left out"). A step function gives a call's answer and
  the store it leaves. A `Store` maps keys to `CacheEntry(key, value, version)`; versions come from a logical clock
  that every write advances.
- Each step function also proves that the store stays `Consistent`: every entry is filed under its own key, and its
  version is below the clock. It also proves that the store only `Evolves`: no entry is rewritten under a version that
  already existed. Over an arbitrary `Run` of calls, these give the property that makes optimistic concurrency on
  `CacheEntryVersion` sound: a version is never reused (`VersionNeverReused`).
- **`MapCache`** is a reference implementation of the interface. It is a class whose fields `entries` and `clock` the
  methods update in place. Every method is proved to answer and update exactly as its step function says. Every
  default overload is proved to be its primitive applied to `DEFAULT`. The options carry configuration (timeouts,
  flags) and do not change what the store holds.
- **`HotRodSyncCache`** (`hotrod.dfy`) is the client-side adapter that implements the interface over a remote cache.
  It does one of three things with each operation:
  - It forwards the operation to the remote cache and waits for that cache's answer. Here the remote cache is a
    `MapCache`, and each forwarding method is proved to give the remote cache's answer and state change.
  - It signals `UnsupportedOperationException`. The model writes this as `Reply.Unsupported`.
  - It answers `null` without acting (`getAll(options, K...)`, `removeAll(keys, options)`). The model writes this as
    `Reply.Returned(None)`.
- The default overloads the adapter inherits from the interface appear on the adapter too. This shows where the
  inherited behaviour meets the overrides: `removeAll(keys)` is overridden to throw, while `removeAll(keys, options)`
  returns null.
- **`AbstractNonDelegatingJdbcCacheStoreConfig`** (`jdbc_store_config.dfy`) is the configuration of the JDBC cache
  stores. Its table setters first ask the configuration whether the `"tableManipulation"` element may still change.
  The model calls this answer the *guard*: a set `immutableElements` of element names no longer open to change. Refusal
  is `Status.ConfigurationError`. When the guard admits the change, the setter writes the one field into the *shared*
  `TableManipulation` object in place.
- `setDatabaseType` ignores `null` and otherwise looks the dialect up by the name **upper-cased and then trimmed**.
  An unknown name leaves the configuration unchanged and raises `IllegalArgumentException` (`Status.IllegalArgument`).
  `clone()` copies the configuration and gives the copy its own clone of the table description. A later setter on the
  copy therefore never reaches the original (`CloneIsDeep`).
- `java_strings.dfy` models `String.trim()` and `String.toUpperCase()`. For this alphabet the two operations commute.
  So the dialect chosen, and the name `getDatabaseType` reads back, depend only on the trimmed upper-cased name.

Java `null` is `Option.None` throughout (`common.dfy`). The enum `DatabaseType` is modelled by the one module-level
set `DatabaseTypeNames` of its constant names, which the model leaves open. `valueOf` accepts exactly those names, and
`toString` gives the constant's name back.

Three behaviours of the code are worth noting:
- An adapter could be expected to declare every call it does not implement unsupported. This one answers `null` for
  `getAll(options, K...)` and `removeAll(keys, options)` and does nothing (`HotRod.HotRodSyncCache.GetAllOf`,
  `HotRod.HotRodSyncCache.RemoveAll`).
- `setDatabaseType` is not guarded, so the dialect can change after the table settings are frozen.
- The doc comment on `setTimestampColumnType` describes a table-name prefix. The method sets the timestamp column
  type, as the model does.

## Model

| member | source | states |
|---|---|---|
| SyncCache.PutStep | api/src/main/java/org/infinispan/api/sync/SyncCache.java:83-100 | put answers the previous value exactly when the key was present (null otherwise); afterwards the key maps to the new value under a version newer than the one it replaced, every other key keeps its entry, and consistency is kept |
| SyncCache.PutIfAbsentStep | api/src/main/java/org/infinispan/api/sync/SyncCache.java:128-136 | putIfAbsent answers the previous value exactly when the key exists and then leaves the store unchanged; otherwise it inserts the pair and touches no other key |
| SyncCache.ReplaceStep | api/src/main/java/org/infinispan/api/sync/SyncCache.java:168-174 | replace succeeds exactly when the key holds an entry of the expected version; on success the new value gets a strictly newer version and no other key changes; on failure the store is unchanged (compare-and-swap, see Left out) |
| SyncCache.GetOrReplaceStep | api/src/main/java/org/infinispan/api/sync/SyncCache.java:186-193 | getOrReplaceEntry changes the store as replace does and answers the new entry when the swap succeeded, else the entry the key held (or null) |
| SyncCache.RemoveStep | api/src/main/java/org/infinispan/api/sync/SyncCache.java:205-212 | remove answers true exactly when an entry was removed; afterwards the key is absent and no other key changes |
| SyncCache.RemoveVersionStep | api/src/main/java/org/infinispan/api/sync/SyncCache.java:214-233 | remove by version deletes exactly when the key's version matches and otherwise leaves the store unchanged; it answers whether the entry was removed |
| SyncCache.GetAndRemoveStep | api/src/main/java/org/infinispan/api/sync/SyncCache.java:235-252 | getAndRemove answers the value before removal, or null when the key did not exist; afterwards the key is absent |
| SyncCache.PutAllStep | api/src/main/java/org/infinispan/api/sync/SyncCache.java:298-302 | putAll stores every pair of the map and leaves every key outside it untouched |
| SyncCache.ReadAll | api/src/main/java/org/infinispan/api/sync/SyncCache.java:314-321 | getAll answers exactly the supplied keys that are present, each with its current value |
| SyncCache.RemoveAllStep | api/src/main/java/org/infinispan/api/sync/SyncCache.java:352-359 | removeAll answers exactly the supplied keys that were present; afterwards none of the supplied keys is present and every other key is untouched |
| SyncCache.GetAndRemoveAllStep | api/src/main/java/org/infinispan/api/sync/SyncCache.java:371-377 | getAndRemoveAll answers the removed keys, each with its value before removal, and changes the store as removeAll does |
| SyncCache.ClearStep | api/src/main/java/org/infinispan/api/sync/SyncCache.java:395-405 | clear leaves no entry behind and keeps the store consistent |
| SyncCache.Apply | api/src/main/java/org/infinispan/api/sync/SyncCache.java:83-405 | every state-changing primitive keeps the store consistent and only adds entries newer than the store it started from |
| SyncCache.RunEvolves | api/src/main/java/org/infinispan/api/sync/SyncCache.java:164-233 | over any history of calls the store stays consistent and every entry is either an entry it had before or newer than all of them |
| SyncCache.VersionNeverReused | api/src/main/java/org/infinispan/api/sync/SyncCache.java:164-233 | a version is never reused for another value of the same key: an entry found later at the version the key had earlier is that same entry |
| SyncCache.StaleVersionRejected | api/src/main/java/org/infinispan/api/sync/SyncCache.java:164-233 | after the key is written again, replace and version-gated remove with the version read before fail and change nothing, while replace with the fresh version succeeds |
| SyncCache.MapCache.constructor | api/src/main/java/org/infinispan/api/sync/SyncCache.java:19-26 | a new reference cache carries the name it is given (what name() returns), holds no entry and is consistent |
| SyncCache.MapCache.GetEntry | api/src/main/java/org/infinispan/api/sync/SyncCache.java:74-81 | getEntry answers the key's entry exactly when the key exists, else null |
| SyncCache.MapCache.GetEntryDefault | api/src/main/java/org/infinispan/api/sync/SyncCache.java:64-72 | getEntry(key) is getEntry(key, DEFAULT) |
| SyncCache.MapCache.Get | api/src/main/java/org/infinispan/api/sync/SyncCache.java:53-62 | get(key, options) answers null exactly when getEntry(key, options) does, otherwise that entry's value |
| SyncCache.MapCache.GetDefault | api/src/main/java/org/infinispan/api/sync/SyncCache.java:42-51 | get(key) answers null exactly when getEntry(key, DEFAULT) does, otherwise that entry's value |
| SyncCache.MapCache.Put | api/src/main/java/org/infinispan/api/sync/SyncCache.java:94-100 | answers and stores as PutStep, keeping the cache consistent |
| SyncCache.MapCache.PutDefault | api/src/main/java/org/infinispan/api/sync/SyncCache.java:83-92 | put(key, value) answers and stores as put with DEFAULT write options |
| SyncCache.MapCache.Set | api/src/main/java/org/infinispan/api/sync/SyncCache.java:109-115 | changes the store exactly as put does and answers nothing |
| SyncCache.MapCache.SetDefault | api/src/main/java/org/infinispan/api/sync/SyncCache.java:102-107 | set(key, value) changes the store as set with DEFAULT write options |
| SyncCache.MapCache.PutIfAbsent | api/src/main/java/org/infinispan/api/sync/SyncCache.java:128-136 | answers and stores as PutIfAbsentStep |
| SyncCache.MapCache.PutIfAbsentDefault | api/src/main/java/org/infinispan/api/sync/SyncCache.java:117-126 | putIfAbsent(key, value) is putIfAbsent with DEFAULT write options |
| SyncCache.MapCache.SetIfAbsent | api/src/main/java/org/infinispan/api/sync/SyncCache.java:149-157 | answers true exactly when the key was absent, i.e. exactly when the entry was set; changes the store as putIfAbsent |
| SyncCache.MapCache.SetIfAbsentDefault | api/src/main/java/org/infinispan/api/sync/SyncCache.java:138-147 | setIfAbsent(key, value) is setIfAbsent with DEFAULT write options |
| SyncCache.MapCache.Replace | api/src/main/java/org/infinispan/api/sync/SyncCache.java:168-174 | answers and stores as ReplaceStep |
| SyncCache.MapCache.ReplaceDefault | api/src/main/java/org/infinispan/api/sync/SyncCache.java:159-166 | replace(key, value, version) is replace with DEFAULT write options |
| SyncCache.MapCache.GetOrReplaceEntry | api/src/main/java/org/infinispan/api/sync/SyncCache.java:186-193 | answers and stores as GetOrReplaceStep |
| SyncCache.MapCache.GetOrReplaceEntryDefault | api/src/main/java/org/infinispan/api/sync/SyncCache.java:176-184 | getOrReplaceEntry(key, value, version) is getOrReplaceEntry with DEFAULT write options |
| SyncCache.MapCache.Remove | api/src/main/java/org/infinispan/api/sync/SyncCache.java:205-212 | answers and stores as RemoveStep |
| SyncCache.MapCache.RemoveDefault | api/src/main/java/org/infinispan/api/sync/SyncCache.java:195-203 | remove(key) is remove with DEFAULT options |
| SyncCache.MapCache.RemoveVersion | api/src/main/java/org/infinispan/api/sync/SyncCache.java:225-233 | answers and stores as RemoveVersionStep |
| SyncCache.MapCache.RemoveVersionDefault | api/src/main/java/org/infinispan/api/sync/SyncCache.java:214-223 | remove(key, version) is remove(key, version, DEFAULT) |
| SyncCache.MapCache.GetAndRemove | api/src/main/java/org/infinispan/api/sync/SyncCache.java:245-252 | answers and stores as GetAndRemoveStep |
| SyncCache.MapCache.GetAndRemoveDefault | api/src/main/java/org/infinispan/api/sync/SyncCache.java:235-243 | getAndRemove(key) is getAndRemove with DEFAULT options |
| SyncCache.MapCache.PutAll | api/src/main/java/org/infinispan/api/sync/SyncCache.java:298-302 | stores as PutAllStep |
| SyncCache.MapCache.PutAllDefault | api/src/main/java/org/infinispan/api/sync/SyncCache.java:288-296 | putAll(entries) is putAll with DEFAULT write options |
| SyncCache.MapCache.GetAll | api/src/main/java/org/infinispan/api/sync/SyncCache.java:314-321 | answers ReadAll of the current contents |
| SyncCache.MapCache.GetAllDefault | api/src/main/java/org/infinispan/api/sync/SyncCache.java:304-312 | getAll(keys) is getAll(keys, DEFAULT) |
| SyncCache.MapCache.GetAllOf | api/src/main/java/org/infinispan/api/sync/SyncCache.java:333-340 | getAll(options, K...) answers exactly the listed keys that are present, with their values |
| SyncCache.MapCache.GetAllOfDefault | api/src/main/java/org/infinispan/api/sync/SyncCache.java:323-331 | getAll(K...) is getAll(DEFAULT, K...) |
| SyncCache.MapCache.RemoveAll | api/src/main/java/org/infinispan/api/sync/SyncCache.java:352-359 | answers and stores as RemoveAllStep |
| SyncCache.MapCache.RemoveAllDefault | api/src/main/java/org/infinispan/api/sync/SyncCache.java:342-350 | removeAll(keys) is removeAll(keys, DEFAULT) |
| SyncCache.MapCache.GetAndRemoveAll | api/src/main/java/org/infinispan/api/sync/SyncCache.java:371-377 | answers and stores as GetAndRemoveAllStep |
| SyncCache.MapCache.GetAndRemoveAllDefault | api/src/main/java/org/infinispan/api/sync/SyncCache.java:361-369 | getAndRemoveAll(keys) is getAndRemoveAll(keys, DEFAULT) |
| SyncCache.MapCache.EstimateSize | api/src/main/java/org/infinispan/api/sync/SyncCache.java:387-393 | estimateSize(options) is the number of entries the cache holds |
| SyncCache.MapCache.EstimateSizeDefault | api/src/main/java/org/infinispan/api/sync/SyncCache.java:379-386 | estimateSize() is estimateSize(DEFAULT) |
| SyncCache.MapCache.Clear | api/src/main/java/org/infinispan/api/sync/SyncCache.java:402-405 | stores as ClearStep |
| SyncCache.MapCache.ClearDefault | api/src/main/java/org/infinispan/api/sync/SyncCache.java:395-400 | clear() is clear(DEFAULT) |
| SyncCache.MapCache.ProcessAll | api/src/main/java/org/infinispan/api/sync/SyncCache.java:466-473 | processAll(processor, options) answers the processor applied to the cache's whole contents |
| SyncCache.MapCache.ProcessAllDefault | api/src/main/java/org/infinispan/api/sync/SyncCache.java:456-464 | processAll(processor) is processAll(processor, DEFAULT) |
| HotRod.HotRodSyncCache.constructor | client/hotrod/src/main/java/org/infinispan/hotrod/HotRodSyncCache.java:30-33 | the adapter wraps the given remote cache |
| HotRod.HotRodSyncCache.Name | client/hotrod/src/main/java/org/infinispan/hotrod/HotRodSyncCache.java:35-38 | name() is the remote cache's name, read directly |
| HotRod.HotRodSyncCache.GetEntry | client/hotrod/src/main/java/org/infinispan/hotrod/HotRodSyncCache.java:50-53 | getEntry answers what the remote getEntry answers: the remote's entry for the key, or null |
| HotRod.HotRodSyncCache.GetEntryDefault | api/src/main/java/org/infinispan/api/sync/SyncCache.java:70-72 | inherited getEntry(key) answers the remote entry for the key |
| HotRod.HotRodSyncCache.Get | api/src/main/java/org/infinispan/api/sync/SyncCache.java:59-62 | inherited get(key, options) answers null exactly when the remote has no entry for the key, otherwise the remote entry's value |
| HotRod.HotRodSyncCache.GetDefault | api/src/main/java/org/infinispan/api/sync/SyncCache.java:48-51 | inherited get(key) is the value of the remote getEntry(key, DEFAULT), or null exactly when the key is absent remotely |
| HotRod.HotRodSyncCache.Put | client/hotrod/src/main/java/org/infinispan/hotrod/HotRodSyncCache.java:55-58 | answers what the remote put answers and leaves the remote in the state put leaves |
| HotRod.HotRodSyncCache.PutDefault | api/src/main/java/org/infinispan/api/sync/SyncCache.java:90-92 | inherited put(key, value) forwards with DEFAULT write options |
| HotRod.HotRodSyncCache.Set | client/hotrod/src/main/java/org/infinispan/hotrod/HotRodSyncCache.java:60-63 | applies the remote set's state change and answers nothing |
| HotRod.HotRodSyncCache.SetDefault | api/src/main/java/org/infinispan/api/sync/SyncCache.java:105-107 | inherited set(key, value) forwards with DEFAULT write options |
| HotRod.HotRodSyncCache.PutIfAbsent | client/hotrod/src/main/java/org/infinispan/hotrod/HotRodSyncCache.java:65-68 | answers what the remote putIfAbsent answers, with its state change |
| HotRod.HotRodSyncCache.PutIfAbsentDefault | api/src/main/java/org/infinispan/api/sync/SyncCache.java:124-126 | inherited putIfAbsent(key, value) forwards with DEFAULT write options |
| HotRod.HotRodSyncCache.SetIfAbsent | client/hotrod/src/main/java/org/infinispan/hotrod/HotRodSyncCache.java:70-73 | answers what the remote setIfAbsent answers (true exactly when the key was absent), with its state change |
| HotRod.HotRodSyncCache.SetIfAbsentDefault | api/src/main/java/org/infinispan/api/sync/SyncCache.java:145-147 | inherited setIfAbsent(key, value) forwards with DEFAULT write options |
| HotRod.HotRodSyncCache.Replace | client/hotrod/src/main/java/org/infinispan/hotrod/HotRodSyncCache.java:75-78 | answers what the remote replace answers, with its state change |
| HotRod.HotRodSyncCache.ReplaceDefault | api/src/main/java/org/infinispan/api/sync/SyncCache.java:164-166 | inherited replace(key, value, version) forwards with DEFAULT write options |
| HotRod.HotRodSyncCache.GetOrReplaceEntry | client/hotrod/src/main/java/org/infinispan/hotrod/HotRodSyncCache.java:80-83 | answers what the remote getOrReplaceEntry answers, with its state change |
| HotRod.HotRodSyncCache.GetOrReplaceEntryDefault | api/src/main/java/org/infinispan/api/sync/SyncCache.java:182-184 | inherited getOrReplaceEntry(key, value, version) forwards with DEFAULT write options |
| HotRod.HotRodSyncCache.Remove | client/hotrod/src/main/java/org/infinispan/hotrod/HotRodSyncCache.java:85-88 | answers what the remote remove answers, with its state change |
| HotRod.HotRodSyncCache.RemoveDefault | api/src/main/java/org/infinispan/api/sync/SyncCache.java:201-203 | inherited remove(key) forwards with DEFAULT options |
| HotRod.HotRodSyncCache.RemoveVersion | client/hotrod/src/main/java/org/infinispan/hotrod/HotRodSyncCache.java:90-93 | answers what the remote version-gated remove answers, with its state change |
| HotRod.HotRodSyncCache.RemoveVersionDefault | api/src/main/java/org/infinispan/api/sync/SyncCache.java:221-223 | inherited remove(key, version) forwards with DEFAULT options |
| HotRod.HotRodSyncCache.GetAndRemove | client/hotrod/src/main/java/org/infinispan/hotrod/HotRodSyncCache.java:95-98 | answers what the remote getAndRemove answers, with its state change |
| HotRod.HotRodSyncCache.GetAndRemoveDefault | api/src/main/java/org/infinispan/api/sync/SyncCache.java:241-243 | inherited getAndRemove(key) forwards with DEFAULT options |
| HotRod.HotRodSyncCache.KeysDefault | client/hotrod/src/main/java/org/infinispan/hotrod/HotRodSyncCache.java:100-103 | keys() always signals unsupported and does not read the remote cache |
| HotRod.HotRodSyncCache.Keys | client/hotrod/src/main/java/org/infinispan/hotrod/HotRodSyncCache.java:105-108 | keys(options) always signals unsupported and does not read the remote cache |
| HotRod.HotRodSyncCache.EntriesDefault | client/hotrod/src/main/java/org/infinispan/hotrod/HotRodSyncCache.java:110-113 | entries() always signals unsupported and does not read the remote cache |
| HotRod.HotRodSyncCache.Entries | client/hotrod/src/main/java/org/infinispan/hotrod/HotRodSyncCache.java:115-118 | entries(options) always signals unsupported and does not read the remote cache |
| HotRod.HotRodSyncCache.PutAll | client/hotrod/src/main/java/org/infinispan/hotrod/HotRodSyncCache.java:120-123 | applies the remote putAll's state change and answers nothing |
| HotRod.HotRodSyncCache.PutAllDefault | api/src/main/java/org/infinispan/api/sync/SyncCache.java:294-296 | inherited putAll(entries) forwards with DEFAULT write options |
| HotRod.HotRodSyncCache.GetAllDefault | client/hotrod/src/main/java/org/infinispan/hotrod/HotRodSyncCache.java:125-128 | getAll(keys) always signals unsupported |
| HotRod.HotRodSyncCache.GetAll | client/hotrod/src/main/java/org/infinispan/hotrod/HotRodSyncCache.java:130-133 | getAll(keys, options) always signals unsupported |
| HotRod.HotRodSyncCache.GetAllOf | client/hotrod/src/main/java/org/infinispan/hotrod/HotRodSyncCache.java:135-138 | getAll(options, K...) answers null without consulting the remote cache |
| HotRod.HotRodSyncCache.GetAllOfDefault | api/src/main/java/org/infinispan/api/sync/SyncCache.java:329-331 | inherited getAll(K...) calls getAll(DEFAULT, K...) and so answers null as well |
| HotRod.HotRodSyncCache.RemoveAllDefault | client/hotrod/src/main/java/org/infinispan/hotrod/HotRodSyncCache.java:140-143 | removeAll(keys) is overridden and always signals unsupported |
| HotRod.HotRodSyncCache.RemoveAll | client/hotrod/src/main/java/org/infinispan/hotrod/HotRodSyncCache.java:145-148 | removeAll(keys, options) answers null and removes nothing |
| HotRod.HotRodSyncCache.GetAndRemoveAllDefault | client/hotrod/src/main/java/org/infinispan/hotrod/HotRodSyncCache.java:150-153 | getAndRemoveAll(keys) always signals unsupported |
| HotRod.HotRodSyncCache.GetAndRemoveAll | client/hotrod/src/main/java/org/infinispan/hotrod/HotRodSyncCache.java:155-158 | getAndRemoveAll(keys, options) always signals unsupported |
| HotRod.HotRodSyncCache.EstimateSize | client/hotrod/src/main/java/org/infinispan/hotrod/HotRodSyncCache.java:160-163 | answers what the remote estimateSize answers: the number of remote entries |
| HotRod.HotRodSyncCache.EstimateSizeDefault | api/src/main/java/org/infinispan/api/sync/SyncCache.java:384-386 | inherited estimateSize() answers the number of remote entries |
| HotRod.HotRodSyncCache.Clear | client/hotrod/src/main/java/org/infinispan/hotrod/HotRodSyncCache.java:165-168 | applies the remote clear's state change and answers nothing |
| HotRod.HotRodSyncCache.ClearDefault | api/src/main/java/org/infinispan/api/sync/SyncCache.java:398-400 | inherited clear() forwards with DEFAULT options |
| HotRod.HotRodSyncCache.Listen | client/hotrod/src/main/java/org/infinispan/hotrod/HotRodSyncCache.java:175-178 | listen always signals unsupported |
| HotRod.HotRodSyncCache.Process | client/hotrod/src/main/java/org/infinispan/hotrod/HotRodSyncCache.java:180-183 | process(keys, processor, options) always signals unsupported |
| HotRod.HotRodSyncCache.ProcessDefault | api/src/main/java/org/infinispan/api/sync/SyncCache.java:442-444 | inherited process(keys, processor) calls the three-argument form and so signals unsupported |
| HotRod.HotRodSyncCache.ProcessAll | client/hotrod/src/main/java/org/infinispan/hotrod/HotRodSyncCache.java:185-188 | answers what the remote processAll answers: the processor applied to the remote contents |
| HotRod.HotRodSyncCache.ProcessAllDefault | api/src/main/java/org/infinispan/api/sync/SyncCache.java:462-464 | inherited processAll(processor) forwards with DEFAULT processor options |
| JavaStrings.UpperChar | cachestore/jdbc/src/main/java/org/infinispan/loaders/jdbc/AbstractNonDelegatingJdbcCacheStoreConfig.java:154 | upper-casing a character never changes whether trim strips it |
| JavaStrings.ToUpper | cachestore/jdbc/src/main/java/org/infinispan/loaders/jdbc/AbstractNonDelegatingJdbcCacheStoreConfig.java:154 | toUpperCase keeps the length and upper-cases each character in place |
| JavaStrings.TrimStart | cachestore/jdbc/src/main/java/org/infinispan/loaders/jdbc/AbstractNonDelegatingJdbcCacheStoreConfig.java:154 | the leading part trim strips: the result is a suffix, everything dropped is at most U+0020 and the result does not start with such a character |
| JavaStrings.TrimEnd | cachestore/jdbc/src/main/java/org/infinispan/loaders/jdbc/AbstractNonDelegatingJdbcCacheStoreConfig.java:154 | the trailing part trim strips: the result is a prefix, everything dropped is at most U+0020 and the result does not end with such a character |
| JavaStrings.UpperTrimStart | cachestore/jdbc/src/main/java/org/infinispan/loaders/jdbc/AbstractNonDelegatingJdbcCacheStoreConfig.java:154 | stripping the leading characters commutes with upper-casing |
| JavaStrings.UpperTrimEnd | cachestore/jdbc/src/main/java/org/infinispan/loaders/jdbc/AbstractNonDelegatingJdbcCacheStoreConfig.java:154 | stripping the trailing characters commutes with upper-casing |
| JavaStrings.UpperTrimCommute | cachestore/jdbc/src/main/java/org/infinispan/loaders/jdbc/AbstractNonDelegatingJdbcCacheStoreConfig.java:154 | `s.toUpperCase().trim()` equals `s.trim().toUpperCase()` |
| JdbcStoreConfig.ValueOf | cachestore/jdbc/src/main/java/org/infinispan/loaders/jdbc/AbstractNonDelegatingJdbcCacheStoreConfig.java:154 | a dialect is found exactly when the name is one of the enum's constant names, and it is the constant of that name |
| JdbcStoreConfig.DialectDependsOnlyOnNormalForm | cachestore/jdbc/src/main/java/org/infinispan/loaders/jdbc/AbstractNonDelegatingJdbcCacheStoreConfig.java:152-155 | the dialect setDatabaseType selects depends only on the name trimmed and upper-cased |
| JdbcStoreConfig.ResolvedDialectReadsBack | cachestore/jdbc/src/main/java/org/infinispan/loaders/jdbc/AbstractNonDelegatingJdbcCacheStoreConfig.java:142-155 | a name that selects a dialect reads back through getDatabaseType as the name trimmed and upper-cased |
| JdbcStoreConfig.TableManipulation.Clone | cachestore/jdbc/src/main/java/org/infinispan/loaders/jdbc/AbstractNonDelegatingJdbcCacheStoreConfig.java:161 | the table clone is a new object holding the same values |
| JdbcStoreConfig.AbstractNonDelegatingJdbcCacheStoreConfig.constructor | cachestore/jdbc/src/main/java/org/infinispan/loaders/jdbc/AbstractNonDelegatingJdbcCacheStoreConfig.java:14-21 | a fresh configuration has lock concurrency level 2048, lock acquisition timeout 60000, manages its connection factory, and owns a new table description |
| JdbcStoreConfig.AbstractNonDelegatingJdbcCacheStoreConfig.ShallowCopy | cachestore/jdbc/src/main/java/org/infinispan/loaders/jdbc/AbstractNonDelegatingJdbcCacheStoreConfig.java:160 | super.clone() copies every field and shares the table description |
| JdbcStoreConfig.AbstractNonDelegatingJdbcCacheStoreConfig.TestImmutability | cachestore/jdbc/src/main/java/org/infinispan/loaders/jdbc/AbstractNonDelegatingJdbcCacheStoreConfig.java:27 | the guard admits an element exactly when it is not frozen, and otherwise refuses it with a ConfigurationException naming that element |
| JdbcStoreConfig.AbstractNonDelegatingJdbcCacheStoreConfig.SetCacheName | cachestore/jdbc/src/main/java/org/infinispan/loaders/jdbc/AbstractNonDelegatingJdbcCacheStoreConfig.java:26-29 | succeeds exactly when the guard admits "tableManipulation" (else ConfigurationException and no change); on success only `cacheName` of the shared table description changes, in place |
| JdbcStoreConfig.AbstractNonDelegatingJdbcCacheStoreConfig.SetIdColumnName | cachestore/jdbc/src/main/java/org/infinispan/loaders/jdbc/AbstractNonDelegatingJdbcCacheStoreConfig.java:38-41 | succeeds exactly when the guard admits "tableManipulation" (else ConfigurationException and no change); on success only `idColumnName` of the shared table description changes, in place |
| JdbcStoreConfig.AbstractNonDelegatingJdbcCacheStoreConfig.SetDataColumnName | cachestore/jdbc/src/main/java/org/infinispan/loaders/jdbc/AbstractNonDelegatingJdbcCacheStoreConfig.java:46-49 | succeeds exactly when the guard admits "tableManipulation" (else ConfigurationException and no change); on success only `dataColumnName` of the shared table description changes, in place |
| JdbcStoreConfig.AbstractNonDelegatingJdbcCacheStoreConfig.SetTimestampColumnName | cachestore/jdbc/src/main/java/org/infinispan/loaders/jdbc/AbstractNonDelegatingJdbcCacheStoreConfig.java:54-57 | succeeds exactly when the guard admits "tableManipulation" (else ConfigurationException and no change); on success only `timestampColumnName` of the shared table description changes, in place |
| JdbcStoreConfig.AbstractNonDelegatingJdbcCacheStoreConfig.SetTimestampColumnType | cachestore/jdbc/src/main/java/org/infinispan/loaders/jdbc/AbstractNonDelegatingJdbcCacheStoreConfig.java:63-66 | succeeds exactly when the guard admits "tableManipulation" (else ConfigurationException and no change); on success only `timestampColumnType` of the shared table description changes, in place |
| JdbcStoreConfig.AbstractNonDelegatingJdbcCacheStoreConfig.GetTableManipulation | cachestore/jdbc/src/main/java/org/infinispan/loaders/jdbc/AbstractNonDelegatingJdbcCacheStoreConfig.java:68-70 | answers the very table description object the configuration holds, not a copy |
| JdbcStoreConfig.AbstractNonDelegatingJdbcCacheStoreConfig.SetIdColumnType | cachestore/jdbc/src/main/java/org/infinispan/loaders/jdbc/AbstractNonDelegatingJdbcCacheStoreConfig.java:75-78 | succeeds exactly when the guard admits "tableManipulation" (else ConfigurationException and no change); on success only `idColumnType` of the shared table description changes, in place |
| JdbcStoreConfig.AbstractNonDelegatingJdbcCacheStoreConfig.SetDataColumnType | cachestore/jdbc/src/main/java/org/infinispan/loaders/jdbc/AbstractNonDelegatingJdbcCacheStoreConfig.java:83-86 | succeeds exactly when the guard admits "tableManipulation" (else ConfigurationException and no change); on success only `dataColumnType` of the shared table description changes, in place |
| JdbcStoreConfig.AbstractNonDelegatingJdbcCacheStoreConfig.SetDropTableOnExit | cachestore/jdbc/src/main/java/org/infinispan/loaders/jdbc/AbstractNonDelegatingJdbcCacheStoreConfig.java:88-91 | succeeds exactly when the guard admits "tableManipulation" (else ConfigurationException and no change); on success only `dropTableOnExit` of the shared table description changes, in place |
| JdbcStoreConfig.AbstractNonDelegatingJdbcCacheStoreConfig.SetCreateTableOnStart | cachestore/jdbc/src/main/java/org/infinispan/loaders/jdbc/AbstractNonDelegatingJdbcCacheStoreConfig.java:93-96 | succeeds exactly when the guard admits "tableManipulation" (else ConfigurationException and no change); on success only `createTableOnStart` of the shared table description changes, in place |
| JdbcStoreConfig.AbstractNonDelegatingJdbcCacheStoreConfig.IsManageConnectionFactory | cachestore/jdbc/src/main/java/org/infinispan/loaders/jdbc/AbstractNonDelegatingJdbcCacheStoreConfig.java:103-105 | answers whether the configuration manages its connection factory itself |
| JdbcStoreConfig.AbstractNonDelegatingJdbcCacheStoreConfig.SetTableManipulation | cachestore/jdbc/src/main/java/org/infinispan/loaders/jdbc/AbstractNonDelegatingJdbcCacheStoreConfig.java:107-110 | guarded; on success getTableManipulation then answers the very object passed in, on refusal the old one |
| JdbcStoreConfig.AbstractNonDelegatingJdbcCacheStoreConfig.SetFetchSize | cachestore/jdbc/src/main/java/org/infinispan/loaders/jdbc/AbstractNonDelegatingJdbcCacheStoreConfig.java:115-118 | guarded; on success only fetchSize changes and getFetchSize then answers the value set |
| JdbcStoreConfig.AbstractNonDelegatingJdbcCacheStoreConfig.SetBatchSize | cachestore/jdbc/src/main/java/org/infinispan/loaders/jdbc/AbstractNonDelegatingJdbcCacheStoreConfig.java:123-126 | guarded; on success only batchSize changes and getBatchSize then answers the value set |
| JdbcStoreConfig.AbstractNonDelegatingJdbcCacheStoreConfig.GetFetchSize | cachestore/jdbc/src/main/java/org/infinispan/loaders/jdbc/AbstractNonDelegatingJdbcCacheStoreConfig.java:131-133 | answers the fetch size held by the current table description |
| JdbcStoreConfig.AbstractNonDelegatingJdbcCacheStoreConfig.GetBatchSize | cachestore/jdbc/src/main/java/org/infinispan/loaders/jdbc/AbstractNonDelegatingJdbcCacheStoreConfig.java:138-140 | answers the batch size held by the current table description |
| JdbcStoreConfig.AbstractNonDelegatingJdbcCacheStoreConfig.GetDatabaseType | cachestore/jdbc/src/main/java/org/infinispan/loaders/jdbc/AbstractNonDelegatingJdbcCacheStoreConfig.java:142-144 | answers "" when no dialect is set, otherwise the dialect's name |
| JdbcStoreConfig.AbstractNonDelegatingJdbcCacheStoreConfig.SetDatabaseType | cachestore/jdbc/src/main/java/org/infinispan/loaders/jdbc/AbstractNonDelegatingJdbcCacheStoreConfig.java:152-155 | null changes nothing; otherwise the dialect of the name upper-cased and trimmed is stored and reads back as that name, or IllegalArgumentException and no change; never a ConfigurationException |
| JdbcStoreConfig.AbstractNonDelegatingJdbcCacheStoreConfig.Clone | cachestore/jdbc/src/main/java/org/infinispan/loaders/jdbc/AbstractNonDelegatingJdbcCacheStoreConfig.java:158-163 | the clone is a new configuration with equal fields and its own, fresh copy of the table description holding equal values |
| JdbcStoreConfig.CloneIsDeep | cachestore/jdbc/src/main/java/org/infinispan/loaders/jdbc/AbstractNonDelegatingJdbcCacheStoreConfig.java:158-163 | a table setter applied to a clone takes effect on the clone and leaves the original's table description unchanged |

## Left out

- Blocking on futures (`await`), remote failures, timeouts and transport errors: the remote cache is modelled as an
  in-memory `MapCache` whose calls always complete.
- Concurrency: every call is atomic in the model. The interface's caveats that `clear` and `estimateSize` may observe
  concurrent writers are not modelled, and `estimateSize` is the exact number of entries.
- `configuration()`, `container()`, `query(...)` and `streaming()` return objects of other components (cache
  configuration, container, query and streaming cache). Those components are not part of this model.
- `keys()`, `entries()`, `listen(...)` and `process(...)` of the reference `MapCache`: they return iterables, listener
  handles and entry-processor results. Those types are not part of this model. The adapter's versions are modelled
  because they only signal unsupported.
- Processors and listeners are opaque: `processAll` takes a pure function of the cache contents, and no processor can
  mutate entries.
- `CacheEntry` metadata (lifespan, max idle, creation time) and the contents of the option objects: options are
  carried through but do not change the store.
- `CacheEntryVersion` is a natural number drawn from a per-cache clock. Other version encodings are not modelled.
- `SyncCache.ReplaceStep`: the interface leaves `replace(key, value, version, options)` undocumented. The model's choice
  is that it succeeds exactly when the key's current version equals the expected one; this is not a promise of the
  interface. The adapter only forwards the call.
- `SyncCache.GetAndRemoveAllStep`: the interface documents `getAndRemoveAll` only as answering the keys that were
  removed. Pairing each answered key with its value before removal follows the call's name and its map result type;
  it is the model's reading, not a documented promise.
- `SyncCache.GetOrReplaceStep`: the interface leaves `getOrReplaceEntry` undocumented. Answering the current entry
  when the swap fails comes from the entry-returning shape of the call. Answering the new entry when it succeeds is
  the model's choice, not a promise of the interface.
- `estimateSize` returns a Java `long`; the model uses an unbounded `nat`.
- `JavaStrings.ToUpper`: upper-cases ASCII letters only, not Java's full locale-sensitive Unicode mapping.
- `null` arguments to the string setters of the configuration: Java would store the null, but the model takes
  strings only.
- `JdbcStoreConfig.AbstractNonDelegatingJdbcCacheStoreConfig.SetTableManipulation`: Java accepts and stores a `null`
  table description. After that, `getTableManipulation` answers null, and every table setter and getter of the class
  fails with a null dereference. The model's table field is never null, so this path is not modelled.
- `TableManipulation`, `DatabaseType`, the parent configuration classes and `testImmutability` are not part of this
  model.
- The table description's defaults: the configuration constructor takes the initial table record as a parameter.
  The guard is an abstract set of element names, initially empty.
- `super.clone()` also copies the fields of the parent configuration classes. Only this class's fields are modelled.
- The lock settings `lockConcurrencyLevel` and `lockAcquistionTimeout`: only their defaults are modelled, because this
  class offers no accessors for them.
- `HotRodSyncCache`'s `hotrod` field is only used by `container()` and `streaming()`, so it is left out with them.
