# Datastore coordinator, modelled in Dafny

This project models the core of a small document datastore written in JavaScript.
The `Datastore` class (`lib/db.js`) stores JSON documents by namespace and key in a
storage backend. It can put a cache in front of reads, and it keeps one optional
full-text search indexer per namespace, which it loads lazily and persists on request.
The model covers:

- the coordinator and all of its operations:
  - `checkNS`, `_loadFromCache`, `cacheEntity`;
  - `exists`, `put`, `get`, `index`, `filter`, `list`;
  - `loadIndex`, `dumpIndex`, `flushIndex`;
  - the constructor;
- the storage layer it relies on (`lib/storage.js`):
  - the key builder `_buildKey`;
  - the S3 adapter's inverse `_getKeyFromPath`;
  - the in-memory `MockStore` backend;
- the life cycle of the two indexers (`lib/indexer.js`, `Elasticlunr` and `Flexsearch`).

Files:

| File | What it holds |
|---|---|
| `outcomes.dfy` | How an operation ends. A promise can resolve, or reject with a bare string. It can reject with an Error raised inside a continuation. Or the call throws before any promise exists. The source treats these differently, so the model keeps them apart. |
| `values.dfy` | The JavaScript values that flow through the datastore. It also covers truthiness, which property names are array indices, the string conversion `Array.prototype.join` applies to keys, and how `dumpIndex` reads a write acknowledgment. |
| `ids.dfy` | `_generateId`: a version-4 UUID rendered as 32 lowercase hex digits. The 16 random bytes are a parameter. |
| `keys.dfy` | `_buildKey`, `_getKeyFromPath` and the cache and index-snapshot keys. |
| `storage.dfy` | `MockStore`, a class whose `mock` field (bucket → key → document) its four methods update in place. Each bucket keeps its keys in the order JavaScript enumerates an object's own properties: array-index keys first, in ascending numeric order, then the other keys in the order they were first written. |
| `cache.dfy` | The external cache client: an in-memory dictionary with `get` and `set`, holding the JSON text of a value or text that is not JSON, and how `JSON.parse` reads a reply. |
| `indexer.dfy` | `Indexer`, a class with the `index` (null or loaded) and `dirty` fields. One `engine` field picks the Elasticlunr or the Flexsearch behaviour. |
| `effects.dfy` | Pure specification of `get` and of a run of `get`s over the backend and cache state, with the properties proved about them. |
| `datastore.dfy` | The `Datastore` class. Each method is proved against the pure specifications. |

Promises are flattened: every operation is a sequential method that returns a
`Result` or an `Outcome`. Both collaborators keep a ghost call log, so the contracts
can say how many calls were made and in what order. They can also say what was
passed, for example that `get` reads the backend at most once and only on a cache
miss, or that `loadIndex` performs no read once the index is loaded.

The model follows the code where a reader might expect otherwise:

- `loadIndex` does not catch a failed read of the snapshot. A namespace whose
  snapshot was never written therefore rejects with "Key does not exist" and stays
  unloaded. Only an unreadable snapshot falls back to a fresh index.
- `list` reads its continuation token from the array of fetched documents, so
  `next` is always undefined.
- `MockStore.listDocs` returns documents rather than keys, so `list` turns each
  document into a key with `join`'s string conversion. A stored object becomes
  `"[object Object]"`; a stored Flexsearch snapshot, being a string, is used as it is.
- `Object.values` lists a bucket's documents in JavaScript's property order, not
  in write order: a document stored under an array-index key such as "1" is
  listed before one stored earlier under "b".
- `get` rejects when the cache holds text that `JSON.parse` refuses. It does not
  fall back to the backend in that case.
- `put` without a key writes the generated id into `doc[ref]` even when the
  namespace has no `ref`. The property is then named `"undefined"`.
- `flushIndex` makes no namespace or indexer check of its own. Without `saveFirst`
  it throws a TypeError for an unknown namespace or a missing indexer. With
  `saveFirst` and persistence off, the same TypeError arises inside the
  continuation, so the promise rejects instead.
- `dumpIndex` calls `serialize` before any promise exists. An unloaded index
  therefore makes `dumpIndex` throw rather than reject.

## Model

| member | source | states |
|---|---|---|
| `Values.Truthy` | lib/db.js:93 | JavaScript truthiness: a value is falsy exactly when it is undefined, null, false, 0 or the empty string |
| `Values.Given` | lib/db.js:75-77 | an optional string argument counts as given exactly when it is present and truthy, as `if (!_id)`, `if (!params.db)` and `_buildKey`'s parent test use it |
| `Values.PropertyKey` | lib/db.js:79 | the property `doc[ref]` names: `ref` itself, or "undefined" when the namespace has no ref |
| `Values.ToKeyString` | lib/db.js:135-136 | the key `join` makes of a listed value: "" for null and undefined, a string as it is, a non-negative number in decimal, "[object Object]" for an object or an Elasticlunr snapshot, and the exported text for a Flexsearch snapshot |
| `Values.ExportText` | lib/indexer.js:116-119 | Flexsearch's export is a JSON array text, so never empty |
| `Values.Acknowledged` | lib/db.js:180 | `Object.values(ack).length > 0`: rejects exactly for null and undefined; an object, array or string answers whether it is non-empty, a snapshot answers true, and a boolean or number answers false |
| `Ids.Hex` | lib/db.js:30 | `toString('hex')` gives exactly two characters per byte, all of them lowercase hex digits |
| `Ids.HexAt` | lib/db.js:30 | byte `i` is rendered at positions `2i` and `2i + 1`, high nibble first |
| `Ids.GenerateId` | lib/db.js:29-31 | a generated id is 32 lowercase hex characters with the version digit 4 at position 12 and a variant digit in 8, 9, a, b at position 16 |
| `Ids.HexInjective` | lib/db.js:30 | the hex rendering loses nothing: equal renderings of equal-length byte strings come from equal bytes |
| `Ids.GenerateIdInjective` | lib/db.js:29-31 | distinct UUIDs give distinct ids |
| `Keys.BuildKey` | lib/storage.js:37-43 | the path is `ns/key/entity.json`, or `ns/parent/key/entity.json` for a truthy parent; a null, absent or empty parent gives the first form |
| `Keys.CacheKey` | lib/db.js:44 | the cache key of an entity is `ns/key` |
| `Keys.IndexDocKey` | lib/db.js:158 | a namespace's index snapshot lives at `ns/indexPath` |
| `Keys.Split` | lib/storage.js:130 | `split('/')` yields at least one segment and no segment contains '/' |
| `Keys.GetKeyFromPath` | lib/storage.js:129-133 | a key is found exactly when `split('/')` gives more than one segment; it is then the second-to-last segment, and contains no '/' |
| `Keys.SplitSingleton` | lib/storage.js:130-131 | a path has a single segment exactly when it has no '/' |
| `Keys.GetKeyFromPathNull` | lib/storage.js:131-132 | `_getKeyFromPath` returns null exactly for paths without '/' |
| `Keys.KeyFromPathRoundTrip` | lib/storage.js:37-43 | `_getKeyFromPath(_buildKey(ns, key, parent))` is `key` for every key without '/', with or without a parent |
| `Keys.BuildKeyInjective` | lib/storage.js:37-43 | within one namespace and parent, distinct keys give distinct paths |
| `Keys.LayoutsOverlap` | lib/storage.js:40-41 | once keys may contain '/', key "p/k" without a parent lands on the path of key "k" under parent "p" |
| `Keys.IndexPathIsNotEntityPath` | lib/db.js:158 | an index snapshot path never coincides with an entity path, whatever the namespaces |
| `Storage.Touch` | lib/storage.js:73 | touching a bucket creates it when missing and adds no other bucket |
| `Storage.Write` | lib/storage.js:72-74 | `writeDoc`'s update: the bucket exists afterwards, no other bucket is added, and its documents are the old ones with the key set to the document |
| `Storage.Store` | lib/storage.js:74 | writing sets that key's document and leaves every other key's document alone |
| `Storage.ReadOutcome` | lib/storage.js:83-86 | a read succeeds exactly when a truthy document is stored, and then yields that document; otherwise it rejects with "Key does not exist" |
| `Storage.IndexSlotBounds` | lib/storage.js:74 | a new array-index key goes after every smaller array index at the front of the key order and before the first key that is not one |
| `Storage.InsertKeyShape` | lib/storage.js:74 | adding a key puts it at its slot and shifts the keys after the slot by one, keeping all the others |
| `Storage.InsertKeyOrdered` | lib/storage.js:74 | adding a new key keeps the key order JavaScript's: every key before an array index is a smaller array index |
| `Storage.InsertKeyDistinct` | lib/storage.js:74 | adding a new key keeps the keys distinct |
| `Storage.InsertKeyMembers` | lib/storage.js:74 | adding a key adds exactly that key to the key order |
| `Storage.InsertKeyWellFormed` | lib/storage.js:74 | adding a new key keeps a bucket's key order exactly its set of stored keys, without repeats |
| `Storage.StoreKeepsPropertyOrder` | lib/storage.js:74 | a write keeps a bucket's keys in JavaScript's property order |
| `Storage.WriteKeepsPropertyOrder` | lib/storage.js:72-76 | `writeDoc` keeps every bucket in JavaScript's property order |
| `Storage.TouchKeepsPropertyOrder` | lib/storage.js:73 | creating an empty bucket keeps every bucket in JavaScript's property order |
| `Storage.Present` | lib/storage.js:80 | `headDoc`'s answer: a document is stored under the key and it is truthy |
| `Storage.PresentAfterWrite` | lib/storage.js:72-81 | after a write, `headDoc` answers whether the written document is truthy |
| `Storage.Listing` | lib/storage.js:90 | the listing holds one document per key, the document of the key at the same place in the bucket's key order |
| `Storage.ReadAfterWrite` | lib/storage.js:72-86 | reading a key after writing it yields the written document if it is truthy, and rejects otherwise |
| `Storage.WriteFrame` | lib/storage.js:72-76 | a write changes only its own key of its own bucket |
| `Storage.TouchKeepsDocuments` | lib/storage.js:73 | creating an empty bucket adds no document anywhere |
| `Storage.ListingShifted` | lib/storage.js:90 | when a key is added at some position of the key order, its document appears at that position of the listing, and the rest of the listing is unchanged in order |
| `Storage.ListingAfterNewKey` | lib/storage.js:88-96 | after a new key is written, the new document comes last, unless the key is an array index: then it comes right after the documents of the smaller array-index keys |
| `Storage.IndexListedBeforeName` | lib/storage.js:88-96 | an array-index key written after a key that is not one is listed first |
| `Storage.ArrayIndexListedFirst` | lib/storage.js:88-96 | writing "b" and then "1" lists the second document first |
| `Storage.ListingAfterOverwrite` | lib/storage.js:88-96 | overwriting a key keeps the listing's length and order and replaces only that key's document |
| `Storage.ListingIsComplete` | lib/storage.js:88-96 | every stored document appears in the listing, and the listing holds only stored documents |
| `Storage.MockStore.constructor` | lib/storage.js:98 | a new store holds no bucket and has made no call |
| `Storage.MockStore.WriteDoc` | lib/storage.js:72-76 | `writeDoc` stores the document at the key, records one write and resolves the document itself |
| `Storage.MockStore.HeadDoc` | lib/storage.js:78-81 | `headDoc` creates the bucket if missing, records one call and resolves whether a truthy document is stored |
| `Storage.MockStore.ReadDoc` | lib/storage.js:83-86 | `readDoc` creates the bucket if missing, records one call and resolves or rejects as `ReadOutcome` says |
| `Storage.MockStore.ListDocs` | lib/storage.js:88-96 | `listDocs` creates the bucket if missing, records one call with the bucket, prefix and max, and resolves a null continuation with every document of the bucket in key order, ignoring prefix and max |
| `Caching.Cached` | lib/db.js:44-45 | the client's reply is null exactly on a miss, and otherwise the text stored under the key |
| `Caching.ParseReply` | lib/db.js:45 | `JSON.parse` of the reply: null gives null, text that is not JSON rejects with a SyntaxError, and only that rejects |
| `Caching.ParseAfterSet` | lib/db.js:45-57 | the reply under a key just set to the JSON of a document parses back to that document |
| `Caching.CacheClient.constructor` | lib/db.js:198-201 | a new cache client holds nothing and has seen no call |
| `Caching.CacheClient.Get` | lib/db.js:43-45 | a cache get records one call, changes no entry and returns the text stored under the key or null |
| `Caching.CacheClient.Set` | lib/db.js:57 | a cache set records one call and stores the text with its mode and expiry under the key, leaving other keys alone |
| `Indexing.FreshIndex` | lib/indexer.js:43-53 | what `init` builds holds no document; for Elasticlunr it is configured with the given fields and ref, and for Flexsearch (lines 109-114) with neither |
| `Indexing.NewPostings` | lib/indexer.js:60-63 | the engine calls one `add` makes: the whole document once for Elasticlunr, and for Flexsearch (lines 121-128) one call per configured field, in field order, under `doc[ref]` |
| `Indexing.Import` | lib/indexer.js:35-41 | the engine's deserializer accepts exactly a snapshot exported by the same engine |
| `Indexing.LoadedIndex` | lib/indexer.js:35-41 | what `load` leaves: the snapshot's index when it is this engine's, and otherwise the fresh index `init(_fields, _ref)` builds (Flexsearch: lines 99-107) |
| `Indexing.FieldPostings` | lib/indexer.js:124-127 | Flexsearch's add makes one engine call per configured field, in field order, each with `doc[ref]` as id and that field's value as content |
| `Indexing.Refs` | lib/indexer.js:67-69 | Elasticlunr's search returns the `ref` of each engine hit, in the engine's order |
| `Indexing.Indexer.constructor` | lib/indexer.js:72-77 | a new indexer has no index, is clean, and has the index file name `el_index.json` for Elasticlunr or `flex_index.json` for Flexsearch (lines 135-140) |
| `Indexing.Indexer.IsDirty` | lib/indexer.js:23-25 | `isDirty` returns the current dirty flag |
| `Indexing.Indexer.SetClean` | lib/indexer.js:27-29 | `setClean` clears the dirty flag and leaves the index alone |
| `Indexing.Indexer.Reset` | lib/indexer.js:31-33 | `reset` unloads the index and leaves the dirty flag as it was |
| `Indexing.Indexer.Init` | lib/indexer.js:43-53 | `init` builds a fresh index: for Elasticlunr it holds the given fields in order and the given ref; for Flexsearch (lines 109-114) it is unconfigured; the dirty flag is untouched |
| `Indexing.Indexer.Load` | lib/indexer.js:35-41 | after `load` an index is always present: the imported snapshot, or `init(_fields, _ref)` when import fails (Flexsearch: lines 99-107); the dirty flag is untouched |
| `Indexing.Indexer.Serialize` | lib/indexer.js:55-58 | `serialize` throws "Tried to serialize an index not loaded yet" without an index, and otherwise exports a snapshot of exactly the loaded index |
| `Indexing.Indexer.Add` | lib/indexer.js:60-63 | `add` always sets the dirty flag; on a loaded index it appends exactly the engine calls for the document (Flexsearch: lines 121-128); on an unloaded one it throws the null-dereference TypeError, except Flexsearch with no fields, which makes no call |
| `Indexing.SearchResult` | lib/indexer.js:65-70 | what `search` returns for the engine's hits: their `ref`s in order for Elasticlunr, and for Flexsearch (lines 130-133) the hits unchanged |
| `Indexing.Indexer.Search` | lib/indexer.js:65-70 | `search` fails exactly when no index is loaded, and otherwise returns `SearchResult` of the engine's hits: the refs for Elasticlunr, the hits themselves for Flexsearch (lines 130-133) |
| `Indexing.SnapshotRoundTrip` | lib/indexer.js:35-58 | loading what `serialize` exported gives back the same index |
| `Indexing.LoadFallsBackToInit` | lib/indexer.js:35-53 | anything other than the engine's own snapshot loads as the fresh index `init` builds, with no documents |
| `Effects.CacheLookup` | lib/db.js:41-50 | `_loadFromCache` resolves null without a cache; with one it appends one `get` of `ns/key` to the cache's call log, answers `JSON.parse` of the reply, and changes neither entries nor backend |
| `Effects.Expire` | lib/db.js:53-54 | the expiry is the override when it is truthy, and the datastore's default otherwise |
| `Effects.CacheStore` | lib/db.js:52-63 | `cacheEntity` has no effect without a cache; with one, it makes exactly one `set(ns/key, JSON(doc), 'EX', expiry)` call, sets that entry and no other, and leaves the backend untouched |
| `Effects.GetStep` | lib/db.js:87-101 | `get` resolves only truthy documents, and rejects only with "Key does not exist" or a JSON SyntaxError |
| `Effects.CacheHit` | lib/db.js:92-93 | the cache settles a `get` only when it holds an entry under `ns/key`: always when the text is not JSON (the parse rejects), and for JSON exactly when the value is truthy (`if (res)`) |
| `Effects.GetHit` | lib/db.js:87-93 | when the cache holds a truthy payload or unparsable text, `get` answers the parse of it and never calls the backend |
| `Effects.GetAfterCacheStore` | lib/db.js:52-93 | a truthy document `cacheEntity` stored is what the next `get` answers, without calling the backend |
| `Effects.GetMiss` | lib/db.js:87-101 | otherwise `get` reads the backend exactly once, at `buildKey(ns, key)`, resolves what the read gives, and caches a found document exactly once with the default expiry |
| `Effects.GetKeepsDocuments` | lib/db.js:87-101 | `get` changes no stored document |
| `Effects.SameCacheKeySamePath` | lib/db.js:44 | two entities with the same cache key share their storage path |
| `Effects.GetAnswer` | lib/db.js:87-101 | a `get` answers the parsed cache reply when the cache settles it, and the backend's read of the entity path otherwise |
| `Effects.GetCacheEntries` | lib/db.js:87-101 | a `get` leaves the cache's entries alone, except after a miss whose read found the document, which is then stored under the entity's cache key with the default expiry |
| `Effects.GetStable` | lib/db.js:87-101 | no `get` changes what any later `get` answers |
| `Effects.GetIdempotent` | lib/db.js:87-101 | a repeated `get` answers as the first did |
| `Effects.GetAll` | lib/db.js:121-123 | mapping `get` over the keys gives one answer per key |
| `Effects.GetAllStable` | lib/db.js:121-123 | a run of `get`s changes nothing a later `get` answers |
| `Effects.GetAllPointwise` | lib/db.js:135-137 | each key of a run is answered as a lone `get` of that key would be |
| `Effects.GetAllKeepsDocuments` | lib/db.js:135-137 | a run of `get`s changes no stored document |
| `Effects.GetAsksCacheOnce` | lib/db.js:41-45 | with a cache, every `get` asks it exactly once, for its own key |
| `Effects.GetAllAsksCacheOncePerKey` | lib/db.js:135-137 | with a cache, a run of `get`s asks it exactly once per key, in key order |
| `Effects.Collect` | lib/db.js:124-128 | `Promise.all` resolves all answers in key order when every `get` succeeded, and otherwise rejects with the first failure in key order |
| `Effects.GetAllInKeyOrder` | lib/db.js:133-145 | `list` and `filter(..., false)` resolve exactly when every key's lone `get` succeeds, and then with those documents in key order |
| `Effects.GetAfterWrite` | lib/db.js:72-101 | after a truthy document is written at an entity's path, a `get` that the cache does not answer returns it |
| `Effects.KeysOf` | lib/db.js:135-137 | the keys passed to `get` are the listed values converted as `join` converts them, one per value |
| `Db.Configure` | lib/db.js:194-209 | construction fails with "Expected 'db' name to be specified" exactly when `db` is missing or empty; the bucket is `db`, `persist` is its truthiness, and the expiry is 3600 unless a `{client, expiry}` wrapper gives a truthy expiry |
| `Db.PutKey` | lib/db.js:75-79 | `put` uses the caller's key when it is truthy, and a fresh 32-character id otherwise |
| `Db.AfterLoad` | lib/db.js:157-161 | `loadIndex` keeps an index already loaded; otherwise a failed read is its failure, and a read body is loaded as `load` does |
| `Db.GeneratedKeyRecoverable` | lib/db.js:78-82 | a generated id has no '/', so `_getKeyFromPath` recovers it from the path `put` writes to |
| `Db.Datastore.constructor` | lib/db.js:194-209 | the fields hold exactly the settings, cache, backend and namespaces given |
| `Db.Datastore.Create` | lib/db.js:194-209 | construction throws without `db`; otherwise the fields follow `Configure`, the cache is the wrapper's client or the given cache, the backend is the given one or a fresh empty MockStore, and the namespaces are the given ones or none |
| `Db.Datastore.CheckNS` | lib/db.js:33-39 | `checkNS` returns true exactly for a configured namespace and otherwise throws "Expected namespace 'ns' to be configured" |
| `Db.Datastore.LoadFromCache` | lib/db.js:41-50 | the method does what `CacheLookup` specifies to the cache and returns its answer, the parse error included |
| `Db.Datastore.CacheEntity` | lib/db.js:52-63 | returns true exactly when a cache is configured; then the client's entries gain `ns/key` with the document's JSON, mode "EX" and the expiry `Expire` picks, and its log one matching `set` call; the world changes as `CacheStore` specifies |
| `Db.Datastore.Exists` | lib/db.js:65-70 | `exists` makes one `headDoc` call at `buildKey(ns, key)` and resolves whether a truthy document is stored there |
| `Db.Datastore.Put` | lib/db.js:72-85 | with a key, `put` leaves the document alone; without one it sets `doc[ref]` to the generated id, or throws reading `ref` for an unknown namespace with no write; otherwise it writes once, at `buildKey(ns, id)`, and resolves the document |
| `Db.Datastore.Get` | lib/db.js:87-101 | `get` answers and changes backend and cache exactly as `GetStep` specifies, a cache reply that fails to parse included |
| `Db.Datastore.GetEach` | lib/db.js:121-128 | fanning `get` out over keys answers and changes the world as `GetAll` specifies |
| `Db.Datastore.LoadIndex` | lib/db.js:147-166 | rejects with the namespace or indexer message and no effect; reads the snapshot exactly once when no index is loaded and never when one is; a failed read rejects and leaves the index unloaded; the dirty flag is untouched |
| `Db.Datastore.Index` | lib/db.js:103-108 | after a successful load the document is added to the index and the index is dirty; load failures propagate without adding anything |
| `Db.Datastore.Filter` | lib/db.js:110-131 | after the load, `keysOnly` resolves the search keys unchanged with no `get`; otherwise it resolves what `Promise.all` over one `get` per key gives |
| `Db.Datastore.List` | lib/db.js:133-145 | `list` makes one `listDocs(bucket, ns, max)` call, then one `get` per listed item in order, and resolves an undefined continuation with the documents, or the first failure |
| `Db.Datastore.DumpIndex` | lib/db.js:168-184 | without persistence it resolves false and writes nothing; otherwise it rejects with the namespace or indexer message, throws for an unloaded index, or writes the snapshot once at `ns/indexPath`, resolves true and marks the index clean |
| `Db.Datastore.ResetError` | lib/db.js:186-191 | reaching for the reset fails exactly when the namespace or its indexer is missing, reading `indexer` or `reset` of undefined respectively |
| `Db.Datastore.FlushIndex` | lib/db.js:186-192 | without `saveFirst` it resets at once or throws reading `indexer` or `reset`; with it, a failing dump propagates with the index still loaded, and a successful one is followed by the reset, the snapshot of the old index having been written first |
| `Db.Datastore.PutThenGet` | lib/db.js:72-101 | a document `put` stores is what the next `get` of its key returns, unless a truthy cached payload shadows it |
| `Db.Datastore.FlushThenLoad` | lib/db.js:147-192 | with persistence on, a loaded index flushed with saving comes back unchanged and clean on the next `loadIndex` |

## Left out

- The AWS S3 adapter's network calls, and the empty Azure and Google backends. Only the pure `_getKeyFromPath` is kept. `initConnection` is not modelled; for the in-memory backend it only sets an unused null connection.
- The search engines' internals (tokenising, scoring, export formats). An index is the list of calls made into it, and the engine's answer to a query is a parameter.
- `_generateId`'s randomness. The UUID's 16 bytes are a parameter.
- The JSON text itself. A payload set as the JSON of a value reads back as that value, although `JSON.stringify` drops undefined members and functions. The TTL itself (entries expiring) is not modelled.
- `Effects.CacheLookup`: an error the cache client passes to the `get` callback (lib/db.js:43-44) is not modelled; it is I/O of the external client, and would reject `get` without a backend read, as a parse failure does. A reply that `JSON.parse` refuses is modelled.
- `Caching.ParseReply`: the SyntaxError's message follows no fixed wording across JavaScript engines; the model uses one constant.
- `Values.ExportText`: the text Flexsearch's `export()` produces is the engine's own layout; the model renders the configured fields as a JSON array instead. Only that it is a non-empty string matters to the datastore.
- `Values.ToKeyString`: negative numbers, booleans and arrays are rendered, but only non-negative numbers carry an ensures; keys are strings everywhere else in the model.
- The interleaving of `Promise.all` (`Db.Datastore.List`, `Db.Datastore.Filter`, `Db.Datastore.GetEach`, `Effects.GetAll`). The model runs the `get`s one after the other in key order. In the source every `get` starts its cache lookup at once, and `cacheEntity` runs only in a later continuation. So no `get` of a run sees what another `get` of the same run cached. A key that occurs several times in one run is therefore read from the backend and set in the cache once per occurrence in the source. In the model it is read and set once, and its later occurrences are answered from the cache. The answers are the same either way, but the call logs stated by `List`'s and `Filter`'s `World() == g.env` count such a key once. Repeats are easy to hit: search refs can repeat, and every listed object becomes the key "[object Object]". Among several rejections, the model reports the first in key order rather than the first in time.
- Aliasing of stored documents. `put` stores a copy of the document's properties as they are at the write. In the source the backend keeps the caller's object, so later changes to it show through.
- Keys, namespaces and `db` names are strings. Non-string keys (a numeric 0, for instance) are not modelled.
- `checkNS` on inherited property names. The source tests `namespaces[ns]`, so a name such as "toString" passes. The model uses map membership.
- The in-memory backend's lookups on inherited property names. `MockStore` tests `_mock[bucket]` and `_mock[bucket][key]` on plain objects (lib/storage.js:73-90). So a bucket or key named "toString" or "__proto__" finds an inherited value, or writes to the prototype. The model's dictionaries hold only what was written.
- A `cache` parameter with a `client` property that is falsy. Such a wrapper would itself be used as the client.
- Indexers constructed without fields or a ref, and property reads on non-object documents. The model treats them as having no such property.
- `Indexing.Indexer.Add` and `Indexing.Indexer.Search`: the TypeError messages for an unloaded index follow one JavaScript engine's wording.
- `Db.Datastore.Put`: the TypeError message for an unknown namespace follows the same engine's wording.
- `Db.Datastore.ResetError`: the TypeError messages follow the same engine's wording, and an indexer given explicitly as null is reported as "undefined" although JavaScript names null.
- `Db.Datastore.DumpIndex`: the contract states `true` because the in-memory backend echoes the snapshot it was given. Other backends' acknowledgments go through `Values.Acknowledged`, but no other backend is modelled.
- `src/` (older sources that the tests do not load), `src/registry.js` and `lib/index.js` (re-exports) are not part of this model.
