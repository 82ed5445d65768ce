/**
 * The datastore coordinator (lib/db.js, `Datastore`). It holds its configuration
 * in fields fixed at construction and drives three collaborators it does not own:
 * the storage backend (here the in-memory MockStore), an optional cache client,
 * and one optional indexer per namespace.
 *
 * Every promise is flattened into a sequential call that returns how it ended (see
 * Outcomes). `Promise.all` runs its `get`s one after the other in key order.
 */
module Db {
  import opened Outcomes
  import opened Values
  import opened Ids
  import opened Keys
  import opened Storage
  import opened Caching
  import opened Indexing
  import opened Effects

  const DefaultCacheExpiry: int := 60 * 60
  const DbMissing: string := "Expected 'db' name to be specified"

  function NamespaceMissing(ns: string): string
  {
    "Expected namespace '" + ns + "' to be configured"
  }

  function IndexerMissing(ns: string): string
  {
    "No indexer for namespace '" + ns + "' defined"
  }

  /** A namespace's configuration: the property a generated id goes to, and its indexer if any. */
  datatype Namespace = Namespace(ref: Option<string>, indexer: Indexer?)

  /**
   * The `cache` parameter: none, a client given directly, or a wrapper `{client, expiry}`
   * whose expiry (when truthy) replaces the default.
   */
  datatype CacheParam =
    | NoCache
    | Direct(client: CacheClient)
    | Wrapped(client: CacheClient, expiry: Option<int>)

  datatype Params = Params(
    db: Option<string>,
    cache: CacheParam,
    storage: MockStore?,
    namespaces: Option<map<string, Namespace>>,
    persist: Value)

  /** The settings the constructor derives from its parameters. */
  datatype Config = Config(bucket: string, cacheExpiry: int, persist: bool)

  /** The constructor's checks and defaults. */
  function Configure(p: Params): (r: Result<Config>)
    ensures r.Err? <==> !Given(p.db)
    ensures r.Err? ==> r.error == Threw(DbMissing)
    ensures r.Ok? ==> r.value.bucket == p.db.value && r.value.persist == Truthy(p.persist)
    ensures r.Ok? && !(p.cache.Wrapped? && p.cache.expiry.Some? && p.cache.expiry.value != 0) ==> r.value.cacheExpiry == 3600
    ensures r.Ok? && p.cache.Wrapped? && p.cache.expiry.Some? && p.cache.expiry.value != 0 ==> r.value.cacheExpiry == p.cache.expiry.value
  {
    if !Given(p.db) then Err(Threw(DbMissing))
    else
      var expiry := if p.cache.Wrapped? then Expire(DefaultCacheExpiry, p.cache.expiry) else DefaultCacheExpiry;
      Ok(Config(p.db.value, expiry, Truthy(p.persist)))
  }

  /** The cache client the datastore ends up using, if any. */
  function CacheOf(c: CacheParam): CacheClient?
  {
    if c.NoCache? then null else c.client
  }

  /** What `put` decides the entity's key is: the caller's key when given, a generated id otherwise. */
  function PutKey(key: Option<string>, u: Uuid): (id: string)
    ensures Given(key) ==> id == key.value
    ensures !Given(key) ==> id == GenerateId(u) && |id| == 32
  {
    if Given(key) then key.value else GenerateId(u)
  }

  /** A generated id never contains a separator, so `_getKeyFromPath` recovers it from the entity path. */
  lemma GeneratedKeyRecoverable(ns: string, u: Uuid)
    ensures '/' !in GenerateId(u)
    ensures GetKeyFromPath(BuildKey(ns, GenerateId(u), None)) == Some(GenerateId(u))
  {
    KeyFromPathRoundTrip(ns, GenerateId(u), None);
  }

  /** What `loadIndex` leaves in the indexer: the index it had, or what `load` builds from the read. */
  function AfterLoad(engine: Engine, fields: seq<string>, ref: string, index: Option<SearchIndex>, read: Result<Value>): (r: Result<SearchIndex>)
    ensures index.Some? ==> r == Ok(index.value)
    ensures index.None? ==> (r.Err? <==> read.Err?)
    ensures index.None? && read.Err? ==> r.error == read.error
    ensures index.None? && read.Ok? ==> r.value == LoadedIndex(engine, fields, ref, read.value)
  {
    if index.Some? then Ok(index.value)
    else if read.Err? then Err(read.error)
    else Ok(LoadedIndex(engine, fields, ref, read.value))
  }

  /** The backend read `loadIndex` makes: one read of the snapshot path, and none when the index is loaded. */
  function LoadEnv(env: Env, bucket: string, path: string, loaded: bool): Env
  {
    if loaded then env else ReadStep(env, bucket, path)
  }

  /** A document the caller passes to `put`, which `put` may change in place. */
  class Document {
    var props: map<string, Value>

    constructor (props: map<string, Value>)
      ensures this.props == props
    {
      this.props := props;
    }
  }

  class Datastore {
    const bucket: string
    const cacheExpiry: int
    const cache: CacheClient?
    const storage: MockStore
    const namespaces: map<string, Namespace>
    const persist: bool

    constructor (c: Config, cache: CacheClient?, storage: MockStore, namespaces: map<string, Namespace>)
      ensures bucket == c.bucket && cacheExpiry == c.cacheExpiry && persist == c.persist
      ensures this.cache == cache && this.storage == storage && this.namespaces == namespaces
    {
      bucket := c.bucket;
      cacheExpiry := c.cacheExpiry;
      persist := c.persist;
      this.cache := cache;
      this.storage := storage;
      this.namespaces := namespaces;
    }

    /**
     * `new Datastore(params)`: throws without a `db` name; otherwise takes the given
     * backend or a fresh MockStore, and the given namespaces or none.
     */
    static method Create(p: Params) returns (r: Result<Datastore>)
      ensures r.Err? <==> Configure(p).Err?
      ensures r.Err? ==> r.error == Threw(DbMissing)
      ensures r.Ok? ==> var d := r.value; var c := Configure(p).value;
        && d.bucket == c.bucket && d.cacheExpiry == c.cacheExpiry && d.persist == c.persist
        && d.cache == CacheOf(p.cache)
        && d.namespaces == (if p.namespaces.Some? then p.namespaces.value else map[])
        && (p.storage != null ==> d.storage == p.storage)
        && (p.storage == null ==> fresh(d.storage) && d.storage.mock == map[] && d.storage.log == [])
    {
      var c := Configure(p);
      if c.Err? {
        return Err(c.error);
      }
      var storage: MockStore;
      if p.storage != null {
        storage := p.storage;
      } else {
        storage := new MockStore();
      }
      var namespaces := if p.namespaces.Some? then p.namespaces.value else map[];
      var d := new Datastore(c.value, CacheOf(p.cache), storage, namespaces);
      r := Ok(d);
    }

    /** The backend and the cache as the pure specification sees them. */
    ghost function World(): Env
      reads storage, cache
    {
      Env(storage.mock, storage.log, if cache == null then None else Some(CacheState(cache.entries, cache.log)))
    }

    /** The indexer of a namespace; null when the namespace or its indexer is missing. */
    function IndexerOf(ns: string): Indexer?
    {
      if ns in namespaces then namespaces[ns].indexer else null
    }

    /** Why `loadIndex` and `dumpIndex` refuse a namespace without an indexer. */
    function IndexerError(ns: string): string
    {
      if ns !in namespaces then NamespaceMissing(ns) else IndexerMissing(ns)
    }

    /** `checkNS`: true for a configured namespace, an Error naming it otherwise. */
    function CheckNS(ns: string): (r: Result<bool>)
      ensures r.Ok? <==> ns in namespaces
      ensures r.Ok? ==> r.value
      ensures r.Err? ==> r.error == Threw(NamespaceMissing(ns))
    {
      if ns in namespaces then Ok(true) else Err(Threw(NamespaceMissing(ns)))
    }

    /** `_loadFromCache`: the parsed payload cached under `ns/key`, or null when there is no cache. */
    method LoadFromCache(ns: string, key: string) returns (v: Result<Value>)
      modifies cache
      ensures var f := CacheLookup(old(World()), ns, key); v == f.value && World() == f.env
    {
      if cache == null {
        return Ok(Null);
      }
      var reply := cache.Get(CacheKey(ns, key));
      v := ParseReply(reply);
    }

    /** `cacheEntity`: caches the document when there is a cache, and says whether it did. */
    method CacheEntity(ns: string, key: string, doc: Value, expiry: Option<int>) returns (stored: bool)
      modifies cache
      ensures stored <==> cache != null
      ensures cache != null ==>
        var k, ttl := CacheKey(ns, key), Expire(cacheExpiry, expiry);
        && cache.entries == old(cache.entries)[k := CacheEntry(Json(doc), ExpiryMode, ttl)]
        && cache.log == old(cache.log) + [SetCall(k, Json(doc), ExpiryMode, ttl)]
      ensures World() == CacheStore(old(World()), cacheExpiry, ns, key, doc, expiry)
    {
      var expire := Expire(cacheExpiry, expiry);
      if cache != null {
        cache.Set(CacheKey(ns, key), Json(doc), ExpiryMode, expire);
        return true;
      }
      return false;
    }

    /** `exists`: asks the backend whether a truthy document is stored at the entity's path. */
    method Exists(ns: string, key: string) returns (present: bool)
      modifies storage
      ensures present == Present(old(storage.mock), bucket, BuildKey(ns, key, None))
      ensures storage.mock == Touch(old(storage.mock), bucket)
      ensures storage.log == old(storage.log) + [HeadCall(bucket, BuildKey(ns, key, None))]
    {
      present := storage.HeadDoc(bucket, BuildKey(ns, key, None));
    }

    /**
     * `put`: without a key, generates one and writes it into the document under the
     * namespace's ref (which throws for an unknown namespace); then writes the
     * document once, at the entity's path, and resolves it.
     */
    method Put(ns: string, doc: Document, key: Option<string>, u: Uuid) returns (r: Result<Value>)
      modifies storage, doc
      ensures Given(key) ==> doc.props == old(doc.props)
      ensures !Given(key) && ns !in namespaces ==>
        && r == Err(Threw(TypeErrorReading("undefined", "ref")))
        && doc.props == old(doc.props)
        && storage.mock == old(storage.mock) && storage.log == old(storage.log)
      ensures Given(key) || ns in namespaces ==>
        var id := PutKey(key, u);
        var path := BuildKey(ns, id, None);
        && (!Given(key) ==> doc.props == old(doc.props)[PropertyKey(namespaces[ns].ref) := Str(id)])
        && storage.mock == Write(old(storage.mock), bucket, path, Obj(doc.props))
        && storage.log == old(storage.log) + [WriteCall(bucket, path, Obj(doc.props))]
        && r == Ok(Obj(doc.props))
    {
      var id: string;
      if Given(key) {
        id := key.value;
      } else {
        id := GenerateId(u);
        if ns !in namespaces {
          return Err(Threw(TypeErrorReading("undefined", "ref")));
        }
        doc.props := doc.props[PropertyKey(namespaces[ns].ref) := Str(id)];
      }
      var ack := storage.WriteDoc(bucket, BuildKey(ns, id, None), Obj(doc.props));
      r := Ok(ack);
    }

    /** `get`: settled by the cache when it holds unparsable text or a truthy payload, else read from the backend, caching what it finds. */
    method Get(ns: string, key: string) returns (r: Result<Value>)
      modifies storage, cache
      ensures var s := GetStep(bucket, cacheExpiry, old(World()), ns, key); r == s.result && World() == s.env
    {
      var path := BuildKey(ns, key, None);
      var cached := LoadFromCache(ns, key);
      if cached.Err? || Truthy(cached.value) {
        return cached;
      }
      r := storage.ReadDoc(bucket, path);
      if r.Ok? {
        var _ := CacheEntity(ns, key, r.value, None);
      }
    }

    /** `Promise.all(keys.map(key => get(ns, key)))`, one `get` after the other. */
    method GetEach(ns: string, keys: seq<string>) returns (rs: seq<Result<Value>>)
      modifies storage, cache
      ensures var g := GetAll(bucket, cacheExpiry, old(World()), ns, keys); rs == g.results && World() == g.env
    {
      rs := [];
      for i := 0 to |keys|
        invariant var g := GetAll(bucket, cacheExpiry, old(World()), ns, keys[..i]); rs == g.results && World() == g.env
      {
        var r := Get(ns, keys[i]);
        assert keys[..i + 1][..i] == keys[..i];
        rs := rs + [r];
      }
      assert keys[..|keys|] == keys;
    }

    /**
     * `loadIndex`: rejects for an unknown namespace or a missing indexer; reads the
     * snapshot and loads it only while the indexer holds no index; a failed read
     * rejects and leaves the index unloaded.
     */
    method LoadIndex(ns: string) returns (r: Outcome)
      modifies storage, IndexerOf(ns)
      ensures IndexerOf(ns) == null ==> r == Fail(Rejected(IndexerError(ns))) && World() == old(World())
      ensures var ix := IndexerOf(ns); ix != null ==>
        var path := IndexDocKey(ns, ix.indexPath);
        var a := AfterLoad(ix.engine, ix.fields, ix.ref, old(ix.index), ReadOutcome(old(storage.mock), bucket, path));
        && World() == LoadEnv(old(World()), bucket, path, old(ix.index).Some?)
        && r == (if a.Ok? then Pass else Fail(a.error))
        && ix.index == (if a.Ok? then Some(a.value) else None)
        && ix.dirty == old(ix.dirty)
    {
      var checked := CheckNS(ns);
      if checked.Err? {
        return Fail(Rejected(checked.error.message));
      }
      var ix := namespaces[ns].indexer;
      if ix == null {
        return Fail(Rejected(IndexerMissing(ns)));
      }
      if ix.index.None? {
        var path := IndexDocKey(ns, ix.indexPath);
        var body := storage.ReadDoc(bucket, path);
        assert World() == ReadStep(old(World()), bucket, path);
        if body.Err? {
          return Fail(body.error);
        }
        ghost var read := World();
        ix.Load(body.value);
        assert World() == read;
      }
      r := Pass;
    }

    /** `index`: loads the namespace's index if need be, then adds the document to it. */
    method Index(ns: string, doc: Value) returns (r: Outcome)
      modifies storage, IndexerOf(ns)
      ensures IndexerOf(ns) == null ==> r == Fail(Rejected(IndexerError(ns))) && World() == old(World())
      ensures var ix := IndexerOf(ns); ix != null ==>
        var path := IndexDocKey(ns, ix.indexPath);
        var a := AfterLoad(ix.engine, ix.fields, ix.ref, old(ix.index), ReadOutcome(old(storage.mock), bucket, path));
        && World() == LoadEnv(old(World()), bucket, path, old(ix.index).Some?)
        && (a.Err? ==> r == Fail(a.error) && ix.index == None && ix.dirty == old(ix.dirty))
        && (a.Ok? ==> r == Pass && ix.dirty)
        && (a.Ok? ==> ix.index == Some(a.value.(postings := a.value.postings + NewPostings(ix.engine, ix.fields, ix.ref, doc))))
    {
      r := LoadIndex(ns);
      if r.Fail? {
        return;
      }
      var ix := IndexerOf(ns);
      r := ix.Add(doc);
    }

    /**
     * `filter`: loads the namespace's index if need be and searches it; with `keysOnly`
     * resolves the engine's keys, otherwise the document `get` gives for each key.
     * The engine's answer to the query is the parameter `hits`.
     */
    method Filter(ns: string, hits: seq<Value>, keysOnly: bool) returns (r: Result<seq<Value>>)
      modifies storage, cache, IndexerOf(ns)
      ensures IndexerOf(ns) == null ==> r == Err(Rejected(IndexerError(ns))) && World() == old(World())
      ensures var ix := IndexerOf(ns); ix != null ==>
        var path := IndexDocKey(ns, ix.indexPath);
        var a := AfterLoad(ix.engine, ix.fields, ix.ref, old(ix.index), ReadOutcome(old(storage.mock), bucket, path));
        var loaded := LoadEnv(old(World()), bucket, path, old(ix.index).Some?);
        var found := SearchResult(ix.engine, hits);
        var g := GetAll(bucket, cacheExpiry, loaded, ns, KeysOf(found));
        && ix.index == (if a.Ok? then Some(a.value) else None) && ix.dirty == old(ix.dirty)
        && (a.Err? ==> r == Err(a.error) && World() == loaded)
        && (a.Ok? && keysOnly ==> r == Ok(found) && World() == loaded)
        && (a.Ok? && !keysOnly ==> r == Collect(g.results) && World() == g.env)
    {
      var loaded := LoadIndex(ns);
      if loaded.Fail? {
        return Err(loaded.error);
      }
      var ix := IndexerOf(ns);
      var found := ix.Search(hits);
      assert found.Ok?;
      if keysOnly {
        return Ok(found.value);
      }
      var rs := GetEach(ns, KeysOf(found.value));
      r := Collect(rs);
    }

    /**
     * `list`: lists the bucket through the backend, then resolves what `get` gives for
     * each listed item; the continuation is read from the fetched array, so it is
     * always undefined.
     */
    method List(ns: string, max: Option<int>) returns (r: Result<(Value, seq<Value>)>)
      modifies storage, cache
      ensures var listed := Listing(BucketOf(old(storage.mock), bucket));
        var start := old(World()).(mock := Touch(old(storage.mock), bucket), storeLog := old(storage.log) + [ListCall(bucket, ns, max)]);
        var g := GetAll(bucket, cacheExpiry, start, ns, KeysOf(listed));
        var docs := Collect(g.results);
        && World() == g.env
        && (docs.Ok? ==> r == Ok((Undefined, docs.value)))
        && (docs.Err? ==> r == Err(docs.error))
    {
      var page := storage.ListDocs(bucket, ns, max);
      var rs := GetEach(ns, KeysOf(page.results));
      var docs := Collect(rs);
      if docs.Err? {
        return Err(docs.error);
      }
      r := Ok((Undefined, docs.value));
    }

    /**
     * `dumpIndex`: resolves false without persistence; otherwise rejects for an unknown
     * namespace or a missing indexer, throws when the index is not loaded, and writes
     * the snapshot once. A non-empty acknowledgment (the backend echoes the snapshot)
     * resolves true and marks the index clean.
     */
    method DumpIndex(ns: string) returns (r: Result<bool>)
      modifies storage, IndexerOf(ns)
      ensures !persist ==> r == Ok(false)
      ensures persist && IndexerOf(ns) == null ==> r == Err(Rejected(IndexerError(ns)))
      ensures !persist || IndexerOf(ns) == null ==> storage.mock == old(storage.mock) && storage.log == old(storage.log)
      ensures var ix := IndexerOf(ns); ix != null ==> ix.index == old(ix.index)
      ensures var ix := IndexerOf(ns); ix != null && (!persist || old(ix.index).None?) ==> ix.dirty == old(ix.dirty)
      ensures var ix := IndexerOf(ns); persist && ix != null && old(ix.index).None? ==>
        r == Err(Threw(SerializeMessage)) && storage.mock == old(storage.mock) && storage.log == old(storage.log)
      ensures var ix := IndexerOf(ns); persist && ix != null && old(ix.index).Some? ==>
        var snapshot := Snapshot(ix.engine, old(ix.index).value);
        var path := IndexDocKey(ns, ix.indexPath);
        && storage.mock == Write(old(storage.mock), bucket, path, snapshot)
        && storage.log == old(storage.log) + [WriteCall(bucket, path, snapshot)]
        && r == Ok(true) && !ix.dirty
    {
      if !persist {
        return Ok(false);
      }
      var checked := CheckNS(ns);
      if checked.Err? {
        return Err(Rejected(checked.error.message));
      }
      var ix := namespaces[ns].indexer;
      if ix == null {
        return Err(Rejected(IndexerMissing(ns)));
      }
      var path := IndexDocKey(ns, ix.indexPath);
      var snapshot := ix.Serialize();
      if snapshot.Err? {
        return Err(snapshot.error);
      }
      var ack := storage.WriteDoc(bucket, path, snapshot.value);
      r := Acknowledged(ack);
      assert r == Ok(true);
      ghost var written := storage.mock;
      if r == Ok(true) {
        ix.SetClean();
      }
      assert storage.mock == written;
    }

    /** The Error `flushIndex` meets when it reaches for a reset the namespace cannot give. */
    function ResetError(ns: string): (e: Option<string>)
      ensures e.None? <==> ns in namespaces && namespaces[ns].indexer != null
      ensures ns !in namespaces ==> e == Some(TypeErrorReading("undefined", "indexer"))
      ensures ns in namespaces && namespaces[ns].indexer == null ==> e == Some(TypeErrorReading("undefined", "reset"))
    {
      if ns !in namespaces then Some(TypeErrorReading("undefined", "indexer"))
      else if namespaces[ns].indexer == null then Some(TypeErrorReading("undefined", "reset"))
      else None
    }

    /**
     * `flushIndex`: without `saveFirst`, resets the indexer at once, checking nothing;
     * with it, dumps first and resets once the dump resolves, so a failed dump leaves
     * the index loaded.
     */
    method FlushIndex(ns: string, saveFirst: bool) returns (r: Outcome)
      modifies storage, IndexerOf(ns)
      ensures var ix := IndexerOf(ns); ix != null ==> ix.index == None || ix.index == old(ix.index)
      ensures !saveFirst || !persist ==> storage.mock == old(storage.mock) && storage.log == old(storage.log)
      ensures !saveFirst || !persist ==>
        if ResetError(ns).Some? then r == Fail(if saveFirst then RejectedError(ResetError(ns).value) else Threw(ResetError(ns).value))
        else r == Pass && IndexerOf(ns).index == None && IndexerOf(ns).dirty == old(IndexerOf(ns).dirty)
      ensures saveFirst && persist && IndexerOf(ns) == null ==>
        r == Fail(Rejected(IndexerError(ns))) && storage.mock == old(storage.mock) && storage.log == old(storage.log)
      ensures var ix := IndexerOf(ns); saveFirst && persist && ix != null && old(ix.index).None? ==>
        r == Fail(Threw(SerializeMessage)) && ix.dirty == old(ix.dirty)
        && storage.mock == old(storage.mock) && storage.log == old(storage.log)
      ensures var ix := IndexerOf(ns); saveFirst && persist && ix != null && old(ix.index).Some? ==>
        var snapshot := Snapshot(ix.engine, old(ix.index).value);
        var path := IndexDocKey(ns, ix.indexPath);
        && storage.mock == Write(old(storage.mock), bucket, path, snapshot)
        && storage.log == old(storage.log) + [WriteCall(bucket, path, snapshot)]
        && r == Pass && ix.index == None && !ix.dirty
    {
      if saveFirst {
        var dumped := DumpIndex(ns);
        if dumped.Err? {
          return Fail(dumped.error);
        }
        if ResetError(ns).Some? {
          return Fail(RejectedError(ResetError(ns).value));
        }
      } else if ResetError(ns).Some? {
        return Fail(Threw(ResetError(ns).value));
      }
      var ix := namespaces[ns].indexer;
      ix.Reset();
      r := Pass;
    }

    /**
     * A document `put` stores is what the next `get` of its key returns, unless the
     * cache already holds a truthy payload for that key: `put` does not touch the cache.
     */
    method PutThenGet(ns: string, doc: Document, key: Option<string>, u: Uuid) returns (stored: Result<Value>, got: Result<Value>)
      requires Given(key) || ns in namespaces
      requires !CacheHit(World(), ns, PutKey(key, u))
      modifies storage, cache, doc
      ensures stored == Ok(Obj(doc.props)) && got == stored
    {
      stored := Put(ns, doc, key, u);
      ghost var before := old(World());
      GetAfterWrite(bucket, cacheExpiry, before, ns, PutKey(key, u), Obj(doc.props));
      got := Get(ns, PutKey(key, u));
    }

    /**
     * Persisting round trip: a loaded index that is flushed with saving comes back,
     * unchanged and clean, on the next `loadIndex`, which reads the snapshot that
     * the flush wrote.
     */
    method FlushThenLoad(ns: string) returns (flushed: Outcome, loaded: Outcome)
      requires persist && IndexerOf(ns) != null && IndexerOf(ns).index.Some?
      modifies storage, IndexerOf(ns)
      ensures flushed == Pass && loaded == Pass
      ensures IndexerOf(ns).index == old(IndexerOf(ns).index) && !IndexerOf(ns).dirty
    {
      var ix := IndexerOf(ns);
      ghost var saved := ix.index.value;
      flushed := FlushIndex(ns, true);
      ghost var path := IndexDocKey(ns, ix.indexPath);
      ReadAfterWrite(old(storage.mock), bucket, path, Snapshot(ix.engine, saved));
      loaded := LoadIndex(ns);
      SnapshotRoundTrip(ix.engine, ix.fields, ix.ref, saved);
    }
  }
}
