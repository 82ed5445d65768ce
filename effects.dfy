/**
 * What the datastore's reads do to the world around it, as pure functions: the
 * backend's documents and call log, and the cache's entries and call log when a
 * cache is configured. `get` (lib/db.js) is specified here step by step, and so
 * is the sequence of `get`s that `list` and `filter` fan out to.
 */
module Effects {
  import opened Outcomes
  import opened Values
  import opened Keys
  import opened Storage
  import opened Caching

  /** The expiry mode every cache write uses: seconds. */
  const ExpiryMode: string := "EX"

  datatype CacheState = CacheState(entries: map<string, CacheEntry>, log: seq<CacheCall>)

  /** The state a datastore operation can observe and change outside the datastore itself. */
  datatype Env = Env(mock: map<string, Bucket>, storeLog: seq<StoreCall>, cache: Option<CacheState>)

  /** What a cache lookup found (the parsed payload, or the parse error), and the world after it. */
  datatype Fetched = Fetched(value: Result<Value>, env: Env)

  /** How one `get` ended, and the world after it. */
  datatype Step = Step(result: Result<Value>, env: Env)

  /** How a run of `get`s ended, key by key, and the world after all of them. */
  datatype Gets = Gets(results: seq<Result<Value>>, env: Env)

  /**
   * `_loadFromCache`: null when there is no cache; otherwise asks the cache once for
   * `ns/key` and parses the reply, leaving the cached entries as they were.
   */
  function CacheLookup(env: Env, ns: string, key: string): (f: Fetched)
    ensures env.cache.None? ==> f == Fetched(Ok(Null), env)
    ensures env.cache.Some? ==> f.value == ParseReply(Cached(env.cache.value.entries, CacheKey(ns, key)))
    ensures f.env.mock == env.mock && f.env.storeLog == env.storeLog
    ensures f.env.cache.Some? <==> env.cache.Some?
    ensures env.cache.Some? ==> f.env.cache.value.entries == env.cache.value.entries
    ensures env.cache.Some? ==> f.env.cache.value.log == env.cache.value.log + [GetCall(CacheKey(ns, key))]
  {
    if env.cache.None? then Fetched(Ok(Null), env)
    else
      var c := env.cache.value;
      var k := CacheKey(ns, key);
      Fetched(ParseReply(Cached(c.entries, k)), env.(cache := Some(c.(log := c.log + [GetCall(k)]))))
  }

  /** The expiry `cacheEntity` uses: the override when it is truthy, the datastore's default otherwise. */
  function Expire(cacheExpiry: int, expiry: Option<int>): (ttl: int)
    ensures expiry.Some? && expiry.value != 0 ==> ttl == expiry.value
    ensures expiry.None? || expiry.value == 0 ==> ttl == cacheExpiry
  {
    if expiry.Some? && expiry.value != 0 then expiry.value else cacheExpiry
  }

  /**
   * `cacheEntity`: with a cache, sets `ns/key` to the JSON of the document in mode
   * "EX" with its expiry, once, and changes no other entry; without one, nothing.
   */
  function CacheStore(env: Env, cacheExpiry: int, ns: string, key: string, doc: Value, expiry: Option<int>): (e: Env)
    ensures env.cache.None? ==> e == env
    ensures e.mock == env.mock && e.storeLog == env.storeLog
    ensures env.cache.Some? ==>
      var c, k, ttl := env.cache.value, CacheKey(ns, key), Expire(cacheExpiry, expiry);
      e.cache == Some(CacheState(c.entries[k := CacheEntry(Json(doc), ExpiryMode, ttl)],
                                 c.log + [SetCall(k, Json(doc), ExpiryMode, ttl)]))
  {
    if env.cache.None? then env
    else
      var c := env.cache.value;
      var k := CacheKey(ns, key);
      var ttl := Expire(cacheExpiry, expiry);
      env.(cache := Some(CacheState(c.entries[k := CacheEntry(Json(doc), ExpiryMode, ttl)], c.log + [SetCall(k, Json(doc), ExpiryMode, ttl)])))
  }

  /** The backend read a `get` falls back to, with its effect on the backend. */
  function ReadStep(env: Env, bucket: string, path: string): Env
  {
    env.(mock := Touch(env.mock, bucket), storeLog := env.storeLog + [ReadCall(bucket, path)])
  }

  /**
   * `get(ns, key)`: a cached payload that fails to parse rejects it, a truthy one is
   * the answer; otherwise the document is read from the backend and, when the read
   * succeeds, cached with the default expiry. It only ever resolves truthy documents.
   */
  function GetStep(bucket: string, cacheExpiry: int, env: Env, ns: string, key: string): (s: Step)
    ensures s.result.Ok? ==> Truthy(s.result.value)
    ensures s.result.Err? ==> s.result.error == Rejected(KeyMissing) || s.result.error == RejectedError(JsonSyntaxError)
  {
    var looked := CacheLookup(env, ns, key);
    if looked.value.Err? || Truthy(looked.value.value) then Step(looked.value, looked.env)
    else
      var path := BuildKey(ns, key, None);
      var read := ReadOutcome(looked.env.mock, bucket, path);
      var e := ReadStep(looked.env, bucket, path);
      if read.Err? then Step(read, e)
      else Step(read, CacheStore(e, cacheExpiry, ns, key, read.value, None))
  }

  /** Whether the cache settles a `get` of `ns/key`: it holds text JSON.parse refuses, or a truthy payload. */
  predicate CacheHit(env: Env, ns: string, key: string): (h: bool)
    ensures h ==> env.cache.Some? && CacheKey(ns, key) in env.cache.value.entries
    ensures env.cache.Some? && CacheKey(ns, key) in env.cache.value.entries ==>
      var p := env.cache.value.entries[CacheKey(ns, key)].payload;
      && (p.Malformed? ==> h)
      && (p.Json? ==> (h <==> Truthy(p.doc)))
  {
    && env.cache.Some?
    && var parsed := ParseReply(Cached(env.cache.value.entries, CacheKey(ns, key)));
       parsed.Err? || Truthy(parsed.value)
  }

  /** When the cache settles it, `get` answers from the cache and never touches the backend. */
  lemma GetHit(bucket: string, cacheExpiry: int, env: Env, ns: string, key: string)
    requires CacheHit(env, ns, key)
    ensures var s := GetStep(bucket, cacheExpiry, env, ns, key);
      && s.result == ParseReply(Cached(env.cache.value.entries, CacheKey(ns, key)))
      && s.env.mock == env.mock && s.env.storeLog == env.storeLog
      && s.env.cache == Some(env.cache.value.(log := env.cache.value.log + [GetCall(CacheKey(ns, key))]))
  {
  }

  /**
   * Otherwise `get` reads the backend once, at the entity's path, and answers with
   * what the read gives; a document it found is then cached once, with the default expiry.
   */
  lemma GetMiss(bucket: string, cacheExpiry: int, env: Env, ns: string, key: string)
    requires !CacheHit(env, ns, key)
    ensures var s := GetStep(bucket, cacheExpiry, env, ns, key);
      var path := BuildKey(ns, key, None);
      var k := CacheKey(ns, key);
      && s.result == ReadOutcome(env.mock, bucket, path)
      && s.env.mock == Touch(env.mock, bucket)
      && s.env.storeLog == env.storeLog + [ReadCall(bucket, path)]
      && (env.cache.None? ==> s.env.cache.None?)
      && (env.cache.Some? && s.result.Err? ==>
            s.env.cache == Some(env.cache.value.(log := env.cache.value.log + [GetCall(k)])))
      && (env.cache.Some? && s.result.Ok? ==>
            var c := env.cache.value;
            s.env.cache == Some(CacheState(c.entries[k := CacheEntry(Json(s.result.value), ExpiryMode, cacheExpiry)],
                                           c.log + [GetCall(k), SetCall(k, Json(s.result.value), ExpiryMode, cacheExpiry)])))
  {
    var s := GetStep(bucket, cacheExpiry, env, ns, key);
    if env.cache.Some? && s.result.Ok? {
      var c := env.cache.value;
      var k := CacheKey(ns, key);
      assert c.log + [GetCall(k)] + [SetCall(k, Json(s.result.value), ExpiryMode, cacheExpiry)]
          == c.log + [GetCall(k), SetCall(k, Json(s.result.value), ExpiryMode, cacheExpiry)];
    }
  }

  /** A truthy document that `cacheEntity` stored is what the next `get` answers, without the backend. */
  lemma GetAfterCacheStore(bucket: string, cacheExpiry: int, env: Env, ns: string, key: string, doc: Value, expiry: Option<int>)
    requires env.cache.Some? && Truthy(doc)
    ensures var e := CacheStore(env, cacheExpiry, ns, key, doc, expiry);
      var s := GetStep(bucket, cacheExpiry, e, ns, key);
      && s.result == Ok(doc)
      && s.env.mock == env.mock && s.env.storeLog == env.storeLog
  {
    var e := CacheStore(env, cacheExpiry, ns, key, doc, expiry);
    ParseAfterSet(env.cache.value.entries, CacheKey(ns, key), doc, ExpiryMode, Expire(cacheExpiry, expiry));
    assert CacheHit(e, ns, key);
    GetHit(bucket, cacheExpiry, e, ns, key);
  }

  /** Whatever a `get` does, every stored document stays as it was. */
  lemma GetKeepsDocuments(bucket: string, cacheExpiry: int, env: Env, ns: string, key: string, bucket': string, key': string)
    ensures Lookup(GetStep(bucket, cacheExpiry, env, ns, key).env.mock, bucket', key') == Lookup(env.mock, bucket', key')
  {
    TouchKeepsDocuments(env.mock, bucket, bucket', key');
  }

  /** Two entities with the same cache key also share their storage path. */
  lemma SameCacheKeySamePath(ns: string, key: string, ns': string, key': string)
    requires CacheKey(ns, key) == CacheKey(ns', key')
    ensures BuildKey(ns, key, None) == BuildKey(ns', key', None)
  {
    assert BuildKey(ns, key, None) == CacheKey(ns, key) + "/" + EntityFile;
    assert BuildKey(ns', key', None) == CacheKey(ns', key') + "/" + EntityFile;
  }

  /** What a `get` answers: the cached payload on a hit, the backend's read otherwise. */
  lemma GetAnswer(bucket: string, cacheExpiry: int, env: Env, ns: string, key: string)
    ensures GetStep(bucket, cacheExpiry, env, ns, key).result
         == if CacheHit(env, ns, key) then ParseReply(Cached(env.cache.value.entries, CacheKey(ns, key)))
            else ReadOutcome(env.mock, bucket, BuildKey(ns, key, None))
  {
    if CacheHit(env, ns, key) {
      GetHit(bucket, cacheExpiry, env, ns, key);
    } else {
      GetMiss(bucket, cacheExpiry, env, ns, key);
    }
  }

  /**
   * What a `get` does to the cache's entries: nothing, or, after a read that found
   * the document, store it under the entity's cache key.
   */
  lemma GetCacheEntries(bucket: string, cacheExpiry: int, env: Env, ns: string, key: string)
    ensures var s := GetStep(bucket, cacheExpiry, env, ns, key);
      var read := ReadOutcome(env.mock, bucket, BuildKey(ns, key, None));
      && (s.env.cache.Some? <==> env.cache.Some?)
      && (env.cache.Some? ==>
            || s.env.cache.value.entries == env.cache.value.entries
            || (!CacheHit(env, ns, key) && read.Ok? &&
                s.env.cache.value.entries == env.cache.value.entries[CacheKey(ns, key) := CacheEntry(Json(read.value), ExpiryMode, cacheExpiry)]))
  {
    if CacheHit(env, ns, key) {
      GetHit(bucket, cacheExpiry, env, ns, key);
    } else {
      GetMiss(bucket, cacheExpiry, env, ns, key);
    }
  }

  /**
   * A `get` never changes what any later `get` answers: the documents stay, and
   * what it caches is what a read of the same path would give.
   */
  lemma GetStable(bucket: string, cacheExpiry: int, env: Env, ns: string, key: string, ns': string, key': string)
    ensures GetStep(bucket, cacheExpiry, GetStep(bucket, cacheExpiry, env, ns, key).env, ns', key').result
         == GetStep(bucket, cacheExpiry, env, ns', key').result
  {
    var e := GetStep(bucket, cacheExpiry, env, ns, key).env;
    var path := BuildKey(ns, key, None);
    var path' := BuildKey(ns', key', None);
    GetKeepsDocuments(bucket, cacheExpiry, env, ns, key, bucket, path');
    assert ReadOutcome(e.mock, bucket, path') == ReadOutcome(env.mock, bucket, path');
    GetAnswer(bucket, cacheExpiry, e, ns', key');
    GetAnswer(bucket, cacheExpiry, env, ns', key');
    GetCacheEntries(bucket, cacheExpiry, env, ns, key);
    if env.cache.Some? {
      var k := CacheKey(ns, key);
      var k' := CacheKey(ns', key');
      if e.cache.value.entries != env.cache.value.entries {
        var read := ReadOutcome(env.mock, bucket, path);
        if k == k' {
          SameCacheKeySamePath(ns, key, ns', key');
          assert Cached(e.cache.value.entries, k') == Some(Json(read.value));
        } else {
          assert Cached(e.cache.value.entries, k') == Cached(env.cache.value.entries, k');
        }
      }
    }
  }

  /** A `get` asked twice in a row answers the same both times. */
  lemma GetIdempotent(bucket: string, cacheExpiry: int, env: Env, ns: string, key: string)
    ensures var first := GetStep(bucket, cacheExpiry, env, ns, key);
      GetStep(bucket, cacheExpiry, first.env, ns, key).result == first.result
  {
    GetStable(bucket, cacheExpiry, env, ns, key, ns, key);
  }

  /** `keys.map(key => get(ns, key))` run one key after the other, in key order. */
  function GetAll(bucket: string, cacheExpiry: int, env: Env, ns: string, keys: seq<string>): (g: Gets)
    ensures |g.results| == |keys|
    decreases |keys|
  {
    if keys == [] then Gets([], env)
    else
      var prev := GetAll(bucket, cacheExpiry, env, ns, keys[..|keys| - 1]);
      var s := GetStep(bucket, cacheExpiry, prev.env, ns, keys[|keys| - 1]);
      Gets(prev.results + [s.result], s.env)
  }

  lemma GetAllLast(bucket: string, cacheExpiry: int, env: Env, ns: string, keys: seq<string>)
    requires keys != []
    ensures GetAll(bucket, cacheExpiry, env, ns, keys).env
         == GetStep(bucket, cacheExpiry, GetAll(bucket, cacheExpiry, env, ns, keys[..|keys| - 1]).env, ns, keys[|keys| - 1]).env
  {
  }

  /** The earlier `get`s of a run change nothing a later `get` answers. */
  lemma {:induction false} GetAllStable(bucket: string, cacheExpiry: int, env: Env, ns: string, keys: seq<string>, ns': string, key': string)
    ensures GetStep(bucket, cacheExpiry, GetAll(bucket, cacheExpiry, env, ns, keys).env, ns', key').result
         == GetStep(bucket, cacheExpiry, env, ns', key').result
    decreases |keys|
  {
    if keys != [] {
      var prev := GetAll(bucket, cacheExpiry, env, ns, keys[..|keys| - 1]);
      GetStable(bucket, cacheExpiry, prev.env, ns, keys[|keys| - 1], ns', key');
      GetAllStable(bucket, cacheExpiry, env, ns, keys[..|keys| - 1], ns', key');
    }
  }

  /** Each key of a run is answered exactly as a lone `get` of that key would be answered. */
  lemma {:induction false} GetAllPointwise(bucket: string, cacheExpiry: int, env: Env, ns: string, keys: seq<string>, i: nat)
    requires i < |keys|
    ensures GetAll(bucket, cacheExpiry, env, ns, keys).results[i] == GetStep(bucket, cacheExpiry, env, ns, keys[i]).result
    decreases |keys|
  {
    var prefix := keys[..|keys| - 1];
    var prev := GetAll(bucket, cacheExpiry, env, ns, prefix);
    if i == |keys| - 1 {
      GetAllStable(bucket, cacheExpiry, env, ns, prefix, ns, keys[i]);
    } else {
      GetAllPointwise(bucket, cacheExpiry, env, ns, prefix, i);
      assert prefix[i] == keys[i];
    }
  }

  /** A run of `get`s leaves every stored document as it was. */
  lemma {:induction false} GetAllKeepsDocuments(bucket: string, cacheExpiry: int, env: Env, ns: string, keys: seq<string>, bucket': string, key': string)
    ensures Lookup(GetAll(bucket, cacheExpiry, env, ns, keys).env.mock, bucket', key') == Lookup(env.mock, bucket', key')
    decreases |keys|
  {
    if keys != [] {
      var prev := GetAll(bucket, cacheExpiry, env, ns, keys[..|keys| - 1]);
      GetAllKeepsDocuments(bucket, cacheExpiry, env, ns, keys[..|keys| - 1], bucket', key');
      GetKeepsDocuments(bucket, cacheExpiry, prev.env, ns, keys[|keys| - 1], bucket', key');
    }
  }

  /** The keys of the cache's `get` calls, in call order. */
  function CacheGets(log: seq<CacheCall>): seq<string>
    decreases |log|
  {
    if log == [] then []
    else CacheGets(log[..|log| - 1]) + (if log[|log| - 1].GetCall? then [log[|log| - 1].key] else [])
  }

  lemma {:induction false} CacheGetsAppend(a: seq<CacheCall>, b: seq<CacheCall>)
    ensures CacheGets(a + b) == CacheGets(a) + CacheGets(b)
    decreases |b|
  {
    if b == [] {
      assert a + b == a;
    } else {
      assert (a + b)[..|a + b| - 1] == a + b[..|b| - 1];
      CacheGetsAppend(a, b[..|b| - 1]);
    }
  }

  /** The cache keys of a run of keys. */
  function CacheKeys(ns: string, keys: seq<string>): (ks: seq<string>)
    ensures |ks| == |keys|
    ensures forall i :: 0 <= i < |keys| ==> ks[i] == CacheKey(ns, keys[i])
  {
    seq(|keys|, i requires 0 <= i < |keys| => CacheKey(ns, keys[i]))
  }

  lemma CacheGetsOfGet(k: string)
    ensures CacheGets([GetCall(k)]) == [k]
  {
    assert [GetCall(k)][..0] == [];
  }

  lemma CacheGetsOfSet(k: string, payload: Payload, mode: string, ttl: int)
    ensures CacheGets([SetCall(k, payload, mode, ttl)]) == []
  {
    assert [SetCall(k, payload, mode, ttl)][..0] == [];
  }

  /** With a cache, a `get` asks it exactly once, for its own key, hit or miss. */
  lemma GetAsksCacheOnce(bucket: string, cacheExpiry: int, env: Env, ns: string, key: string)
    requires env.cache.Some?
    ensures var s := GetStep(bucket, cacheExpiry, env, ns, key);
      s.env.cache.Some? && CacheGets(s.env.cache.value.log) == CacheGets(env.cache.value.log) + [CacheKey(ns, key)]
  {
    var s := GetStep(bucket, cacheExpiry, env, ns, key);
    var log := env.cache.value.log;
    var k := CacheKey(ns, key);
    CacheGetsAppend(log, [GetCall(k)]);
    CacheGetsOfGet(k);
    if CacheHit(env, ns, key) {
      GetHit(bucket, cacheExpiry, env, ns, key);
    } else {
      GetMiss(bucket, cacheExpiry, env, ns, key);
      if s.result.Ok? {
        var stored := SetCall(k, Json(s.result.value), ExpiryMode, cacheExpiry);
        assert s.env.cache.value.log == (log + [GetCall(k)]) + [stored];
        CacheGetsAppend(log + [GetCall(k)], [stored]);
        CacheGetsOfSet(k, Json(s.result.value), ExpiryMode, cacheExpiry);
      }
    }
  }

  /** The last `get` of a run asks the cache once more, for the last key. */
  lemma GetAllAsksCacheForLast(bucket: string, cacheExpiry: int, env: Env, ns: string, keys: seq<string>)
    requires keys != []
    requires GetAll(bucket, cacheExpiry, env, ns, keys[..|keys| - 1]).env.cache.Some?
    ensures var prev := GetAll(bucket, cacheExpiry, env, ns, keys[..|keys| - 1]);
      var g := GetAll(bucket, cacheExpiry, env, ns, keys);
      g.env.cache.Some? && CacheGets(g.env.cache.value.log) == CacheGets(prev.env.cache.value.log) + [CacheKey(ns, keys[|keys| - 1])]
  {
    GetAllLast(bucket, cacheExpiry, env, ns, keys);
    GetAsksCacheOnce(bucket, cacheExpiry, GetAll(bucket, cacheExpiry, env, ns, keys[..|keys| - 1]).env, ns, keys[|keys| - 1]);
  }

  lemma CacheKeysSnoc(ns: string, keys: seq<string>)
    requires keys != []
    ensures CacheKeys(ns, keys) == CacheKeys(ns, keys[..|keys| - 1]) + [CacheKey(ns, keys[|keys| - 1])]
  {
  }

  /** With a cache, a run of `get`s asks it exactly once per key, in key order. */
  lemma {:induction false} GetAllAsksCacheOncePerKey(bucket: string, cacheExpiry: int, env: Env, ns: string, keys: seq<string>)
    requires env.cache.Some?
    ensures var g := GetAll(bucket, cacheExpiry, env, ns, keys);
      g.env.cache.Some? && CacheGets(g.env.cache.value.log) == CacheGets(env.cache.value.log) + CacheKeys(ns, keys)
    decreases |keys|
  {
    if keys == [] {
      assert CacheKeys(ns, keys) == [];
    } else {
      var prefix := keys[..|keys| - 1];
      GetAllAsksCacheOncePerKey(bucket, cacheExpiry, env, ns, prefix);
      GetAllAsksCacheForLast(bucket, cacheExpiry, env, ns, keys);
      CacheKeysSnoc(ns, keys);
    }
  }

  /**
   * `Promise.all` over the answers: every answer when all succeeded, otherwise the
   * first failure in key order.
   */
  function Collect(rs: seq<Result<Value>>): (r: Result<seq<Value>>)
    ensures r.Ok? <==> forall i :: 0 <= i < |rs| ==> rs[i].Ok?
    ensures r.Ok? ==> |r.value| == |rs| && forall i :: 0 <= i < |rs| ==> r.value[i] == rs[i].value
    ensures r.Err? ==> exists i :: 0 <= i < |rs| && rs[i] == Err(r.error) && forall j :: 0 <= j < i ==> rs[j].Ok?
  {
    if rs == [] then Ok([])
    else if rs[0].Err? then Err(rs[0].error)
    else
      var rest := Collect(rs[1..]);
      if rest.Err? then
        ghost var i :| 0 <= i < |rs[1..]| && rs[1..][i] == Err(rest.error) && forall j :: 0 <= j < i ==> rs[1..][j].Ok?;
        assert rs[i + 1] == Err(rest.error) && forall j :: 0 <= j < i + 1 ==> rs[j].Ok?;
        rest
      else Ok([rs[0].value] + rest.value)
  }

  /**
   * What `list` and `filter(..., false)` resolve: the documents a lone `get` of each
   * key would give, in key order.
   */
  lemma GetAllInKeyOrder(bucket: string, cacheExpiry: int, env: Env, ns: string, keys: seq<string>)
    ensures var r := Collect(GetAll(bucket, cacheExpiry, env, ns, keys).results);
      && (r.Ok? <==> forall i :: 0 <= i < |keys| ==> GetStep(bucket, cacheExpiry, env, ns, keys[i]).result.Ok?)
      && (r.Ok? ==> |r.value| == |keys|)
      && (r.Ok? ==> forall i :: 0 <= i < |keys| ==> Ok(r.value[i]) == GetStep(bucket, cacheExpiry, env, ns, keys[i]).result)
  {
    var g := GetAll(bucket, cacheExpiry, env, ns, keys);
    forall i | 0 <= i < |keys|
      ensures g.results[i] == GetStep(bucket, cacheExpiry, env, ns, keys[i]).result
    {
      GetAllPointwise(bucket, cacheExpiry, env, ns, keys, i);
    }
  }

  /** After a document is written, a `get` that the cache does not answer returns it. */
  lemma GetAfterWrite(bucket: string, cacheExpiry: int, env: Env, ns: string, key: string, doc: Value)
    requires Truthy(doc)
    requires !CacheHit(env, ns, key)
    ensures GetStep(bucket, cacheExpiry, env.(mock := Write(env.mock, bucket, BuildKey(ns, key, None), doc)), ns, key).result == Ok(doc)
  {
    ReadAfterWrite(env.mock, bucket, BuildKey(ns, key, None), doc);
  }

  /** How Array.prototype.map turns listed or found values into the keys `get` is called with. */
  function KeysOf(vs: seq<Value>): (ks: seq<string>)
    ensures |ks| == |vs|
    ensures forall i :: 0 <= i < |vs| ==> ks[i] == ToKeyString(vs[i])
  {
    seq(|vs|, i requires 0 <= i < |vs| => ToKeyString(vs[i]))
  }
}
