/**
 * The cache client the datastore is given (a Redis-style client with `get` and
 * `set(key, value, 'EX', seconds)`). It is external to the source; the model keeps
 * it as an in-memory dictionary from cache key to the stored text with its expiry
 * mode and seconds. Stored text is either the JSON encoding of a value or text
 * that is not JSON at all (which another writer of the same cache may have left);
 * expiry itself (entries vanishing over time) is not modelled.
 */
module Caching {
  import opened Values
  import opened Outcomes

  /** Text held in the cache: `JSON.stringify(doc)` of some value, or text JSON.parse refuses. */
  datatype Payload = Json(doc: Value) | Malformed(text: string)

  datatype CacheEntry = CacheEntry(payload: Payload, mode: string, ttl: int)

  /** One call made into the cache client, as a spy on it would record it. */
  datatype CacheCall =
    | GetCall(key: string)
    | SetCall(key: string, payload: Payload, mode: string, ttl: int)

  /** The message of the SyntaxError JSON.parse throws on text that is not JSON. */
  const JsonSyntaxError: string := "Unexpected token in JSON"

  /** What `get` hands back: the stored text, or null (`None`) on a miss. */
  function Cached(entries: map<string, CacheEntry>, key: string): (reply: Option<Payload>)
    ensures reply.None? <==> key !in entries
    ensures reply.Some? ==> reply.value == entries[key].payload
  {
    if key in entries then Some(entries[key].payload) else None
  }

  /**
   * `JSON.parse(reply)`: null parses to null, JSON text to the value it encodes, and
   * anything else throws a SyntaxError, which rejects the promise it is chained on.
   */
  function ParseReply(reply: Option<Payload>): (r: Result<Value>)
    ensures r.Err? <==> reply.Some? && reply.value.Malformed?
    ensures r.Err? ==> r.error == RejectedError(JsonSyntaxError)
    ensures reply.None? ==> r == Ok(Null)
  {
    match reply
    case None => Ok(Null)
    case Some(Json(doc)) => Ok(doc)
    case Some(Malformed(_)) => Err(RejectedError(JsonSyntaxError))
  }

  /** What is read back under a key just written as the JSON of `doc` parses to `doc`. */
  lemma ParseAfterSet(entries: map<string, CacheEntry>, key: string, doc: Value, mode: string, ttl: int)
    ensures ParseReply(Cached(entries[key := CacheEntry(Json(doc), mode, ttl)], key)) == Ok(doc)
  {
  }

  class CacheClient {
    var entries: map<string, CacheEntry>
    ghost var log: seq<CacheCall>

    constructor ()
      ensures entries == map[] && log == []
    {
      entries := map[];
      log := [];
    }

    method Get(key: string) returns (reply: Option<Payload>)
      modifies this
      ensures entries == old(entries)
      ensures log == old(log) + [GetCall(key)]
      ensures reply == Cached(entries, key)
    {
      log := log + [GetCall(key)];
      reply := Cached(entries, key);
    }

    method Set(key: string, payload: Payload, mode: string, ttl: int)
      modifies this
      ensures entries == old(entries)[key := CacheEntry(payload, mode, ttl)]
      ensures log == old(log) + [SetCall(key, payload, mode, ttl)]
    {
      entries := entries[key := CacheEntry(payload, mode, ttl)];
      log := log + [SetCall(key, payload, mode, ttl)];
    }
  }
}
