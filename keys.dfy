/**
 * The key builder shared by every storage backend (lib/storage.js, `_buildKey`)
 * and the S3 adapter's inverse (`_getKeyFromPath`): plain '/'-joined paths.
 */
module Keys {
  import opened Values

  const EntityFile: string := "entity.json"

  /** `parts.join('/')`. */
  function Join(parts: seq<string>): string
  {
    if parts == [] then ""
    else if |parts| == 1 then parts[0]
    else parts[0] + "/" + Join(parts[1..])
  }

  /** `_buildKey`: a parent counts only when it is truthy (`Given`); null, absent and "" all give the two-level form. */
  function BuildKey(ns: string, key: string, parent: Option<string>): (path: string)
    ensures !Given(parent) ==> path == ns + "/" + key + "/" + EntityFile
    ensures Given(parent) ==> path == ns + "/" + parent.value + "/" + key + "/" + EntityFile
  {
    assert Join([key, EntityFile]) == key + "/" + EntityFile;
    if Given(parent) then
      var parts := [ns, parent.value, key, EntityFile];
      assert parts[1..][1..] == [key, EntityFile];
      assert Join(parts[1..]) == parent.value + "/" + (key + "/" + EntityFile);
      assert Join(parts) == ns + "/" + (parent.value + "/" + (key + "/" + EntityFile));
      Join(parts)
    else
      var parts := [ns, key, EntityFile];
      assert parts[1..] == [key, EntityFile];
      Join(parts)
  }

  /** The cache key of an entity: `[namespace, key].join('/')`. */
  function CacheKey(ns: string, key: string): (k: string)
    ensures k == ns + "/" + key
  {
    JoinPair(ns, key);
    Join([ns, key])
  }

  /** Where a namespace's serialized index lives: `[namespace, indexPath].join('/')`. */
  function IndexDocKey(ns: string, indexPath: string): (k: string)
    ensures k == ns + "/" + indexPath
  {
    CacheKey(ns, indexPath)
  }

  lemma JoinPair(a: string, b: string)
    ensures Join([a, b]) == a + "/" + b
  {
    assert [a, b][1..] == [b];
  }

  /** `s.split('/')`: the segments between separators, empty ones included. */
  function Split(s: string): (parts: seq<string>)
    ensures |parts| >= 1
    ensures forall i :: 0 <= i < |parts| ==> '/' !in parts[i]
  {
    if s == [] then [""]
    else
      var rest := Split(s[1..]);
      if s[0] == '/' then [""] + rest
      else [[s[0]] + rest[0]] + rest[1..]
  }

  /**
   * The entity key of a storage path: the second-to-last segment, or null when the
   * path has no separator.
   */
  function GetKeyFromPath(path: string): (key: Option<string>)
    ensures key.Some? <==> |Split(path)| > 1
    ensures key.Some? ==> key.value == Split(path)[|Split(path)| - 2]
    ensures key.Some? ==> '/' !in key.value
  {
    var k := Split(path);
    if |k| > 1 then Some(k[|k| - 2]) else None
  }

  lemma {:induction false} SplitWithoutSeparator(s: string)
    requires '/' !in s
    ensures Split(s) == [s]
  {
    if s != [] {
      SplitWithoutSeparator(s[1..]);
      assert [s[0]] + s[1..] == s;
    }
  }

  lemma {:induction false} SplitConcat(a: string, b: string)
    ensures Split(a + "/" + b) == Split(a) + Split(b)
  {
    if a == [] {
      assert a + "/" + b == "/" + b;
      assert ("/" + b)[1..] == b;
    } else {
      assert (a + "/" + b)[1..] == a[1..] + "/" + b;
      SplitConcat(a[1..], b);
    }
  }

  /** A path has a second-to-last segment exactly when it contains a separator. */
  lemma {:induction false} SplitSingleton(s: string)
    ensures |Split(s)| == 1 <==> '/' !in s
  {
    if '/' !in s {
      SplitWithoutSeparator(s);
    } else {
      var i :| 0 <= i < |s| && s[i] == '/';
      assert s == s[..i] + "/" + s[i + 1..];
      SplitConcat(s[..i], s[i + 1..]);
    }
  }

  lemma {:induction false} GetKeyFromPathNull(path: string)
    ensures GetKeyFromPath(path).None? <==> '/' !in path
  {
    SplitSingleton(path);
  }

  /** The last segment of `a/b`, for a `b` without separators, is `b`. */
  function LastSegment(path: string): string
  {
    var k := Split(path);
    k[|k| - 1]
  }

  lemma {:induction false} LastSegmentOf(a: string, b: string)
    requires '/' !in b
    ensures LastSegment(a + "/" + b) == b
  {
    SplitConcat(a, b);
    SplitWithoutSeparator(b);
  }

  /** The segments of an entity path: those of its head, then the key, then the file name. */
  lemma {:induction false} SplitEntityPath(head: string, key: string, file: string)
    requires '/' !in key && '/' !in file
    ensures Split(head + "/" + (key + "/" + file)) == Split(head) + [key, file]
  {
    SplitConcat(head, key + "/" + file);
    SplitConcat(key, file);
    SplitWithoutSeparator(key);
    SplitWithoutSeparator(file);
  }

  /** `_getKeyFromPath` recovers the key `_buildKey` was given, with or without a parent. */
  lemma {:induction false} KeyFromPathRoundTrip(ns: string, key: string, parent: Option<string>)
    requires '/' !in key
    ensures GetKeyFromPath(BuildKey(ns, key, parent)) == Some(key)
  {
    var head := if Given(parent) then ns + "/" + parent.value else ns;
    assert BuildKey(ns, key, parent) == head + "/" + (key + "/" + EntityFile);
    SplitEntityPath(head, key, EntityFile);
  }

  lemma MiddleOf(pre: string, k: string, post: string)
    ensures (pre + k + post)[|pre|..|pre| + |k|] == k
  {
    var s := pre + k + post;
    assert forall i :: 0 <= i < |k| ==> s[|pre| + i] == k[i];
  }

  /** Within one namespace and parent, distinct keys never share a storage path. */
  lemma {:induction false} BuildKeyInjective(ns: string, parent: Option<string>, k1: string, k2: string)
    requires BuildKey(ns, k1, parent) == BuildKey(ns, k2, parent)
    ensures k1 == k2
  {
    var pre := if Given(parent) then ns + "/" + parent.value + "/" else ns + "/";
    var post := "/" + EntityFile;
    var s1, s2 := pre + k1 + post, pre + k2 + post;
    assert BuildKey(ns, k1, parent) == s1;
    assert BuildKey(ns, k2, parent) == s2;
    assert |k1| == |k2|;
    MiddleOf(pre, k1, post);
    MiddleOf(pre, k2, post);
  }

  /**
   * The two layouts overlap once keys may contain '/': a key "p/k" without a parent
   * lands where key "k" under parent "p" lands.
   */
  lemma {:induction false} LayoutsOverlap(ns: string, p: string, k: string)
    requires p != ""
    ensures BuildKey(ns, p + "/" + k, None) == BuildKey(ns, k, Some(p))
  {
  }

  /**
   * An index snapshot never lands on an entity's path: entity paths end in
   * "entity.json", index paths in the indexer's own file name.
   */
  lemma {:induction false} IndexPathIsNotEntityPath(ns: string, key: string, parent: Option<string>, ns': string, indexPath: string)
    requires '/' !in indexPath && indexPath != EntityFile
    ensures IndexDocKey(ns', indexPath) != BuildKey(ns, key, parent)
  {
    var head := if Given(parent) then ns + "/" + parent.value + "/" + key else ns + "/" + key;
    assert BuildKey(ns, key, parent) == head + "/" + EntityFile;
    LastSegmentOf(head, EntityFile);
    LastSegmentOf(ns', indexPath);
  }
}
