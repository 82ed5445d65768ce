/**
 * The in-memory storage backend (lib/storage.js, `MockStore`): a dictionary from
 * bucket to a dictionary from key to document. Object.values lists a bucket's
 * documents in the object's own key order: keys that are array indices first, in
 * ascending numeric order, then every other key in the order it was first
 * written. A bucket keeps that key order beside its documents.
 */
module Storage {
  import opened Values
  import opened Outcomes

  const KeyMissing: string := "Key does not exist"

  datatype BucketData = BucketData(order: seq<string>, docs: map<string, Value>)

  /** Whether `a` and `b` are array indices and `a` is the smaller one. */
  predicate IndexBelow(a: string, b: string)
  {
    IsArrayIndex(a) && IsArrayIndex(b) && DecimalValue(a) < DecimalValue(b)
  }

  /** Two different array indices are ordered one way or the other. */
  lemma IndexBelowTotal(a: string, b: string)
    requires IsArrayIndex(a) && IsArrayIndex(b) && a != b
    ensures IndexBelow(a, b) || IndexBelow(b, a)
  {
    assert a == NatToString(DecimalValue(a)) && b == NatToString(DecimalValue(b));
  }

  /**
   * The order JavaScript enumerates an object's own keys in: every key before an
   * array index is a smaller array index. So the array indices come first, in
   * ascending order; the other keys follow in the order they were added.
   */
  predicate PropertyOrder(order: seq<string>)
  {
    forall i, j :: 0 <= i < j < |order| && IsArrayIndex(order[j]) ==> IndexBelow(order[i], order[j])
  }

  /** Every key appears once in the order, and the order holds exactly the stored keys. */
  predicate WellFormed(b: BucketData)
  {
    && (forall i, j :: 0 <= i < j < |b.order| ==> b.order[i] != b.order[j])
    && (forall k :: k in b.docs ==> k in b.order)
    && (forall i :: 0 <= i < |b.order| ==> b.order[i] in b.docs)
  }

  type Bucket = b: BucketData | WellFormed(b) witness BucketData([], map[])

  const EmptyBucket: Bucket := BucketData([], map[])

  /** One call made into the backend, as a spy on it would record it. */
  datatype StoreCall =
    | WriteCall(bucket: string, key: string, doc: Value)
    | HeadCall(bucket: string, key: string)
    | ReadCall(bucket: string, key: string)
    | ListCall(bucket: string, prefix: string, max: Option<int>)

  /** What `listDocs` resolves: a continuation token and the listed items. */
  datatype Page = Page(next: Value, results: seq<Value>)

  function BucketOf(mock: map<string, Bucket>, bucket: string): Bucket
  {
    if bucket in mock then mock[bucket] else EmptyBucket
  }

  /** Every operation first creates an empty dictionary for a bucket it has not seen. */
  function Touch(mock: map<string, Bucket>, bucket: string): (m: map<string, Bucket>)
    ensures bucket in m && m.Keys == mock.Keys + {bucket}
  {
    if bucket in mock then mock else mock[bucket := EmptyBucket]
  }

  function Lookup(mock: map<string, Bucket>, bucket: string, key: string): Option<Value>
  {
    var b := BucketOf(mock, bucket);
    if key in b.docs then Some(b.docs[key]) else None
  }

  /** How many keys at the front of the order are array indices below `key`. */
  function IndexSlot(order: seq<string>, key: string): (p: nat)
    ensures p <= |order|
  {
    if order == [] || !IndexBelow(order[0], key) then 0 else 1 + IndexSlot(order[1..], key)
  }

  /** The keys before the slot are array indices below `key`; the key at the slot is not. */
  lemma {:induction false} IndexSlotBounds(order: seq<string>, key: string)
    ensures var p := IndexSlot(order, key);
      && (forall i :: 0 <= i < p ==> IndexBelow(order[i], key))
      && (p < |order| ==> !IndexBelow(order[p], key))
  {
    if order != [] && IndexBelow(order[0], key) {
      IndexSlotBounds(order[1..], key);
      var p := IndexSlot(order, key);
      forall i | 0 <= i < p
        ensures IndexBelow(order[i], key)
      {
        if i > 0 {
          assert order[i] == order[1..][i - 1];
        }
      }
    }
  }

  /** Where a key that is added goes in the key order: after the array indices below it if it is one, else at the end. */
  function InsertSlot(order: seq<string>, key: string): (p: nat)
    ensures p <= |order|
  {
    if IsArrayIndex(key) then IndexSlot(order, key) else |order|
  }

  /** The key order with `key` placed at position `p`. */
  function InsertAt(order: seq<string>, key: string, p: nat): seq<string>
    requires p <= |order|
  {
    order[..p] + [key] + order[p..]
  }

  /** The key order after `key` is added. */
  function InsertKey(order: seq<string>, key: string): seq<string>
  {
    InsertAt(order, key, InsertSlot(order, key))
  }

  /** Placing a key at position `p` shifts the keys from `p` on by one. */
  lemma InsertAtShape(o: seq<string>, key: string, p: nat)
    requires p <= |o|
    ensures var n := InsertAt(o, key, p);
      && |n| == |o| + 1 && n[p] == key
      && (forall x :: 0 <= x < p ==> n[x] == o[x])
      && (forall x :: p < x < |n| ==> n[x] == o[x - 1])
  {
    var n := InsertAt(o, key, p);
    assert forall x :: 0 <= x < p ==> n[x] == o[..p][x];
    assert forall x :: p < x < |n| ==> n[x] == o[p..][x - p - 1];
  }

  /** InsertKey places the new key at its slot and shifts the keys after it by one. */
  lemma InsertKeyShape(o: seq<string>, key: string)
    ensures var n, p := InsertKey(o, key), InsertSlot(o, key);
      && |n| == |o| + 1 && n[p] == key
      && (forall x :: 0 <= x < p ==> n[x] == o[x])
      && (forall x :: p < x < |n| ==> n[x] == o[x - 1])
  {
    InsertAtShape(o, key, InsertSlot(o, key));
  }

  /** The new key goes after every array index below it and before the others. */
  lemma InsertKeyOrdered(o: seq<string>, key: string)
    requires PropertyOrder(o) && key !in o
    ensures PropertyOrder(InsertKey(o, key))
  {
    var n, p := InsertKey(o, key), InsertSlot(o, key);
    InsertKeyShape(o, key);
    IndexSlotBounds(o, key);
    forall i, j | 0 <= i < j < |n| && IsArrayIndex(n[j])
      ensures IndexBelow(n[i], n[j])
    {
      if j == p {
        assert IsArrayIndex(key) && n[i] == o[i];
      } else if i == p {
        NewIndexBelowLater(o, key, j - 1);
      } else if j < p {
        assert n[i] == o[i] && n[j] == o[j];
      } else if i < p {
        assert n[i] == o[i] && n[j] == o[j - 1];
      } else {
        assert n[i] == o[i - 1] && n[j] == o[j - 1];
      }
    }
  }

  /** Every array index at or after the new key's slot is above the new key. */
  lemma NewIndexBelowLater(o: seq<string>, key: string, q: nat)
    requires PropertyOrder(o) && key !in o
    requires IsArrayIndex(key) && IndexSlot(o, key) <= q < |o| && IsArrayIndex(o[q])
    ensures IndexBelow(key, o[q])
  {
    var p := IndexSlot(o, key);
    IndexSlotBounds(o, key);
    assert !IndexBelow(o[p], key) && o[p] != key;
    if q > p {
      assert IndexBelow(o[p], o[q]);
    }
    IndexBelowTotal(key, o[p]);
  }

  /** Inserting a key that is not there yet keeps the keys distinct. */
  lemma InsertKeyDistinct(o: seq<string>, key: string)
    requires key !in o
    requires forall i, j :: 0 <= i < j < |o| ==> o[i] != o[j]
    ensures var n := InsertKey(o, key); forall i, j :: 0 <= i < j < |n| ==> n[i] != n[j]
  {
    var n, p := InsertKey(o, key), InsertSlot(o, key);
    InsertKeyShape(o, key);
    forall i, j | 0 <= i < j < |n|
      ensures n[i] != n[j]
    {
      var i', j' := if i < p then i else i - 1, if j < p then j else j - 1;
      if i == p {
        assert n[j] == o[j'];
      } else if j == p {
        assert n[i] == o[i'];
      } else {
        assert n[i] == o[i'] && n[j] == o[j'];
      }
    }
  }

  /** Inserting a key adds exactly that key. */
  lemma InsertKeyMembers(o: seq<string>, key: string, k: string)
    ensures k in InsertKey(o, key) <==> k in o || k == key
  {
    var n, p := InsertKey(o, key), InsertSlot(o, key);
    InsertKeyShape(o, key);
    if k in o {
      var x :| 0 <= x < |o| && o[x] == k;
      assert n[if x < p then x else x + 1] == k;
    }
    if k in n {
      var x :| 0 <= x < |n| && n[x] == k;
      if x < p {
        assert o[x] == k;
      } else if x > p {
        assert o[x - 1] == k;
      }
    }
  }

  /** Adding a key that is not stored yet keeps a bucket well formed. */
  lemma InsertKeyWellFormed(b: Bucket, key: string, doc: Value)
    requires key !in b.docs
    ensures WellFormed(BucketData(InsertKey(b.order, key), b.docs[key := doc]))
  {
    var n := InsertKey(b.order, key);
    assert key !in b.order;
    InsertKeyDistinct(b.order, key);
    forall k | k in b.docs[key := doc]
      ensures k in n
    {
      InsertKeyMembers(b.order, key, k);
    }
    forall x | 0 <= x < |n|
      ensures n[x] in b.docs[key := doc]
    {
      InsertKeyMembers(b.order, key, n[x]);
    }
  }

  /** A key keeps its place when overwritten; a new key goes where JavaScript enumerates it. */
  function Store(b: Bucket, key: string, doc: Value): (r: Bucket)
    ensures r.docs == b.docs[key := doc]
  {
    if key in b.docs then BucketData(b.order, b.docs[key := doc])
    else
      InsertKeyWellFormed(b, key, doc);
      BucketData(InsertKey(b.order, key), b.docs[key := doc])
  }

  /** Writes keep a bucket's keys in the order JavaScript enumerates them. */
  lemma StoreKeepsPropertyOrder(b: Bucket, key: string, doc: Value)
    requires PropertyOrder(b.order)
    ensures PropertyOrder(Store(b, key, doc).order)
  {
    if key !in b.docs {
      assert key !in b.order;
      InsertKeyOrdered(b.order, key);
    }
  }

  /** `writeDoc`'s update of the dictionary: the bucket, created if missing, maps the key to the document. */
  function Write(mock: map<string, Bucket>, bucket: string, key: string, doc: Value): (m: map<string, Bucket>)
    ensures bucket in m && m.Keys == mock.Keys + {bucket}
    ensures m[bucket].docs == BucketOf(mock, bucket).docs[key := doc]
  {
    mock[bucket := Store(BucketOf(mock, bucket), key, doc)]
  }

  /** Every bucket keeps its keys in the order JavaScript enumerates them. */
  predicate InPropertyOrder(mock: map<string, Bucket>)
  {
    forall name :: name in mock ==> PropertyOrder(mock[name].order)
  }

  /** Writing keeps every bucket in JavaScript's key order. */
  lemma WriteKeepsPropertyOrder(mock: map<string, Bucket>, bucket: string, key: string, doc: Value)
    requires InPropertyOrder(mock)
    ensures InPropertyOrder(Write(mock, bucket, key, doc))
  {
    StoreKeepsPropertyOrder(BucketOf(mock, bucket), key, doc);
  }

  /** So does creating an empty bucket. */
  lemma TouchKeepsPropertyOrder(mock: map<string, Bucket>, bucket: string)
    requires InPropertyOrder(mock)
    ensures InPropertyOrder(Touch(mock, bucket))
  {
    if bucket !in mock {
      var m := mock[bucket := EmptyBucket];
      assert PropertyOrder(EmptyBucket.order);
      forall name | name in m
        ensures PropertyOrder(m[name].order)
      {
        if name != bucket {
          assert m[name] == mock[name];
        }
      }
    }
  }

  /** `headDoc`: whether a truthy document is stored there. */
  predicate Present(mock: map<string, Bucket>, bucket: string, key: string): (p: bool)
    ensures p <==> key in BucketOf(mock, bucket).docs && Truthy(BucketOf(mock, bucket).docs[key])
  {
    var d := Lookup(mock, bucket, key);
    d.Some? && Truthy(d.value)
  }

  /** `readDoc`: the stored document when it is truthy, a rejection otherwise. */
  function ReadOutcome(mock: map<string, Bucket>, bucket: string, key: string): (r: Result<Value>)
    ensures r.Ok? <==> Present(mock, bucket, key)
    ensures r.Ok? ==> Lookup(mock, bucket, key) == Some(r.value)
    ensures r.Err? ==> r.error == Rejected(KeyMissing)
  {
    if Present(mock, bucket, key) then Ok(Lookup(mock, bucket, key).value) else Err(Rejected(KeyMissing))
  }

  /** `Object.values` of a bucket: its documents in key order. */
  function Listing(b: Bucket): (docs: seq<Value>)
    ensures |docs| == |b.order|
    ensures forall i :: 0 <= i < |b.order| ==> docs[i] == b.docs[b.order[i]]
  {
    seq(|b.order|, i requires 0 <= i < |b.order| => b.docs[b.order[i]])
  }

  /** Reading a key back after writing it yields what was written, if that is truthy. */
  lemma ReadAfterWrite(mock: map<string, Bucket>, bucket: string, key: string, doc: Value)
    ensures ReadOutcome(Write(mock, bucket, key, doc), bucket, key)
         == if Truthy(doc) then Ok(doc) else Err(Rejected(KeyMissing))
  {
  }

  /** A key is present after a write exactly when the document written is truthy. */
  lemma PresentAfterWrite(mock: map<string, Bucket>, bucket: string, key: string, doc: Value)
    ensures Present(Write(mock, bucket, key, doc), bucket, key) <==> Truthy(doc)
  {
  }

  /** A write changes its own key of its own bucket and nothing else. */
  lemma WriteFrame(mock: map<string, Bucket>, bucket: string, key: string, doc: Value, bucket': string, key': string)
    requires bucket' != bucket || key' != key
    ensures Lookup(Write(mock, bucket, key, doc), bucket', key') == Lookup(mock, bucket', key')
  {
  }

  /** Creating an empty bucket stores no document. */
  lemma TouchKeepsDocuments(mock: map<string, Bucket>, bucket: string, bucket': string, key': string)
    ensures Lookup(Touch(mock, bucket), bucket', key') == Lookup(mock, bucket', key')
  {
  }

  /** A sequence that agrees with `l` except for `v` placed at position `p` is `l` with `v` inserted there. */
  lemma SpliceOf<T>(l: seq<T>, la: seq<T>, v: T, p: nat)
    requires p <= |l| && |la| == |l| + 1 && la[p] == v
    requires forall x :: 0 <= x < p ==> la[x] == l[x]
    requires forall x :: p < x < |la| ==> la[x] == l[x - 1]
    ensures la == l[..p] + [v] + l[p..]
  {
    var expected := l[..p] + [v] + l[p..];
    forall x | 0 <= x < |la|
      ensures la[x] == expected[x]
    {
      if x < p {
        assert expected[x] == l[..p][x];
      } else if x > p {
        assert expected[x] == l[p..][x - p - 1];
      }
    }
  }

  /** The listing of a bucket whose key order gained `key` at position `p`. */
  lemma ListingShifted(b: Bucket, after: Bucket, key: string, doc: Value, p: nat)
    requires key !in b.order && after.docs == b.docs[key := doc]
    requires p <= |b.order| && |after.order| == |b.order| + 1 && after.order[p] == key
    requires forall x :: 0 <= x < p ==> after.order[x] == b.order[x]
    requires forall x :: p < x < |after.order| ==> after.order[x] == b.order[x - 1]
    ensures Listing(after) == Listing(b)[..p] + [doc] + Listing(b)[p..]
  {
    var l, la := Listing(b), Listing(after);
    forall x | 0 <= x < p
      ensures la[x] == l[x]
    {
      var k := b.order[x];
      assert k != key && after.order[x] == k;
    }
    forall x | p < x < |la|
      ensures la[x] == l[x - 1]
    {
      var k := b.order[x - 1];
      assert k != key && after.order[x] == k;
    }
    SpliceOf(l, la, doc, p);
  }

  /**
   * Listing after writing a new key: the new document comes last, unless its key is
   * an array index, in which case it comes right after the documents of the smaller
   * array indices.
   */
  lemma {:induction false} ListingAfterNewKey(b: Bucket, key: string, doc: Value)
    requires key !in b.docs
    ensures !IsArrayIndex(key) ==> Listing(Store(b, key, doc)) == Listing(b) + [doc]
    ensures IsArrayIndex(key) ==>
      var p := IndexSlot(b.order, key);
      Listing(Store(b, key, doc)) == Listing(b)[..p] + [doc] + Listing(b)[p..]
  {
    var o := b.order;
    assert key !in o;
    InsertKeyShape(o, key);
    if IsArrayIndex(key) {
      ListingShifted(b, Store(b, key, doc), key, doc, IndexSlot(o, key));
    } else {
      var l := Listing(b);
      ListingShifted(b, Store(b, key, doc), key, doc, |o|);
      assert l[..|o|] == l && l[|o|..] == [];
    }
  }

  /** Object.values puts array-index keys first: an index written after another key is listed before it. */
  lemma IndexListedBeforeName(name: string, index: string, x: Value, y: Value)
    requires !IsArrayIndex(name) && IsArrayIndex(index)
    ensures Listing(Store(Store(EmptyBucket, name, x), index, y)) == [y, x]
  {
    SingleKeyListing(name, x);
    IndexBeforeSingleKey(Store(EmptyBucket, name, x), name, index, x, y);
  }

  /** A bucket with one key lists its one document. */
  lemma SingleKeyListing(name: string, x: Value)
    ensures Store(EmptyBucket, name, x).order == [name]
    ensures Listing(Store(EmptyBucket, name, x)) == [x]
  {
    assert Store(EmptyBucket, name, x) == BucketData([name], map[name := x]);
  }

  /** An array index written into a bucket whose one key is not an array index is listed first. */
  lemma IndexBeforeSingleKey(b: Bucket, name: string, index: string, x: Value, y: Value)
    requires b.order == [name] && Listing(b) == [x]
    requires !IsArrayIndex(name) && IsArrayIndex(index)
    ensures Listing(Store(b, index, y)) == [y, x]
  {
    assert index !in b.docs;
    assert IndexSlot([name], index) == 0;
    ListingAfterNewKey(b, index, y);
    assert Listing(b)[..0] + [y] + Listing(b)[0..] == [y, x];
  }

  /** For instance, writing "b" and then "1" lists the second document first. */
  lemma ArrayIndexListedFirst(x: Value, y: Value)
    ensures Listing(Store(Store(EmptyBucket, "b", x), "1", y)) == [y, x]
  {
    LetterNotArrayIndex();
    OneIsArrayIndex();
    IndexListedBeforeName("b", "1", x, y);
  }

  lemma OneIsArrayIndex()
    ensures IsArrayIndex("1")
  {
    assert DecimalValue("1") == 1 && NatToString(1) == "1";
  }

  lemma LetterNotArrayIndex()
    ensures !IsArrayIndex("b")
  {
    assert DecimalValue("b") == 0 && NatToString(0) == "0";
  }

  /** Overwriting a key keeps the listing's order and replaces that key's document only. */
  lemma {:induction false} ListingAfterOverwrite(b: Bucket, key: string, doc: Value, i: nat)
    requires key in b.docs && i < |b.order|
    ensures |Listing(Store(b, key, doc))| == |Listing(b)|
    ensures Listing(Store(b, key, doc))[i] == if b.order[i] == key then doc else Listing(b)[i]
  {
  }

  /** The listing holds every stored document, and only stored documents. */
  lemma {:induction false} ListingIsComplete(b: Bucket, key: string)
    ensures key in b.docs ==> exists i :: 0 <= i < |Listing(b)| && b.order[i] == key && Listing(b)[i] == b.docs[key]
    ensures forall i :: 0 <= i < |Listing(b)| ==> b.order[i] in b.docs && Listing(b)[i] == b.docs[b.order[i]]
  {
    if key in b.docs {
      var i :| 0 <= i < |b.order| && b.order[i] == key;
    }
  }

  class MockStore {
    var mock: map<string, Bucket>
    ghost var log: seq<StoreCall>

    constructor ()
      ensures mock == map[] && log == []
    {
      mock := map[];
      log := [];
    }

    /** `writeDoc`: stores `doc` under `key` and resolves it. */
    method WriteDoc(bucket: string, key: string, doc: Value) returns (ack: Value)
      modifies this
      ensures mock == Write(old(mock), bucket, key, doc)
      ensures log == old(log) + [WriteCall(bucket, key, doc)]
      ensures ack == doc
    {
      var b := BucketOf(mock, bucket);
      mock := mock[bucket := Store(b, key, doc)];
      log := log + [WriteCall(bucket, key, doc)];
      ack := doc;
    }

    /** `headDoc`: resolves whether a truthy document is stored. */
    method HeadDoc(bucket: string, key: string) returns (present: bool)
      modifies this
      ensures mock == Touch(old(mock), bucket)
      ensures log == old(log) + [HeadCall(bucket, key)]
      ensures present == Present(old(mock), bucket, key)
    {
      mock := Touch(mock, bucket);
      log := log + [HeadCall(bucket, key)];
      var b := mock[bucket];
      present := key in b.docs && Truthy(b.docs[key]);
    }

    /** `readDoc`: resolves a truthy stored document, rejects with "Key does not exist" otherwise. */
    method ReadDoc(bucket: string, key: string) returns (r: Result<Value>)
      modifies this
      ensures mock == Touch(old(mock), bucket)
      ensures log == old(log) + [ReadCall(bucket, key)]
      ensures r == ReadOutcome(old(mock), bucket, key)
    {
      mock := Touch(mock, bucket);
      log := log + [ReadCall(bucket, key)];
      var b := mock[bucket];
      if key in b.docs && Truthy(b.docs[key]) {
        r := Ok(b.docs[key]);
      } else {
        r := Err(Rejected(KeyMissing));
      }
    }

    /** `listDocs`: resolves every document of the bucket, ignoring prefix and max, with a null continuation. */
    method ListDocs(bucket: string, prefix: string, max: Option<int>) returns (page: Page)
      modifies this
      ensures mock == Touch(old(mock), bucket)
      ensures log == old(log) + [ListCall(bucket, prefix, max)]
      ensures page == Page(Null, Listing(BucketOf(old(mock), bucket)))
    {
      mock := Touch(mock, bucket);
      log := log + [ListCall(bucket, prefix, max)];
      assert mock[bucket] == BucketOf(old(mock), bucket);
      page := Page(Null, Listing(mock[bucket]));
    }
  }
}
