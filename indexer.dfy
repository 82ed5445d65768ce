/**
 * The per-namespace search indexers (lib/indexer.js, `Elasticlunr` and
 * `Flexsearch`). Both keep a nullable in-memory index and a dirty flag and share
 * one lifecycle; they differ in the file name of their snapshot and in how they
 * build, fill, export and query the engine. One class with an `engine`
 * discriminator stands for both.
 *
 * The engines are foreign code. The index is abstracted to a SearchIndex (the
 * configured fields and ref and every addition in order), the serialized form to
 * a Snapshot value, and search results to a parameter: the hits the engine
 * returned for the query.
 */
module Indexing {
  import opened Values
  import opened Outcomes

  const SerializeMessage: string := "Tried to serialize an index not loaded yet"

  function IndexFileName(engine: Engine): string
  {
    if engine.Elasticlunr? then "el_index.json" else "flex_index.json"
  }

  /**
   * What `init(fields, ref)` builds: an Elasticlunr index configured with the fields
   * and the ref, or an unconfigured Flexsearch index.
   */
  function FreshIndex(engine: Engine, fields: seq<string>, ref: string): (ix: SearchIndex)
    ensures ix.postings == []
    ensures engine.Elasticlunr? ==> ix.fields == fields && ix.ref == Some(ref)
    ensures engine.Flexsearch? ==> ix.fields == [] && ix.ref.None?
  {
    if engine.Elasticlunr? then SearchIndex(fields, Some(ref), []) else SearchIndex([], None, [])
  }

  /**
   * The engine's deserializer (Elasticlunr's Index.load, Flexsearch's import):
   * it takes back what that engine exported and throws on anything else.
   */
  function Import(engine: Engine, body: Value): (ix: Option<SearchIndex>)
    ensures ix.Some? <==> body.Snapshot? && body.engine == engine
  {
    if body.Snapshot? && body.engine == engine then Some(body.image) else None
  }

  /** What `load(body)` leaves in `_index`: the imported index, or a fresh one when import throws. */
  function LoadedIndex(engine: Engine, fields: seq<string>, ref: string, body: Value): (ix: SearchIndex)
    ensures body.Snapshot? && body.engine == engine ==> ix == body.image
    ensures !(body.Snapshot? && body.engine == engine) ==> ix == FreshIndex(engine, fields, ref)
  {
    var imported := Import(engine, body);
    if imported.Some? then imported.value else FreshIndex(engine, fields, ref)
  }

  /** The engine calls Flexsearch's `add` makes: one per field, in field order, each under `doc[ref]`. */
  function FieldPostings(doc: Value, ref: string, fields: seq<string>): (ps: seq<Posting>)
    ensures |ps| == |fields|
    ensures forall i :: 0 <= i < |fields| ==> ps[i] == AddField(Prop(doc, ref), Prop(doc, fields[i]))
  {
    if fields == [] then []
    else [AddField(Prop(doc, ref), Prop(doc, fields[0]))] + FieldPostings(doc, ref, fields[1..])
  }

  lemma FieldPostingsSnoc(doc: Value, ref: string, fields: seq<string>, i: nat)
    requires i < |fields|
    ensures FieldPostings(doc, ref, fields[..i + 1])
         == FieldPostings(doc, ref, fields[..i]) + [AddField(Prop(doc, ref), Prop(doc, fields[i]))]
  {
    var a := FieldPostings(doc, ref, fields[..i + 1]);
    var p := FieldPostings(doc, ref, fields[..i]);
    var b := p + [AddField(Prop(doc, ref), Prop(doc, fields[i]))];
    forall j | 0 <= j < i + 1
      ensures a[j] == b[j]
    {
      assert fields[..i + 1][j] == fields[j];
      if j < i {
        assert fields[..i][j] == fields[j];
        assert b[j] == p[j];
      }
    }
    assert a == b;
  }

  /** The engine calls one `add` makes. */
  function NewPostings(engine: Engine, fields: seq<string>, ref: string, doc: Value): (ps: seq<Posting>)
    ensures engine.Elasticlunr? ==> ps == [AddDoc(doc)]
    ensures engine.Flexsearch? ==> |ps| == |fields|
    ensures engine.Flexsearch? ==> forall i :: 0 <= i < |fields| ==> ps[i] == AddField(Prop(doc, ref), Prop(doc, fields[i]))
  {
    if engine.Elasticlunr? then [AddDoc(doc)] else FieldPostings(doc, ref, fields)
  }

  /** Elasticlunr's search: the `ref` of each hit, in the engine's order. */
  function Refs(hits: seq<Value>): (refs: seq<Value>)
    ensures |refs| == |hits|
    ensures forall i :: 0 <= i < |hits| ==> refs[i] == Prop(hits[i], "ref")
  {
    if hits == [] then [] else [Prop(hits[0], "ref")] + Refs(hits[1..])
  }

  /** What `search` returns given the engine's hits: refs for Elasticlunr, the hits themselves for Flexsearch. */
  function SearchResult(engine: Engine, hits: seq<Value>): (r: seq<Value>)
    ensures engine.Elasticlunr? ==> r == Refs(hits)
    ensures engine.Flexsearch? ==> r == hits
    ensures |r| == |hits|
  {
    if engine.Elasticlunr? then Refs(hits) else hits
  }

  class Indexer {
    const engine: Engine
    const indexPath: string
    const fields: seq<string>
    const ref: string
    var index: Option<SearchIndex>
    var dirty: bool

    constructor (engine: Engine, fields: seq<string>, ref: string)
      ensures this.engine == engine && this.fields == fields && this.ref == ref
      ensures indexPath == IndexFileName(engine)
      ensures index == None && !dirty
    {
      this.engine := engine;
      this.indexPath := IndexFileName(engine);
      this.fields := fields;
      this.ref := ref;
      index := None;
      dirty := false;
    }

    /** `isDirty`: whether additions have been made since the index was last saved. */
    function IsDirty(): (d: bool)
      reads this
      ensures d <==> dirty
    {
      dirty
    }

    method SetClean()
      modifies this
      ensures !dirty && index == old(index)
    {
      dirty := false;
    }

    /** `reset` drops the in-memory index; unsaved additions are lost and the dirty flag stays as it was. */
    method Reset()
      modifies this
      ensures index == None && dirty == old(dirty)
    {
      index := None;
    }

    /** `init(fields, ref)`: Elasticlunr adds the fields one by one and sets the ref. */
    method Init(fields: seq<string>, ref: string)
      modifies this
      ensures index == Some(FreshIndex(engine, fields, ref)) && dirty == old(dirty)
    {
      if engine.Elasticlunr? {
        var added: seq<string> := [];
        for i := 0 to |fields|
          invariant added == fields[..i]
        {
          added := added + [fields[i]];
        }
        assert fields[..|fields|] == fields;
        index := Some(SearchIndex(added, Some(ref), []));
      } else {
        index := Some(SearchIndex([], None, []));
      }
    }

    /** `load(body)`: import the snapshot, falling back to `init(_fields, _ref)` when the engine rejects it. */
    method Load(body: Value)
      modifies this
      ensures index == Some(LoadedIndex(engine, fields, ref, body)) && dirty == old(dirty)
    {
      if engine.Flexsearch? {
        index := Some(SearchIndex([], None, []));
      }
      var imported := Import(engine, body);
      if imported.Some? {
        index := imported;
      } else {
        Init(fields, ref);
      }
    }

    /** `serialize`: the engine's export, or an Error when no index is loaded. */
    method Serialize() returns (r: Result<Value>)
      ensures index.None? ==> r == Err(Threw(SerializeMessage))
      ensures index.Some? ==> r == Ok(Snapshot(engine, index.value))
    {
      if index.None? {
        return Err(Threw(SerializeMessage));
      }
      r := Ok(Snapshot(engine, index.value));
    }

    /**
     * `add(doc)`: marks the index dirty first, then hands the document to the engine.
     * On an unloaded index the engine call dereferences null; Flexsearch makes no
     * engine call, and so does not fail, when it has no fields.
     */
    method Add(doc: Value) returns (r: Outcome)
      modifies this
      ensures dirty
      ensures old(index).None? ==> index == None
      ensures old(index).None? ==> r == if engine.Elasticlunr? then Fail(Threw(TypeErrorReading("null", "addDoc")))
                                        else if |fields| > 0 then Fail(Threw(TypeErrorReading("null", "add")))
                                        else Pass
      ensures old(index).Some? ==> r == Pass
      ensures old(index).Some? ==> index == Some(old(index).value.(postings := old(index).value.postings + NewPostings(engine, fields, ref, doc)))
    {
      dirty := true;
      if engine.Elasticlunr? {
        if index.None? {
          return Fail(Threw(TypeErrorReading("null", "addDoc")));
        }
        index := Some(index.value.(postings := index.value.postings + [AddDoc(doc)]));
        return Pass;
      }
      ghost var before := index;
      assert fields[..0] == [];
      assert before.Some? ==> before.value.(postings := before.value.postings + []) == before.value;
      for i := 0 to |fields|
        invariant dirty
        invariant before.None? ==> index == None && i == 0
        invariant before.Some? ==> index == Some(before.value.(postings := before.value.postings + FieldPostings(doc, ref, fields[..i])))
      {
        if index.None? {
          return Fail(Threw(TypeErrorReading("null", "add")));
        }
        var posting := AddField(Prop(doc, ref), Prop(doc, fields[i]));
        FieldPostingsSnoc(doc, ref, fields, i);
        assert before.value.postings + FieldPostings(doc, ref, fields[..i]) + [posting]
            == before.value.postings + FieldPostings(doc, ref, fields[..i + 1]);
        index := Some(index.value.(postings := index.value.postings + [posting]));
      }
      assert fields[..|fields|] == fields;
      r := Pass;
    }

    /** `search`: the keys the engine found, or an Error when no index is loaded. */
    function Search(hits: seq<Value>): (r: Result<seq<Value>>)
      reads this
      ensures index.None? <==> r.Err?
      ensures r.Ok? ==> r.value == SearchResult(engine, hits)
      ensures r.Ok? ==> |r.value| == |hits|
    {
      if index.None? then Err(Threw(TypeErrorReading("null", "search"))) else Ok(SearchResult(engine, hits))
    }
  }

  /** A snapshot taken by `serialize` loads back as the same index. */
  lemma SnapshotRoundTrip(engine: Engine, fields: seq<string>, ref: string, ix: SearchIndex)
    ensures LoadedIndex(engine, fields, ref, Snapshot(engine, ix)) == ix
  {
  }

  /** Anything that is not this engine's snapshot loads as a fresh index, never as nothing. */
  lemma LoadFallsBackToInit(engine: Engine, fields: seq<string>, ref: string, body: Value)
    requires !(body.Snapshot? && body.engine == engine)
    ensures LoadedIndex(engine, fields, ref, body) == FreshIndex(engine, fields, ref)
    ensures LoadedIndex(engine, fields, ref, body).postings == []
  {
  }
}
