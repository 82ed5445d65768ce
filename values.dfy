/**
 * The JavaScript values the datastore passes around: documents, keys coming back
 * from listings and searches, write acknowledgments, and the serialized form of a
 * search index.
 */
module Values {
  import opened Outcomes

  datatype Option<T> = None | Some(value: T)

  /** The two search engines an indexer can wrap. */
  datatype Engine = Elasticlunr | Flexsearch

  /** One call an indexer made into its engine's add interface. */
  datatype Posting =
    | AddDoc(doc: Value)                   // the Elasticlunr indexer hands the whole document over
    | AddField(id: Value, content: Value)  // the Flexsearch indexer adds one field under the document's id

  /**
   * The in-memory index of an engine, abstracted to what the indexer told it: the
   * fields and the ref it was configured with, and every addition in order.
   * Tokenising, scoring and the engine's own data layout are not modelled.
   */
  datatype SearchIndex = SearchIndex(fields: seq<string>, ref: Option<string>, postings: seq<Posting>)

  datatype Value =
    | Undefined
    | Null
    | Bool(b: bool)
    | Num(n: int)
    | Str(s: string)
    | Arr(items: seq<Value>)
    | Obj(props: map<string, Value>)
    | Snapshot(engine: Engine, image: SearchIndex)  // what an engine's toJSON() or export() produced

  /** JavaScript truthiness: everything is truthy except undefined, null, false, 0 and "". */
  predicate Truthy(v: Value): (t: bool)
    ensures !t <==> v == Undefined || v == Null || v == Bool(false) || v == Num(0) || v == Str("")
  {
    match v
    case Undefined => false
    case Null => false
    case Bool(b) => b
    case Num(n) => n != 0
    case Str(s) => s != ""
    case _ => true
  }

  /** A string argument that is present and not empty, which is how JavaScript tests it. */
  predicate Given(s: Option<string>): (g: bool)
    ensures g <==> s.Some? && Truthy(Str(s.value))
  {
    s.Some? && s.value != ""
  }

  /** The property name `obj[k]` uses when `k` may be undefined: JavaScript turns undefined into "undefined". */
  function PropertyKey(k: Option<string>): (name: string)
    ensures k.Some? ==> name == k.value
    ensures k.None? ==> name == "undefined"
  {
    if k.Some? then k.value else "undefined"
  }

  /** `v[name]` for a document; anything that is not a plain object has no such property here. */
  function Prop(v: Value, name: string): Value
  {
    if v.Obj? && name in v.props then v.props[name] else Undefined
  }

  function Digit(d: nat): char
    requires d < 10
  {
    "0123456789"[d]
  }

  /** Decimal rendering of a natural number, as String(n) gives it. */
  function NatToString(n: nat): (s: string)
    ensures |s| >= 1
    decreases n
  {
    if n < 10 then [Digit(n)] else NatToString(n / 10) + [Digit(n % 10)]
  }

  /** The value of a decimal digit; anything else counts as 0. */
  function DigitValue(c: char): nat
  {
    if '0' <= c <= '9' then (c as int - '0' as int) as nat else 0
  }

  /** The number a string of decimal digits spells. */
  function DecimalValue(s: string): nat
    decreases |s|
  {
    if s == [] then 0 else 10 * DecimalValue(s[..|s| - 1]) + DigitValue(s[|s| - 1])
  }

  /** The largest array index, 2^32 - 2. */
  const MaxArrayIndex: nat := 0xFFFF_FFFE

  /**
   * Whether a property name is an array index: the canonical decimal rendering of
   * an integer from 0 to 2^32 - 2 (so "7" is one, "07", "-1" and "x" are not).
   */
  predicate IsArrayIndex(k: string)
  {
    DecimalValue(k) <= MaxArrayIndex && NatToString(DecimalValue(k)) == k
  }

  function JoinWithComma(parts: seq<string>): string
  {
    if parts == [] then ""
    else if |parts| == 1 then parts[0]
    else parts[0] + "," + JoinWithComma(parts[1..])
  }

  /**
   * The text Flexsearch's `export()` returns: a JSON array, so a non-empty string.
   * The engine's own layout is not modelled; the configured fields stand in for it.
   */
  function ExportText(image: SearchIndex): (text: string)
    ensures |text| >= 2 && text[0] == '[' && text[|text| - 1] == ']'
  {
    "[" + JoinWithComma(image.fields) + "]"
  }

  /**
   * How Array.prototype.join and String() render one element: null and undefined
   * become the empty string, everything else goes through ToString. An
   * Elasticlunr snapshot is an object; a Flexsearch snapshot is the exported text.
   */
  function ToKeyString(v: Value): (s: string)
    ensures v.Undefined? || v.Null? ==> s == ""
    ensures v.Str? ==> s == v.s
    ensures v.Num? && v.n >= 0 ==> s == NatToString(v.n)
    ensures v.Obj? || (v.Snapshot? && v.engine == Elasticlunr) ==> s == "[object Object]"
    ensures v.Snapshot? && v.engine == Flexsearch ==> s == ExportText(v.image)
    decreases v
  {
    match v
    case Undefined => ""
    case Null => ""
    case Bool(b) => if b then "true" else "false"
    case Num(n) => if n < 0 then "-" + NatToString(-n) else NatToString(n)
    case Str(s) => s
    case Arr(items) => JoinWithComma(seq(|items|, i requires 0 <= i < |items| => ToKeyString(items[i])))
    case Obj(_) => "[object Object]"
    case Snapshot(Elasticlunr, _) => "[object Object]"
    case Snapshot(Flexsearch, image) => ExportText(image)
  }

  /**
   * Whether a write acknowledgment has at least one value (`Object.values(ack).length > 0`).
   * Object.values rejects null and undefined; a string has one value per character;
   * booleans and numbers have none. An exported index is an object with its parts
   * filled in (Elasticlunr) or a non-empty string (Flexsearch).
   */
  function Acknowledged(ack: Value): (r: Result<bool>)
    ensures r.Err? <==> ack == Undefined || ack == Null
    ensures r.Ok? && r.value ==> Truthy(ack)
    ensures ack.Obj? ==> r == Ok(|ack.props| > 0)
    ensures ack.Arr? ==> r == Ok(|ack.items| > 0)
    ensures ack.Str? ==> r == Ok(|ack.s| > 0)
    ensures ack.Snapshot? ==> r == Ok(true)
    ensures ack.Bool? || ack.Num? ==> r == Ok(false)
  {
    match ack
    case Undefined => Err(RejectedError("Cannot convert undefined or null to object"))
    case Null => Err(RejectedError("Cannot convert undefined or null to object"))
    case Bool(_) => Ok(false)
    case Num(_) => Ok(false)
    case Str(s) => Ok(|s| > 0)
    case Arr(items) => Ok(|items| > 0)
    case Obj(props) => Ok(|props| > 0)
    case Snapshot(_, _) => Ok(true)
  }
}
