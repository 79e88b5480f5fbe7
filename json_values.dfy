/**
 * Decoded JSON as PHP sees it. Parsing JSON text is a collaborator of the documents
 * (`json_decode`); the model receives its result as a `Json` tree and models the mode
 * the document decodes in: associative mode (JSON objects become ordered arrays, as
 * `getData` asks for) or object mode (JSON objects become `stdClass` objects, as the
 * legacy `getContentObject` asks for). Floating-point numbers are kept as their text.
 */
module JsonValues {
  import opened Wrappers

  datatype Member = Member(name: string, value: Json)

  /** A JSON text's value, in document order. */
  datatype Json =
    | JNull
    | JBool(b: bool)
    | JInt(i: int)
    | JFloat(literal: string)
    | JString(s: string)
    | JArray(items: seq<Json>)
    | JObject(members: seq<Member>)

  /** A PHP array key. */
  datatype Key = IntKey(index: int) | StrKey(name: string)

  datatype Entry = Entry(key: Key, value: PhpValue)

  datatype Property = Property(name: string, value: PhpValue)

  /** The PHP values `json_decode` produces. */
  datatype PhpValue =
    | PNull
    | PBool(b: bool)
    | PInt(i: int)
    | PFloat(literal: string)
    | PString(s: string)
    | PArray(entries: seq<Entry>)
    | PObject(properties: seq<Property>)

  /** No `stdClass` object anywhere inside `v`. */
  predicate NoObjects(v: PhpValue) {
    match v
    case PObject(_) => false
    case PArray(entries) => forall k :: 0 <= k < |entries| ==> NoObjects(entries[k].value)
    case _ => true
  }

  /** The value has the same shape as the JSON value: scalars alike, containers of the same size. */
  predicate SameShape(j: Json, v: PhpValue) {
    match j
    case JNull => v == PNull
    case JBool(b) => v == PBool(b)
    case JInt(i) => v == PInt(i)
    case JFloat(t) => v == PFloat(t)
    case JString(s) => v == PString(s)
    case JArray(items) => v.PArray? && |v.entries| == |items|
    case JObject(members) => (v.PArray? && |v.entries| == |members|) || (v.PObject? && |v.properties| == |members|)
  }

  /** Associative-mode decoding: arrays keep positional keys, objects become arrays keyed by member name. */
  function ToAssoc(j: Json): (v: PhpValue)
    ensures NoObjects(v)
    ensures SameShape(j, v)
    decreases j
  {
    match j
    case JNull => PNull
    case JBool(b) => PBool(b)
    case JInt(i) => PInt(i)
    case JFloat(t) => PFloat(t)
    case JString(s) => PString(s)
    case JArray(items) =>
      PArray(seq(|items|, k requires 0 <= k < |items| => Entry(IntKey(k), ToAssoc(items[k]))))
    case JObject(members) =>
      PArray(seq(|members|, k requires 0 <= k < |members| => Entry(StrKey(members[k].name), ToAssoc(members[k].value))))
  }

  /** Object-mode decoding: JSON objects become `stdClass` objects with the same members in order. */
  function ToObject(j: Json): (v: PhpValue)
    ensures SameShape(j, v)
    ensures v.PObject? <==> j.JObject?
    decreases j
  {
    match j
    case JNull => PNull
    case JBool(b) => PBool(b)
    case JInt(i) => PInt(i)
    case JFloat(t) => PFloat(t)
    case JString(s) => PString(s)
    case JArray(items) =>
      PArray(seq(|items|, k requires 0 <= k < |items| => Entry(IntKey(k), ToObject(items[k]))))
    case JObject(members) =>
      PObject(seq(|members|, k requires 0 <= k < |members| => Property(members[k].name, ToObject(members[k].value))))
  }

  /** `json_decode($content, true)`: malformed text decodes to `null`. */
  function DecodeAssoc(content: string, parse: string -> Option<Json>): (v: PhpValue)
    ensures NoObjects(v)
    ensures parse(content).None? ==> v == PNull
    ensures parse(content).Some? ==> SameShape(parse(content).value, v)
  {
    match parse(content)
    case None => PNull
    case Some(j) => ToAssoc(j)
  }

  /** `json_decode($content)`: malformed text decodes to `null`. */
  function DecodeObject(content: string, parse: string -> Option<Json>): (v: PhpValue)
    ensures parse(content).None? ==> v == PNull
    ensures parse(content).Some? ==> SameShape(parse(content).value, v)
    ensures v.PObject? <==> parse(content).Some? && parse(content).value.JObject?
  {
    match parse(content)
    case None => PNull
    case Some(j) => ToObject(j)
  }

  /** In associative mode `{}` and `[]` decode to the same empty array. */
  lemma EmptyObjectDecodesLikeEmptyArray()
    ensures ToAssoc(JObject([])) == ToAssoc(JArray([])) == PArray([])
  {
  }

  /** In object mode they stay apart: `{}` is an empty `stdClass`, `[]` an empty array. */
  lemma EmptyObjectIsObjectInObjectMode()
    ensures ToObject(JObject([])) == PObject([])
    ensures ToObject(JObject([])) != ToObject(JArray([]))
  {
  }

  /** `{"foo": "bar"}` decodes in associative mode to the array `['foo' => 'bar']`. */
  lemma SingleMemberObjectDecodesToKeyedArray()
    ensures ToAssoc(JObject([Member("foo", JString("bar"))])) == PArray([Entry(StrKey("foo"), PString("bar"))])
  {
  }

  /** No JSON object anywhere inside `j`. */
  predicate ObjectFree(j: Json) {
    match j
    case JObject(_) => false
    case JArray(items) => forall k :: 0 <= k < |items| ==> ObjectFree(items[k])
    case _ => true
  }

  /** The two decoding modes differ only on JSON objects: without one they give the same value. */
  lemma {:induction false} ModesAgreeWithoutObjects(j: Json)
    requires ObjectFree(j)
    ensures ToAssoc(j) == ToObject(j)
    decreases j
  {
    match j
    case JArray(items) =>
      forall k | 0 <= k < |items| ensures ToAssoc(items[k]) == ToObject(items[k]) {
        ModesAgreeWithoutObjects(items[k]);
      }
      assert ToAssoc(j).entries == ToObject(j).entries;
    case _ =>
  }

  /** Associative mode keeps the members of an object, in order, under their names. */
  lemma AssocKeepsMembers(members: seq<Member>, k: nat)
    requires k < |members|
    ensures ToAssoc(JObject(members)).entries[k] == Entry(StrKey(members[k].name), ToAssoc(members[k].value))
  {
  }

  /** Object mode keeps the members of an object, in order, as properties under their names. */
  lemma ObjectKeepsMembers(members: seq<Member>, k: nat)
    requires k < |members|
    ensures ToObject(JObject(members)).properties[k] == Property(members[k].name, ToObject(members[k].value))
  {
  }

  /** Object mode keeps the items of an array, in order, under their positions. */
  lemma ObjectKeepsItems(items: seq<Json>, k: nat)
    requires k < |items|
    ensures ToObject(JArray(items)).entries[k] == Entry(IntKey(k), ToObject(items[k]))
  {
  }

  /** Associative mode keeps the items of an array, in order, under their positions. */
  lemma AssocKeepsItems(items: seq<Json>, k: nat)
    requires k < |items|
    ensures ToAssoc(JArray(items)).entries[k] == Entry(IntKey(k), ToAssoc(items[k]))
  {
  }
}
