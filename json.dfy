/** JSON values as the message codecs see them, the decoding errors they report, and the
    field-level rules of the derived (de)serialisers: a required field that is missing is an
    error, an `Option` field that is missing or `null` is `None`, and keys a type does not
    name are ignored. Objects are maps, so key order and duplicate keys are not represented. */
module Json {
  import opened Wrappers
  import opened Ints

  datatype Json =
    | JNull
    | JBool(b: bool)
    | JInt(n: int)
    | JString(s: string)
    | JArray(items: seq<Json>)
    | JObject(fields: map<string, Json>)

  type Object = map<string, Json>

  /** Why a JSON value did not decode as the expected type. */
  datatype DecodeError =
    | NotAnObject
    | MissingField(name: string)
    | InvalidType(name: string)
    | InvalidValue(name: string)
    | UnknownVariant(tag: string)

  type Decoded<T> = Result<T, DecodeError>

  /** The (de)serialiser of a type the codec does not look into (plugin settings, inspector
      messages). `decode` sees `None` when the field is absent from its object. */
  datatype Codec<!T> = Codec(encode: T -> Json, decode: Option<Json> -> Option<T>)

  /** The opaque codec reads back whatever it wrote. */
  ghost predicate Lawful<T(!new)>(c: Codec<T>) {
    forall x :: c.decode(Some(c.encode(x))) == Some(x)
  }

  /** The value of a key when it is present and not `null`. */
  function Present(obj: Object, name: string): (r: Option<Json>)
    ensures r.Some? <==> name in obj && obj[name] != JNull
    ensures r.Some? ==> r.value == obj[name]
  {
    if name in obj && obj[name] != JNull then Some(obj[name]) else None
  }

  function AsString(j: Json, name: string): (r: Decoded<string>)
    ensures r.Success? <==> j.JString?
    ensures r.Success? ==> r.value == j.s
    ensures r.Failure? ==> r.error == InvalidType(name)
  {
    if j.JString? then Success(j.s) else Failure(InvalidType(name))
  }

  function AsBool(j: Json, name: string): (r: Decoded<bool>)
    ensures r.Success? <==> j.JBool?
    ensures r.Success? ==> r.value == j.b
  {
    if j.JBool? then Success(j.b) else Failure(InvalidType(name))
  }

  /** An integer of the given half-open range; other integers are invalid values. */
  function AsIntIn(j: Json, name: string, lo: int, hi: int): (r: Decoded<int>)
    ensures r.Success? <==> j.JInt? && lo <= j.n < hi
    ensures r.Success? ==> r.value == j.n
  {
    if !j.JInt? then Failure(InvalidType(name))
    else if lo <= j.n < hi then Success(j.n)
    else Failure(InvalidValue(name))
  }

  function AsU8(j: Json, name: string): (r: Decoded<uint8>)
    ensures r.Success? <==> j.JInt? && 0 <= j.n < 0x100
    ensures r.Success? ==> r.value == j.n
  {
    var n :- AsIntIn(j, name, 0, 0x100);
    Success(n)
  }

  function AsI64(j: Json, name: string): (r: Decoded<int64>)
    ensures r.Success? <==> j.JInt? && -0x8000_0000_0000_0000 <= j.n < 0x8000_0000_0000_0000
    ensures r.Success? ==> r.value == j.n
  {
    var n :- AsIntIn(j, name, -0x8000_0000_0000_0000, 0x8000_0000_0000_0000);
    Success(n)
  }

  /** A required field: its absence is `MissingField`. */
  function Required(obj: Object, name: string): (r: Decoded<Json>)
    ensures r.Success? <==> name in obj
    ensures r.Success? ==> r.value == obj[name]
    ensures r.Failure? ==> r.error == MissingField(name)
  {
    if name in obj then Success(obj[name]) else Failure(MissingField(name))
  }

  function StringField(obj: Object, name: string): (r: Decoded<string>)
    ensures r.Success? <==> name in obj && obj[name].JString?
    ensures r.Success? ==> r.value == obj[name].s
  {
    var j :- Required(obj, name);
    AsString(j, name)
  }

  function BoolField(obj: Object, name: string): (r: Decoded<bool>)
    ensures r.Success? <==> name in obj && obj[name].JBool?
    ensures r.Success? ==> r.value == obj[name].b
  {
    var j :- Required(obj, name);
    AsBool(j, name)
  }

  function U8Field(obj: Object, name: string): (r: Decoded<uint8>)
    ensures r.Success? <==> name in obj && obj[name].JInt? && 0 <= obj[name].n < 0x100
    ensures r.Success? ==> r.value == obj[name].n
  {
    var j :- Required(obj, name);
    AsU8(j, name)
  }

  /** An `Option<String>` field: absent or `null` is `None`. */
  function OptStringField(obj: Object, name: string): (r: Decoded<Option<string>>)
    ensures Present(obj, name).None? ==> r == Success(None)
    ensures Present(obj, name).Some? ==>
      (r.Success? <==> obj[name].JString?) && (r.Success? ==> r.value == Some(obj[name].s))
  {
    match Present(obj, name)
    case None => Success(None)
    case Some(j) => var s :- AsString(j, name); Success(Some(s))
  }

  /** An `Option<u8>` field: absent or `null` is `None`. */
  function OptU8Field(obj: Object, name: string): (r: Decoded<Option<uint8>>)
    ensures Present(obj, name).None? ==> r == Success(None)
    ensures Present(obj, name).Some? ==>
      (r.Success? <==> obj[name].JInt? && 0 <= obj[name].n < 0x100) &&
      (r.Success? ==> r.value == Some(obj[name].n))
  {
    match Present(obj, name)
    case None => Success(None)
    case Some(j) => var n :- AsU8(j, name); Success(Some(n))
  }

  /** A field whose type is opaque: its codec decides, and sees the absence of the key (an
      `Option` type accepts it). An absent key the codec refuses is a missing field, a
      present value it refuses an invalid one. */
  function OpaqueField<T>(c: Codec<T>, obj: Object, name: string): (r: Decoded<T>)
    ensures r.Success? <==> c.decode(if name in obj then Some(obj[name]) else None).Some?
    ensures r.Success? ==> Some(r.value) == c.decode(if name in obj then Some(obj[name]) else None)
    ensures r.Failure? ==> r.error == (if name in obj then InvalidValue(name) else MissingField(name))
  {
    match c.decode(if name in obj then Some(obj[name]) else None)
    case Some(v) => Success(v)
    case None => Failure(if name in obj then InvalidValue(name) else MissingField(name))
  }

  /** The object of a JSON value that must be an object. */
  function AsObject(j: Json): (r: Decoded<Object>)
    ensures r.Success? <==> j.JObject?
    ensures r.Success? ==> r.value == j.fields
    ensures r.Failure? ==> r.error == NotAnObject
  {
    if j.JObject? then Success(j.fields) else Failure(NotAnObject)
  }

  function OptStringJson(o: Option<string>): Json {
    match o
    case None => JNull
    case Some(s) => JString(s)
  }

  function OptIntJson(o: Option<int>): Json {
    match o
    case None => JNull
    case Some(n) => JInt(n)
  }

  lemma {:induction false} OpaqueRoundTrip<T(!new)>(c: Codec<T>, obj: Object, name: string, x: T)
    requires Lawful(c)
    requires name in obj && obj[name] == c.encode(x)
    ensures OpaqueField(c, obj, name) == Success(x)
  {
    assert c.decode(Some(c.encode(x))) == Some(x);
  }
}
