/**
 An abstract JSON value, and the rules by which serde's derived decoders read
 the records of the protocol out of one.
 */
module Json {
  import opened Wrappers

  /** A JSON value. Numbers written without fraction or exponent are `Int`;
      every other number is `Float`, whose value the model never interprets.
      Objects are maps: field order carries no meaning for any decoder here. */
  datatype Json =
    | Null
    | Bool(b: bool)
    | Int(i: int)
    | Float(r: real)
    | Str(s: string)
    | Arr(items: seq<Json>)
    | Obj(fields: map<string, Json>)

  const I64Min: int := -0x8000_0000_0000_0000
  const I64Max: int := 0x7FFF_FFFF_FFFF_FFFF
  const UsizeMax: int := 0xFFFF_FFFF_FFFF_FFFF

  predicate IsI64(i: int) {
    I64Min <= i <= I64Max
  }

  predicate IsUsize(i: int) {
    0 <= i <= UsizeMax
  }

  /** Accepted where the record declares an `f64`: any JSON number. */
  predicate IsNumber(j: Json) {
    j.Int? || j.Float?
  }

  function AsString(j: Json): (r: Option<string>)
    ensures r.Some? <==> j.Str?
  {
    if j.Str? then Some(j.s) else None
  }

  function AsBool(j: Json): (r: Option<bool>)
    ensures r.Some? <==> j.Bool?
  {
    if j.Bool? then Some(j.b) else None
  }

  /** An `i64` field: an integer literal within the 64-bit signed range. */
  function AsI64(j: Json): (r: Option<int>)
    ensures r.Some? <==> j.Int? && IsI64(j.i)
  {
    if j.Int? && IsI64(j.i) then Some(j.i) else None
  }

  /** A `usize` field: an integer literal within the 64-bit unsigned range. */
  function AsUsize(j: Json): (r: Option<nat>)
    ensures r.Some? <==> j.Int? && IsUsize(j.i)
  {
    if j.Int? && IsUsize(j.i) then Some(j.i) else None
  }

  /** An `f64` field: the number itself is kept, not converted. */
  function AsNumber(j: Json): (r: Option<Json>)
    ensures r.Some? <==> IsNumber(j)
  {
    if IsNumber(j) then Some(j) else None
  }

  /** A field of an untagged enum's struct variant: such variants are read
      from objects only. */
  function Member(j: Json, name: string): Option<Json> {
    if j.Obj? && name in j.fields then Some(j.fields[name]) else None
  }

  /** A plain struct with `arity` fields is read from an object, or from an
      array holding exactly one element per field, in declaration order. */
  predicate StructShaped(j: Json, arity: nat) {
    j.Obj? || (j.Arr? && |j.items| == arity)
  }

  /** The raw JSON of field `name`, declared at position `pos` of a plain struct
      with `arity` fields; `None` when the field is absent. */
  function Field(j: Json, name: string, pos: nat, arity: nat): Option<Json>
    requires pos < arity
  {
    match j
    case Obj(m) => if name in m then Some(m[name]) else None
    case Arr(xs) => if |xs| == arity then Some(xs[pos]) else None
    case _ => None
  }

  /** A required field: it must be present and decode. */
  function Required<T>(f: Option<Json>, decode: Json -> Option<T>): Option<T> {
    if f.Some? then decode(f.value) else None
  }

  /** An `Option<T>` field: absent or `null` decodes to `None`; anything else
      must decode as `T`. The outer `None` is a decoding failure. */
  function Optional<T>(f: Option<Json>, decode: Json -> Option<T>): (r: Option<Option<T>>)
    ensures f.None? ==> r == Some(None)
    ensures f.Some? && f.value.Null? ==> r == Some(None)
  {
    if f.None? || f.value.Null? then Some(None)
    else match decode(f.value)
      case Some(v) => Some(Some(v))
      case None => None
  }

  /** The JSON serde writes for an `Option<T>` field: `null` for `None`. */
  function OptionToJson<T>(o: Option<T>, encode: T -> Json): Json {
    match o
    case None => Null
    case Some(v) => encode(v)
  }
}
