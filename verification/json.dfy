/**
 * JSON values (RFC 8259) as the worker's Go code and the products table see them, and the
 * codec that reads and writes their text. Parsing and serialising JSON text is library
 * work (Go's encoding/json, PostgreSQL's json type); the model takes a codec as a value and
 * states what it relies on about it as hypotheses of the lemmas that need them.
 */
module Json {
  import opened Wrappers

  /** A decoded JSON value; numbers are what a float64 holds, objects map keys to values. */
  datatype Json =
    | Null
    | Bool(b: bool)
    | Number(n: real)
    | String(s: string)
    | Array(items: seq<Json>)
    | Object(members: map<string, Json>)

  /** A JSON text reader and a compact writer. */
  datatype Codec = Codec(decode: string -> Result<Json, string>, marshal: Json -> string)

  /** The writer's output reads back as the value it came from. */
  predicate ReadsBack(codec: Codec, v: Json)
  {
    codec.decode(codec.marshal(v)) == Ok(v)
  }

  /** The kind word Go's decoder uses when a value does not fit the target type. */
  function KindName(v: Json): string
  {
    match v
    case Null => "null"
    case Bool(_) => "bool"
    case Number(_) => "number"
    case String(_) => "string"
    case Array(_) => "array"
    case Object(_) => "object"
  }
}
