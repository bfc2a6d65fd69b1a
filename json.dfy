/**
 * JSON values as the client hands them to the encoder (request payloads) and as the
 * decoder hands them back (responses decoded into untyped maps). The text form of JSON
 * is not modelled: a payload is the key/value map that would be encoded.
 */
module Json {

  datatype Value =
    | Null
    | Bool(b: bool)
    | Int(i: int)                  // a Go integer (int, uint8, uint16) placed in a payload
    | Num(x: real)                 // a number as the untyped decoder produces it
    | Str(s: string)
    | Floats(xs: seq<real>)        // a Go float slice placed in a payload as it is
    | Array(items: seq<Value>)     // an array as the untyped decoder produces it
    | Object(fields: map<string, Value>)

  /** A JSON object: the payload of a request, or a decoded response body. */
  type Object = map<string, Value>

  /** True of the values that Go's `omitempty` leaves out: false, 0, "", an empty or nil slice, null. */
  predicate IsEmptyValue(v: Value) {
    match v
    case Null => true
    case Bool(b) => !b
    case Int(i) => i == 0
    case Num(x) => x == 0.0
    case Str(s) => s == ""
    case Floats(xs) => xs == []
    case Array(items) => items == []
    case Object(fields) => fields == map[]
  }
}
