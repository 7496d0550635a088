/**
  JSON values and the JavaScript truthiness tests the plugin applies to them.
  The parser and the serialiser are not modelled: they are supplied as a
  `JsonLib`, so every property proved here holds for any JSON library.
 */
module Json {
  import opened Wrappers

  /** A JSON value. Numbers are modelled as integers. */
  datatype Json =
    | Null
    | Bool(b: bool)
    | Num(n: int)
    | Str(s: string)
    | Arr(items: seq<Json>)
    | Obj(members: map<string, Json>)

  /** JavaScript truthiness of a parsed value (`if (v)`). */
  predicate Truthy(v: Json) {
    match v
    case Null => false
    case Bool(b) => b
    case Num(n) => n != 0
    case Str(s) => s != ""
    case Arr(_) => true
    case Obj(_) => true
  }

  /** JavaScript truthiness of an optional string: absent and "" are falsy. */
  predicate TruthyString(s: Option<string>) {
    s.Some? && s.value != ""
  }

  /** `JSON.parse` (None where it throws) and `JSON.stringify`. */
  datatype JsonLib = JsonLib(parse: string -> Option<Json>, stringify: Json -> string)
}
