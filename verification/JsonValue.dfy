/** The JSON values that the canonical encoder accepts: no floats, object keys unordered. */
module JsonValue {
  datatype Json =
    | Null
    | Bool(b: bool)
    | Int(i: int)
    | Str(s: string)
    | Arr(items: seq<Json>)
    | Obj(fields: map<string, Json>)
}
