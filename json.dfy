/**
 * Decoded JSON payloads, as the Python code sees them after `json.loads`:
 * `None`, booleans, integers, strings, lists and dictionaries.
 * Floating-point numbers are not part of this model.
 */
module JsonModel {
  datatype Json =
    | Null
    | Bool(b: bool)
    | Int(i: int)
    | Str(s: string)
    | Arr(items: seq<Json>)
    | Obj(fields: map<string, Json>)

  const EmptyObj: Json := Obj(map[])

  /** `{"type": "object", "properties": {}, "required": []}`: the schema of a call without arguments. */
  const EmptyObjectSchema: Json :=
    Obj(map["type" := Str("object"), "properties" := EmptyObj, "required" := Arr([])])

  /** Python's `d.get(key, default)` on a dictionary. */
  function GetOr(fields: map<string, Json>, key: string, default: Json): (v: Json)
    ensures key in fields ==> v == fields[key]
    ensures key !in fields ==> v == default
  {
    if key in fields then fields[key] else default
  }

  /**
   * Python's truth value of a decoded JSON value: `None`, `False`, `0`,
   * the empty string, the empty list and the empty dictionary are false.
   */
  predicate Truthy(j: Json) {
    match j
    case Null => false
    case Bool(b) => b
    case Int(i) => i != 0
    case Str(s) => s != ""
    case Arr(items) => items != []
    case Obj(fields) => fields != map[]
  }
}
