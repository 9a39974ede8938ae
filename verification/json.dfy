/**
 * Decoded JSON values as `response.json()` hands them to the stream, with the
 * two Python operations the stream applies to them: indexing by a key and
 * truthiness. Parsing bytes into a value is not part of this model.
 */
module Json {
  datatype Json =
    | Null
    | Bool(b: bool)
    | Num(n: int)
    | Str(s: string)
    | Arr(items: seq<Json>)
    | Obj(fields: map<string, Json>)

  /** The exceptions Python raises for `value[key]` on a decoded JSON value. */
  datatype LookupError = KeyError(key: string) | TypeError

  datatype Lookup = Found(value: Json) | Missing(error: LookupError)

  /**
   * `value[key]`: a dict yields its entry or raises KeyError; a list, string,
   * number, boolean or None raises TypeError when indexed by a string.
   */
  function Index(value: Json, key: string): (r: Lookup)
    ensures r.Found? <==> value.Obj? && key in value.fields
    ensures r.Found? ==> r.value == value.fields[key]
    ensures r.Missing? ==> r.error == if value.Obj? then KeyError(key) else TypeError
  {
    match value
    case Obj(fields) => if key in fields then Found(fields[key]) else Missing(KeyError(key))
    case _ => Missing(TypeError)
  }

  /** `bool(value)` in Python. */
  predicate Truthy(value: Json) {
    match value
    case Null => false
    case Bool(b) => b
    case Num(n) => n != 0
    case Str(s) => s != ""
    case Arr(items) => items != []
    case Obj(fields) => fields != map[]
  }
}
