/**
 * The untyped value a request handler receives from `request.json()`:
 * whatever `JSON.parse` can produce.
 */
module Json {
  import opened Wrappers

  datatype Json =
    | Null
    | Bool(b: bool)
    | Number(n: real)
    | Str(s: string)
    | Arr(items: seq<Json>)
    | Obj(fields: map<string, Json>)

  /** `typeof v === "object" && v !== null`: true of objects and of arrays. */
  predicate IsNonNullObject(v: Json) {
    v.Obj? || v.Arr?
  }

  /**
   * The property read `v[key]`, with None for `undefined`. Only plain objects
   * carry named own properties; the names read by the handlers ("id",
   * "contextTags", "trainTags") are not properties of arrays or primitives.
   */
  function Get(v: Json, key: string): (r: Option<Json>)
    ensures r.Some? <==> v.Obj? && key in v.fields
    ensures r.Some? ==> r.value == v.fields[key]
  {
    if v.Obj? && key in v.fields then Some(v.fields[key]) else None
  }
}
