/** JavaScript values as this application handles them: `undefined` as `None`,
    JSON payloads from the remote API, truthiness, and object spread. */
module JsValues {

  datatype Option<+T> = None | Some(value: T)

  /** The outcome of an async call: a resolved value or the error it rejected with. */
  datatype Result<+T, +E> = Ok(value: T) | Err(error: E)

  /** A JSON value. Numbers are integers in this model. */
  datatype Json =
    | JNull
    | JBool(b: bool)
    | JNumber(n: int)
    | JString(s: string)
    | JArray(items: seq<Json>)
    | JObject(fields: map<string, Json>)

  /** The own enumerable properties of a plain object. */
  type Record = map<string, Json>

  /** JavaScript truthiness; `None` stands for `undefined`. */
  predicate Truthy(v: Option<Json>)
  {
    match v
    case None => false
    case Some(JNull) => false
    case Some(JBool(b)) => b
    case Some(JNumber(n)) => n != 0
    case Some(JString(s)) => s != ""
    case Some(_) => true
  }

  /** The properties that `...v` contributes to an object literal. */
  function SpreadOf(v: Option<Json>): Record
  {
    match v
    case Some(JObject(fields)) => fields
    case _ => map[]
  }

  /** `({ ...base, ...patch })`: every property of the patch wins, every other
      property of the base is kept, nothing else appears. */
  function SpreadMerge(base: Option<Json>, patch: Record): (r: Json)
    ensures r.JObject?
    ensures r.fields.Keys == SpreadOf(base).Keys + patch.Keys
    ensures forall k :: k in patch ==> r.fields[k] == patch[k]
    ensures forall k :: k in SpreadOf(base) && k !in patch ==> r.fields[k] == SpreadOf(base)[k]
  {
    JObject(SpreadOf(base) + patch)
  }
}
