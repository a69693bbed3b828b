/** JSON-like values, as the source manipulates untyped objects (`any`). */
module Json {
  import opened Wrappers

  /** Numbers are integers here: no value in the model needs a fraction. */
  datatype Json =
    | JNull
    | JBool(b: bool)
    | JNum(n: int)
    | JStr(s: string)
    | JArr(items: seq<Json>)
    | JObj(fields: map<string, Json>)

  /** A plain object; a key that is absent is JavaScript's `undefined`. */
  type Object = map<string, Json>

  /** JavaScript truthiness of a defined value. */
  predicate Truthy(v: Json) {
    match v
    case JNull => false
    case JBool(b) => b
    case JNum(n) => n != 0
    case JStr(s) => s != ""
    case _ => true
  }

  /** `o[k]`, `undefined` when the key is absent. */
  function Get(o: Object, k: string): Option<Json> {
    if k in o then Some(o[k]) else None
  }

  /** Truthiness of `o[k]`, where `undefined` is falsy. */
  predicate TruthyAt(o: Object, k: string) {
    k in o && Truthy(o[k])
  }

  /** `o[k] === JStr(s)`. */
  predicate IsStr(o: Object, k: string, s: string) {
    k in o && o[k] == JStr(s)
  }

  /** Property access `v.k` on a value that is not null or undefined:
      only objects have the keys looked up in the model. */
  function Member(v: Json, k: string): Option<Json> {
    match v
    case JObj(fields) => Get(fields, k)
    case _ => None
  }

  /** `a || b` on a possibly undefined `a`. */
  function OrElse(a: Option<Json>, b: Json): Json {
    if a.Some? && Truthy(a.value) then a.value else b
  }
}
