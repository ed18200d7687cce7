/** The values `JSON.parse` can produce, and the few JavaScript operations
    the routes and the form apply to them. */
module Json {
  import opened Wrappers

  /** A parsed JSON value. Numbers are exact reals, where `JSON.parse`
      gives IEEE doubles: a literal too large for a double, such as `1e400`,
      becomes `Infinity`, and literals that round to the same double become
      one number. An object is a map from property name to value. */
  datatype Json =
    | JNull
    | JBool(b: bool)
    | JNum(n: real)
    | JStr(s: string)
    | JArr(elems: seq<Json>)
    | JObj(fields: map<string, Json>)

  /** JavaScript truthiness of a value that is present. */
  predicate Truthy(v: Json) {
    match v
    case JNull => false
    case JBool(b) => b
    case JNum(n) => n != 0.0
    case JStr(s) => s != ""
    case JArr(_) => true
    case JObj(_) => true
  }

  /** Truthiness of a property read, where `None` is `undefined`. */
  predicate PresentTruthy(o: Option<Json>) {
    o.Some? && Truthy(o.value)
  }

  /** `o == null || o === undefined`: what `??` skips. */
  predicate Nullish(o: Option<Json>) {
    o.None? || o.value == JNull
  }

  /** `v?.name`, for the properties the form reads from a search reply.
      Objects look the name up among their own properties; strings and
      arrays expose `length`; `null` (through `?.`), numbers and booleans
      give `undefined`. Inherited members, such as the `String.prototype`
      method `link`, are not modelled. A row needs a truthy `title` as well
      as a `link`, and no primitive has a `title`, so this does not change
      which rows are kept. */
  function Prop(v: Json, name: string): (r: Option<Json>)
    ensures v.JObj? ==> (r.Some? <==> name in v.fields)
    ensures v.JObj? && name in v.fields ==> r == Some(v.fields[name])
    ensures v.JStr? ==> r == (if name == "length" then Some(JNum(|v.s| as real)) else None)
    ensures v.JArr? ==> r == (if name == "length" then Some(JNum(|v.elems| as real)) else None)
    ensures !v.JObj? && !v.JStr? && !v.JArr? ==> r == None
  {
    match v
    case JObj(f) => if name in f then Some(f[name]) else None
    case JStr(s) => if name == "length" then Some(JNum(|s| as real)) else None
    case JArr(a) => if name == "length" then Some(JNum(|a| as real)) else None
    case _ => None
  }
}
