/** JavaScript object values as they travel through event payloads, notifications and
    interaction metadata. */
module Json {

  datatype Value =
    | Null
    | Str(s: string)
    | Num(n: real)
    | Flag(b: bool)
    | Obj(fields: map<string, Value>)

  /** A plain JavaScript object: its own enumerable properties. */
  type Fields = map<string, Value>

  /** JavaScript truthiness (NaN is not modelled). */
  predicate Truthy(v: Value) {
    match v
    case Null => false
    case Str(s) => s != ""
    case Num(n) => n != 0.0
    case Flag(b) => b
    case Obj(_) => true
  }

  /** Object spread `{...a, ...b}`: every key of `b` overrides the same key of `a`. */
  function Spread(a: Fields, b: Fields): (r: Fields)
    ensures r.Keys == a.Keys + b.Keys
    ensures forall k :: k in b ==> r[k] == b[k]
    ensures forall k :: k in a && k !in b ==> r[k] == a[k]
  {
    a + b
  }
}
