/** JavaScript values as `JSON.parse` produces them, and the two reading rules of the
    language that the request flow relies on: property access and truthiness. */
module Json {

  datatype Value =
    | JNull
    | JBool(b: bool)
    | JNum(n: real)
    | JStr(s: string)
    | JArr(elems: seq<Value>)
    | JObj(fields: map<string, Value>)

  /** The result of reading a property: `undefined`, or a value. */
  datatype Prop = Undefined | Defined(value: Value)

  /** JavaScript's ToBoolean on a parsed value. JSON has no NaN, so the only falsy
      number is zero; every array and every object is truthy, however empty. */
  predicate Truthy(v: Value) {
    match v
    case JNull => false
    case JBool(b) => b
    case JNum(n) => n != 0.0
    case JStr(s) => s != ""
    case JArr(_) => true
    case JObj(_) => true
  }

  /** The condition of `if (x.key)`: the property exists and its value is truthy. */
  predicate Present(p: Prop) {
    p.Defined? && Truthy(p.value)
  }

  /** `v[key]` for a value that is not `null`: only objects have the keys this server reads;
      on a boolean, number, string or array they read as `undefined`. */
  function Field(v: Value, key: string): Prop
    requires !v.JNull?
  {
    if v.JObj? && key in v.fields then Defined(v.fields[key]) else Undefined
  }

  /** Exactly four JSON values are falsy. */
  lemma FalsyValues(v: Value)
    ensures !Truthy(v) <==> v == JNull || v == JBool(false) || v == JNum(0.0) || v == JStr("")
  {
  }
}
