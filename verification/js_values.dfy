/** JSON documents as the routes receive them, with JavaScript truthiness and property reads. */
module JsValues {

  datatype Option<+T> = None | Some(value: T)

  /** A parsed JSON value. Numbers are reals: NaN and -0 are not represented. */
  datatype JsVal =
    | JNull
    | JBool(b: bool)
    | JNum(n: real)
    | JStr(s: string)
    | JArr(items: seq<JsVal>)
    | JObj(fields: map<string, JsVal>)

  /** JavaScript truthiness of a present value. */
  predicate Truthy(v: JsVal) {
    match v
    case JNull => false
    case JBool(b) => b
    case JNum(n) => n != 0.0
    case JStr(s) => s != ""
    case JArr(_) => true
    case JObj(_) => true
  }

  /** Truthiness of a possibly absent value: `undefined` is falsy. */
  predicate TruthyOpt(o: Option<JsVal>) {
    o.Some? && Truthy(o.value)
  }

  /** `v.key`: only objects carry the keys this model reads; any other value yields `undefined`. */
  function Field(v: JsVal, key: string): Option<JsVal> {
    if v.JObj? && key in v.fields then Some(v.fields[key]) else None
  }

  /** `v[0]` on a value that is not null: the first array element, the object's key "0",
      or the first character of a string. */
  function Index0(v: JsVal): Option<JsVal> {
    match v
    case JArr(items) => if |items| > 0 then Some(items[0]) else None
    case JObj(m) => if "0" in m then Some(m["0"]) else None
    case JStr(s) => if |s| > 0 then Some(JStr([s[0]])) else None
    case _ => None
  }

  /** `typeof v === 'object'`, which holds for null and arrays too. */
  predicate IsObjectType(v: JsVal) {
    v.JNull? || v.JArr? || v.JObj?
  }
}
