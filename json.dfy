/**
 * JSON values as the SDK sees them after `response.json()` or before
 * `JSON.stringify`. Numbers are integers: the SDK never does arithmetic on them.
 */
module Json {

  datatype JVal =
    | JNull
    | JBool(b: bool)
    | JNum(n: int)
    | JStr(s: string)
    | JArr(items: seq<JVal>)
    | JObj(fields: map<string, JVal>)

  /** JavaScript truthiness of a defined value: `null`, `false`, `0` and `""` are falsy; every array and object is truthy. */
  predicate Truthy(v: JVal): (t: bool)
    ensures !t <==> v == JNull || v == JBool(false) || v == JNum(0) || v == JStr("")
    ensures v.JArr? || v.JObj? ==> t
  {
    match v
    case JNull => false
    case JBool(b) => b
    case JNum(n) => n != 0
    case JStr(s) => s != ""
    case JArr(_) => true
    case JObj(_) => true
  }

  /** The field `key` of `v` when `v` is an object holding a string there (`typeof v[key] === 'string'`). */
  predicate HasStringField(v: JVal, key: string) {
    v.JObj? && key in v.fields && v.fields[key].JStr?
  }
}
