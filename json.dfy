/** JSON values as the modelled code sees them after `JSON.parse` and before `JSON.stringify`.
    The text form is not modelled: a frame is its parsed value, or `None` when parsing threw. */
module Json {
  import opened Base

  /** A parsed JSON value. Numbers are integers in this model. */
  datatype JsonValue =
    | JNull
    | JBool(b: bool)
    | JNum(n: int)
    | JStr(s: string)
    | JArr(items: seq<JsonValue>)
    | JObj(fields: map<string, JsonValue>)

  /** Property access `v[key]`; `None` is `undefined`. Only objects have the properties the
      modelled code reads. */
  function Prop(v: JsonValue, key: string): (r: Option<JsonValue>)
    ensures r.Some? <==> v.JObj? && key in v.fields
    ensures r.Some? ==> r.value == v.fields[key]
  {
    match v
    case JObj(fields) => if key in fields then Some(fields[key]) else None
    case _ => None
  }

  /** JavaScript truthiness of a JSON value. */
  predicate Truthy(v: JsonValue) {
    match v
    case JNull => false
    case JBool(b) => b
    case JNum(n) => n != 0
    case JStr(s) => s != []
    case JArr(_) => true
    case JObj(_) => true
  }

  /** The property `key` is present and holds a string. */
  predicate HasString(v: JsonValue, key: string) {
    Prop(v, key).Some? && Prop(v, key).value.JStr?
  }

  function StringProp(v: JsonValue, key: string): string
    requires HasString(v, key)
  {
    Prop(v, key).value.s
  }
}
