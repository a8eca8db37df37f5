/** Decoded JSON values, the shape of a gateway payload's `d` field, and the
    Python operations the gateway code applies to them. */
module Json {
  import opened Wrappers

  datatype Json =
    | JNull
    | JBool(b: bool)
    | JInt(i: int)
    | JString(s: string)
    | JArray(items: seq<Json>)
    | JObject(fields: map<string, Json>)

  /** Python's `bool(value)`: None, False, 0 and empty containers are false. */
  predicate Truthy(j: Json) {
    match j
    case JNull => false
    case JBool(b) => b
    case JInt(i) => i != 0
    case JString(s) => s != ""
    case JArray(items) => items != []
    case JObject(fields) => fields != map[]
  }

  /** `value[key]`: the KeyError of a missing key and the TypeError of a value
      that is not a mapping both give None. */
  function Field(j: Json, key: string): Option<Json> {
    if j.JObject? && key in j.fields then Some(j.fields[key]) else None
  }

  /** `value[key]` where the model needs a string. */
  function StringField(j: Json, key: string): Option<string> {
    match Field(j, key)
    case Some(JString(s)) => Some(s)
    case _ => None
  }

  /** `value[key]` where the model needs an integer. */
  function IntField(j: Json, key: string): Option<int> {
    match Field(j, key)
    case Some(JInt(i)) => Some(i)
    case _ => None
  }

  /** The values `len()` and iteration accept. */
  predicate Sized(j: Json) {
    j.JString? || j.JArray? || j.JObject?
  }
}
