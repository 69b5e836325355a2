/** Values shared by every layer of the relay: an optional value and a parsed JSON value. */
module Values {

  datatype Option<+T> = None | Some(value: T)

  /** A value as JSON.parse produces it. Numbers are kept as integers (no floating point). */
  datatype Json =
    | JNull
    | JBool(b: bool)
    | JNumber(n: int)
    | JString(s: string)
    | JArray(items: seq<Json>)
    | JObject(fields: map<string, Json>)

  /** `typeof obj[key] === "string" ? obj[key] : undefined` for an object or array `obj`. */
  function StringField(j: Json, key: string): (r: Option<string>)
    ensures r.Some? <==> j.JObject? && key in j.fields && j.fields[key].JString?
    ensures r.Some? ==> r.value == j.fields[key].s
  {
    if j.JObject? && key in j.fields && j.fields[key].JString? then Some(j.fields[key].s) else None
  }

  /** JavaScript truthiness of an optional string: present and non-empty. */
  predicate Truthy(o: Option<string>) {
    o.Some? && o.value != ""
  }
}
