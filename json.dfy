/** The parsed JSON tree that Jansson hands to the renderer, and the two
    accessors the renderer uses on it. Parsing itself is not modelled: a
    value of this type is the renderer's input. */
module Json {
  import opened CStrings

  datatype Option<+T> = None | Some(value: T)

  /** A Jansson value. An object's keys are unique, as in a Jansson hash table. */
  datatype Json =
    | JNull
    | JBool(b: bool)
    | JInteger(i: int)
    | JReal(r: real)
    | JString(s: string)
    | JArray(elems: seq<Json>)
    | JObject(members: map<string, Json>)

  /** json_object_get: the member named key, or NULL (None) when v is not an
      object or has no such member. */
  function ObjectGet(v: Json, key: string): (r: Option<Json>)
    ensures r.Some? <==> v.JObject? && key in v.members
    ensures r.Some? ==> r.value == v.members[key]
  {
    if v.JObject? && key in v.members then Some(v.members[key]) else None
  }

  /** The C string behind a value that passed json_is_string, or None for a
      missing or non-string value: the "type-check, then extract" step the
      renderer applies to every field. */
  function StringValue(v: Option<Json>): (r: Option<CString>)
    ensures r.Some? <==> v.Some? && v.value.JString?
    ensures r.Some? ==> r.value == CStr(v.value.s)
  {
    match v
    case Some(JString(s)) => Some(CStr(s))
    case _ => None
  }
}
