/** The value `json.loads` produces for one line of the container runtime's
    output. Parsing itself is not modelled: the samplers take a decoder
    `string -> Option<Json>` as a parameter, `None` meaning that
    `json.loads` raised. */
module Json {
  import opened Wrappers

  datatype Json =
    | JNull
    | JBool(b: bool)
    | JInt(i: int)
    | JString(s: string)
    | JArray(items: seq<Json>)
    | JObject(fields: map<string, Json>)

  /** `j[key]` on a decoded value: present only when `j` is an object that
      has the key. */
  function Lookup(j: Json, key: string): (r: Option<Json>)
    ensures r.Some? <==> j.JObject? && key in j.fields
    ensures r.Some? ==> r.value == j.fields[key]
  {
    match j
    case JObject(fields) => if key in fields then Some(fields[key]) else None
    case _ => None
  }

  /** `j.keys()`: the key set of an object. */
  function Keys(j: Json): (r: Option<set<string>>)
    ensures r.Some? <==> j.JObject?
    ensures r.Some? ==> forall k :: k in r.value <==> Lookup(j, k).Some?
  {
    match j
    case JObject(fields) => Some(fields.Keys)
    case _ => None
  }
}
