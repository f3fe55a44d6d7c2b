/** The values `JSON.parse` produces, and the two JavaScript operations the
    decoder applies to them: optional-chaining member access and truthiness. */
module JsonValue {
  import opened Wrappers

  datatype Json =
    | JObject(fields: map<string, Json>)
    | JArray(items: seq<Json>)
    | JString(text: string)
    | JNumber(num: real)
    | JBool(flag: bool)
    | JNull

  /** `v?.[key]` where `None` stands for `undefined`: only an object's own
      fields are found; `undefined` and `null` short-circuit to `undefined`. */
  function Member(v: Option<Json>, key: string): (r: Option<Json>)
    ensures r.Some? <==> v.Some? && v.value.JObject? && key in v.value.fields
    ensures r.Some? ==> r.value == v.value.fields[key]
  {
    match v
    case Some(JObject(fields)) => if key in fields then Some(fields[key]) else None
    case _ => None
  }

  /** `v?.[key]?.content` */
  function ContentOf(v: Option<Json>, key: string): (r: Option<Json>)
    ensures r.Some? <==> && v.Some? && v.value.JObject? && key in v.value.fields
                         && v.value.fields[key].JObject? && "content" in v.value.fields[key].fields
    ensures r.Some? ==> r.value == v.value.fields[key].fields["content"]
  {
    Member(Member(v, key), "content")
  }

  /** JavaScript truthiness: `undefined`, `null`, `false`, `0` and `""` are falsy. */
  predicate Truthy(v: Option<Json>)
    ensures Truthy(v) ==> v.Some? && !v.value.JNull?
    ensures v.Some? && v.value.JString? ==> (Truthy(v) <==> v.value.text != [])
  {
    match v
    case None => false
    case Some(JNull) => false
    case Some(JBool(b)) => b
    case Some(JNumber(x)) => x != 0.0
    case Some(JString(s)) => s != []
    case Some(_) => true
  }

  /** The operand on which `??` takes its right-hand side: `undefined` or `null`. */
  predicate Nullish(v: Option<Json>)
    ensures Nullish(v) ==> !Truthy(v)
    ensures Nullish(v) ==> forall key :: Member(v, key).None?
  {
    v.None? || v.value.JNull?
  }

  /** `v` is an object whose field `key` is an object whose `content` is the string `body`. */
  predicate HasContent(v: Json, key: string, body: string)
  {
    ContentOf(Some(v), key) == Some(JString(body))
  }
}
