/** A decoded, loosely typed JSON document, as Go's `encoding/json` delivers it
    into `interface{}`: nil, bool, float64, string, `[]interface{}` or
    `map[string]interface{}`. */
module JsonDoc {
  import opened Wrappers

  datatype Json =
    | Null
    | Bool(b: bool)
    | Number(n: int)
    | String(str: string)
    | Array(elems: seq<Json>)
    | Object(fields: map<string, Json>)

  /** A field counts as present only when the key is in the object and its
      value is not null: a missing key and a key bound to null are alike. */
  function Field(fields: map<string, Json>, key: string): (r: Option<Json>)
    ensures r.Some? <==> key in fields && fields[key] != Null
    ensures r.Some? ==> r.value == fields[key]
  {
    if key in fields && fields[key] != Null then Some(fields[key]) else None
  }

  /** The document decoded into a `map[string]interface{}`: a top level that
      is not an object (or a body that does not decode at all) leaves the map
      nil, and every lookup in a nil map finds nothing. */
  function TopLevel(doc: Option<Json>): (m: map<string, Json>)
    ensures (doc.None? || !doc.value.Object?) ==> forall key :: Field(m, key).None?
    ensures doc.Some? && doc.value.Object? ==>
      forall key :: Field(m, key) == Field(doc.value.fields, key)
  {
    match doc
    case Some(Object(fields)) => fields
    case _ => map[]
  }
}
