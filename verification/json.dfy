/** The JSON documents exchanged with the billing API: request bodies built
    by the node and responses handed back by the transport. */
module JsonValues {

  import opened Wrappers

  /** A JavaScript number. The node only ever copies numbers from its
      parameters into a body, so the model carries them as an opaque literal
      and never computes with them. */
  datatype Number = Number(literal: string)

  datatype Json =
    | Null
    | Bool(b: bool)
    | Num(n: Number)
    | Str(s: string)
    | Arr(elems: seq<Json>)
    | Obj(fields: map<string, Json>)

  /** The value under `key` when `j` is an object holding that key. */
  function Field(j: Json, key: string): (r: Option<Json>)
    ensures r.Some? <==> j.Obj? && key in j.fields
    ensures r.Some? ==> r.value == j.fields[key]
  {
    if j.Obj? && key in j.fields then Some(j.fields[key]) else None
  }
}
