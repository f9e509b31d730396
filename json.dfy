/** JSON values as the event stores see them (`serde_json::Value`). Objects are maps
    from key to value. Numbers are integers: every number the modelled code reads or
    writes is a count, an identifier or a timestamp. */
module JsonValues {

  datatype Json =
    | JNull
    | JBool(b: bool)
    | JNum(n: int)
    | JStr(s: string)
    | JArr(items: seq<Json>)
    | JObj(fields: map<string, Json>)

  /** `v[key]` on a `serde_json::Value`: the member when `v` is an object holding
      `key`, otherwise `Null`. */
  function Get(v: Json, key: string): (r: Json)
    ensures r != JNull ==> v.JObj? && key in v.fields && r == v.fields[key]
  {
    if v.JObj? && key in v.fields then v.fields[key] else JNull
  }

  /** `v[i]` on a `serde_json::Value`: the element when `v` is an array long enough,
      otherwise `Null`. */
  function At(v: Json, i: nat): (r: Json)
    ensures r != JNull ==> v.JArr? && i < |v.items| && r == v.items[i]
  {
    if v.JArr? && i < |v.items| then v.items[i] else JNull
  }

  /** The elements of `v[agg]["buckets"]` when that is an array (the shape of every
      aggregation in a search response), otherwise none. */
  function Buckets(v: Json, agg: string): seq<Json> {
    var b := Get(Get(v, agg), "buckets");
    if b.JArr? then b.items else []
  }

  /** `json!(list_of_strings)` */
  function StrArray(items: seq<string>): (r: Json)
    ensures r.JArr? && |r.items| == |items|
    ensures forall i :: 0 <= i < |items| ==> r.items[i] == JStr(items[i])
  {
    JArr(seq(|items|, i requires 0 <= i < |items| => JStr(items[i])))
  }
}
