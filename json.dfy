/** The loosely typed value that the transport's JSON serializer hands to the response
    handlers (`response.result.value`), and the Swift conditional casts applied to it. */
module Json {
  import opened Wrappers

  /** A JSON document: objects are Swift dictionaries `[String: AnyObject]`, arrays are
      `[AnyObject]`. Numbers are kept as reals; no decoder reads a number's value. */
  datatype Json =
    | JNull
    | JBool(b: bool)
    | JNumber(n: real)
    | JString(s: string)
    | JArray(items: seq<Json>)
    | JObject(fields: map<string, Json>)

  /** `value as? String` */
  function AsString(j: Json): (r: Option<string>)
    ensures r.Some? <==> j.JString?
    ensures r.Some? ==> r.value == j.s
  {
    if j.JString? then Some(j.s) else None
  }

  /** `value as? [AnyObject]` */
  function AsArray(j: Json): (r: Option<seq<Json>>)
    ensures r.Some? <==> j.JArray?
    ensures r.Some? ==> r.value == j.items
  {
    if j.JArray? then Some(j.items) else None
  }

  /** `value as? [String: AnyObject]` */
  function AsObject(j: Json): (r: Option<map<string, Json>>)
    ensures r.Some? <==> j.JObject?
    ensures r.Some? ==> r.value == j.fields
  {
    if j.JObject? then Some(j.fields) else None
  }

  /** Every element of the list is a dictionary. */
  predicate AllObjects(items: seq<Json>) {
    forall i :: 0 <= i < |items| ==> items[i].JObject?
  }

  /** `value as? [[String: AnyObject]]`: the bridged cast of a whole list succeeds only
      when the value is an array and every one of its elements is a dictionary; a single
      other element makes the whole cast fail. */
  function AsObjectArray(j: Json): (r: Option<seq<Json>>)
    ensures r.Some? <==> j.JArray? && AllObjects(j.items)
    ensures r.Some? ==> r.value == j.items
  {
    if j.JArray? && AllObjects(j.items) then Some(j.items) else None
  }

  /** `dict[key]` */
  function Lookup(dict: map<string, Json>, key: string): (r: Option<Json>)
    ensures r.Some? <==> key in dict
    ensures r.Some? ==> r.value == dict[key]
  {
    if key in dict then Some(dict[key]) else None
  }

  /** `list.first` */
  function First(items: seq<Json>): (r: Option<Json>)
    ensures r.Some? <==> |items| > 0
    ensures r.Some? ==> r.value == items[0]
  {
    if |items| > 0 then Some(items[0]) else None
  }

  /** `value[key]` on a value typed only as `AnyObject`: a keyed subscript that only a
      dictionary answers; any other value yields nil. */
  function KeyedSubscript(j: Json, key: string): (r: Option<Json>)
    ensures r.Some? <==> j.JObject? && key in j.fields
    ensures r.Some? ==> r.value == j.fields[key]
  {
    if j.JObject? then Lookup(j.fields, key) else None
  }
}
