/**
 * A JSON value as `JSON.parse` returns it. The parser itself is not modelled: every
 * operation that parses takes it as a parameter `parse: string -> Option<Json>`,
 * where `None` stands for the SyntaxError a malformed text raises.
 */
module Json {
  import opened Wrappers

  datatype Json =
    | JNull
    | JBool(b: bool)
    | JNumber(n: real)
    | JString(s: string)
    | JArray(items: seq<Json>)
    | JObject(fields: map<string, Json>)

  /** Optional chaining `x?.key`: `None` stands for `undefined`. */
  function Member(x: Option<Json>, key: string): (r: Option<Json>)
    ensures r.Some? ==> x.Some? && x.value.JObject? && key in x.value.fields
  {
    if x.Some? && x.value.JObject? && key in x.value.fields then Some(x.value.fields[key]) else None
  }

  /** Optional chaining `x?.[0]`. A string's first character has no JSON members, so it is left out. */
  function First(x: Option<Json>): Option<Json> {
    match x
    case Some(JArray(items)) => if |items| > 0 then Some(items[0]) else None
    case Some(JObject(fields)) => if "0" in fields then Some(fields["0"]) else None
    case _ => None
  }

  /** The text of a non-empty JSON string, "" for anything else. */
  function TextOf(x: Option<Json>): (r: string)
    ensures r != "" <==> exists s :: s != "" && x == Some(JString(s))
    ensures r != "" ==> x == Some(JString(r))
  {
    if x.Some? && x.value.JString? then x.value.s else ""
  }
}
