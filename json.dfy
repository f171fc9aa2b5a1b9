/**
  Raw file contents and parsed JSON values. Turning bytes into a JSON value
  (`JSONSerialization` / the front half of `JSONDecoder`) is not modelled: it
  is the parameter `JsonParser`, which yields `None` for malformed text.
  What the app does with a parsed value is modelled on `Json` below.
*/
module Json {
  import opened Wrappers

  newtype byte = b: int | 0 <= b < 256

  type Bytes = seq<byte>

  /** A parsed JSON value. Numbers are kept as integers; the app never reads one. */
  datatype Json =
    | JNull
    | JBool(b: bool)
    | JNumber(n: int)
    | JString(str: string)
    | JArray(items: seq<Json>)
    | JObject(fields: map<string, Json>)

  /** Bytes to JSON value, `None` when the text is not well-formed JSON. */
  type JsonParser = Bytes -> Option<Json>

  /** The string stored under `key` in an object's fields (`obj[key] as? String`). */
  function StringField(fields: map<string, Json>, key: string): (r: Option<string>)
    ensures r.Some? <==> key in fields && fields[key].JString?
    ensures r.Some? ==> fields[key] == JString(r.value)
  {
    if key in fields && fields[key].JString? then Some(fields[key].str) else None
  }

  /** Every item is a string (the cast `as? [String]` succeeds). */
  predicate AllStrings(items: seq<Json>)
  {
    forall i :: 0 <= i < |items| ==> items[i].JString?
  }

  /** Every item is an object (the cast `as? [[String: Any]]` succeeds). */
  predicate AllObjects(items: seq<Json>)
  {
    forall i :: 0 <= i < |items| ==> items[i].JObject?
  }

  /** Every field value is a string (the cast `as? [String: String]` succeeds). */
  predicate StringValued(fields: map<string, Json>)
  {
    forall k :: k in fields ==> fields[k].JString?
  }
}
