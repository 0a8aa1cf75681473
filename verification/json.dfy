/** The parsed JSON value the decoder receives (what `requests`' `.json()`
    hands to `YrCompleteResponse.from_dict`). JSON integers and floats are
    both `JNum`; Python's `bool` is a separate case, as it is in JSON. */
module JsonValues {

  datatype Json =
    | JNull
    | JBool(b: bool)
    | JNum(n: real)
    | JStr(s: string)
    | JArr(items: seq<Json>)
    | JObj(fields: map<string, Json>)

  /** `obj.get(key)`: a missing key reads as `None`, exactly like a JSON
      `null`. */
  function Get(x: Json, key: string): Json {
    if x.JObj? && key in x.fields then x.fields[key] else JNull
  }
}
