/**
 * JSON values as the `org.json` library exposes them. A JSON object is a
 * finite map from keys to values; key order and number formatting are not
 * modelled.
 */
module Json {
  import opened Wrappers

  datatype JsonValue =
    | JNull
    | JBool(b: bool)
    | JNumber(n: int)
    | JString(s: string)
    | JArray(items: seq<JsonValue>)
    | JObject(members: map<string, JsonValue>)

  type JsonObject = map<string, JsonValue>

  /**
   * `JSONObject.getString(key)`: the string stored under `key`, or `None`
   * where the library throws `JSONException` (the key is absent or its value
   * is not a string).
   */
  function GetString(jo: JsonObject, key: string): (r: Option<string>)
    ensures r.Some? <==> key in jo && jo[key].JString?
    ensures r.Some? ==> jo[key] == JString(r.value)
  {
    if key in jo && jo[key].JString? then Some(jo[key].s) else None
  }
}
