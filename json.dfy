/**
 * JSON documents as values. Request bodies are built as such values; the byte-level
 * encoding and decoding done by `encoding/json` is not part of this model.
 */
module Json {

  datatype Json =
    | JNull
    | JBool(b: bool)
    | JNumber(n: real)
    | JString(s: string)
    | JArray(items: seq<Json>)
    | JObject(members: map<string, Json>)
}
