/** The JSON values the program exchanges: decoded tool-call arguments, search
    results, and the `model_dump` output of the tool schemas. Numbers are
    limited to integers; no schema or argument here carries a fraction. */
module Json {
  import opened Wrappers
  import Dicts

  datatype Json =
    | JNull
    | JBool(b: bool)
    | JNumber(n: int)
    | JString(s: string)
    | JArray(items: seq<Json>)
    | JObject(fields: Dicts.Dict<string, Json>)

  /** The value under `key` when `j` is an object that has it. */
  function Member(j: Json, key: string): (r: Option<Json>)
    ensures r.Some? ==> j.JObject? && key in Dicts.Keys(j.fields)
  {
    match j
    case JObject(fields) => Dicts.Get(fields, key)
    case _ => None
  }

  /** The JSON codec (`json.loads` / `json.dumps`) is outside the model: a
      partial decoder and an encoder, passed in. */
  datatype Codec = Codec(decode: string -> Option<Json>, encode: Json -> string)
}
