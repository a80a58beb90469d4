/** Structured values that the adapter forwards without looking inside them,
    such as the supply-chain declaration or publisher-supplied video
    parameters. */
module Json {

  /** A JSON value; object members keep their key order. Numbers are carried
      as `real` and never computed with. */
  datatype Json =
    | JNull
    | JBool(b: bool)
    | JNumber(n: real)
    | JString(s: string)
    | JArray(items: seq<Json>)
    | JObject(members: seq<(string, Json)>)
}
