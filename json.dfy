/** JSON documents as trees. Byte-level syntax (quoting, escaping, whitespace) is not modelled. */
module Json {

  datatype Json =
    | JString(str: string)
    | JArray(elems: seq<Json>)
    /** Members in the order they are written. */
    | JObject(members: seq<(string, Json)>)
}
