/** JSON values, and the host's JSON.parse / JSON.stringify, which the model keeps abstract. */
module Json {
  import opened Wrappers

  /** A JSON value. Numbers are kept as integers: floating point is not modelled. */
  datatype Json =
    | JNull
    | JBool(b: bool)
    | JNum(n: int)
    | JStr(s: string)
    | JArr(items: seq<Json>)
    | JObj(fields: map<string, Json>)

  /** The empty object `{}`. */
  const EmptyObject: Json := JObj(map[])

  /** `JSON.parse` (`None` when it throws) and `JSON.stringify`, supplied by the host. */
  datatype Codec = Codec(parse: string -> Option<Json>, stringify: Json -> string)

  /** `try { return JSON.parse(s) } catch { return fallback }` */
  function ParseOr(codec: Codec, s: string, fallback: Json): (r: Json)
    ensures codec.parse(s).Some? ==> r == codec.parse(s).value
    ensures codec.parse(s).None? ==> r == fallback
  {
    match codec.parse(s)
    case Some(v) => v
    case None => fallback
  }
}
