/** A JSON value, for upstream fields the handlers pass through without looking inside. */
module Json {

  datatype Json =
    | Null
    | Bool(b: bool)
    | Number(n: int)  // opaque: passed through unread, so an integer stands in for any JSON number
    | Str(s: string)
    | Array(items: seq<Json>)
    | Object(members: seq<(string, Json)>)
}
