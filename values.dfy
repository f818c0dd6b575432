/** Plain values shared by the whole model: an optional value, the loosely
    typed values that widgets carry and render (Python's `Any`), and what a
    data source hands back when a widget asks it for data. */
module Values {

  datatype Option<+T> = None | Some(value: T)

  /** A JSON-like value: what a data source returns, what an option or
      metadata bag holds, and what the snapshots are made of. Numbers are
      integers in this model. */
  datatype Json =
    | JNull
    | JBool(b: bool)
    | JNum(n: int)
    | JStr(s: string)
    | JArray(items: seq<Json>)
    | JObject(fields: map<string, Json>)

  /** The outcome of calling a widget's data source once: the value it
      returned, or the text of the exception it raised. */
  datatype SourceResult = Ok(value: Json) | Err(message: string)

  /** Renders an optional string the way the snapshots do: `None` becomes null. */
  function StrOrNull(s: Option<string>): (r: Json)
    ensures r == JNull <==> s.None?
    ensures s.Some? ==> r == JStr(s.value)
  {
    match s
    case None => JNull
    case Some(v) => JStr(v)
  }
}
