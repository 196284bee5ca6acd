/** Value types shared by the backend and the frontend models: optional and
    failure-carrying results, JSON documents, and the flat string-keyed field
    maps that a query string or a simple JSON request body decodes to. */
module Values {

  /** A value that may be absent; `None` plays the role of JavaScript's `undefined`. */
  datatype Option<+T> = None | Some(value: T) {

    /** The carried value, or `default` when absent. */
    function GetOr(default: T): T {
      match this
      case Some(v) => v
      case None => default
    }
  }

  /** Either a result or the error that prevented it. */
  datatype Result<+T, +E> = Success(value: T) | Failure(error: E)

  /** The outcome of one `client.get(...)` issued by a frontend component. */
  datatype FetchOutcome<+T> = Fetched(data: T) | FetchError

  /** A JSON document. Numbers are reals, as the engine's samples are
      fractional; nothing modelled here computes with them. */
  datatype Json =
    | JNull
    | JBool(b: bool)
    | JNum(n: real)
    | JStr(s: string)
    | JArr(items: seq<Json>)
    | JObj(members: seq<(string, Json)>)

  /** A decoded query string or flat request body. A key that is not in the
      map reads as `undefined`. */
  type Fields = map<string, string>

  /** Reading one key of a field map, with `undefined` for a missing key. */
  function Lookup(f: Fields, key: string): (r: Option<string>)
    ensures r.Some? <==> key in f
    ensures r.Some? ==> r.value == f[key]
  {
    if key in f then Some(f[key]) else None
  }

  /** What a JavaScript template literal prints for a possibly undefined value. */
  function Interpolate(o: Option<string>): string {
    o.GetOr("undefined")
  }
}
