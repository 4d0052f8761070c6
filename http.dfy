/** Values that cross the HTTP boundary of the function: the inbound request
    as the handler sees it and the outbound response it writes. */
module Http {

  /** A value that may be absent (a missing header, an undefined field). */
  datatype Option<+T> = None | Some(value: T) {
    /** `d.get(name, default)` of Python. */
    function GetOr(default: T): (r: T)
      ensures Some? ==> r == value
      ensures None? ==> r == default
    {
      match this
      case Some(v) => v
      case None => default
    }
  }

  /** Raw payload bytes. */
  type Bytes = seq<bv8>

  /** A header mapping, name to value. */
  type Headers = map<string, string>

  /** A response body: absent, a text string, or a raw byte payload. */
  datatype Body = NoBody | Text(text: string) | Raw(bytes: Bytes)

  /** The parts of an inbound request the handler reads. `verb` is the HTTP
      method, `filename` is the route parameter, `authorization` and `destination`
      are the two headers it consults, `url` is the full request URL
      (`originalUrl` in the JavaScript host, `req.url` in the Python host),
      and `body` is the payload. */
  datatype Request = Request(
    verb: string,
    filename: string,
    authorization: Option<string>,
    destination: Option<string>,
    url: string,
    body: Bytes)

  /** The outbound response. `isRaw` is the Azure Functions JavaScript flag
      that keeps the host from re-encoding the body; the Python response
      object has no such flag and always carries `false`. */
  datatype Response = Response(status: int, headers: Option<Headers>, body: Body, isRaw: bool)

  /** The methods the handler translates into storage operations. */
  predicate Supported(verb: string)
  {
    verb == "GET" || verb == "DELETE" || verb == "PUT" || verb == "MOVE"
  }
}
