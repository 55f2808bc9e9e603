/**
  The slice of the HTTP transport (tiny_http) that the core touches: a received
  request (verb, url, headers and body) and the reply handed back to `respond`.
*/
module Http {
  import Rpc
  import Wire

  newtype uint8 = x: int | 0 <= x < 0x100

  datatype Header = Header(field: string, value: string)

  /** tiny_http's `Method`. */
  datatype Verb =
    | Get
    | Head
    | Post
    | Put
    | Delete
    | Connect
    | Options
    | Trace
    | Patch
    | NonStandard(name: string)

  /** How a verb is displayed. */
  function VerbName(v: Verb): string {
    match v
    case Get => "GET"
    case Head => "HEAD"
    case Post => "POST"
    case Put => "PUT"
    case Delete => "DELETE"
    case Connect => "CONNECT"
    case Options => "OPTIONS"
    case Trace => "TRACE"
    case Patch => "PATCH"
    case NonStandard(name) => name
  }

  /**
    A received request. `body` is the body read to the end as text, or `None`
    when reading it fails.
  */
  datatype HttpRequest = HttpRequest(verb: Verb, url: string, headers: seq<Header>, body: Rpc.Option<string>)

  /** A reply body: nothing, a text message, file contents, or a serialised JSON object. */
  datatype Body =
    | Empty
    | Text(s: string)
    | Bytes(data: seq<uint8>)
    | JsonText(object: map<string, Wire.Json>)

  /** A reply: status code, the headers this crate adds, and the body. */
  datatype HttpReply = HttpReply(status: int, headers: seq<Header>, body: Body)
}
