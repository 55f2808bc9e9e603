/**
  The JSON-RPC 2.0 envelope types of tiny_jrpc: `Request`, `Response`, `RpcError`
  and `Id`, the crate's error taxonomy, and the `Response` constructors and
  predicates.

  `serde_json::Value` is opaque here: the core never looks inside a value, it only
  moves it between a request, a handler and a response.
*/
module Rpc {

  datatype Option<+T> = None | Some(value: T)

  datatype Result<+T, +E> = Ok(value: T) | Err(error: E)

  /** An arbitrary JSON value (`serde_json::Value`), never inspected by the core. */
  type Value(==)

  /** The payload of `Error::Implementation`: an error of the embedding application. */
  type Payload(==)

  newtype uint64 = x: int | 0 <= x < 0x1_0000_0000_0000_0000

  newtype int64 = x: int | -0x8000_0000_0000_0000 <= x < 0x8000_0000_0000_0000

  /** The protocol version every response carries and every request must carry. */
  const VERSION: string := "2.0"

  /**
    The code `Response::unimplemented` uses. Its value is defined outside the core
    (in the crate's error module), so it is left uninterpreted.
  */
  const METHOD_NOT_FOUND: int64

  /** A request or response id; on the wire it is untagged (a bare number or string). */
  datatype Id = Number(n: uint64) | String(s: string)

  /** A request; the `method` field of the wire form is `methodName` here (`method` is a keyword). */
  datatype Request = Request(jsonrpc: string, id: Option<Id>, methodName: string, params: Option<Value>)

  datatype RpcError = RpcError(code: int64, message: string, data: Option<Value>)

  datatype Response = Response(jsonrpc: string, id: Option<Id>, result: Option<Value>, error: Option<RpcError>)

  /**
    The internal errors the core raises. `ReadBody` and `Malformed` stand for the
    conversions of an I/O error (reading the body) and of a JSON decoding error.
  */
  datatype InnerError =
    | NoContentType
    | WrongContentType
    | ReadBody
    | Malformed
    | InvalidVersion
    | ReservedMethodPrefix

  /** The error a handler may return; `Stop` is the in-band shutdown signal. */
  datatype Error = Inner(inner: InnerError) | Implementation(payload: Payload) | Stop

  /**
    The `as_rpc_error` conversions of the three error types. They are defined
    outside the core, so the model takes them as given functions.
  */
  datatype AsRpc = AsRpc(
    ofInner: InnerError -> RpcError,
    ofPayload: Payload -> RpcError,
    ofError: Error -> RpcError)

  /** `Response::is_error`. */
  predicate IsError(r: Response) {
    r.error.Some?
  }

  /** `Response::is_result`. */
  predicate IsResult(r: Response) {
    r.result.Some?
  }

  /** A JSON-RPC 2.0 response: version "2.0" and exactly one of `result` and `error`. */
  predicate WellFormed(r: Response) {
    r.jsonrpc == VERSION && IsResult(r) != IsError(r)
  }

  /** `Response::result`: a success response for `id`. */
  function ResultResponse(id: Option<Id>, value: Value): (r: Response)
    ensures WellFormed(r) && IsResult(r) && !IsError(r)
    ensures r.id == id && r.result == Some(value)
  {
    Response(VERSION, id, Some(value), None)
  }

  /** `Response::error`: an error response for `id` built from its three parts. */
  function ErrorResponse(id: Option<Id>, code: int64, message: string, data: Option<Value>): (r: Response)
    ensures WellFormed(r) && IsError(r) && !IsResult(r)
    ensures r.id == id && r.error == Some(RpcError(code, message, data))
  {
    Response(VERSION, id, None, Some(RpcError(code, message, data)))
  }

  /**
    `Response::from_error`, given the error already converted by its
    `as_rpc_error`: an error response for `id` carrying exactly that error.
  */
  function FromError(id: Option<Id>, e: RpcError): (r: Response)
    ensures WellFormed(r) && IsError(r) && !IsResult(r)
    ensures r.id == id && r.error == Some(e)
  {
    Response(VERSION, id, None, Some(e))
  }

  /** `Response::unimplemented`: a "method not found" error without data. */
  function Unimplemented(id: Option<Id>, message: string): (r: Response)
    ensures WellFormed(r) && IsError(r) && !IsResult(r) && r.id == id
    ensures r.error.value.code == METHOD_NOT_FOUND
    ensures r.error.value.message == message && r.error.value.data == None
  {
    ErrorResponse(id, METHOD_NOT_FOUND, message, None)
  }
}
