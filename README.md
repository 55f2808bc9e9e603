# tiny_jrpc: a Dafny model of the JSON-RPC 2.0 request pipeline

tiny_jrpc layers JSON-RPC 2.0 over a tiny_http server. A pool of worker threads
shares one listening server and one running flag. Each worker repeatedly receives
a request with a 100 ms timeout and routes it by HTTP verb:

- GET serves a file.
- OPTIONS answers 204 for CORS.
- POST runs the JSON-RPC path.
- Any other verb answers 500.

On the JSON-RPC path the envelope is validated first. The validator looks for the
first header named exactly `Content-Type` (the comparison is case-sensitive) and
requires its value to be exactly `application/json`. Only then are the body read
and decoded. The dispatcher then rejects a version other than `"2.0"` and a method
name starting with `rpc.`. After that it calls the user handler. The handler's
`Stop` error is an in-band shutdown signal: the worker clears the running flag and
still answers the request with an error response that carries the request's id.

The model is in five modules:

- `Rpc` (rpc.dfy): `Request`, `Response`, `RpcError`, `Id`, the error taxonomy
  (`InnerError`, `Error`), and the `Response` constructors and predicates.
  `IsError` and `IsResult` are exactly "the field is present". `WellFormed` means
  version `"2.0"` and exactly one of `result` and `error`.
- `Wire` (wire.dfy): the serialised form of a `Response` as a map from keys to
  JSON trees, and the derived reader with serde's rules for optional fields.
- `Http` (http.dfy): the transport-facing request and reply.
- `Pipeline` (pipeline.dfy): `validate_jsonrpc_request`, `handle_jsonrpc_request`
  and the POST branch's response selection, all as functions.
- `Server` (server.dfy): routing by verb, the poll decision, and the worker loop
  as a specification function `Drive`. The class `JsonRpcServer` has a `running`
  flag, a `handles` sequence and the shared handler `state`. Its methods `Stop`, `IsRunning`, `JoinThreads`,
  `Respond` (one received request) and `Run` (the worker loop) are proved against
  those functions.

Outside collaborators are parameters:

- the JSON decoder, `decode: string -> Option<Request>`;
- the user handler, `process: (Request, S) -> Call<S>`. `S` is what the shared
  `Arc<Mutex<T>>` holds. A call either returns a result together with the state
  it leaves behind, or panics. The state is threaded from one handler call to
  the next, so a later answer can depend on earlier requests;
- the `as_rpc_error` conversions;
- the filesystem seen by GET.

## Model

| member | source | states |
|---|---|---|
| Rpc.ResultResponse | tiny_jrpc/src/lib.rs:353-360 | a success response: version "2.0", the given id, `result` set and `error` absent (well-formed) |
| Rpc.ErrorResponse | tiny_jrpc/src/lib.rs:362-374 | an error response: version "2.0", the given id, `error` holding exactly the given code, message and data, `result` absent |
| Rpc.FromError | tiny_jrpc/src/lib.rs:376-383 | an error response carrying the converted error and the given id, never a result |
| Rpc.IsError | tiny_jrpc/src/lib.rs:389-391 | a response is an error exactly when its `error` field is present |
| Rpc.IsResult | tiny_jrpc/src/lib.rs:393-395 | a response is a result exactly when its `result` field is present |
| Rpc.Unimplemented | tiny_jrpc/src/lib.rs:385-387 | an error response with code `METHOD_NOT_FOUND`, the given message and no data |
| Wire.WriteError | tiny_jrpc/src/lib.rs:398-403 | a serialised `RpcError` always has the keys code, message and data; data is `null` exactly when absent |
| Wire.WriteResponse | tiny_jrpc/src/lib.rs:342-350 | `jsonrpc` and `id` are always written; the `result` key is present iff there is a result and the `error` key iff there is an error; no other keys |
| Wire.RoundTrip | tiny_jrpc/src/lib.rs:342-350 | reading back a serialised response gives the same response, for every response |
| Wire.WellFormedOnWire | tiny_jrpc/src/lib.rs:346-349 | a well-formed response has exactly one of the `result` and `error` keys on the wire, and `jsonrpc` is "2.0" |
| Wire.ResultResponseOnWire | tiny_jrpc/src/lib.rs:486-502 | a result response is written with exactly the keys jsonrpc, id and result |
| Wire.ErrorResponseOnWire | tiny_jrpc/src/lib.rs:504-526 | an error response without data is written with jsonrpc, id and an error object whose data is `null`, and no result key |
| Pipeline.FindHeader | tiny_jrpc/src/lib.rs:266-271 | the position found is that of the first header named exactly as asked; none is found iff no header has that name |
| Pipeline.Validate | tiny_jrpc/src/lib.rs:258-285 | `NoContentType` iff no header is named `Content-Type`; `WrongContentType` iff the first such header is not `application/json`; a body read error, a decode failure or the decoded request otherwise, each exactly in its case |
| Pipeline.HeadersCheckedBeforeBody | tiny_jrpc/src/lib.rs:266-282 | when the content-type checks fail, the outcome does not depend on the body or the decoder |
| Pipeline.Handle | tiny_jrpc/src/lib.rs:287-319 | version other than "2.0" gives `InvalidVersion`, else an `rpc.` method gives `ReservedMethodPrefix`, both with the state untouched; otherwise the handler's state is kept, it panics iff the handler panics, a handler `Ok` passes through, `Stop` propagates, and `Inner` and `Implementation` errors become error responses with the request's id; no other error escapes |
| Pipeline.RejectedBeforeHandler | tiny_jrpc/src/lib.rs:296-304 | a request failing either check gets the same outcome whatever the handler is, an `Inner` error with the state untouched, so the handler is not invoked |
| Pipeline.PostResponse | tiny_jrpc/src/lib.rs:170-193 | a validation failure gives an error response with no id and no stop, state untouched; otherwise the state is the one `handle_jsonrpc_request` leaves and the branch panics iff the handler did; stop is requested exactly when the handler returned `Stop`, and then the response is an error response with the request's id; any other error gives an error response with the request's id; a handler response passes through |
| Pipeline.PostWellFormed | tiny_jrpc/src/lib.rs:170-193 | every response the POST branch sends is well-formed when the handler's own successful responses are |
| Pipeline.BadContentTypeAnswered | tiny_jrpc/src/lib.rs:189-192 | a POST without a first `Content-Type: application/json` header is answered with an error without id, does not stop the server and leaves the state alone |
| Pipeline.ReservedMethodAnswered | tiny_jrpc/src/lib.rs:301-304 | a decoded request whose method starts with `rpc.` is answered with an error carrying its own id, does not stop the server and leaves the state alone |
| Server.GetReply | tiny_jrpc/src/lib.rs:98-158 | no serve directory gives 500; a url without a leading slash makes the worker panic (this crate hands no reply to `respond`); otherwise 200 with the file's bytes iff it was read, 404 with "404: File not found" iff it is missing, 500 otherwise |
| Server.Route | tiny_jrpc/src/lib.rs:97-208 | only POST can ask to stop, and every other verb leaves the state as it was; the rest of its behaviour is stated by `RouteByVerb` |
| Server.RouteByVerb | tiny_jrpc/src/lib.rs:97-208 | GET is file serving; OPTIONS is 204 with `Allow: GET, POST, OPTIONS` then the configured headers in order and no body; POST is 200 with the configured headers and the serialised JSON-RPC response; any other verb is 500; only POST can stop or change the state; the worker panics exactly on a GET url without a leading slash or a POST whose handler panics |
| Server.PollStep | tiny_jrpc/src/lib.rs:79-94 | a received request is always served, whatever the flag; the worker leaves iff a timeout finds the flag clear; a receive error re-polls |
| Server.Drive | tiny_jrpc/src/lib.rs:77-210 | the worker loop only appends to the reply log, never sets the running flag again, and ends within the poll results |
| Server.StateOnlyChangedByPost | tiny_jrpc/src/lib.rs:170-180 | only a POST reaches the handler: a run receiving no POST ends with the state it started with |
| Server.StopsOnlyOnTimeoutAfterStop | tiny_jrpc/src/lib.rs:81-88 | the loop leaves only right after a timeout that found the flag clear |
| Server.OneReplyPerRequest | tiny_jrpc/src/lib.rs:77-210 | this crate hands one reply to `respond` per received request, except for the request that made the worker panic |
| Server.IdleWhileRunning | tiny_jrpc/src/lib.rs:81-93 | while the flag is set and nothing is received, the worker never leaves, sends nothing and keeps the state |
| Server.DrainsAfterStop | tiny_jrpc/src/lib.rs:81-88 | with the flag clear, the worker leaves at the first timeout, unless it panicked before it |
| Server.AppendHeaders | tiny_jrpc/src/lib.rs:163-166 | adding the configured headers one by one yields the base headers followed by them, in order |
| Server.JsonRpcServer.constructor | tiny_jrpc/src/lib.rs:62-221 | a new server is running, holds the given shared state and the spawned handles in spawn order |
| Server.JsonRpcServer.Stop | tiny_jrpc/src/lib.rs:225-227 | the flag is clear afterwards and nothing else changes, so a second call has no further effect |
| Server.JsonRpcServer.IsRunning | tiny_jrpc/src/lib.rs:230-232 | returns the running flag |
| Server.JsonRpcServer.JoinThreads | tiny_jrpc/src/lib.rs:235-239 | all handles are removed and each is joined once, last pushed first |
| Server.JsonRpcServer.Respond | tiny_jrpc/src/lib.rs:96-209 | exactly one reply (the routed one) is sent unless the worker panics; the flag is cleared exactly when the POST handler asked to stop; the state is the one routing leaves |
| Server.JsonRpcServer.Run | tiny_jrpc/src/lib.rs:77-211 | the loop's replies, final flag, final state, number of polls consumed and way of ending are those of `Drive` |
| Server.Shutdown | tiny_jrpc/src/lib.rs:466-467 | `stop` and `join_threads` called twice leave the same state as once: flag clear, handles joined in reverse order, no reply sent, handler state untouched |

## Left out

- Threads, `Arc`, `Mutex` and atomics are not modelled. One worker runs sequentially, and `running` and `state` are plain fields. Other workers clearing the flag or changing the state between polls are not modelled, and neither are locking and mutex poisoning inside the handler.
- Spawning `num_threads` workers is not modelled. The constructor takes the spawned handles as given.
- Server.JsonRpcServer.Run: the source loop is unbounded. The model runs over a finite sequence of poll results, and `Exhausted` only means that this sequence ran out.
- tiny_http is not modelled: `recv_timeout`, `respond`, header parsing, and the headers tiny_http adds by itself (for example the default `Content-Type` of `from_string`). A failed `respond` is only logged in the source; the model records every reply handed over. A request dropped without a reply (worker panic, failed serialisation) is answered by tiny_http itself with an empty 500. `sent` records only the replies this crate hands to `respond`.
- A failing `serde_json::to_string` in `send_jsonrpc_response` is not modelled. The source only logs it and hands no reply to `respond`, so tiny_http answers with an empty 500; the model always hands over the serialised response.
- JSON text and serde decoding of a `Request` are not modelled. Decoding is the parameter `decode`.
- Wire.RoundTrip, Wire.WriteError, Wire.WriteResponse: `Value` is opaque, so a result or data that is itself JSON `null` is not distinguished. Such a value is written as `null` and serde would read it back as absent. So `WriteError`'s "data is `null` exactly when absent" and `WriteResponse`'s "`result` is never `null`" hold only in the model: `Some(Value::Null)` is written as `null` too.
- Wire.ReadResponse accepts only embedded values at the `result` and `data` positions.
- error.rs is not part of this model. This leaves out the `as_rpc_error` conversions (parameters here), the value of `METHOD_NOT_FOUND` (uninterpreted), the error code table, and the payloads of I/O and JSON errors. The variant names `ReadBody` and `Malformed` are this model's own.
- config.rs is not part of this model. Only `serve_dir` and `headers` are used.
- The GET filesystem is abstract: path joining, the `index.html` rule for directories, and opening and reading files are all outside the model.
- `tracing` logging, `Display` for `RpcError`, and the `server_addr`, `port` and `config` accessors are left out. They are side output or transport accessors.
- JSON-RPC 2.0 allows `data` to be omitted. The code has no skip attribute on `RpcError.data`, so it is always written, as `null` when absent; the model follows the code.
