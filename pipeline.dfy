/**
  The JSON-RPC path of a POST request: envelope validation
  (`validate_jsonrpc_request`), dispatch to the user handler
  (`handle_jsonrpc_request`) and the choice of the one response the POST branch
  of the worker sends.

  Reading the body and decoding JSON are outside the core: the body arrives as
  text (or `None` when reading failed) and `decode` is the partial function serde
  computes from text to `Request`.
*/
module Pipeline {
  import opened Rpc
  import opened Http

  const CONTENT_TYPE: string := "Content-Type"
  const APPLICATION_JSON: string := "application/json"
  const RESERVED_PREFIX: string := "rpc."

  /** `i` is the position of the first header whose name is exactly `name`. */
  predicate IsFirstNamed(hs: seq<Header>, name: string, i: int) {
    0 <= i < |hs| && hs[i].field == name && forall j | 0 <= j < i :: hs[j].field != name
  }

  /** The position of the first header named exactly `name` (case matters). */
  function FindHeader(hs: seq<Header>, name: string): (r: Option<nat>)
    ensures r.Some? ==> IsFirstNamed(hs, name, r.value)
    ensures r.None? <==> forall j | 0 <= j < |hs| :: hs[j].field != name
  {
    if hs == [] then None
    else if hs[0].field == name then Some(0)
    else match FindHeader(hs[1..], name)
      case None => None
      case Some(k) => Some(k + 1)
  }

  /** The first `Content-Type` header exists and its value is exactly `application/json`. */
  predicate ContentTypeOk(hs: seq<Header>) {
    exists i | 0 <= i < |hs| :: IsFirstNamed(hs, CONTENT_TYPE, i) && hs[i].value == APPLICATION_JSON
  }

  /** `validate_jsonrpc_request`: the header checks in order, then the body, then decoding. */
  function Validate(req: HttpRequest, decode: string -> Option<Request>): (r: Result<Request, InnerError>)
    ensures r == Err(NoContentType) <==> forall j | 0 <= j < |req.headers| :: req.headers[j].field != CONTENT_TYPE
    ensures r == Err(WrongContentType) <==>
      exists i :: IsFirstNamed(req.headers, CONTENT_TYPE, i) && req.headers[i].value != APPLICATION_JSON
    ensures r == Err(ReadBody) <==> ContentTypeOk(req.headers) && req.body.None?
    ensures r == Err(Malformed) <==>
      ContentTypeOk(req.headers) && req.body.Some? && decode(req.body.value).None?
    ensures r.Ok? <==> ContentTypeOk(req.headers) && req.body.Some? && decode(req.body.value).Some?
    ensures r.Ok? ==> r.value == decode(req.body.value).value
  {
    match FindHeader(req.headers, CONTENT_TYPE)
    case None => Err(NoContentType)
    case Some(i) =>
      if req.headers[i].value != APPLICATION_JSON then Err(WrongContentType)
      else if req.body.None? then Err(ReadBody)
      else match decode(req.body.value)
        case None => Err(Malformed)
        case Some(request) => Ok(request)
  }

  /**
    When the header checks fail, neither the body nor the decoder is consulted:
    the outcome is the same for any body and any decoder.
  */
  lemma HeadersCheckedBeforeBody(req: HttpRequest, body: Option<string>, d1: string -> Option<Request>, d2: string -> Option<Request>)
    requires !ContentTypeOk(req.headers)
    ensures Validate(req, d1) == Validate(req.(body := body), d2)
    ensures Validate(req, d1) == Err(NoContentType) || Validate(req, d1) == Err(WrongContentType)
  {
  }

  /** The request passes the two protocol checks made before the handler runs. */
  predicate Admitted(request: Request) {
    request.jsonrpc == VERSION && !(RESERVED_PREFIX <= request.methodName)
  }

  /**
    One call of the user handler. `S` is what the shared `Arc<Mutex<T>>` holds:
    the handler returns with that state possibly changed, or panics (leaving
    whatever it had changed by then).
  */
  datatype Call<S> = Returned(result: Result<Response, Error>, state: S) | Panics(state: S)

  /**
    `handle_jsonrpc_request`: the version check, then the reserved-prefix check,
    then the handler `process` on the request and the shared state.
  */
  function Handle<S>(request: Request, state: S, process: (Request, S) -> Call<S>, conv: AsRpc): (c: Call<S>)
    ensures request.jsonrpc != VERSION ==> c == Returned(Err(Inner(InvalidVersion)), state)
    ensures request.jsonrpc == VERSION && RESERVED_PREFIX <= request.methodName ==>
      c == Returned(Err(Inner(ReservedMethodPrefix)), state)
    ensures Admitted(request) ==> c.state == process(request, state).state
    ensures c.Panics? <==> Admitted(request) && process(request, state).Panics?
    ensures var p := process(request, state);
      Admitted(request) && p.Returned? && p.result.Ok? ==> c.result == p.result
    ensures var p := process(request, state);
      c.Returned? && c.result == Err(Stop) <==> Admitted(request) && p.Returned? && p.result == Err(Stop)
    ensures var p := process(request, state);
      Admitted(request) && p.Returned? && p.result.Err? && p.result.error.Inner? ==>
        c.result == Ok(FromError(request.id, conv.ofInner(p.result.error.inner)))
    ensures var p := process(request, state);
      Admitted(request) && p.Returned? && p.result.Err? && p.result.error.Implementation? ==>
        c.result == Ok(FromError(request.id, conv.ofPayload(p.result.error.payload)))
    ensures c.Returned? && c.result.Err? ==>
      c.result.error == Stop || c.result.error == Inner(InvalidVersion) || c.result.error == Inner(ReservedMethodPrefix)
  {
    if request.jsonrpc != VERSION then Returned(Err(Inner(InvalidVersion)), state)
    else if RESERVED_PREFIX <= request.methodName then Returned(Err(Inner(ReservedMethodPrefix)), state)
    else match process(request, state)
      case Panics(s) => Panics(s)
      case Returned(Ok(response), s) => Returned(Ok(response), s)
      case Returned(Err(Stop), s) => Returned(Err(Stop), s)
      case Returned(Err(Inner(e)), s) => Returned(Ok(FromError(request.id, conv.ofInner(e))), s)
      case Returned(Err(Implementation(p)), s) => Returned(Ok(FromError(request.id, conv.ofPayload(p))), s)
  }

  /**
    A request that fails a protocol check never reaches the handler: the outcome
    does not depend on the handler, and the shared state is left as it was.
  */
  lemma RejectedBeforeHandler<S>(request: Request, state: S,
                                 p1: (Request, S) -> Call<S>, p2: (Request, S) -> Call<S>, conv: AsRpc)
    requires !Admitted(request)
    ensures Handle(request, state, p1, conv) == Handle(request, state, p2, conv)
    ensures var c := Handle(request, state, p1, conv);
      c.Returned? && c.result.Err? && c.result.error.Inner? && c.state == state
  {
  }

  /** What the POST path needs besides the request and the state: decoder, handler and conversions. */
  datatype Handler<!S> = Handler(
    decode: string -> Option<Request>,
    process: (Request, S) -> Call<S>,
    conv: AsRpc)

  /**
    What the POST branch does: send `response` and clear the running flag when
    `stop`, or panic because the handler did; either way the shared state is
    left as `state`.
  */
  datatype PostOutcome<S> = Answer(response: Response, stop: bool, state: S) | HandlerPanicked(state: S)

  /** The response selection of the POST branch of the worker. */
  function PostResponse<S>(req: HttpRequest, h: Handler<S>, state: S): (o: PostOutcome<S>)
    ensures var v := Validate(req, h.decode);
      v.Err? ==> o == Answer(FromError(None, h.conv.ofInner(v.error)), false, state)
    ensures var v := Validate(req, h.decode);
      v.Ok? ==> o.state == Handle(v.value, state, h.process, h.conv).state
    ensures var v := Validate(req, h.decode);
      o.HandlerPanicked? <==> v.Ok? && Handle(v.value, state, h.process, h.conv).Panics?
    ensures var v := Validate(req, h.decode);
      o.Answer? && o.stop <==>
        v.Ok? && Handle(v.value, state, h.process, h.conv).Returned? &&
        Handle(v.value, state, h.process, h.conv).result == Err(Stop)
    ensures var v := Validate(req, h.decode);
      o.Answer? && o.stop ==> o.response == FromError(v.value.id, h.conv.ofError(Stop))
    ensures var v := Validate(req, h.decode);
      v.Ok? && Handle(v.value, state, h.process, h.conv).Returned? && Handle(v.value, state, h.process, h.conv).result.Err? ==>
        o.Answer? && IsError(o.response) && o.response.id == v.value.id
    ensures var v := Validate(req, h.decode);
      v.Ok? && Handle(v.value, state, h.process, h.conv).Returned? && Handle(v.value, state, h.process, h.conv).result.Ok? ==>
        o == Answer(Handle(v.value, state, h.process, h.conv).result.value, false, Handle(v.value, state, h.process, h.conv).state)
  {
    match Validate(req, h.decode)
    case Err(e) => Answer(FromError(None, h.conv.ofInner(e)), false, state)
    case Ok(request) =>
      match Handle(request, state, h.process, h.conv)
      case Panics(s) => HandlerPanicked(s)
      case Returned(Ok(response), s) => Answer(response, false, s)
      case Returned(Err(Stop), s) => Answer(FromError(request.id, h.conv.ofError(Stop)), true, s)
      case Returned(Err(e), s) => Answer(FromError(request.id, h.conv.ofError(e)), false, s)
  }

  /**
    Every response the POST branch sends is a well-formed JSON-RPC response as
    long as the handler's own successful responses are.
  */
  lemma PostWellFormed<S>(req: HttpRequest, h: Handler<S>, state: S)
    requires forall request, s :: h.process(request, s).Returned? && h.process(request, s).result.Ok? ==>
      WellFormed(h.process(request, s).result.value)
    ensures PostResponse(req, h, state).Answer? ==> WellFormed(PostResponse(req, h, state).response)
  {
    var v := Validate(req, h.decode);
    if v.Ok? {
      var c := Handle(v.value, state, h.process, h.conv);
      var p := h.process(v.value, state);
      if c.Returned? && c.result.Ok? && p.Returned? && p.result.Ok? {
        assert c.result.value == p.result.value;
      }
    }
  }

  /**
    A POST whose first `Content-Type` header is missing or is not exactly
    `application/json` is answered with an error without an id; it never stops
    the server and leaves the shared state alone.
  */
  lemma BadContentTypeAnswered<S>(req: HttpRequest, h: Handler<S>, state: S)
    requires !ContentTypeOk(req.headers)
    ensures var o := PostResponse(req, h, state);
      o.Answer? && IsError(o.response) && o.response.id == None && !o.stop && o.state == state
  {
  }

  /**
    A decoded request that uses a reserved method name is answered with an error
    carrying its own id, whatever the handler would have done, and the shared
    state is left alone.
  */
  lemma ReservedMethodAnswered<S>(req: HttpRequest, h: Handler<S>, state: S)
    requires Validate(req, h.decode).Ok?
    requires RESERVED_PREFIX <= Validate(req, h.decode).value.methodName
    ensures PostResponse(req, h, state) ==
      Answer(FromError(Validate(req, h.decode).value.id, h.conv.ofError(Inner(
        if Validate(req, h.decode).value.jsonrpc == VERSION then ReservedMethodPrefix else InvalidVersion))),
        false, state)
  {
  }
}
