/**
  The wire form of a `Response`, as serde's derived `Serialize` writes it: an object
  whose `result` and `error` keys are skipped when absent, whose `id` is always
  written (`null` when absent), and whose nested error object always has a `data`
  key (`null` when absent). The derived `Deserialize` is modelled as the reader,
  with serde's rules for optional fields: a missing key and `null` both read as
  absent.

  JSON text is not modelled: an object is a map from keys to `Json` trees, and a
  `Value` is embedded whole.
*/
module Wire {
  import opened Rpc

  datatype Json =
    | Null
    | Num(n: int)
    | Str(s: string)
    | Embed(v: Value)
    | Object(fields: map<string, Json>)

  /** The field the reader rejected. */
  datatype WireError = WireError(field: string)

  /** `Id` is untagged: a number or a string written bare; an absent id is `null`. */
  function WriteId(id: Option<Id>): Json {
    match id
    case None => Null
    case Some(Number(n)) => Num(n as int)
    case Some(String(s)) => Str(s)
  }

  function WriteOptValue(v: Option<Value>): Json {
    match v
    case None => Null
    case Some(x) => Embed(x)
  }

  /** `RpcError` has no skip attribute: all three keys are always written. */
  function WriteError(e: RpcError): (j: Json)
    ensures j.Object? && j.fields.Keys == {"code", "message", "data"}
    ensures j.fields["data"] == Null <==> e.data == None
  {
    Object(map["code" := Num(e.code as int), "message" := Str(e.message), "data" := WriteOptValue(e.data)])
  }

  /** The serialised `Response`. */
  function WriteResponse(r: Response): (m: map<string, Json>)
    ensures "jsonrpc" in m && "id" in m
    ensures "result" in m <==> r.result.Some?
    ensures "error" in m <==> r.error.Some?
    ensures m.Keys <= {"jsonrpc", "id", "result", "error"}
    ensures "result" in m ==> m["result"] != Null
    ensures "error" in m ==> m["error"].Object? && "data" in m["error"].fields
  {
    var base := map["jsonrpc" := Str(r.jsonrpc), "id" := WriteId(r.id)];
    var withResult := if r.result.Some? then base["result" := Embed(r.result.value)] else base;
    if r.error.Some? then withResult["error" := WriteError(r.error.value)] else withResult
  }

  /** An untagged `Id`: a number that fits in 64 unsigned bits, else a string. */
  function ReadId(j: Json): Result<Option<Id>, WireError> {
    match j
    case Null => Ok(None)
    case Num(n) => if 0 <= n < 0x1_0000_0000_0000_0000 then Ok(Some(Number(n as uint64))) else Err(WireError("id"))
    case Str(s) => Ok(Some(String(s)))
    case _ => Err(WireError("id"))
  }

  /** An optional field: a missing key or `null` is absent. */
  function ReadOptional(m: map<string, Json>, key: string): Result<Option<Value>, WireError> {
    if key !in m then Ok(None)
    else match m[key]
      case Null => Ok(None)
      case Embed(v) => Ok(Some(v))
      case _ => Err(WireError(key))
  }

  function ReadError(j: Json): Result<Option<RpcError>, WireError> {
    match j
    case Null => Ok(None)
    case Object(f) =>
      if "code" !in f || !f["code"].Num? || !(-0x8000_0000_0000_0000 <= f["code"].n < 0x8000_0000_0000_0000) then
        Err(WireError("code"))
      else if "message" !in f || !f["message"].Str? then
        Err(WireError("message"))
      else
        (match ReadOptional(f, "data")
         case Err(e) => Err(e)
         case Ok(data) => Ok(Some(RpcError(f["code"].n as int64, f["message"].s, data))))
    case _ => Err(WireError("error"))
  }

  /** The derived `Deserialize` of `Response`; unknown keys are ignored. */
  function ReadResponse(m: map<string, Json>): Result<Response, WireError> {
    if "jsonrpc" !in m || !m["jsonrpc"].Str? then Err(WireError("jsonrpc"))
    else
      var id := if "id" in m then ReadId(m["id"]) else Ok(None);
      var result := ReadOptional(m, "result");
      var error := if "error" in m then ReadError(m["error"]) else Ok(None);
      if id.Err? then Err(id.error)
      else if result.Err? then Err(result.error)
      else if error.Err? then Err(error.error)
      else Ok(Response(m["jsonrpc"].s, id.value, result.value, error.value))
  }

  /** Reading back what was written gives the same response, for every response. */
  lemma RoundTrip(r: Response)
    ensures ReadResponse(WriteResponse(r)) == Ok(r)
  {
  }

  /**
    A well-formed response has exactly one of the `result` and `error` keys on the
    wire, and that key is the one its constructor set.
  */
  lemma WellFormedOnWire(r: Response)
    requires WellFormed(r)
    ensures ("result" in WriteResponse(r)) != ("error" in WriteResponse(r))
    ensures "error" in WriteResponse(r) <==> IsError(r)
    ensures WriteResponse(r)["jsonrpc"] == Str("2.0")
  {
  }

  /** A response built by `Response::result` has no `error` key on the wire. */
  lemma ResultResponseOnWire(id: Option<Id>, v: Value)
    ensures WriteResponse(ResultResponse(id, v)) == map["jsonrpc" := Str("2.0"), "id" := WriteId(id), "result" := Embed(v)]
  {
  }

  /**
    A response built by `Response::error` has no `result` key on the wire, and its
    error object carries `"data": null` when there is no data.
  */
  lemma ErrorResponseOnWire(id: Option<Id>, code: int64, message: string)
    ensures WriteResponse(ErrorResponse(id, code, message, None)) ==
      map["jsonrpc" := Str("2.0"), "id" := WriteId(id),
          "error" := Object(map["code" := Num(code as int), "message" := Str(message), "data" := Null])]
  {
  }
}
