/**
  The worker side of `JsonRpcServer`: routing a received request by HTTP verb,
  the per-iteration poll decision of the worker loop, the loop itself, and the
  server object with its running flag and its thread handles.

  Threads are not modelled: one worker runs sequentially against a finite
  sequence of poll results, and the running flag is a plain field. Replies
  handed to the transport are recorded in the ghost log `sent`, joined handles
  in the ghost log `joined`.
*/
module Server {
  import opened Rpc
  import opened Http
  import opened Pipeline
  import Wire

  /** The parts of the server configuration the worker reads. */
  datatype Config = Config(serveDir: Option<string>, headers: seq<Header>)

  /**
    What opening and reading a file under the serve directory gives (the
    filesystem, including the `index.html` rule for directories, is outside the
    core).
  */
  datatype FileOutcome = Contents(data: seq<uint8>) | NotFound | OpenFailed | ReadFailed

  /** Everything a worker shares with the others: configuration, handler and filesystem. */
  datatype Context<!S> = Context(
    config: Config,
    handler: Handler<S>,
    files: (string, string) -> FileOutcome)

  const ALLOW: Header := Header("Allow", "GET, POST, OPTIONS")
  const NO_SERVE_DIR: string := "No serve_dir defined in server config."
  const FILE_NOT_FOUND: string := "404: File not found"
  const INTERNAL_ERROR: string := "500: Internal error"

  /**
    The outcome of serving one request: a reply (and whether to stop), or a
    panic of the worker; either way, the shared handler state afterwards.
  */
  datatype Routed<S> = Reply(reply: HttpReply, stop: bool, state: S) | Panic(state: S)

  /**
    The GET branch: the reply, or `None` when the worker panics. Without a serve
    directory the reply is 500; otherwise the url loses its leading slash (a url
    without one makes the worker panic) and the file outcome picks 200, 404 or
    500.
  */
  function GetReply(config: Config, files: (string, string) -> FileOutcome, url: string): (r: Option<HttpReply>)
    ensures r.None? <==> config.serveDir.Some? && !("/" <= url)
    ensures r.Some? ==> r.value.headers == [] && r.value.status in {200, 404, 500}
    ensures config.serveDir.None? ==> r == Some(HttpReply(500, [], Text(NO_SERVE_DIR)))
    ensures r.Some? && r.value.status == 200 <==>
      config.serveDir.Some? && "/" <= url && files(config.serveDir.value, url[1..]).Contents?
    ensures r.Some? && r.value.status == 200 ==> r.value.body == Bytes(files(config.serveDir.value, url[1..]).data)
    ensures r.Some? && r.value.status == 404 <==>
      config.serveDir.Some? && "/" <= url && files(config.serveDir.value, url[1..]) == NotFound
    ensures r.Some? && r.value.status == 404 ==> r.value.body == Text(FILE_NOT_FOUND)
  {
    match config.serveDir
    case None => Some(HttpReply(500, [], Text(NO_SERVE_DIR)))
    case Some(dir) =>
      if !("/" <= url) then None
      else match files(dir, url[1..])
        case Contents(data) => Some(HttpReply(200, [], Bytes(data)))
        case NotFound => Some(HttpReply(404, [], Text(FILE_NOT_FOUND)))
        case OpenFailed => Some(HttpReply(500, [], Text(INTERNAL_ERROR)))
        case ReadFailed => Some(HttpReply(500, [], Text(INTERNAL_ERROR)))
  }

  /** The body of the reply to a verb the server does not implement. */
  function NotImplementedMessage(v: Verb): string {
    "500: Internal error - method " + VerbName(v) + " not implemented."
  }

  /** Routing by HTTP verb: what the worker does for one received request, given the shared state. */
  function Route<S>(ctx: Context<S>, state: S, req: HttpRequest): (r: Routed<S>)
    ensures r.Reply? && r.stop ==> req.verb == Post
    ensures req.verb != Post ==> r.state == state
  {
    match req.verb
    case Get =>
      (match GetReply(ctx.config, ctx.files, req.url)
       case None => Panic(state)
       case Some(reply) => Reply(reply, false, state))
    case Options => Reply(HttpReply(204, [ALLOW] + ctx.config.headers, Empty), false, state)
    case Post =>
      (match PostResponse(req, ctx.handler, state)
       case HandlerPanicked(s) => Panic(s)
       case Answer(response, stop, s) =>
         Reply(HttpReply(200, ctx.config.headers, JsonText(Wire.WriteResponse(response))), stop, s))
    case _ => Reply(HttpReply(500, [], Text(NotImplementedMessage(req.verb))), false, state)
  }

  /**
    Routing by verb: GET is file serving, OPTIONS a 204 with the `Allow` header
    followed by the configured headers and no body, POST the JSON-RPC path with the
    configured headers, and every other verb a 500. Only POST can stop the server
    or change the shared state; the worker panics exactly on a GET url without a
    leading slash (with a serve directory) or on a POST whose handler panics.
  */
  lemma RouteByVerb<S>(ctx: Context<S>, state: S, req: HttpRequest)
    ensures var r := Route(ctx, state, req);
      && (r.Reply? && r.stop ==> req.verb == Post)
      && (r.Panic? <==>
            (req.verb == Get && GetReply(ctx.config, ctx.files, req.url).None?) ||
            (req.verb == Post && PostResponse(req, ctx.handler, state).HandlerPanicked?))
      && (req.verb != Post ==> r.state == state)
      && (req.verb == Post ==> r.state == PostResponse(req, ctx.handler, state).state)
      && (req.verb == Get && GetReply(ctx.config, ctx.files, req.url).Some? ==>
            r == Reply(GetReply(ctx.config, ctx.files, req.url).value, false, state))
      && (req.verb == Options ==> r == Reply(HttpReply(204, [ALLOW] + ctx.config.headers, Empty), false, state))
      && (req.verb == Post && PostResponse(req, ctx.handler, state).Answer? ==>
            r.Reply? && r.reply.status == 200 && r.reply.headers == ctx.config.headers &&
            r.reply.body == JsonText(Wire.WriteResponse(PostResponse(req, ctx.handler, state).response)) &&
            r.stop == PostResponse(req, ctx.handler, state).stop)
      && (req.verb !in {Get, Options, Post} ==> r.Reply? && r.reply.status == 500 && !r.stop)
  {
  }

  /** What a receive with timeout gives the worker. */
  datatype Poll = Got(req: HttpRequest) | Timeout | RecvErr

  /** What the worker does next after one receive. */
  datatype Step = Serve(req: HttpRequest) | Repoll | Leave

  /** The poll decision at the head of each iteration of the worker loop. */
  function PollStep(p: Poll, running: bool): (s: Step)
    ensures p.Got? ==> s == Serve(p.req)
    ensures s == Leave <==> p.Timeout? && !running
    ensures p.RecvErr? ==> s == Repoll
  {
    match p
    case Got(req) => Serve(req)
    case Timeout => if running then Repoll else Leave
    case RecvErr => Repoll
  }

  /** How a run of the worker ended. */
  datatype Exit = Stopped | Panicked | Exhausted

  /**
    The result of running the worker: how many poll results it consumed, the
    replies sent so far, the running flag, the shared handler state, and how it
    ended.
  */
  datatype Progress<S> = Progress(consumed: nat, replies: seq<HttpReply>, running: bool, state: S, exit: Exit)

  /**
    The worker loop from position `i` of the poll results, with running flag
    `running`, shared handler state `state` and reply log `sent`. `Exhausted`
    means the poll results ran out before the loop ended.
  */
  function Drive<S>(ctx: Context<S>, polls: seq<Poll>, i: nat, running: bool, state: S, sent: seq<HttpReply>): (t: Progress<S>)
    requires i <= |polls|
    ensures i <= t.consumed <= |polls|
    ensures t.exit == Exhausted ==> t.consumed == |polls|
    ensures sent <= t.replies
    ensures t.running ==> running
    decreases |polls| - i
  {
    if i == |polls| then Progress(i, sent, running, state, Exhausted)
    else match PollStep(polls[i], running)
      case Leave => Progress(i + 1, sent, running, state, Stopped)
      case Repoll => Drive(ctx, polls, i + 1, running, state, sent)
      case Serve(req) =>
        match Route(ctx, state, req)
        case Panic(s) => Progress(i + 1, sent, running, s, Panicked)
        case Reply(reply, stop, s) => Drive(ctx, polls, i + 1, running && !stop, s, sent + [reply])
  }

  /** The number of received requests among `polls[lo..hi]`. */
  function Received(polls: seq<Poll>, lo: nat, hi: nat): nat
    requires lo <= hi <= |polls|
    decreases hi - lo
  {
    if lo == hi then 0 else (if polls[lo].Got? then 1 else 0) + Received(polls, lo + 1, hi)
  }

  /**
    The loop ends on its own only through a timeout observed while the running
    flag is false.
  */
  lemma {:induction false} StopsOnlyOnTimeoutAfterStop<S>(ctx: Context<S>, polls: seq<Poll>, i: nat, running: bool, state: S, sent: seq<HttpReply>)
    requires i <= |polls|
    ensures var t := Drive(ctx, polls, i, running, state, sent);
      t.exit == Stopped ==> i < t.consumed && polls[t.consumed - 1] == Timeout && !t.running
    decreases |polls| - i
  {
    if i < |polls| {
      match PollStep(polls[i], running)
      case Leave =>
      case Repoll => StopsOnlyOnTimeoutAfterStop(ctx, polls, i + 1, running, state, sent);
      case Serve(req) =>
        match Route(ctx, state, req)
        case Panic(_) =>
        case Reply(reply, stop, s) => StopsOnlyOnTimeoutAfterStop(ctx, polls, i + 1, running && !stop, s, sent + [reply]);
    }
  }

  /**
    Exactly one reply is handed to the transport per received request, except
    for a request that made the worker panic.
  */
  lemma {:induction false} OneReplyPerRequest<S>(ctx: Context<S>, polls: seq<Poll>, i: nat, running: bool, state: S, sent: seq<HttpReply>)
    requires i <= |polls|
    ensures var t := Drive(ctx, polls, i, running, state, sent);
      |t.replies| == |sent| + Received(polls, i, t.consumed) - (if t.exit == Panicked then 1 else 0)
    ensures var t := Drive(ctx, polls, i, running, state, sent);
      t.exit == Panicked ==> i < t.consumed && polls[t.consumed - 1].Got?
    decreases |polls| - i
  {
    if i < |polls| {
      match PollStep(polls[i], running)
      case Leave =>
        assert Received(polls, i + 1, i + 1) == 0;
      case Repoll =>
        OneReplyPerRequest(ctx, polls, i + 1, running, state, sent);
      case Serve(req) =>
        match Route(ctx, state, req)
        case Panic(_) =>
          assert Received(polls, i + 1, i + 1) == 0;
        case Reply(reply, stop, s) =>
          OneReplyPerRequest(ctx, polls, i + 1, running && !stop, s, sent + [reply]);
    }
  }

  /**
    While the flag stays set and nothing is received, timeouts and receive
    errors only make the worker poll again: it never leaves, sends nothing and
    leaves the shared state alone.
  */
  lemma {:induction false} IdleWhileRunning<S>(ctx: Context<S>, polls: seq<Poll>, i: nat, state: S, sent: seq<HttpReply>)
    requires i <= |polls|
    requires forall j | i <= j < |polls| :: !polls[j].Got?
    ensures Drive(ctx, polls, i, true, state, sent) == Progress(|polls|, sent, true, state, Exhausted)
    decreases |polls| - i
  {
    if i < |polls| {
      IdleWhileRunning(ctx, polls, i + 1, state, sent);
    }
  }

  /**
    Once the flag is clear, the worker leaves at the first timeout (still
    answering every request received before it), unless a request made it
    panic first.
  */
  lemma {:induction false} DrainsAfterStop<S>(ctx: Context<S>, polls: seq<Poll>, i: nat, k: nat, state: S, sent: seq<HttpReply>)
    requires i <= k < |polls| && polls[k] == Timeout
    requires forall j | i <= j < k :: polls[j] != Timeout
    ensures var t := Drive(ctx, polls, i, false, state, sent);
      (t.exit == Stopped && t.consumed == k + 1) || (t.exit == Panicked && t.consumed <= k)
    decreases k - i
  {
    if i < k {
      match PollStep(polls[i], false)
      case Leave =>
      case Repoll => DrainsAfterStop(ctx, polls, i + 1, k, state, sent);
      case Serve(req) =>
        match Route(ctx, state, req)
        case Panic(_) =>
        case Reply(reply, stop, s) => DrainsAfterStop(ctx, polls, i + 1, k, s, sent + [reply]);
    }
  }

  /**
    Only POST requests reach the user handler: a run in which no POST is
    received ends with the shared state it started with.
  */
  lemma {:induction false} StateOnlyChangedByPost<S>(ctx: Context<S>, polls: seq<Poll>, i: nat, running: bool, state: S, sent: seq<HttpReply>)
    requires i <= |polls|
    requires forall j | i <= j < |polls| :: polls[j].Got? ==> polls[j].req.verb != Post
    ensures Drive(ctx, polls, i, running, state, sent).state == state
    decreases |polls| - i
  {
    if i < |polls| {
      match PollStep(polls[i], running)
      case Leave =>
      case Repoll => StateOnlyChangedByPost(ctx, polls, i + 1, running, state, sent);
      case Serve(req) =>
        RouteByVerb(ctx, state, req);
        match Route(ctx, state, req)
        case Panic(_) =>
        case Reply(reply, stop, s) => StateOnlyChangedByPost(ctx, polls, i + 1, running && !stop, s, sent + [reply]);
    }
  }

  /** `s` in reverse order. */
  function Reversed<T>(s: seq<T>): (r: seq<T>)
    ensures |r| == |s|
    ensures forall k | 0 <= k < |s| :: r[k] == s[|s| - 1 - k]
  {
    if s == [] then [] else [s[|s| - 1]] + Reversed(s[..|s| - 1])
  }

  /** Adding headers one by one to a reply that already carries `base`. */
  method AppendHeaders(base: seq<Header>, extra: seq<Header>) returns (hs: seq<Header>)
    ensures hs == base + extra
  {
    hs := base;
    for k := 0 to |extra|
      invariant hs == base + extra[..k]
    {
      hs := hs + [extra[k]];
    }
    assert extra[..|extra|] == extra;
  }

  /**
    `JsonRpcServer`: the shared running flag, the worker thread handles, and the
    state behind the `Arc<Mutex<T>>` every worker hands to the user handler.
  */
  class JsonRpcServer<!S, H> {
    const ctx: Context<S>
    var running: bool
    var handles: seq<H>
    /** What the shared `Mutex` holds; only the user handler changes it. */
    var state: S
    /** The handles joined so far, in the order they were joined. */
    ghost var joined: seq<H>
    /** The replies handed to the transport so far, in order. */
    ghost var sent: seq<HttpReply>

    /**
      A running server whose workers share the handler state `state` and have
      the handles `spawned`, in spawn order.
    */
    constructor (ctx: Context<S>, state: S, spawned: seq<H>)
      ensures this.ctx == ctx && this.state == state && running && handles == spawned
      ensures joined == [] && sent == []
    {
      this.ctx := ctx;
      this.state := state;
      running := true;
      handles := spawned;
      joined := [];
      sent := [];
    }

    /** `stop`: clears the flag and nothing else, so a second call changes nothing. */
    method Stop()
      modifies this`running
      ensures !running
    {
      running := false;
    }

    /** `is_running`. */
    method IsRunning() returns (b: bool)
      ensures b == running
    {
      b := running;
    }

    /**
      `join_threads`: pops handles until none is left, joining each once, last
      pushed first. Called again it finds nothing to join.
    */
    method JoinThreads()
      modifies this`handles, this`joined
      ensures handles == []
      ensures joined == old(joined) + Reversed(old(handles))
    {
      while handles != []
        invariant joined + Reversed(handles) == old(joined) + Reversed(old(handles))
        decreases |handles|
      {
        var handle := handles[|handles| - 1];
        handles := handles[..|handles| - 1];
        joined := joined + [handle];
      }
    }

    /**
      One received request: route it by verb, send exactly one reply (unless the
      worker panics), clear the running flag when the handler asked to stop, and
      keep the shared state the handler left behind.
    */
    method Respond(req: HttpRequest) returns (panicked: bool)
      modifies this`running, this`sent, this`state
      ensures panicked <==> Route(ctx, old(state), req).Panic?
      ensures state == Route(ctx, old(state), req).state
      ensures panicked ==> sent == old(sent) && running == old(running)
      ensures !panicked ==> sent == old(sent) + [Route(ctx, old(state), req).reply]
      ensures !panicked ==> running == (old(running) && !Route(ctx, old(state), req).stop)
    {
      panicked := false;
      match req.verb
      case Get =>
        var r := GetReply(ctx.config, ctx.files, req.url);
        if r.None? {
          panicked := true;
          return;
        }
        sent := sent + [r.value];
      case Options =>
        var hs := AppendHeaders([ALLOW], ctx.config.headers);
        sent := sent + [HttpReply(204, hs, Empty)];
      case Post =>
        var o := PostResponse(req, ctx.handler, state);
        state := o.state;
        if o.HandlerPanicked? {
          panicked := true;
          return;
        }
        if o.stop {
          running := false;
        }
        var hs := AppendHeaders([], ctx.config.headers);
        assert hs == ctx.config.headers;
        sent := sent + [HttpReply(200, hs, JsonText(Wire.WriteResponse(o.response)))];
      case _ =>
        sent := sent + [HttpReply(500, [], Text(NotImplementedMessage(req.verb)))];
    }

    /**
      The worker loop over the poll results `polls`: it ends when a timeout finds
      the flag clear, when the worker panics, or when the poll results run out.
    */
    method Run(polls: seq<Poll>) returns (consumed: nat, exit: Exit)
      modifies this`running, this`sent, this`state
      ensures Drive(ctx, polls, 0, old(running), old(state), old(sent)) == Progress(consumed, sent, running, state, exit)
    {
      var i := 0;
      while i < |polls|
        invariant i <= |polls|
        invariant Drive(ctx, polls, 0, old(running), old(state), old(sent)) == Drive(ctx, polls, i, running, state, sent)
        decreases |polls| - i
      {
        match PollStep(polls[i], running)
        case Leave =>
          return i + 1, Stopped;
        case Repoll =>
          i := i + 1;
        case Serve(req) =>
          var panicked := Respond(req);
          if panicked {
            return i + 1, Panicked;
          }
          i := i + 1;
      }
      return |polls|, Exhausted;
    }
  }

  /**
    The shutdown a client performs (`stop` then `join_threads`), done twice: the
    second round changes nothing.
  */
  method Shutdown<S, H>(server: JsonRpcServer<S, H>)
    modifies server
    ensures !server.running && server.handles == []
    ensures server.joined == old(server.joined) + Reversed(old(server.handles))
    ensures server.sent == old(server.sent) && server.state == old(server.state)
  {
    server.Stop();
    server.JoinThreads();
    server.Stop();
    server.JoinThreads();
  }
}
