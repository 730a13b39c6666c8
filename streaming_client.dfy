/** The v3 streaming client (assemblyai/streaming/v3/client.py). The pure part
    classifies inbound messages and normalises errors; the class keeps the
    handler table, the outbound FIFO, the stop flag and the socket, and the two
    pump loops are modelled one iteration at a time: a write step dequeues one
    item and sends one frame, a read step consumes one received frame. What the
    transport does (a frame, a timeout, a close) is a parameter of each step.
    Handlers are opaque ids; every handler call is appended to a log. */
module StreamingClient {
  import opened Wrappers
  import opened Json
  import opened StreamingModels

  type HandlerId = nat

  /** What a handler is called with, and whether the stop flag was already set at the time. */
  datatype CallArg = EventArg(event: EventMessage) | ErrorArg(error: StreamingError)
  datatype Call = Call(handler: HandlerId, arg: CallArg, stopSetBefore: bool)

  /** An item of the outbound queue: an operation, or any other object a caller
      streamed (it is rejected when the write pump reaches it). */
  datatype QueueItem = Op(op: OperationMessage) | Unsendable

  /** A websocket frame the client sends: raw audio, or the JSON text of a control message. */
  datatype Frame = BinaryFrame(data: seq<byte>) | TextFrame(json: Value)

  /** A `ConnectionClosed`: its close code and reason, and its own string form. */
  datatype CloseInfo = CloseInfo(code: int, reason: string, text: string)
  datatype ErrorSource = ServerError(event: ErrorEvent) | ConnectionClosed(close: CloseInfo)

  /** One attempt to receive: a timeout, a close, a frame that is not JSON, or a decoded frame. */
  datatype Incoming = RecvTimeout | RecvClosed(close: CloseInfo) | Undecodable | Received(json: Value)
  datatype SendOutcome = Sent | SendClosed(close: CloseInfo)
  datatype ConnectOutcome = Opened | HandshakeClosed(close: CloseInfo)

  datatype Socket = NoSocket | Open | Closed

  // ---------------------------------------------------------------- classification

  /** `_parse_event_type`: only a string naming a member gives that member. */
  function ParseEventType(v: Value): (r: Option<StreamingEvents>)
    ensures !v.Str? ==> r == None
    ensures v.Str? ==> (r.Some? <==> v.s in {"Begin", "Termination", "Turn", "Error"})
    ensures r.Some? ==> Name(r.value) == v.s
  {
    if v.Str? then Lookup(v.s) else None
  }

  datatype Parsed = Parsed(m: EventMessage) | Unsupported | ParseFailed(exc: Exception)

  /** `_parse_message` on whatever `json.loads` returned, with Python's `in` and `.get`. */
  function ParseMessage(v: Value): (r: Parsed)
    ensures r.Parsed? ==> v.Obj?
    ensures v.Obj? && "type" in v.fields ==> !(r.Parsed? && r.m.ErrorMessage?)
    ensures v.Obj? && "type" in v.fields && r.Parsed? ==> v.fields["type"] == Str(Name(KindOf(r.m)))
    ensures v.Obj? && "type" in v.fields ==>
      (r == Unsupported <==> ParseEventType(v.fields["type"]) in {None, Some(Error)})
    ensures v.Obj? && "type" !in v.fields && "error" in v.fields ==>
      r == (if v.fields["error"].Str? then Parsed(ErrorMessage(ErrorEvent(v.fields["error"].s))) else ParseFailed(ValidationError))
    ensures v.Obj? && "type" !in v.fields && "error" !in v.fields ==> r == Unsupported
    ensures r.Parsed? && r.m.BeginMessage? ==> ValidateBegin(v.fields) == Some(r.m.begin)
    ensures r.Parsed? && r.m.TerminationMessage? ==> ValidateTermination(v.fields) == Some(r.m.termination)
    ensures r.Parsed? && r.m.TurnMessage? ==> ValidateTurn(v.fields) == Some(r.m.turn)
    ensures (v.Null? || v.Bool? || v.Int? || v.Real?) ==> r == ParseFailed(TypeError)
  {
    match Contains(v, "type")
    case Raised(e) => ParseFailed(e)
    case Ok(true) =>
      if !v.Obj? then ParseFailed(AttributeError)  // a list or string has no `.get`
      else ParseTyped(v.fields)
    case Ok(false) =>
      match Contains(v, "error")
      case Ok(true) =>
        (match ValidateError(v) case Some(e) => Parsed(ErrorMessage(e)) case None => ParseFailed(ValidationError))
      case _ => Unsupported
  }

  /** The typed branch of `_parse_message`: the `type` value picks the model to validate against. */
  function ParseTyped(d: map<string, Value>): Parsed {
    match ParseEventType(Get(d, "type"))
    case Some(Begin) =>
      (match ValidateBegin(d) case Some(b) => Parsed(BeginMessage(b)) case None => ParseFailed(ValidationError))
    case Some(Termination) =>
      (match ValidateTermination(d) case Some(t) => Parsed(TerminationMessage(t)) case None => ParseFailed(ValidationError))
    case Some(Turn) =>
      (match ValidateTurn(d) case Some(t) => Parsed(TurnMessage(t)) case None => ParseFailed(ValidationError))
    case _ => Unsupported
  }

  /** Every event the service sends is classified as itself. */
  lemma ParseMessageRoundTrip(m: EventMessage)
    ensures ParseMessage(Obj(EventFields(m))) == Parsed(m)
  {
    match m
    case BeginMessage(b) => BeginRoundTrip(b);
    case TerminationMessage(t) => TerminationRoundTrip(t);
    case TurnMessage(t) => TurnRoundTrip(t);
    case ErrorMessage(e) => ErrorRoundTrip(e);
  }

  /** "type" is looked at before "error": a message with both is never an error event. */
  lemma TypeBeforeError(d: map<string, Value>)
    requires "type" in d && "error" in d && d["error"].Str?
    ensures ParseMessage(Obj(d)) != Parsed(ErrorMessage(ErrorEvent(d["error"].s)))
  {
  }

  /** A close code in the private-use range of section 7.4.2 of RFC 6455 that the table knows. */
  predicate KnownCloseCode(code: int) {
    4000 <= code <= 4999 && code in StreamingErrorCodes
  }

  /** The text a normal close is reported with. */
  const UnknownErrorPrefix: string := "Unknown error: "

  /** `_parse_error`. */
  function ParseError(src: ErrorSource): (r: StreamingError)
    ensures src.ServerError? ==> r == StreamingError(src.event.error, None)
    ensures src.ConnectionClosed? && src.close.code != 1000 ==> r.code == Some(src.close.code)
    ensures src.ConnectionClosed? && src.close.code != 1000 && KnownCloseCode(src.close.code) ==>
      r.message == StreamingErrorCodes[src.close.code]
    ensures src.ConnectionClosed? && src.close.code != 1000 && !KnownCloseCode(src.close.code) ==>
      r.message == src.close.reason
    ensures src.ConnectionClosed? && src.close.code == 1000 ==> r == StreamingError(UnknownErrorPrefix + src.close.text, None)
  {
    match src
    case ServerError(e) => StreamingError(e.error, None)
    case ConnectionClosed(c) =>
      var message := if KnownCloseCode(c.code) then StreamingErrorCodes[c.code] else c.reason;
      if c.code != 1000 then StreamingError(message, Some(c.code))
      else StreamingError(UnknownErrorPrefix + c.text, None)
  }

  /** A normalised error carries a code exactly when it comes from a close other than 1000;
      the one table code outside the private-use range, 1013, still reports the close reason. */
  lemma ParseErrorCodes(src: ErrorSource)
    ensures ParseError(src).code.Some? <==> src.ConnectionClosed? && src.close.code != 1000
    ensures src.ConnectionClosed? && src.close.code == 1013 ==> ParseError(src).message == src.close.reason
  {
  }

  // ---------------------------------------------------------------- the read decision

  /** What one read iteration does with a decoded frame. */
  datatype Action = Dispatch(m: EventMessage) | ReportError(e: ErrorEvent) | Skip | Crash(exc: Exception)

  /** `message_json['type']` in the warning for an unsupported message. */
  function TypeSubscript(v: Value): Result<Value> {
    match v
    case Obj(m) => if "type" in m then Ok(m["type"]) else Raised(KeyError)
    case _ => Raised(TypeError)
  }

  /** The read iteration as written: an unsupported message is logged with its
      `type`, which raises when there is none. */
  function ReadActionAsWritten(v: Value): Action {
    match ParseMessage(v)
    case ParseFailed(e) => Crash(e)
    case Parsed(ErrorMessage(e)) => ReportError(e)
    case Parsed(m) => Dispatch(m)
    case Unsupported => if TypeSubscript(v).Raised? then Crash(TypeSubscript(v).exc) else Skip
  }

  /** A message with neither "type" nor "error" ends the read pump with a KeyError
      instead of being logged and skipped. */
  lemma UntypedMessageCrashesAsWritten()
    ensures ReadActionAsWritten(Obj(map[])) == Crash(KeyError)
    ensures ReadActionAsWritten(Obj(map["message" := Str("hello")])) == Crash(KeyError)
  {
  }

  /** The read iteration with the warning made safe: only a message that fails to
      parse can end the pump. This is the decision the read step uses. */
  function ReadAction(v: Value): (r: Action)
    ensures r.Crash? <==> ParseMessage(v).ParseFailed?
    ensures r.Skip? <==> ParseMessage(v).Unsupported?
    ensures r.Dispatch? ==> ParseMessage(v) == Parsed(r.m) && !r.m.ErrorMessage?
    ensures r.ReportError? ==> ParseMessage(v) == Parsed(ErrorMessage(r.e))
  {
    match ParseMessage(v)
    case ParseFailed(e) => Crash(e)
    case Parsed(ErrorMessage(e)) => ReportError(e)
    case Parsed(m) => Dispatch(m)
    case Unsupported => Skip
  }

  /** The two read decisions differ exactly on unsupported messages that have no "type" key. */
  lemma ReadActionsAgree(v: Value)
    ensures ReadActionAsWritten(v) != ReadAction(v) <==> ParseMessage(v).Unsupported? && TypeSubscript(v).Raised?
  {
  }

  // ---------------------------------------------------------------- frames and calls

  function FrameOf(op: OperationMessage): (f: Frame)
    ensures op.Audio? <==> f.BinaryFrame?
    ensures op.Audio? ==> f.data == op.data
    ensures !op.Audio? ==> f == TextFrame(OperationJson(op))
  {
    if op.Audio? then BinaryFrame(op.data) else TextFrame(OperationJson(op))
  }

  predicate AllSendable(items: seq<QueueItem>) {
    forall i :: 0 <= i < |items| ==> items[i].Op?
  }

  /** The frames a run of queue items is sent as, one each, in order. */
  function Frames(items: seq<QueueItem>): (r: seq<Frame>)
    requires AllSendable(items)
    ensures |r| == |items|
  {
    if items == [] then [] else Frames(items[..|items| - 1]) + [FrameOf(items[|items| - 1].op)]
  }

  /** The `k`th frame sent is the frame of the `k`th item taken: nothing is reordered, dropped or duplicated. */
  lemma {:induction false} FramesAt(items: seq<QueueItem>, k: nat)
    requires AllSendable(items) && k < |items|
    ensures Frames(items)[k] == FrameOf(items[k].op)
    decreases |items|
  {
    if k < |items| - 1 {
      FramesAt(items[..|items| - 1], k);
    }
  }

  /** The write loop moves the head of what is left to the end of what is done. */
  lemma DrainAdvance(all: seq<QueueItem>, done: seq<QueueItem>, rest: seq<QueueItem>)
    requires all == done + rest && rest != []
    ensures all == (done + [rest[0]]) + rest[1..]
    ensures !rest[0].Op? ==> !AllSendable(all)
  {
    assert all[|done|] == rest[0];
  }

  lemma FramesSnoc(items: seq<QueueItem>, item: QueueItem)
    requires AllSendable(items) && item.Op?
    ensures AllSendable(items + [item]) && Frames(items + [item]) == Frames(items) + [FrameOf(item.op)]
  {
    assert (items + [item])[..|items|] == items;
  }

  /** The log entries of calling every handler of a list once with the same argument. */
  function CallsFor(hs: seq<HandlerId>, arg: CallArg, stopSet: bool): (r: seq<Call>)
    ensures |r| == |hs|
    ensures forall i :: 0 <= i < |hs| ==> r[i] == Call(hs[i], arg, stopSet)
  {
    if hs == [] then [] else [Call(hs[0], arg, stopSet)] + CallsFor(hs[1..], arg, stopSet)
  }

  // ---------------------------------------------------------------- connect request

  const ApiVersion: string := "2025-05-12"
  const OpenTimeout: int := 15

  datatype ConnectRequest = ConnectRequest(uri: string, headers: map<string, Option<string>>, openTimeout: int)

  /** The Authorization header: the token when it is truthy, otherwise the API key (possibly None). */
  function Authorization(o: StreamingClientOptions): (r: Option<string>)
    ensures o.token.Some? && o.token.value != "" ==> r == o.token
    ensures (o.token.None? || o.token.value == "") ==> r == o.apiKey
  {
    if o.token.Some? && o.token.value != "" then o.token else o.apiKey
  }

  /** The handshake `connect` makes; `urlencode` and the user-agent string are given. */
  function Request(o: StreamingClientOptions, p: StreamingParameters, userAgent: string,
                   urlencode: seq<(string, Value)> -> string): (r: ConnectRequest)
    ensures r.uri == "wss://" + o.apiHost + "/v3/ws?" + urlencode(ParameterPairs(p))
    ensures r.headers.Keys == {"Authorization", "User-Agent", "AssemblyAI-Version"}
    ensures r.headers["Authorization"] == Authorization(o)
    ensures r.headers["AssemblyAI-Version"] == Some(ApiVersion) && r.headers["User-Agent"] == Some(userAgent)
    ensures r.openTimeout == 15
  {
    ConnectRequest("wss://" + o.apiHost + "/v3/ws?" + urlencode(ParameterPairs(p)),
      map["Authorization" := Authorization(o), "User-Agent" := Some(userAgent), "AssemblyAI-Version" := Some(ApiVersion)],
      OpenTimeout)
  }

  // ---------------------------------------------------------------- the client

  /** A snapshot of the client's fields, so that each method can state its whole new state. */
  datatype ClientState = ClientState(
    handlers: map<StreamingEvents, seq<HandlerId>>,
    queue: seq<QueueItem>,
    stopped: bool,
    socket: Socket,
    started: bool,
    readRunning: bool,
    writeRunning: bool,
    request: Option<ConnectRequest>,
    sent: seq<Frame>,
    calls: seq<Call>,
    readFailure: Option<Exception>,
    writeFailure: Option<Exception>,
    enqueued: seq<QueueItem>,
    taken: seq<QueueItem>)

  class Client {
    const options: StreamingClientOptions
    /** The handlers registered per event kind, in registration order. */
    var handlers: map<StreamingEvents, seq<HandlerId>>
    /** The outbound FIFO shared by the callers and the write pump. */
    var queue: seq<QueueItem>
    /** The stop event: set by a Termination message, it ends both pumps. */
    var stopped: bool
    var socket: Socket
    /** Whether the pump threads were started (they can be started once). */
    var started: bool
    var readRunning: bool
    var writeRunning: bool
    var request: Option<ConnectRequest>
    /** Every frame the write pump has sent, oldest first. */
    var sent: seq<Frame>
    /** Every handler call, oldest first. */
    var calls: seq<Call>
    /** The exception that ended a pump, if one did. */
    var readFailure: Option<Exception>
    var writeFailure: Option<Exception>
    /** Everything ever put on the queue, and everything the write pump took off it. */
    ghost var enqueued: seq<QueueItem>
    ghost var taken: seq<QueueItem>

    ghost function State(): ClientState
      reads this
    {
      ClientState(handlers, queue, stopped, socket, started, readRunning, writeRunning, request,
                  sent, calls, readFailure, writeFailure, enqueued, taken)
    }

    /** The fields the write pump leaves alone while every send succeeds. */
    ghost function Untouched(): (map<StreamingEvents, seq<HandlerId>>, bool, Socket, bool, bool, Option<ConnectRequest>, seq<Call>, Option<Exception>, seq<QueueItem>)
      reads this
    {
      (handlers, stopped, socket, started, readRunning, request, calls, readFailure, enqueued)
    }

    /** Every event kind has a handler list, the queue is FIFO and the pumps run only on an open socket. */
    ghost predicate Valid()
      reads this
    {
      && (forall e :: e in handlers)
      && Fifo(enqueued, taken, queue, sent, writeRunning)
      && (readRunning || writeRunning ==> started && socket == Open)
      && (!started ==> taken == [] && sent == [])
    }

    /** `StreamingClient(options)`: an empty handler list per event kind, an empty queue. */
    constructor (options: StreamingClientOptions)
      ensures Valid() && this.options == options
      ensures handlers == EmptyHandlers()
      ensures queue == [] && !stopped && socket == NoSocket && !started && !readRunning && !writeRunning
      ensures request == None && sent == [] && calls == [] && readFailure == None && writeFailure == None
      ensures enqueued == [] && taken == []
    {
      this.options := options;
      handlers := EmptyHandlers();
      queue, stopped, socket, started := [], false, NoSocket, false;
      readRunning, writeRunning, request := false, false, None;
      sent, calls, readFailure, writeFailure := [], [], None, None;
      enqueued, taken := [], [];
    }

    /** `on(event, handler)`: `event` is None for a value that is not a member,
        `handler` is None for a value that is not callable. */
    method On(event: Option<StreamingEvents>, handler: Option<HandlerId>)
      requires Valid()
      modifies this
      ensures Valid()
      ensures event.Some? && handler.Some? ==>
        State() == old(State()).(handlers := old(handlers)[event.value := old(handlers)[event.value] + [handler.value]])
      ensures event.None? || handler.None? ==> State() == old(State())
    {
      if event.Some? && handler.Some? {
        handlers := handlers[event.value := handlers[event.value] + [handler.value]];
      }
    }

    method Put(item: QueueItem)
      requires Valid()
      modifies this
      ensures Valid()
      ensures State() == old(State()).(queue := old(queue) + [item], enqueued := old(enqueued) + [item])
    {
      FifoPut(enqueued, taken, queue, sent, writeRunning, item);
      queue := queue + [item];
      enqueued := enqueued + [item];
    }

    /** `stream(data)` with a single `bytes` object: it is queued whole. */
    method StreamBytes(data: seq<byte>)
      requires Valid()
      modifies this
      ensures Valid()
      ensures State() == old(State()).(queue := old(queue) + [Op(Audio(data))], enqueued := old(enqueued) + [Op(Audio(data))])
    {
      Put(Op(Audio(data)));
    }

    /** `stream(data)` with an iterable: every chunk is queued, in order. */
    method Stream(chunks: seq<QueueItem>)
      requires Valid()
      modifies this
      ensures Valid()
      ensures State() == old(State()).(queue := old(queue) + chunks, enqueued := old(enqueued) + chunks)
    {
      var i := 0;
      while i < |chunks|
        invariant 0 <= i <= |chunks|
        invariant Valid()
        invariant State() == old(State()).(queue := old(queue) + chunks[..i], enqueued := old(enqueued) + chunks[..i])
      {
        Put(chunks[i]);
        assert chunks[..i + 1] == chunks[..i] + [chunks[i]];
        i := i + 1;
      }
      assert chunks[..i] == chunks;
    }

    /** `set_params(params)`: an UpdateConfiguration with the same parameters is queued. */
    method SetParams(p: SessionParameters)
      requires Valid()
      modifies this
      ensures Valid()
      ensures State() == old(State()).(queue := old(queue) + [Op(UpdateConfiguration(p))],
                                       enqueued := old(enqueued) + [Op(UpdateConfiguration(p))])
    {
      Put(Op(UpdateConfiguration(p)));
    }

    /** `force_endpoint()`. */
    method ForceEndpoint()
      requires Valid()
      modifies this
      ensures Valid()
      ensures State() == old(State()).(queue := old(queue) + [Op(StreamingModels.ForceEndpoint)],
                                       enqueued := old(enqueued) + [Op(StreamingModels.ForceEndpoint)])
    {
      Put(Op(StreamingModels.ForceEndpoint));
    }

    /** `connect(params)`: the request is built; a close during the handshake goes to
        error handling, whose `disconnect()` runs on the calling thread: before any start
        its join raises and nothing changes, after an earlier start it waits for both
        pumps (`returned` is false while it would still wait) and then closes the socket
        of the earlier connection. Otherwise both pumps start, which raises RuntimeError
        when they were started before. */
    method Connect(p: StreamingParameters, userAgent: string, urlencode: seq<(string, Value)> -> string,
                   outcome: ConnectOutcome) returns (raised: Option<Exception>, returned: bool)
      requires Valid()
      modifies this
      ensures Valid()
      ensures outcome.HandshakeClosed? ==>
        raised == None && returned == (!readRunning && !writeRunning) &&
        State() == old(State()).(calls := old(calls) + ErrorCalls(old(handlers), ConnectionClosed(outcome.close), old(stopped)),
                                 socket := if returned && old(started) && old(socket) == Open then Closed else old(socket))
      ensures outcome.HandshakeClosed? && !old(started) ==> returned && State().socket == old(socket)
      ensures outcome.Opened? && !old(started) ==>
        raised == None && returned && State() == old(State()).(request := Some(Request(options, p, userAgent, urlencode)),
                                                    socket := Open, started := true, readRunning := true, writeRunning := true)
      ensures outcome.Opened? && old(started) ==>
        raised == Some(RuntimeError) && returned && State() == old(State()).(request := Some(Request(options, p, userAgent, urlencode)), socket := Open)
    {
      raised, returned := None, true;
      match outcome
      case HandshakeClosed(c) =>
        HandleError(ConnectionClosed(c));
        returned := Disconnect(false);
      case Opened =>
        raised := StartPumps(Request(options, p, userAgent, urlencode));
    }

    /** The handshake succeeded: the socket is open and both pumps start, unless they already were. */
    method StartPumps(req: ConnectRequest) returns (raised: Option<Exception>)
      requires Valid()
      modifies this
      ensures Valid()
      ensures !old(started) ==>
        raised == None && State() == old(State()).(request := Some(req), socket := Open, started := true,
                                                    readRunning := true, writeRunning := true)
      ensures old(started) ==> raised == Some(RuntimeError) && State() == old(State()).(request := Some(req), socket := Open)
    {
      raised := None;
      request := Some(req);
      socket := Open;
      if started {
        raised := Some(RuntimeError);
      } else {
        started, readRunning, writeRunning := true, true, true;
      }
    }

    /** `disconnect(terminate)`: a TerminateSession is queued when asked for and the
        stop flag is unset; then the call waits for both pumps and closes the socket.
        `returned` is false while a pump is still running (the call is still waiting);
        calling again with `terminate == false` continues the wait. When the pumps
        were never started, the join raises and the exception is swallowed: nothing is closed. */
    method Disconnect(terminate: bool) returns (returned: bool)
      requires Valid()
      modifies this
      ensures Valid()
      ensures returned == (!readRunning && !writeRunning)
      ensures var item := if terminate && !old(stopped) then [Op(TerminateSession)] else [];
        State() == old(State()).(queue := old(queue) + item, enqueued := old(enqueued) + item,
                                 socket := if returned && old(started) && old(socket) == Open then Closed else old(socket))
    {
      if terminate && !stopped {
        Put(Op(TerminateSession));
      }
      returned := !readRunning && !writeRunning;
      if returned && started && socket == Open {
        socket := Closed;
      }
    }

    /** `_handle_error`: every Error handler is called with the normalised error. The
        `disconnect()` that follows is the caller's: on a pump thread the join of that
        thread raises and is swallowed before the socket is closed, so it changes nothing;
        `Connect` runs it on the calling thread. */
    method HandleError(src: ErrorSource)
      requires Valid()
      modifies this
      ensures Valid()
      ensures State() == old(State()).(calls := old(calls) + ErrorCalls(old(handlers), src, old(stopped)))
    {
      calls := calls + CallsFor(handlers[Error], ErrorArg(ParseError(src)), stopped);
    }

    /** `_handle_message`: a Termination sets the stop flag first; then every handler
        of the message's kind is called once, in registration order. */
    method HandleMessage(m: EventMessage)
      requires Valid() && !m.ErrorMessage?
      modifies this
      ensures Valid()
      ensures State() == old(State()).(stopped := old(stopped) || m.TerminationMessage?,
                                       calls := old(calls) + CallsFor(old(handlers)[KindOf(m)], EventArg(m), old(stopped) || m.TerminationMessage?))
    {
      if m.TerminationMessage? {
        stopped := true;
      }
      calls := calls + CallsFor(handlers[KindOf(m)], EventArg(m), stopped);
    }

    /** One iteration of `_read_message`: once the stop flag is set the pump ends;
        a timeout or a frame that is not JSON changes nothing; a close goes to error
        handling and ends the pump; a decoded message is handled as `ReadAction` decides. */
    method ReadStep(incoming: Incoming)
      requires Valid() && readRunning
      modifies this
      ensures Valid()
      ensures old(stopped) ==> State() == old(State()).(readRunning := false)
      ensures !old(stopped) && (incoming.RecvTimeout? || incoming.Undecodable?) ==> State() == old(State())
      ensures !old(stopped) && incoming.RecvClosed? ==>
        State() == old(State()).(readRunning := false,
                                 calls := old(calls) + ErrorCalls(old(handlers), ConnectionClosed(incoming.close), old(stopped)))
      ensures !old(stopped) && incoming.Received? ==> ReadEffect(old(State()), ReadAction(incoming.json), State())
    {
      if stopped {
        readRunning := false;
        return;
      }
      match incoming
      case RecvTimeout =>
      case Undecodable =>
      case RecvClosed(c) =>
        readRunning := false;
        HandleError(ConnectionClosed(c));
      case Received(v) =>
        match ReadAction(v)
        case Crash(e) =>
          readRunning := false;
          readFailure := Some(e);
        case ReportError(e) =>
          HandleError(ServerError(e));
        case Dispatch(m) =>
          HandleMessage(m);
        case Skip =>
    }

    /** One iteration of `_write_message`. */
    method WriteStep(outcome: SendOutcome)
      requires Valid() && writeRunning
      modifies this
      ensures Valid()
      ensures old(stopped) ==> State() == old(State()).(writeRunning := false)
      ensures !old(stopped) && old(queue) == [] ==> State() == old(State())
      ensures !old(stopped) && old(queue) != [] && old(queue[0]).Unsendable? ==>
        State() == old(State()).(queue := old(queue[1..]), taken := old(taken) + [old(queue[0])],
                                 writeRunning := false, writeFailure := Some(ValueError))
      ensures !old(stopped) && old(queue) != [] && old(queue[0]).Op? && outcome.Sent? ==>
        State() == old(State()).(queue := old(queue[1..]), taken := old(taken) + [old(queue[0])],
                                 sent := old(sent) + [FrameOf(old(queue[0]).op)])
      ensures !old(stopped) && old(queue) != [] && old(queue[0]).Op? && outcome.SendClosed? ==>
        State() == old(State()).(queue := old(queue[1..]), taken := old(taken) + [old(queue[0])], writeRunning := false,
                                 calls := old(calls) + ErrorCalls(old(handlers), ConnectionClosed(outcome.close), old(stopped)))
    {
      if stopped {
        writeRunning := false;
      } else if queue != [] {
        if queue[0].Unsendable? {
          RejectHead();
        } else if outcome.Sent? {
          SendHead();
        } else {
          LoseHead(outcome.close);
        }
      }
    }

    /** The head is neither bytes nor a model: ValueError ends the write pump. */
    method RejectHead()
      requires Valid() && writeRunning && queue != [] && queue[0].Unsendable?
      modifies this
      ensures Valid()
      ensures State() == old(State()).(queue := old(queue[1..]), taken := old(taken) + [old(queue[0])],
                                       writeRunning := false, writeFailure := Some(ValueError))
    {
      FifoTake(enqueued, taken, queue, sent);
      taken := taken + [queue[0]];
      queue := queue[1..];
      writeRunning := false;
      writeFailure := Some(ValueError);
    }

    /** The head is sent as its frame. */
    method SendHead()
      requires Valid() && writeRunning && queue != [] && queue[0].Op?
      modifies this
      ensures Valid()
      ensures State() == old(State()).(queue := old(queue[1..]), taken := old(taken) + [old(queue[0])],
                                       sent := old(sent) + [FrameOf(old(queue[0]).op)])
    {
      FifoSend(enqueued, taken, queue, sent);
      sent := sent + [FrameOf(queue[0].op)];
      taken := taken + [queue[0]];
      queue := queue[1..];
    }

    /** Sending the head meets a closed connection: error handling, and the write pump ends. */
    method LoseHead(close: CloseInfo)
      requires Valid() && writeRunning && queue != [] && queue[0].Op?
      modifies this
      ensures Valid()
      ensures State() == old(State()).(queue := old(queue[1..]), taken := old(taken) + [old(queue[0])], writeRunning := false,
                                       calls := old(calls) + ErrorCalls(old(handlers), ConnectionClosed(close), old(stopped)))
    {
      FifoTake(enqueued, taken, queue, sent);
      taken := taken + [queue[0]];
      queue := queue[1..];
      writeRunning := false;
      HandleError(ConnectionClosed(close));
    }

    /** The write loop while every send succeeds: it runs until the queue is empty,
        and what was queued is sent in queue order. */
    method DrainQueue()
      requires Valid() && writeRunning && !stopped
      modifies this
      ensures Valid()
      ensures AllSendable(old(queue)) ==>
        State() == old(State()).(queue := [], taken := old(taken) + old(queue), sent := old(sent) + Frames(old(queue)))
      ensures !AllSendable(old(queue)) ==> !writeRunning && writeFailure == Some(ValueError)
    {
      ghost var q0, t0, s0, f0, u0 := queue, taken, sent, writeFailure, Untouched();
      ghost var done: seq<QueueItem> := [];
      while queue != [] && writeRunning
        invariant Valid() && !stopped && Untouched() == u0
        invariant writeRunning ==> q0 == done + queue && AllSendable(done)
        invariant writeRunning ==> taken == t0 + done && sent == s0 + Frames(done) && writeFailure == f0
        invariant !writeRunning ==> !AllSendable(q0) && writeFailure == Some(ValueError)
        decreases |queue|
      {
        var head := queue[0];
        DrainAdvance(q0, done, queue);
        if head.Op? {
          FramesSnoc(done, head);
        }
        DrainOne();
        done := done + [head];
      }
      if writeRunning {
        assert queue == [] && done == q0;
      }
    }

    /** One iteration of the write loop whose send succeeds. */
    method DrainOne()
      requires Valid() && writeRunning && !stopped && queue != []
      modifies this
      ensures Valid() && !stopped && Untouched() == old(Untouched())
      ensures queue == old(queue[1..])
      ensures old(queue[0]).Op? ==>
        writeRunning && taken == old(taken) + [old(queue[0])] && sent == old(sent) + [FrameOf(old(queue[0]).op)]
      ensures old(queue[0]).Op? ==> writeFailure == old(writeFailure)
      ensures old(queue[0]).Unsendable? ==> !writeRunning && writeFailure == Some(ValueError)
    {
      if queue[0].Op? {
        SendHead();
      } else {
        RejectHead();
      }
    }
  }

  /** The table `__init__` builds: one empty list per member of StreamingEvents. */
  function EmptyHandlers(): (h: map<StreamingEvents, seq<HandlerId>>)
    ensures forall e :: e in h && h[e] == []
  {
    assert forall e: StreamingEvents :: e in AllEvents by {
      forall e: StreamingEvents ensures e in AllEvents {
        AllEventsComplete(e);
      }
    }
    map e: StreamingEvents | e in AllEvents :: []
  }

  /** The queue is FIFO: what was taken plus what is waiting is everything put,
      in order; every taken item was sent as its frame, except possibly the
      last one, whose failure ended the write pump. */
  ghost predicate Fifo(enqueued: seq<QueueItem>, taken: seq<QueueItem>, queue: seq<QueueItem>, sent: seq<Frame>, writeRunning: bool) {
    && enqueued == taken + queue
    && |sent| <= |taken| <= |sent| + 1
    && (forall k :: 0 <= k < |sent| ==> taken[k].Op? && sent[k] == FrameOf(taken[k].op))
    && (|taken| == |sent| + 1 ==> !writeRunning)
  }

  lemma FifoPut(enqueued: seq<QueueItem>, taken: seq<QueueItem>, queue: seq<QueueItem>, sent: seq<Frame>, running: bool, item: QueueItem)
    requires Fifo(enqueued, taken, queue, sent, running)
    ensures Fifo(enqueued + [item], taken, queue + [item], sent, running)
  {
  }

  /** Taking the head without sending it is allowed once the pump stops. */
  lemma FifoTake(enqueued: seq<QueueItem>, taken: seq<QueueItem>, queue: seq<QueueItem>, sent: seq<Frame>)
    requires Fifo(enqueued, taken, queue, sent, true) && queue != []
    ensures Fifo(enqueued, taken + [queue[0]], queue[1..], sent, false)
  {
  }

  /** Taking the head and sending it as its frame keeps the queue FIFO. */
  lemma FifoSend(enqueued: seq<QueueItem>, taken: seq<QueueItem>, queue: seq<QueueItem>, sent: seq<Frame>)
    requires Fifo(enqueued, taken, queue, sent, true) && queue != [] && queue[0].Op?
    ensures Fifo(enqueued, taken + [queue[0]], queue[1..], sent + [FrameOf(queue[0].op)], true)
  {
  }

  /** The state change of a read step that received a decoded message, by what `ReadAction` decided:
      a crash ends the read pump with the exception, a server error goes to the Error handlers (and
      the pump goes on), an event is dispatched, an unsupported message changes nothing. */
  ghost predicate ReadEffect(before: ClientState, action: Action, after: ClientState)
    requires Error in before.handlers && Begin in before.handlers && Termination in before.handlers && Turn in before.handlers
  {
    match action
    case Crash(e) => after == before.(readRunning := false, readFailure := Some(e))
    case ReportError(e) => after == before.(calls := before.calls + ErrorCalls(before.handlers, ServerError(e), before.stopped))
    case Dispatch(m) =>
      var stop := before.stopped || m.TerminationMessage?;
      after == before.(stopped := stop, calls := before.calls + CallsFor(before.handlers[KindOf(m)], EventArg(m), stop))
    case Skip => after == before
  }

  /** The log entries of `_handle_error` for a given handler table. */
  function ErrorCalls(handlers: map<StreamingEvents, seq<HandlerId>>, src: ErrorSource, stopSet: bool): seq<Call>
    requires Error in handlers
  {
    CallsFor(handlers[Error], ErrorArg(ParseError(src)), stopSet)
  }
}
