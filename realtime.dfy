/** The v2 real-time session of assemblyai/transcriber.py: how audio chunks
    are framed, how inbound messages are routed to the callbacks, how close
    codes become error texts, and the transcriber object whose two pump loops
    are modelled one iteration at a time over an explicit queue, stop flag and
    log of sent frames and callback calls. */
module Realtime {
  import opened Wrappers
  import opened Json
  import opened Types
  import Base64
  import StreamingClient

  // ---------------------------------------------------------------- framing

  /** The one key of an audio frame. */
  const AudioDataKey: string := "audio_data"

  /** `_encode_data`: a chunk goes out as `{"audio_data": <base64 of the chunk>}`. */
  function EncodeData(data: seq<byte>): (r: Value)
    ensures r.Obj? && r.fields.Keys == {AudioDataKey} && r.fields[AudioDataKey].Str?
  {
    Obj(map[AudioDataKey := Str(Base64.Encode(data))])
  }

  /** The receiving end recovers every chunk from its frame. */
  lemma EncodeDataRoundTrip(data: seq<byte>)
    ensures Base64.Decode(EncodeData(data).fields[AudioDataKey].s) == Some(data)
  {
    Base64.DecodeEncode(data);
  }

  /** The frames of the two chunks of the write unit test. */
  lemma EncodeDataExamples()
    ensures EncodeData([1, 2, 3, 4, 5]) == Obj(map[AudioDataKey := Str("AQIDBAU=")])
    ensures EncodeData([6, 7, 8, 9, 10]) == Obj(map[AudioDataKey := Str("BgcICQo=")])
  {
    Base64.EncodeExamples();
  }

  /** What the write queue can hold: raw bytes, a dict (sent as JSON), or a
      value of any other type (which the write loop refuses). */
  datatype QueueItem = Chunk(data: seq<byte>) | Control(json: map<string, Value>) | Unsupported

  /** The message `close(terminate=True)` queues. */
  const TerminateSession: QueueItem := Control(map["terminate_session" := Bool(true)])

  /** The JSON text frame the write loop sends for an item it accepts. */
  function FrameOf(item: QueueItem): (r: Value)
    requires !item.Unsupported?
    ensures item.Control? ==> r == Obj(item.json)
    ensures item.Chunk? ==> r == EncodeData(item.data)
  {
    match item
    case Chunk(data) => EncodeData(data)
    case Control(json) => Obj(json)
  }

  predicate AllSendable(items: seq<QueueItem>) {
    forall i :: 0 <= i < |items| ==> !items[i].Unsupported?
  }

  /** The frames a run of accepted items goes out as, in order. */
  function Frames(items: seq<QueueItem>): (r: seq<Value>)
    requires AllSendable(items)
    ensures |r| == |items|
  {
    if items == [] then [] else Frames(items[..|items| - 1]) + [FrameOf(items[|items| - 1])]
  }

  lemma {:induction false} FramesAt(items: seq<QueueItem>, k: nat)
    requires AllSendable(items) && k < |items|
    ensures Frames(items)[k] == FrameOf(items[k])
    decreases |items|
  {
    if k < |items| - 1 {
      FramesAt(items[..|items| - 1], k);
    }
  }

  /** The write loop moves the head of what is left to the end of what is done. */
  lemma DrainAdvance(all: seq<QueueItem>, done: seq<QueueItem>, rest: seq<QueueItem>)
    requires all == done + rest && rest != []
    ensures all == (done + [rest[0]]) + rest[1..]
    ensures rest[0].Unsupported? ==> !AllSendable(all)
  {
    assert all[|done|] == rest[0];
  }

  lemma FramesSnoc(items: seq<QueueItem>, item: QueueItem)
    requires AllSendable(items) && !item.Unsupported?
    ensures AllSendable(items + [item]) && Frames(items + [item]) == Frames(items) + [FrameOf(item)]
  {
    assert (items + [item])[..|items|] == items;
  }

  // ---------------------------------------------------------------- routing

  /** The texts on_error gets when the handshake fails or a message is not JSON. */
  const ConnectFailedPrefix: string := "Could not connect to the real-time service: "
  const DecodeFailedPrefix: string := "Could not decode message: "

  /** What `_handle_message` does with a decoded message. */
  datatype Route =
    | OnData(message: map<string, Value>, final: bool)
    | OnOpen(message: map<string, Value>)
    | StopSession
    | OnErrorMessage(error: Value)
    | Ignore
    | RouteRaised(exc: Exception)

  /** `_handle_message`: a `message_type` key decides first (partial and final
      transcripts go to on_data, SessionBegins to on_open when one is set,
      SessionTerminated sets the stop flag, anything else is ignored); without
      one, an `error` key goes to on_error. The membership tests and the
      subscripts are Python's, so a decoded value that is not an object either
      raises or, when neither key is found in it, is ignored. */
  function RouteMessage(v: Value, hasOnOpen: bool): (r: Route)
    ensures r.OnData? <==>
      v.Obj? && "message_type" in v.fields && v.fields["message_type"] in {Str("PartialTranscript"), Str("FinalTranscript")}
    ensures r.OnData? ==> r.message == v.fields && (r.final <==> v.fields["message_type"] == Str("FinalTranscript"))
    ensures r.OnOpen? <==> v.Obj? && hasOnOpen && "message_type" in v.fields && v.fields["message_type"] == Str("SessionBegins")
    ensures r.OnOpen? ==> r.message == v.fields
    ensures r.StopSession? <==> v.Obj? && "message_type" in v.fields && v.fields["message_type"] == Str("SessionTerminated")
    ensures r.OnErrorMessage? <==> v.Obj? && "message_type" !in v.fields && "error" in v.fields
    ensures r.OnErrorMessage? ==> r.error == v.fields["error"]
    ensures r.RouteRaised? ==> !v.Obj? && r.exc == TypeError
    ensures !v.Obj? && r.Ignore? ==> Contains(v, "message_type") == Ok(false) && Contains(v, "error") == Ok(false)
  {
    match Contains(v, "message_type")
    case Raised(e) => RouteRaised(e)
    case Ok(hasType) =>
      if hasType then
        if !v.Obj? then RouteRaised(TypeError)
        else
          match MessageTypeOf(v.fields["message_type"])
          case Some(PartialTranscript) => OnData(v.fields, false)
          case Some(FinalTranscript) => OnData(v.fields, true)
          case Some(SessionBegins) => if hasOnOpen then OnOpen(v.fields) else Ignore
          case Some(SessionTerminated) => StopSession
          case None => Ignore
      else
        match Contains(v, "error")
        case Raised(e) => RouteRaised(e)
        case Ok(hasError) =>
          if !hasError then Ignore
          else if !v.Obj? then RouteRaised(TypeError)
          else OnErrorMessage(v.fields["error"])
  }

  /** A message that names its type is routed by that type alone, even when it
      also carries an `error` key. */
  lemma MessageTypeWins(d: map<string, Value>, t: RealtimeMessageTypes, hasOnOpen: bool)
    requires "message_type" in d && d["message_type"] == Str(MessageTypeValue(t))
    ensures RouteMessage(Obj(d), hasOnOpen) ==
      match t
      case PartialTranscript => OnData(d, false)
      case FinalTranscript => OnData(d, true)
      case SessionBegins => if hasOnOpen then OnOpen(d) else Ignore
      case SessionTerminated => StopSession
  {
  }

  /** An unknown `message_type` calls nothing and changes nothing. */
  lemma UnknownMessageTypeIgnored(d: map<string, Value>, hasOnOpen: bool)
    requires "message_type" in d && MessageTypeOf(d["message_type"]).None?
    ensures RouteMessage(Obj(d), hasOnOpen) == Ignore
  {
  }

  // ---------------------------------------------------------------- close codes

  /** The text `_handle_error` reports for a close: codes 4000..4999 are looked
      up in the close-code table (an unlisted one raises KeyError), every
      other code reports the close reason. */
  function CloseText(code: int, reason: string): (r: Result<string>)
    ensures 4000 <= code <= 4999 && code in RealtimeErrorMapping ==> r == Ok(RealtimeErrorMapping[code])
    ensures 4000 <= code <= 4999 && code !in RealtimeErrorMapping ==> r == Raised(KeyError)
    ensures !(4000 <= code <= 4999) ==> r == Ok(reason)
  {
    if 4000 <= code <= 4999 then
      if code in RealtimeErrorMapping then Ok(RealtimeErrorMapping[code]) else Raised(KeyError)
    else Ok(reason)
  }

  /** Unlisted private-use codes such as 4005 or 4034 raise instead of being reported. */
  lemma UnlistedCodesRaise()
    ensures CloseText(4005, "") == Raised(KeyError)
    ensures CloseText(4034, "") == Raised(KeyError)
  {
    RealtimeTableKeys();
  }

  /** Wherever the v2 session reports a close, it reports the same text as the
      v3 client does for the same close. */
  lemma CloseTextAgreesWithStreaming(code: int, reason: string, text: string)
    requires CloseText(code, reason).Ok? && code != 1000
    ensures CloseText(code, reason).value ==
      StreamingClient.ParseError(StreamingClient.ConnectionClosed(StreamingClient.CloseInfo(code, reason, text))).message
  {
    if 4000 <= code <= 4999 {
      RealtimeTableKeys();
      RealtimeTableTexts();
    }
  }

  // ---------------------------------------------------------------- connecting

  /** `str.replace("https", "wss")`: every occurrence, scanned left to right. */
  function WebSocketBase(url: string): (r: string)
    decreases |url|
  {
    if |url| >= 5 && url[..5] == "https" then "wss" + WebSocketBase(url[5..])
    else if url == [] then []
    else [url[0]] + WebSocketBase(url[1..])
  }

  /** An "https" starts at position `i` of `url`. */
  predicate HttpsAt(url: string, i: nat) {
    i + 5 <= |url| && url[i..i + 5] == "https"
  }

  ghost predicate HasHttps(url: string) {
    exists i: nat :: HttpsAt(url, i)
  }

  /** Each "https" becomes "wss"; every other character is kept. */
  lemma WebSocketBaseSteps(rest: string, c: char)
    ensures WebSocketBase("https" + rest) == "wss" + WebSocketBase(rest)
    ensures !HttpsAt([c] + rest, 0) ==> WebSocketBase([c] + rest) == [c] + WebSocketBase(rest)
  {
    assert ("https" + rest)[..5] == "https" && ("https" + rest)[5..] == rest;
    assert ([c] + rest)[1..] == rest;
  }

  /** A URL with no "https" in it is left alone. */
  lemma {:induction false} WebSocketBaseKeeps(url: string)
    requires !HasHttps(url)
    ensures WebSocketBase(url) == url
    decreases |url|
  {
    if url != [] {
      assert !HttpsAt(url, 0);
      assert !HasHttps(url[1..]) by {
        forall i: nat | HttpsAt(url[1..], i) ensures HttpsAt(url, i + 1) {
          assert url[1..][i..i + 5] == url[i + 1..i + 6];
        }
      }
      WebSocketBaseKeeps(url[1..]);
      WebSocketBaseSteps(url[1..], url[0]);
      assert url == [url[0]] + url[1..];
    }
  }

  /** An "https" base URL, such as the default "https://api.assemblyai.com",
      becomes the "wss" URL of the same host. */
  lemma WebSocketBaseSecure(host: string)
    requires !HasHttps(host)
    ensures WebSocketBase("https" + host) == "wss" + host
  {
    WebSocketBaseKeeps(host);
    WebSocketBaseSteps(host, 'h');
  }

  datatype ConnectRequest = ConnectRequest(uri: string, headers: map<string, string>, openTimeout: Option<real>)

  /** The query parameters: the sample rate, then the JSON-encoded word boost
      list when it is not empty. */
  function ConnectParams(sampleRate: int, wordBoost: seq<string>, dumps: seq<string> -> string): (r: seq<(string, Value)>)
    ensures |r| == (if wordBoost == [] then 1 else 2)
    ensures r[0] == ("sample_rate", Int(sampleRate))
    ensures wordBoost != [] ==> r[1] == ("word_boost", Str(dumps(wordBoost)))
  {
    [("sample_rate", Int(sampleRate))] + (if wordBoost != [] then [("word_boost", Str(dumps(wordBoost)))] else [])
  }

  /** The handshake `connect` opens. A missing API key is formatted by an
      f-string, as the text "None". */
  function Request(baseUrl: string, apiKey: Option<string>, sampleRate: int, wordBoost: seq<string>, timeout: Option<real>,
                   urlencode: seq<(string, Value)> -> string, dumps: seq<string> -> string): (r: ConnectRequest)
    ensures r.uri == WebSocketBase(baseUrl) + "/v2/realtime/ws?" + urlencode(ConnectParams(sampleRate, wordBoost, dumps))
    ensures r.headers.Keys == {"Authorization"}
    ensures r.headers["Authorization"] == (if apiKey.Some? then apiKey.value else "None")
    ensures r.openTimeout == timeout
  {
    ConnectRequest(WebSocketBase(baseUrl) + "/v2/realtime/ws?" + urlencode(ConnectParams(sampleRate, wordBoost, dumps)),
      map["Authorization" := if apiKey.Some? then apiKey.value else "None"],
      timeout)
  }

  /** With an "https" base URL the session is opened at the v2 real-time
      endpoint of the same host over "wss". */
  lemma SecureRequestUri(host: string, apiKey: Option<string>, sampleRate: int, wordBoost: seq<string>, timeout: Option<real>,
                         urlencode: seq<(string, Value)> -> string, dumps: seq<string> -> string)
    requires !HasHttps(host)
    ensures Request("https" + host, apiKey, sampleRate, wordBoost, timeout, urlencode, dumps).uri ==
      "wss" + host + "/v2/realtime/ws?" + urlencode(ConnectParams(sampleRate, wordBoost, dumps))
  {
    WebSocketBaseSecure(host);
  }

  // ---------------------------------------------------------------- the transcriber

  /** A callback call, in the order they happened. */
  datatype Call = DataCall(message: map<string, Value>, final: bool) | OpenCall(message: map<string, Value>)
                | ErrorCall(error: Value) | CloseCall

  /** The thread a `close()` runs on: the caller's, or a pump thread (from `_handle_error`). */
  datatype Caller = MainThread | ReadThread | WriteThread

  datatype Socket = NoSocket | Open | Closed
  datatype ConnectOutcome = Opened | ConnectFailed(text: string)
  datatype Incoming = RecvTimeout | RecvClosed(code: int, reason: string) | Undecodable(text: string) | Received(json: Value)
  datatype SendOutcome = Sent | SendClosed(code: int, reason: string)

  /** What `stream` is given: one `bytes` object, or an iterable of chunks. */
  datatype StreamInput = Bytes(data: seq<byte>) | Chunks(items: seq<QueueItem>)

  /** The calls `_handle_error` makes for a close it can report: on_error unless
      the close is normal (1000), then on_close if one is set and the `close()`
      it runs has returned. */
  function ErrorCalls(code: int, text: string, closeCall: bool): (r: seq<Call>)
    ensures (ErrorCall(Str(text)) in r) <==> code != 1000
    ensures (CloseCall in r) <==> closeCall
    ensures closeCall ==> r[|r| - 1] == CloseCall
  {
    (if code != 1000 then [ErrorCall(Str(text))] else []) + (if closeCall then [CloseCall] else [])
  }

  /** A snapshot of the transcriber's fields, so that each method can state its whole new state. */
  datatype TranscriberState = TranscriberState(
    queue: seq<QueueItem>,
    stopped: bool,
    socket: Socket,
    started: bool,
    readRunning: bool,
    writeRunning: bool,
    writerClosing: bool,
    request: Option<ConnectRequest>,
    sent: seq<Value>,
    calls: seq<Call>,
    readFailure: Option<Exception>,
    writeFailure: Option<Exception>,
    enqueued: seq<QueueItem>,
    taken: seq<QueueItem>)

  class RealtimeTranscriber {
    /** Whether the optional on_open and on_close callbacks were given. */
    const hasOnOpen: bool
    const hasOnClose: bool
    const sampleRate: int
    const wordBoost: seq<string>
    /** The outbound FIFO shared by the callers and the write pump. */
    var queue: seq<QueueItem>
    /** The stop event: set by a SessionTerminated message, it ends both pumps. */
    var stopped: bool
    var socket: Socket
    /** Whether the pump threads were started (they can be started once). */
    var started: bool
    var readRunning: bool
    var writeRunning: bool
    /** The write thread is inside a `close()`, waiting for the read pump to end. */
    var writerClosing: bool
    var request: Option<ConnectRequest>
    /** Every frame the write pump has sent, oldest first. */
    var sent: seq<Value>
    /** Every callback call, oldest first. */
    var calls: seq<Call>
    /** The exception that ended a pump, if one did. */
    var readFailure: Option<Exception>
    var writeFailure: Option<Exception>
    /** Everything ever put on the queue, and everything the write pump took off it. */
    ghost var enqueued: seq<QueueItem>
    ghost var taken: seq<QueueItem>

    ghost function State(): TranscriberState
      reads this
    {
      TranscriberState(queue, stopped, socket, started, readRunning, writeRunning, writerClosing, request,
                       sent, calls, readFailure, writeFailure, enqueued, taken)
    }

    /** The fields the write pump leaves alone while every send succeeds. */
    ghost function Untouched(): (bool, Socket, bool, bool, bool, Option<ConnectRequest>, seq<Call>, Option<Exception>, seq<QueueItem>)
      reads this
    {
      (stopped, socket, started, readRunning, writerClosing, request, calls, readFailure, enqueued)
    }

    /** The queue is FIFO, the pumps run only on an open socket, and a write
        thread waits in `close()` only after its loop ended. */
    ghost predicate Valid()
      reads this
    {
      && Fifo(enqueued, taken, queue, sent, writeRunning)
      && (readRunning || writeRunning ==> started && socket == Open)
      && (writerClosing ==> started && !writeRunning)
      && (!started ==> taken == [] && sent == [] && !writerClosing)
    }

    /** `RealtimeTranscriber(...)`: nothing queued, no thread started. */
    constructor (hasOnOpen: bool, hasOnClose: bool, sampleRate: int, wordBoost: seq<string>)
      ensures Valid()
      ensures this.hasOnOpen == hasOnOpen && this.hasOnClose == hasOnClose
      ensures this.sampleRate == sampleRate && this.wordBoost == wordBoost
      ensures queue == [] && !stopped && socket == NoSocket && !started && !readRunning && !writeRunning && !writerClosing
      ensures request == None && sent == [] && calls == [] && readFailure == None && writeFailure == None
      ensures enqueued == [] && taken == []
    {
      this.hasOnOpen, this.hasOnClose := hasOnOpen, hasOnClose;
      this.sampleRate, this.wordBoost := sampleRate, wordBoost;
      queue, stopped, socket, started := [], false, NoSocket, false;
      readRunning, writeRunning, writerClosing, request := false, false, false, None;
      sent, calls, readFailure, writeFailure := [], [], None, None;
      enqueued, taken := [], [];
    }

    /** `connect(timeout)`: a failed handshake is reported to on_error and
        starts nothing; otherwise both pumps start, which raises RuntimeError
        when they were started before. */
    method Connect(baseUrl: string, apiKey: Option<string>, timeout: Option<real>,
                   urlencode: seq<(string, Value)> -> string, dumps: seq<string> -> string,
                   outcome: ConnectOutcome) returns (raised: Option<Exception>)
      requires Valid()
      modifies this
      ensures Valid()
      ensures var req := Some(Request(baseUrl, apiKey, sampleRate, wordBoost, timeout, urlencode, dumps));
        && (outcome.ConnectFailed? ==>
              raised == None &&
              State() == old(State()).(request := req,
                                       calls := old(calls) + [ErrorCall(Str(ConnectFailedPrefix + outcome.text))]))
        && (outcome.Opened? && !old(started) ==>
              raised == None &&
              State() == old(State()).(request := req, socket := Open, started := true, readRunning := true, writeRunning := true))
        && (outcome.Opened? && old(started) ==>
              raised == Some(RuntimeError) && State() == old(State()).(request := req, socket := Open))
    {
      raised := Handshake(Request(baseUrl, apiKey, sampleRate, wordBoost, timeout, urlencode, dumps), outcome);
    }

    /** The handshake with the request built: a failure is reported to on_error, a success
        opens the socket and starts both pumps, unless they already were. */
    method Handshake(req: ConnectRequest, outcome: ConnectOutcome) returns (raised: Option<Exception>)
      requires Valid()
      modifies this
      ensures Valid()
      ensures outcome.ConnectFailed? ==>
        raised == None &&
        State() == old(State()).(request := Some(req),
                                 calls := old(calls) + [ErrorCall(Str(ConnectFailedPrefix + outcome.text))])
      ensures outcome.Opened? && !old(started) ==>
        raised == None &&
        State() == old(State()).(request := Some(req), socket := Open, started := true, readRunning := true, writeRunning := true)
      ensures outcome.Opened? && old(started) ==>
        raised == Some(RuntimeError) && State() == old(State()).(request := Some(req), socket := Open)
    {
      raised := None;
      request := Some(req);
      match outcome
      case ConnectFailed(text) =>
        calls := calls + [ErrorCall(Str(ConnectFailedPrefix + text))];
      case Opened =>
        socket := Open;
        if started {
          raised := Some(RuntimeError);
        } else {
          started, readRunning, writeRunning := true, true, true;
        }
    }

    /** `_RealtimeTranscriberImpl.stream(data)`: the chunk goes on the queue. */
    method Put(item: QueueItem)
      requires Valid()
      modifies this
      ensures Valid()
      ensures queue == old(queue) + [item] && enqueued == old(enqueued) + [item]
      ensures State() == old(State()).(queue := queue, enqueued := enqueued)
    {
      FifoPut(enqueued, taken, queue, sent, writeRunning, item);
      queue := queue + [item];
      enqueued := enqueued + [item];
    }

    /** `RealtimeTranscriber.stream(data)`: one `bytes` object is queued whole,
        an iterable chunk by chunk, in order. */
    method Stream(input: StreamInput)
      requires Valid()
      modifies this
      ensures Valid()
      ensures var items := if input.Bytes? then [Chunk(input.data)] else input.items;
        State() == old(State()).(queue := old(queue) + items, enqueued := old(enqueued) + items)
    {
      if input.Bytes? {
        Put(Chunk(input.data));
        return;
      }
      PutAll(input.items);
    }

    /** Queues the chunks of an iterable one by one, in order. */
    method PutAll(chunks: seq<QueueItem>)
      requires Valid()
      modifies this
      ensures Valid()
      ensures State() == old(State()).(queue := old(queue) + chunks, enqueued := old(enqueued) + chunks)
    {
      ghost var s0 := State();
      var i := 0;
      while i < |chunks|
        invariant 0 <= i <= |chunks|
        invariant Valid()
        invariant queue == s0.queue + chunks[..i] && enqueued == s0.enqueued + chunks[..i]
        invariant State() == s0.(queue := queue, enqueued := enqueued)
      {
        Put(chunks[i]);
        assert chunks[..i + 1] == chunks[..i] + [chunks[i]];
        i := i + 1;
      }
      assert chunks[..i] == chunks;
    }

    /** `close(terminate)`: a terminate_session message is queued when asked for
        and the stop flag is unset; then the call joins the read and the write
        thread and closes the socket, and finally calls on_close. A join that
        raises (a thread never started, or the thread joining itself) skips the
        rest of the joins and the socket close; the exception is swallowed.
        `returned` is false while a join still waits; calling again with
        `terminate == false` continues the wait. */
    method Close(terminate: bool, caller: Caller) returns (returned: bool)
      requires Valid()
      requires caller == WriteThread ==> !writeRunning
      modifies this
      ensures Valid()
      ensures returned == (!old(started) || caller == ReadThread ||
                           (caller == WriteThread && !old(readRunning)) ||
                           (caller == MainThread && !old(readRunning) && !old(writeRunning) && !old(writerClosing)))
      ensures terminate && !old(stopped) ==>
        queue == old(queue) + [TerminateSession] && enqueued == old(enqueued) + [TerminateSession]
      ensures State() == old(State()).(queue := queue, enqueued := enqueued,
                                       socket := if returned && old(started) && caller == MainThread then Closed else old(socket),
                                       calls := if returned && hasOnClose then old(calls) + [CloseCall] else old(calls))
      ensures !(terminate && !old(stopped)) ==> queue == old(queue) && enqueued == old(enqueued)
    {
      if terminate && !stopped {
        Put(TerminateSession);
      }
      if !started || caller == ReadThread {
        returned := true;
      } else if caller == WriteThread {
        returned := !readRunning;
      } else {
        returned := !readRunning && !writeRunning && !writerClosing;
        if returned {
          socket := Closed;
        }
      }
      if returned && hasOnClose {
        calls := calls + [CloseCall];
      }
    }

    /** `RealtimeTranscriber.close()`: always asks for termination. */
    method CloseSession() returns (returned: bool)
      requires Valid()
      modifies this
      ensures Valid()
      ensures returned == (!old(started) || (!old(readRunning) && !old(writeRunning) && !old(writerClosing)))
      ensures var item := if !old(stopped) then [TerminateSession] else [];
        State() == old(State()).(queue := old(queue) + item, enqueued := old(enqueued) + item,
                                 socket := if returned && old(started) then Closed else old(socket),
                                 calls := old(calls) + if returned && hasOnClose then [CloseCall] else [])
    {
      returned := Close(true, MainThread);
    }

    /** `_handle_error` on a pump thread whose loop has ended: the close text
        is reported to on_error unless the close is normal, then `close()`
        runs on that thread. An unlisted private-use code raises KeyError out
        of the pump instead, and nothing is called. */
    method HandleError(code: int, reason: string, caller: Caller)
      requires Valid() && caller != MainThread
      requires caller == ReadThread ==> !readRunning
      requires caller == WriteThread ==> !writeRunning && !writerClosing
      modifies this
      ensures Valid()
      ensures CloseText(code, reason).Raised? && caller == ReadThread ==> State() == old(State()).(readFailure := Some(KeyError))
      ensures CloseText(code, reason).Raised? && caller == WriteThread ==> State() == old(State()).(writeFailure := Some(KeyError))
      ensures CloseText(code, reason).Ok? ==>
        var closes := !old(started) || caller == ReadThread || !old(readRunning);
        State() == old(State()).(calls := old(calls) + ErrorCalls(code, CloseText(code, reason).value, closes && hasOnClose),
                                 writerClosing := if caller == WriteThread then !closes else old(writerClosing))
    {
      match CloseText(code, reason)
      case Raised(e) =>
        if caller == ReadThread {
          readFailure := Some(e);
        } else {
          writeFailure := Some(e);
        }
      case Ok(text) =>
        ReportClose(code, text, caller);
    }

    /** The reportable half of `_handle_error`: on_error unless the close is
        normal, then `close()` on the pump thread. */
    method ReportClose(code: int, text: string, caller: Caller)
      requires Valid() && caller != MainThread
      requires caller == ReadThread ==> !readRunning
      requires caller == WriteThread ==> !writeRunning && !writerClosing
      modifies this
      ensures Valid()
      ensures var closes := !old(started) || caller == ReadThread || !old(readRunning);
        State() == old(State()).(calls := old(calls) + ErrorCalls(code, text, closes && hasOnClose),
                                 writerClosing := if caller == WriteThread then !closes else old(writerClosing))
    {
      if code != 1000 {
        calls := calls + [ErrorCall(Str(text))];
      }
      ghost var reported := State();
      var returned := Close(false, caller);
      assert State() == reported.(calls := reported.calls + if returned && hasOnClose then [CloseCall] else []);
      if caller == WriteThread {
        writerClosing := !returned;
      }
    }

    /** The write thread, waiting in `close()` for the read pump, goes on waiting
        or, once the read pump has ended, returns and calls on_close. */
    method ResumeWriterClose()
      requires Valid() && writerClosing
      modifies this
      ensures Valid()
      ensures old(readRunning) ==> State() == old(State())
      ensures !old(readRunning) ==>
        State() == old(State()).(writerClosing := false, calls := old(calls) + if hasOnClose then [CloseCall] else [])
    {
      var returned := Close(false, WriteThread);
      writerClosing := !returned;
    }

    /** `_handle_message`, as `RouteMessage` decides; an exception it raises
        is returned. */
    method HandleMessage(v: Value) returns (raised: Option<Exception>)
      requires Valid()
      modifies this
      ensures Valid()
      ensures var r := RouteMessage(v, hasOnOpen); raised == if r.RouteRaised? then Some(r.exc) else None
      ensures State() == Routed(old(State()), RouteMessage(v, hasOnOpen))
    {
      raised := None;
      match RouteMessage(v, hasOnOpen)
      case OnData(m, final) =>
        calls := calls + [DataCall(m, final)];
      case OnOpen(m) =>
        calls := calls + [OpenCall(m)];
      case StopSession =>
        stopped := true;
      case OnErrorMessage(e) =>
        calls := calls + [ErrorCall(e)];
      case Ignore =>
      case RouteRaised(e) =>
        raised := Some(e);
    }

    /** One iteration of `_read`: once the stop flag is set the pump ends; a
        timeout changes nothing; a frame that is not JSON is reported to
        on_error; a close ends the pump and goes to `_handle_error`; a decoded
        message is handled, and an exception from it ends the pump. */
    method ReadStep(incoming: Incoming)
      requires Valid() && readRunning
      modifies this
      ensures Valid()
      ensures old(stopped) ==> State() == old(State()).(readRunning := false)
      ensures !old(stopped) && incoming.RecvTimeout? ==> State() == old(State())
      ensures !old(stopped) && incoming.Undecodable? ==>
        State() == old(State()).(calls := old(calls) + [ErrorCall(Str(DecodeFailedPrefix + incoming.text))])
      ensures !old(stopped) && incoming.RecvClosed? ==>
        var text := CloseText(incoming.code, incoming.reason);
        State() == if text.Raised? then old(State()).(readRunning := false, readFailure := Some(KeyError))
                   else old(State()).(readRunning := false,
                                      calls := old(calls) + ErrorCalls(incoming.code, text.value, hasOnClose))
      ensures !old(stopped) && incoming.Received? ==>
        var r := RouteMessage(incoming.json, hasOnOpen);
        State() == if r.RouteRaised? then old(State()).(readRunning := false, readFailure := Some(r.exc))
                   else Routed(old(State()), r)
    {
      if stopped {
        readRunning := false;
        return;
      }
      match incoming
      case RecvTimeout =>
      case Undecodable(text) =>
        calls := calls + [ErrorCall(Str(DecodeFailedPrefix + text))];
      case RecvClosed(code, reason) =>
        readRunning := false;
        HandleError(code, reason, ReadThread);
      case Received(v) =>
        ReadMessage(v);
    }

    /** A decoded message is handled; an exception from it ends the read pump. */
    method ReadMessage(v: Value)
      requires Valid() && readRunning
      modifies this
      ensures Valid()
      ensures var r := RouteMessage(v, hasOnOpen);
        State() == if r.RouteRaised? then old(State()).(readRunning := false, readFailure := Some(r.exc))
                   else Routed(old(State()), r)
    {
      var raised := HandleMessage(v);
      if raised.Some? {
        readRunning := false;
        readFailure := raised;
      }
    }

    /** One iteration of `_write`: once the stop flag is set the pump ends; an
        empty queue changes nothing; the head is taken and sent as its frame,
        refused with ValueError (which ends the pump) when it is neither bytes
        nor a dict, or lost to a closed connection, which ends the pump and
        goes to `_handle_error`. */
    method WriteStep(outcome: SendOutcome)
      requires Valid() && writeRunning
      modifies this
      ensures Valid()
      ensures old(stopped) ==> State() == old(State()).(writeRunning := false)
      ensures !old(stopped) && old(queue) == [] ==> State() == old(State())
      ensures !old(stopped) && old(queue) != [] && old(queue[0]).Unsupported? ==>
        State() == old(State()).(queue := old(queue[1..]), taken := old(taken) + [old(queue[0])],
                                 writeRunning := false, writeFailure := Some(ValueError))
      ensures !old(stopped) && old(queue) != [] && !old(queue[0]).Unsupported? && outcome.Sent? ==>
        State() == old(State()).(queue := old(queue[1..]), taken := old(taken) + [old(queue[0])],
                                 sent := old(sent) + [FrameOf(old(queue[0]))])
      ensures !old(stopped) && old(queue) != [] && !old(queue[0]).Unsupported? && outcome.SendClosed? ==>
        var text := CloseText(outcome.code, outcome.reason);
        var lost := old(State()).(queue := old(queue[1..]), taken := old(taken) + [old(queue[0])], writeRunning := false);
        State() == if text.Raised? then lost.(writeFailure := Some(KeyError))
                   else lost.(calls := old(calls) + ErrorCalls(outcome.code, text.value, !old(readRunning) && hasOnClose),
                              writerClosing := old(readRunning))
    {
      if stopped {
        writeRunning := false;
      } else if queue != [] {
        if queue[0].Unsupported? {
          RejectHead();
        } else if outcome.Sent? {
          SendHead();
        } else {
          FifoTake(enqueued, taken, queue, sent);
          taken := taken + [queue[0]];
          queue := queue[1..];
          writeRunning := false;
          HandleError(outcome.code, outcome.reason, WriteThread);
        }
      }
    }

    /** The head is neither bytes nor a dict: ValueError ends the write pump. */
    method RejectHead()
      requires Valid() && writeRunning && queue != [] && queue[0].Unsupported?
      modifies this
      ensures Valid()
      ensures State() == old(State()).(queue := old(queue[1..]), taken := old(taken) + [old(queue[0])],
                                       writeRunning := false, writeFailure := Some(ValueError))
    {
      FifoTake(enqueued, taken, queue, sent);
      taken := taken + [queue[0]];
      queue := queue[1..];
      writeRunning := false;
      writeFailure := Some(ValueError);
    }

    /** The head is sent as its frame. */
    method SendHead()
      requires Valid() && writeRunning && queue != [] && !queue[0].Unsupported?
      modifies this
      ensures Valid()
      ensures State() == old(State()).(queue := old(queue[1..]), taken := old(taken) + [old(queue[0])],
                                       sent := old(sent) + [FrameOf(old(queue[0]))])
    {
      FifoSend(enqueued, taken, queue, sent);
      sent := sent + [FrameOf(queue[0])];
      taken := taken + [queue[0]];
      queue := queue[1..];
    }

    /** The write loop while every send succeeds: it runs until the queue is
        empty, and what was queued is sent in queue order, each chunk as its
        base64 frame and each dict as itself. */
    method DrainQueue()
      requires Valid() && writeRunning && !stopped
      modifies this
      ensures Valid()
      ensures AllSendable(old(queue)) ==>
        State() == old(State()).(queue := [], taken := old(taken) + old(queue), sent := old(sent) + Frames(old(queue)))
      ensures !AllSendable(old(queue)) ==> !writeRunning && writeFailure == Some(ValueError)
    {
      ghost var q0, t0, s0, f0, u0 := queue, taken, sent, writeFailure, Untouched();
      ghost var done: seq<QueueItem> := [];
      while queue != [] && writeRunning
        invariant Valid() && !stopped && Untouched() == u0
        invariant writeRunning ==> q0 == done + queue && AllSendable(done)
        invariant writeRunning ==> taken == t0 + done && sent == s0 + Frames(done) && writeFailure == f0
        invariant !writeRunning ==> !AllSendable(q0) && writeFailure == Some(ValueError)
        decreases |queue|
      {
        var head := queue[0];
        DrainAdvance(q0, done, queue);
        if !head.Unsupported? {
          FramesSnoc(done, head);
        }
        DrainOne();
        done := done + [head];
      }
      if writeRunning {
        assert queue == [] && done == q0;
      }
    }

    /** One iteration of the write loop whose send succeeds. */
    method DrainOne()
      requires Valid() && writeRunning && !stopped && queue != []
      modifies this
      ensures Valid() && !stopped && Untouched() == old(Untouched())
      ensures queue == old(queue[1..])
      ensures !old(queue[0]).Unsupported? ==>
        writeRunning && taken == old(taken) + [old(queue[0])] && sent == old(sent) + [FrameOf(old(queue[0]))]
      ensures !old(queue[0]).Unsupported? ==> writeFailure == old(writeFailure)
      ensures old(queue[0]).Unsupported? ==> !writeRunning && writeFailure == Some(ValueError)
    {
      if !queue[0].Unsupported? {
        SendHead();
      } else {
        RejectHead();
      }
    }
  }

  /** The state change `_handle_message` makes for a route that does not raise. */
  ghost function Routed(s: TranscriberState, r: Route): TranscriberState {
    match r
    case OnData(m, final) => s.(calls := s.calls + [DataCall(m, final)])
    case OnOpen(m) => s.(calls := s.calls + [OpenCall(m)])
    case StopSession => s.(stopped := true)
    case OnErrorMessage(e) => s.(calls := s.calls + [ErrorCall(e)])
    case Ignore => s
    case RouteRaised(_) => s
  }

  /** The queue is FIFO: what was taken plus what is waiting is everything put,
      in order; every taken item was sent as its frame, except possibly the
      last one, whose failure ended the write pump. */
  ghost predicate Fifo(enqueued: seq<QueueItem>, taken: seq<QueueItem>, queue: seq<QueueItem>, sent: seq<Value>, writeRunning: bool) {
    && enqueued == taken + queue
    && |sent| <= |taken| <= |sent| + 1
    && (forall k :: 0 <= k < |sent| ==> !taken[k].Unsupported? && sent[k] == FrameOf(taken[k]))
    && (|taken| == |sent| + 1 ==> !writeRunning)
  }

  lemma FifoPut(enqueued: seq<QueueItem>, taken: seq<QueueItem>, queue: seq<QueueItem>, sent: seq<Value>, running: bool, item: QueueItem)
    requires Fifo(enqueued, taken, queue, sent, running)
    ensures Fifo(enqueued + [item], taken, queue + [item], sent, running)
  {
  }

  /** Taking the head without sending it is allowed once the pump stops. */
  lemma FifoTake(enqueued: seq<QueueItem>, taken: seq<QueueItem>, queue: seq<QueueItem>, sent: seq<Value>)
    requires Fifo(enqueued, taken, queue, sent, true) && queue != []
    ensures Fifo(enqueued, taken + [queue[0]], queue[1..], sent, false)
  {
  }

  /** Taking the head and sending it as its frame keeps the queue FIFO. */
  lemma FifoSend(enqueued: seq<QueueItem>, taken: seq<QueueItem>, queue: seq<QueueItem>, sent: seq<Value>)
    requires Fifo(enqueued, taken, queue, sent, true) && queue != [] && !queue[0].Unsupported?
    ensures Fifo(enqueued, taken + [queue[0]], queue[1..], sent + [FrameOf(queue[0])], true)
  {
  }

  /** The frames the write unit test expects for its two queued chunks. */
  lemma WriteTestFrames()
    ensures Frames([Chunk([1, 2, 3, 4, 5]), Chunk([6, 7, 8, 9, 10])]) ==
      [Obj(map[AudioDataKey := Str("AQIDBAU=")]), Obj(map[AudioDataKey := Str("BgcICQo=")])]
  {
    var items := [Chunk([1, 2, 3, 4, 5]), Chunk([6, 7, 8, 9, 10])];
    assert items[..1] == [Chunk([1, 2, 3, 4, 5])];
    assert items[..1][..0] == [];
    EncodeDataExamples();
  }
}
