/** The wire types of the v3 streaming protocol: the inbound events and their
    validation from decoded JSON, the outbound operations and their JSON form,
    the session parameters, the client options, the close-code table and the
    event kinds (assemblyai/streaming/v3/models.py). */
module StreamingModels {
  import opened Wrappers
  import opened Json

  // ---------------------------------------------------------------- inbound events

  datatype Word = Word(start: int, end: int, confidence: real, text: string, wordIsFinal: bool)

  /** A turn update; its `type` discriminator is the literal "Turn" and has no default. */
  datatype TurnEvent = TurnEvent(
    turnOrder: int,
    turnIsFormatted: bool,
    endOfTurn: bool,
    transcript: string,
    endOfTurnConfidence: real,
    words: seq<Word>)

  /** The session-begin event; `type` is the literal "Begin" and defaults to it. */
  datatype BeginEvent = BeginEvent(id: string, expiresAt: string)

  /** The termination event; `type` is the literal "Termination" and defaults to it,
      and both durations are optional. */
  datatype TerminationEvent = TerminationEvent(audioDurationSeconds: Option<int>, sessionDurationSeconds: Option<int>)

  /** An error reported by the service: only a message, no `type`. */
  datatype ErrorEvent = ErrorEvent(error: string)

  datatype EventMessage =
    | BeginMessage(begin: BeginEvent)
    | TerminationMessage(termination: TerminationEvent)
    | TurnMessage(turn: TurnEvent)
    | ErrorMessage(err: ErrorEvent)

  /** The event kinds a handler can be registered for. */
  datatype StreamingEvents = Begin | Termination | Turn | Error

  const AllEvents: seq<StreamingEvents> := [Begin, Termination, Turn, Error]

  /** The member's name, which is also its value. */
  function Name(e: StreamingEvents): string {
    match e
    case Begin => "Begin"
    case Termination => "Termination"
    case Turn => "Turn"
    case Error => "Error"
  }

  /** `StreamingEvents[name]`: the member with that name, None where Python raises KeyError. */
  function Lookup(name: string): (r: Option<StreamingEvents>)
    ensures r.Some? ==> Name(r.value) == name
    ensures (exists e :: Name(e) == name) ==> r.Some?
  {
    if name == "Begin" then Some(Begin)
    else if name == "Termination" then Some(Termination)
    else if name == "Turn" then Some(Turn)
    else if name == "Error" then Some(Error)
    else None
  }

  lemma AllEventsComplete(e: StreamingEvents)
    ensures e in AllEvents && |AllEvents| == 4
  {
  }

  /** The kind a typed event is dispatched under (`StreamingEvents[message.type]`). */
  function KindOf(m: EventMessage): StreamingEvents {
    match m
    case BeginMessage(_) => Begin
    case TerminationMessage(_) => Termination
    case TurnMessage(_) => Turn
    case ErrorMessage(_) => Error
  }

  // ---------------------------------------------------------------- validation

  /** An optional integer field: missing or null is None, an integer is kept, anything else is rejected. */
  function OptionalInt(d: map<string, Value>, key: string): Option<Option<int>> {
    match Get(d, key)
    case Null => Some(None)
    case Int(i) => Some(Some(i))
    case _ => None
  }

  /** A float field accepts a JSON integer or a JSON real. */
  function Number(v: Value): Option<real> {
    match v
    case Int(i) => Some(i as real)
    case Real(r) => Some(r)
    case _ => None
  }

  /** The `type` key of a model whose literal has a default: it may be missing, and otherwise must be the literal. */
  predicate DefaultedLiteral(d: map<string, Value>, literal: string) {
    "type" !in d || d["type"] == Str(literal)
  }

  function ValidateWord(v: Value): Option<Word> {
    if !v.Obj? then None
    else
      var d := v.fields;
      if Get(d, "start").Int? && Get(d, "end").Int? && Number(Get(d, "confidence")).Some?
         && Get(d, "text").Str? && Get(d, "word_is_final").Bool?
      then Some(Word(d["start"].i, d["end"].i, Number(d["confidence"]).value, d["text"].s, d["word_is_final"].b))
      else None
  }

  function ValidateWords(items: seq<Value>): (r: Option<seq<Word>>)
    ensures r.Some? ==> |r.value| == |items|
  {
    if items == [] then Some([])
    else
      match (ValidateWord(items[0]), ValidateWords(items[1..]))
      case (Some(w), Some(ws)) => Some([w] + ws)
      case _ => None
  }

  /** `TurnEvent.model_validate`: every field is required, `type` must be "Turn". */
  function ValidateTurn(d: map<string, Value>): Option<TurnEvent> {
    if Get(d, "type") == Str("Turn") && Get(d, "turn_order").Int? && Get(d, "turn_is_formatted").Bool?
       && Get(d, "end_of_turn").Bool? && Get(d, "transcript").Str?
       && Number(Get(d, "end_of_turn_confidence")).Some? && Get(d, "words").Arr?
       && ValidateWords(d["words"].items).Some?
    then Some(TurnEvent(d["turn_order"].i, d["turn_is_formatted"].b, d["end_of_turn"].b, d["transcript"].s,
                        Number(d["end_of_turn_confidence"]).value, ValidateWords(d["words"].items).value))
    else None
  }

  /** `BeginEvent.model_validate`. */
  function ValidateBegin(d: map<string, Value>): Option<BeginEvent> {
    if DefaultedLiteral(d, "Begin") && Get(d, "id").Str? && Get(d, "expires_at").Str?
    then Some(BeginEvent(d["id"].s, d["expires_at"].s))
    else None
  }

  /** `TerminationEvent.model_validate`. */
  function ValidateTermination(d: map<string, Value>): Option<TerminationEvent> {
    var audio, session := OptionalInt(d, "audio_duration_seconds"), OptionalInt(d, "session_duration_seconds");
    if DefaultedLiteral(d, "Termination") && audio.Some? && session.Some?
    then Some(TerminationEvent(audio.value, session.value))
    else None
  }

  /** `ErrorEvent.model_validate` on a decoded value (a non-object is rejected). */
  function ValidateError(v: Value): Option<ErrorEvent> {
    if v.Obj? && Get(v.fields, "error").Str? then Some(ErrorEvent(v.fields["error"].s)) else None
  }

  // ---------------------------------------------------------------- the JSON the service sends

  function WordJson(w: Word): Value {
    Obj(map["start" := Int(w.start), "end" := Int(w.end), "confidence" := Real(w.confidence),
            "text" := Str(w.text), "word_is_final" := Bool(w.wordIsFinal)])
  }

  function WordsJson(ws: seq<Word>): (r: seq<Value>)
    ensures |r| == |ws|
    ensures forall i :: 0 <= i < |ws| ==> r[i] == WordJson(ws[i])
  {
    if ws == [] then [] else [WordJson(ws[0])] + WordsJson(ws[1..])
  }

  /** The object a typed event is serialised from, with its `type` discriminator. */
  function EventFields(m: EventMessage): map<string, Value> {
    match m
    case BeginMessage(b) => map["type" := Str("Begin"), "id" := Str(b.id), "expires_at" := Str(b.expiresAt)]
    case TerminationMessage(t) =>
      map["type" := Str("Termination")]
      + (if t.audioDurationSeconds.Some? then map["audio_duration_seconds" := Int(t.audioDurationSeconds.value)] else map[])
      + (if t.sessionDurationSeconds.Some? then map["session_duration_seconds" := Int(t.sessionDurationSeconds.value)] else map[])
    case TurnMessage(t) =>
      map["type" := Str("Turn"), "turn_order" := Int(t.turnOrder), "turn_is_formatted" := Bool(t.turnIsFormatted),
          "end_of_turn" := Bool(t.endOfTurn), "transcript" := Str(t.transcript),
          "end_of_turn_confidence" := Real(t.endOfTurnConfidence), "words" := Arr(WordsJson(t.words))]
    case ErrorMessage(e) => map["error" := Str(e.error)]
  }

  lemma {:induction false} WordsRoundTrip(ws: seq<Word>)
    ensures ValidateWords(WordsJson(ws)) == Some(ws)
    decreases |ws|
  {
    if ws != [] {
      var items := WordsJson(ws);
      WordsRoundTrip(ws[1..]);
      WordRoundTrip(ws[0]);
      assert items[0] == WordJson(ws[0]) && items[1..] == WordsJson(ws[1..]);
      ValidateWordsCons(items, ws[0], ws[1..]);
      assert [ws[0]] + ws[1..] == ws;
    }
  }

  /** A list validates when its head and its tail do. */
  lemma ValidateWordsCons(items: seq<Value>, w: Word, rest: seq<Word>)
    requires items != [] && ValidateWord(items[0]) == Some(w) && ValidateWords(items[1..]) == Some(rest)
    ensures ValidateWords(items) == Some([w] + rest)
  {
  }

  lemma WordRoundTrip(w: Word)
    ensures ValidateWord(WordJson(w)) == Some(w)
  {
    WordFields(w);
  }

  /** The fields of a serialised word, one by one. */
  lemma WordFields(w: Word)
    ensures var d := WordJson(w).fields;
      && Get(d, "start") == Int(w.start) && Get(d, "end") == Int(w.end)
      && Get(d, "confidence") == Real(w.confidence) && Get(d, "text") == Str(w.text)
      && Get(d, "word_is_final") == Bool(w.wordIsFinal)
  {
  }

  /** Every event validates back from its own JSON object: the validators accept exactly what the service sends. */
  lemma BeginRoundTrip(b: BeginEvent)
    ensures ValidateBegin(EventFields(BeginMessage(b))) == Some(b)
  {
  }

  lemma TerminationRoundTrip(t: TerminationEvent)
    ensures ValidateTermination(EventFields(TerminationMessage(t))) == Some(t)
  {
  }

  lemma TurnRoundTrip(t: TurnEvent)
    ensures ValidateTurn(EventFields(TurnMessage(t))) == Some(t)
  {
    TurnHeaderFields(t);
    TurnBodyFields(t);
    WordsRoundTrip(t.words);
  }

  /** The first fields of a serialised Turn event. */
  lemma TurnHeaderFields(t: TurnEvent)
    ensures var d := EventFields(TurnMessage(t));
      && Get(d, "type") == Str("Turn") && Get(d, "turn_order") == Int(t.turnOrder)
      && Get(d, "turn_is_formatted") == Bool(t.turnIsFormatted)
  {
  }

  /** The other fields of a serialised Turn event. */
  lemma TurnBodyFields(t: TurnEvent)
    ensures var d := EventFields(TurnMessage(t));
      && Get(d, "end_of_turn") == Bool(t.endOfTurn) && Get(d, "transcript") == Str(t.transcript)
      && Get(d, "end_of_turn_confidence") == Real(t.endOfTurnConfidence)
      && "words" in d && d["words"] == Arr(WordsJson(t.words))
  {
  }

  lemma ErrorRoundTrip(e: ErrorEvent)
    ensures ValidateError(Obj(EventFields(ErrorMessage(e)))) == Some(e)
  {
  }

  /** Begin and Termination default their discriminator; Turn has no default. */
  lemma TypeDefaults(d: map<string, Value>)
    requires "type" !in d
    ensures ValidateBegin(d) == ValidateBegin(d["type" := Str("Begin")])
    ensures ValidateTermination(d) == ValidateTermination(d["type" := Str("Termination")])
    ensures ValidateTurn(d) == None
  {
  }

  /** A Termination event needs nothing but its discriminator; both durations default to None. */
  lemma TerminationDefaults()
    ensures ValidateTermination(map[]) == Some(TerminationEvent(None, None))
    ensures ValidateTermination(map["type" := Str("Termination")]) == Some(TerminationEvent(None, None))
  {
  }

  /** Each required Turn field is really required: removing it makes validation fail. */
  lemma TurnFieldsRequired(t: TurnEvent, key: string)
    requires key in {"type", "turn_order", "turn_is_formatted", "end_of_turn", "transcript", "end_of_turn_confidence", "words"}
    ensures ValidateTurn(EventFields(TurnMessage(t)) - {key}) == None
  {
  }

  // ---------------------------------------------------------------- outbound operations

  /** The parameters that can be changed during a session. */
  datatype SessionParameters = SessionParameters(
    endOfTurnConfidenceThreshold: Option<real>,
    minEndOfTurnSilenceWhenConfident: Option<int>,
    maxTurnSilence: Option<int>,
    formatTurns: Option<bool>)

  /** The connection parameters: the session parameters plus a mandatory sample rate. */
  datatype StreamingParameters = StreamingParameters(session: SessionParameters, sampleRate: int)

  /** What the outbound queue accepts: raw audio or one of the three control messages. */
  datatype OperationMessage =
    | Audio(data: seq<byte>)
    | TerminateSession
    | ForceEndpoint
    | UpdateConfiguration(params: SessionParameters)

  /** The fixed `type` literal of a control message. */
  function TypeLiteral(op: OperationMessage): string
    requires !op.Audio?
  {
    match op
    case TerminateSession => "Terminate"
    case ForceEndpoint => "ForceEndpoint"
    case UpdateConfiguration(_) => "UpdateConfiguration"
  }

  /** The dumped entry of each optional session parameter: one pair when it is set, none when it is None. */
  function ThresholdEntry(p: SessionParameters): seq<(string, Value)> {
    if p.endOfTurnConfidenceThreshold.Some? then [("end_of_turn_confidence_threshold", Real(p.endOfTurnConfidenceThreshold.value))] else []
  }

  function ConfidentSilenceEntry(p: SessionParameters): seq<(string, Value)> {
    if p.minEndOfTurnSilenceWhenConfident.Some? then [("min_end_of_turn_silence_when_confident", Int(p.minEndOfTurnSilenceWhenConfident.value))] else []
  }

  function MaxSilenceEntry(p: SessionParameters): seq<(string, Value)> {
    if p.maxTurnSilence.Some? then [("max_turn_silence", Int(p.maxTurnSilence.value))] else []
  }

  function FormatTurnsEntry(p: SessionParameters): seq<(string, Value)> {
    if p.formatTurns.Some? then [("format_turns", Bool(p.formatTurns.value))] else []
  }

  /** A `model_dump(exclude_none=True)` of the session parameters, in declaration order. */
  function SessionPairs(p: SessionParameters): seq<(string, Value)> {
    ThresholdEntry(p) + ConfidentSilenceEntry(p) + MaxSilenceEntry(p) + FormatTurnsEntry(p)
  }

  /** The connection parameters as dumped for the query string: session fields first, then `sample_rate`. */
  function ParameterPairs(p: StreamingParameters): (r: seq<(string, Value)>)
    ensures |r| >= 1 && r[|r| - 1] == ("sample_rate", Int(p.sampleRate))
    ensures forall i :: 0 <= i < |r| ==> r[i].1 != Null
  {
    SessionPairs(p.session) + [("sample_rate", Int(p.sampleRate))]
  }

  /** The same dump as a JSON object: the dict the entries are stored in, in turn. */
  function SessionFields(p: SessionParameters): map<string, Value> {
    PutPair(PutPair(PutPair(PutPair(map[], ThresholdEntry(p)), ConfidentSilenceEntry(p)), MaxSilenceEntry(p)), FormatTurnsEntry(p))
  }

  /** The JSON object of a control message (`model_dump_json(exclude_none=True)`): its
      own `type` literal plus the parameters that are set. */
  function OperationJson(op: OperationMessage): (r: Value)
    requires !op.Audio?
    ensures r.Obj? && "type" in r.fields && r.fields["type"] == Str(TypeLiteral(op))
    ensures !op.UpdateConfiguration? ==> r.fields.Keys == {"type"}
  {
    match op
    case TerminateSession => Obj(map["type" := Str("Terminate")])
    case ForceEndpoint => Obj(map["type" := Str("ForceEndpoint")])
    case UpdateConfiguration(p) => Obj(SessionFields(p)["type" := Str("UpdateConfiguration")])
  }

  /** An UpdateConfiguration message carries exactly the parameters that are set, with their values, and no nulls. */
  lemma UpdateConfigurationJson(p: SessionParameters)
    ensures var f := OperationJson(UpdateConfiguration(p)).fields;
      && (forall k :: k in f ==> f[k] != Null)
      && (p.endOfTurnConfidenceThreshold.Some? <==> "end_of_turn_confidence_threshold" in f)
      && (p.endOfTurnConfidenceThreshold.Some? ==> f["end_of_turn_confidence_threshold"] == Real(p.endOfTurnConfidenceThreshold.value))
      && (p.minEndOfTurnSilenceWhenConfident.Some? <==> "min_end_of_turn_silence_when_confident" in f)
      && (p.minEndOfTurnSilenceWhenConfident.Some? ==> f["min_end_of_turn_silence_when_confident"] == Int(p.minEndOfTurnSilenceWhenConfident.value))
      && (p.maxTurnSilence.Some? <==> "max_turn_silence" in f)
      && (p.maxTurnSilence.Some? ==> f["max_turn_silence"] == Int(p.maxTurnSilence.value))
      && (p.formatTurns.Some? <==> "format_turns" in f)
      && (p.formatTurns.Some? ==> f["format_turns"] == Bool(p.formatTurns.value))
      && f.Keys <= {"type", "end_of_turn_confidence_threshold", "min_end_of_turn_silence_when_confident", "max_turn_silence", "format_turns"}
  {
    SessionFieldsShape(p);
  }

  /** The session parameters as an object, before the `type` key is added. */
  lemma SessionFieldsShape(p: SessionParameters)
    ensures var f := SessionFields(p);
      && (forall k :: k in f ==> f[k] != Null)
      && (p.endOfTurnConfidenceThreshold.Some? <==> "end_of_turn_confidence_threshold" in f)
      && (p.endOfTurnConfidenceThreshold.Some? ==> f["end_of_turn_confidence_threshold"] == Real(p.endOfTurnConfidenceThreshold.value))
      && (p.minEndOfTurnSilenceWhenConfident.Some? <==> "min_end_of_turn_silence_when_confident" in f)
      && (p.minEndOfTurnSilenceWhenConfident.Some? ==> f["min_end_of_turn_silence_when_confident"] == Int(p.minEndOfTurnSilenceWhenConfident.value))
      && (p.maxTurnSilence.Some? <==> "max_turn_silence" in f)
      && (p.maxTurnSilence.Some? ==> f["max_turn_silence"] == Int(p.maxTurnSilence.value))
      && (p.formatTurns.Some? <==> "format_turns" in f)
      && (p.formatTurns.Some? ==> f["format_turns"] == Bool(p.formatTurns.value))
      && f.Keys <= {"end_of_turn_confidence_threshold", "min_end_of_turn_silence_when_confident", "max_turn_silence", "format_turns"}
  {
  }

  /** The query pairs before `sample_rate` are exactly the entries of the session
      parameters' JSON object: the same keys with the same values. */
  lemma ParameterPairsMatchSessionFields(p: StreamingParameters)
    ensures var r := ParameterPairs(p);
      forall kv :: kv in r[..|r| - 1] <==> kv.0 in SessionFields(p.session) && SessionFields(p.session)[kv.0] == kv.1
  {
    var r, s := ParameterPairs(p), p.session;
    assert r[..|r| - 1] == SessionPairs(s);
    FourPairs("end_of_turn_confidence_threshold", "min_end_of_turn_silence_when_confident", "max_turn_silence", "format_turns",
              ThresholdEntry(s), ConfidentSilenceEntry(s), MaxSilenceEntry(s), FormatTurnsEntry(s));
  }

  /** Four optional pairs with distinct keys agree with the object they are added to, in turn. */
  lemma FourPairs(k1: string, k2: string, k3: string, k4: string,
                  e1: seq<(string, Value)>, e2: seq<(string, Value)>, e3: seq<(string, Value)>, e4: seq<(string, Value)>)
    requires k1 != k2 && k1 != k3 && k1 != k4 && k2 != k3 && k2 != k4 && k3 != k4
    requires |e1| <= 1 && |e2| <= 1 && |e3| <= 1 && |e4| <= 1
    requires (e1 != [] ==> e1[0].0 == k1) && (e2 != [] ==> e2[0].0 == k2)
    requires (e3 != [] ==> e3[0].0 == k3) && (e4 != [] ==> e4[0].0 == k4)
    ensures var m := PutPair(PutPair(PutPair(PutPair(map[], e1), e2), e3), e4);
      forall kv :: kv in e1 + e2 + e3 + e4 <==> kv.0 in m && m[kv.0] == kv.1
  {
    var m0: map<string, Value> := map[];
    var m1 := PutPair(m0, e1);
    var m2 := PutPair(m1, e2);
    var m3 := PutPair(m2, e3);
    PairsExtend([], m0, e1);
    assert m1.Keys <= {k1};
    PairsExtend(e1, m1, e2);
    assert m2.Keys <= {k1, k2};
    PairsExtend(e1 + e2, m2, e3);
    assert m3.Keys <= {k1, k2, k3};
    PairsExtend(e1 + e2 + e3, m3, e4);
  }

  /** The object a run of pairs is added to: the one pair, if any, becomes an entry. */
  function PutPair(m: map<string, Value>, extra: seq<(string, Value)>): map<string, Value>
    requires |extra| <= 1
  {
    if extra == [] then m else m[extra[0].0 := extra[0].1]
  }

  /** Adding a pair with a new key to both keeps a pair list and an object in agreement. */
  lemma PairsExtend(pairs: seq<(string, Value)>, m: map<string, Value>, extra: seq<(string, Value)>)
    requires |extra| <= 1 && (extra != [] ==> extra[0].0 !in m)
    requires forall kv :: kv in pairs <==> kv.0 in m && m[kv.0] == kv.1
    ensures forall kv :: kv in pairs + extra <==> kv.0 in PutPair(m, extra) && PutPair(m, extra)[kv.0] == kv.1
  {
  }

  // ---------------------------------------------------------------- options, errors, close codes

  const DefaultApiHost: string := "streaming.assemblyai.com"

  datatype StreamingClientOptions = StreamingClientOptions(apiHost: string, apiKey: Option<string>, token: Option<string>)

  /** `StreamingClientOptions(...)` with the arguments the caller passed; an omitted host takes the default. */
  function MakeOptions(apiHost: Option<string>, apiKey: Option<string>, token: Option<string>): (o: StreamingClientOptions)
    ensures o.apiHost == (if apiHost.Some? then apiHost.value else DefaultApiHost)
    ensures o.apiKey == apiKey && o.token == token
  {
    StreamingClientOptions(if apiHost.Some? then apiHost.value else DefaultApiHost, apiKey, token)
  }

  /** What error handlers receive: a message and, for transport closes, a code. */
  datatype StreamingError = StreamingError(message: string, code: Option<int>)

  /** The close codes the table of known close codes lists. */
  const ErrorCodes: set<int> := {4000, 4001, 4002, 4003, 4004, 4008, 4010, 4029, 4030, 4031, 4032, 4033, 4034, 4100, 4101, 4102, 4103, 1013}

  /** The message the table gives a listed code. */
  function ErrorText(code: int): string {
    if code == 4000 then "Sample rate must be a positive integer"
    else if code == 4001 then "Not Authorized"
    else if code == 4002 then "Insufficient Funds"
    else if code == 4003 then "This feature is paid-only and requires you to add a credit card.\n    Please visit https://app.assemblyai.com/ to add a credit card to your account"
    else if code == 4004 then "Session Not Found"
    else if code == 4008 then "Session Expired"
    else if code == 4010 then "Session Previously Closed"
    else if code == 4029 then "Client sent audio too fast"
    else if code == 4030 then "Session is handled by another websocket"
    else if code == 4031 then "Session idle for too long"
    else if code == 4032 then "Audio duration is too short"
    else if code == 4033 then "Audio duration is too long"
    else if code == 4034 then "Audio too small to transcode"
    else if code == 4100 then "Endpoint received invalid JSON"
    else if code == 4101 then "Endpoint received a message with an invalid schema"
    else if code == 4102 then "This account has exceeded the number of allowed streams"
    else if code == 4103 then "The session has been reconnected. This websocket is no longer valid."
    else if code == 1013 then "Temporary server condition forced blocking client's request"
    else ""
  }

  /** The known close codes and their messages. */
  const StreamingErrorCodes: map<int, string> := map code | code in ErrorCodes :: ErrorText(code)

  /** Eighteen entries, all application codes in 4000..4103 except the one
      registered code 1013 ("try again later"). */
  lemma ErrorCodesShape()
    ensures StreamingErrorCodes.Keys == ErrorCodes
    ensures forall k :: k in StreamingErrorCodes ==> (4000 <= k <= 4103) || k == 1013
  {
    forall k | k in StreamingErrorCodes
      ensures (4000 <= k <= 4103) || k == 1013
    {
      assert k in ErrorCodes;
    }
  }
}
