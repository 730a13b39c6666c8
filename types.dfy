/** The enumerations and tables of assemblyai/types.py that the modelled code
    uses, the real-time close-code table, and the clean-up `TranscriptResponse`
    applies to a response before validating it. */
module Types {
  import opened Wrappers
  import opened Json
  import StreamingModels

  datatype TranscriptStatus = Queued | Processing | Completed | Error

  function StatusValue(s: TranscriptStatus): string {
    match s
    case Queued => "queued"
    case Processing => "processing"
    case Completed => "completed"
    case Error => "error"
  }

  datatype WordBoost = Low | Default | High
  datatype PIISubstitutionPolicy = Hash | EntityName
  datatype SummarizationModel = Informative | Conversational | Catchy
  datatype SummarizationType = Bullets | BulletsVerbose | Gist | Headline | Paragraph

  /** The `message_type` values of the v2 real-time protocol. */
  datatype RealtimeMessageTypes = PartialTranscript | FinalTranscript | SessionBegins | SessionTerminated

  function MessageTypeValue(t: RealtimeMessageTypes): string {
    match t
    case PartialTranscript => "PartialTranscript"
    case FinalTranscript => "FinalTranscript"
    case SessionBegins => "SessionBegins"
    case SessionTerminated => "SessionTerminated"
  }

  /** The member whose value equals a JSON value (an enum member compares equal to its string). */
  function MessageTypeOf(v: Value): (r: Option<RealtimeMessageTypes>)
    ensures r.Some? <==> (v.Str? && v.s in {"PartialTranscript", "FinalTranscript", "SessionBegins", "SessionTerminated"})
    ensures r.Some? ==> v == Str(MessageTypeValue(r.value))
  {
    if v == Str("PartialTranscript") then Some(PartialTranscript)
    else if v == Str("FinalTranscript") then Some(FinalTranscript)
    else if v == Str("SessionBegins") then Some(SessionBegins)
    else if v == Str("SessionTerminated") then Some(SessionTerminated)
    else None
  }

  /** The close codes the v2 close-code table lists. */
  const RealtimeErrorCodes: set<int> := {4000, 4001, 4002, 4003, 4004, 4008, 4010, 4029, 4030, 4031, 4032, 4033, 4100, 4101, 4102, 4103, 1013}

  /** The message the v2 table gives a listed code. */
  function RealtimeErrorText(code: int): string {
    if code == 4000 then "Sample rate must be a positive integer"
    else if code == 4001 then "Not Authorized"
    else if code == 4002 then "Insufficient Funds"
    else if code == 4003 then "This feature is paid-only and requires you to add a credit card.\n    Please visit https://app.assemblyai.com/ to add a credit card to your account"
    else if code == 4004 then "Session Not Found"
    else if code == 4008 then "Session Expired"
    else if code == 4010 then "Session Previously Closed"
    else if code == 4029 then "Client sent audio too fast"
    else if code == 4030 then "Session is handled by another websocket"
    else if code == 4031 then "Session idle for too long"
    else if code == 4032 then "Audio duration is too short"
    else if code == 4033 then "Audio duration is too long"
    else if code == 4100 then "Endpoint received invalid JSON"
    else if code == 4101 then "Endpoint received a message with an invalid schema"
    else if code == 4102 then "This account has exceeded the number of allowed streams"
    else if code == 4103 then "The session has been reconnected. This websocket is no longer valid."
    else if code == 1013 then "Temporary server condition forced blocking client's request"
    else ""
  }

  const RealtimeErrorMapping: map<int, string> := map code | code in RealtimeErrorCodes :: RealtimeErrorText(code)

  /** The v2 table lists the codes of the v3 table except 4034. */
  lemma RealtimeTableKeys()
    ensures 4034 !in RealtimeErrorMapping && 4034 in StreamingModels.StreamingErrorCodes
    ensures RealtimeErrorMapping.Keys == StreamingModels.StreamingErrorCodes.Keys - {4034}
  {
    assert RealtimeErrorCodes == StreamingModels.ErrorCodes - {4034};
  }

  /** The two tables give every code of the v2 table the same message. */
  lemma RealtimeTableTexts()
    ensures forall k :: k in RealtimeErrorMapping ==> RealtimeErrorMapping[k] == StreamingModels.StreamingErrorCodes[k]
  {
    forall k | k in RealtimeErrorMapping
      ensures RealtimeErrorMapping[k] == StreamingModels.StreamingErrorCodes[k]
    {
      assert k in RealtimeErrorCodes && k in StreamingModels.ErrorCodes;
      assert RealtimeErrorText(k) == StreamingModels.ErrorText(k);
    }
  }

  // ---------------------------------------------------------------- TranscriptResponse clean-up

  /** One half of the clean-up: the result under `resultKey` is replaced by None when it is
      missing or falsy, or when the feature flag under `flagKey` is falsy and the result's
      status is "unavailable". Reading the status of a truthy result that is not an object raises. */
  function CleanResult(data: map<string, Value>, flagKey: string, resultKey: string): (r: Result<map<string, Value>>)
    requires flagKey != resultKey
    ensures r.Ok? ==> r.value.Keys == data.Keys + {resultKey}
    ensures r.Ok? ==> forall k :: k in data && k != resultKey ==> r.value[k] == data[k]
    ensures r.Ok? ==> r.value[resultKey] == Null || (resultKey in data && r.value[resultKey] == data[resultKey])
    ensures !Truthy(Get(data, resultKey)) ==> r == Ok(data[resultKey := Null])
    ensures r.Ok? && r.value[resultKey] != Null ==>
      Truthy(Get(data, flagKey)) || (data[resultKey].Obj? && Get(data[resultKey].fields, "status") != Str("unavailable"))
    ensures Truthy(Get(data, resultKey)) &&
      (Truthy(Get(data, flagKey)) || (data[resultKey].Obj? && Get(data[resultKey].fields, "status") != Str("unavailable")))
      ==> r == Ok(data)
    ensures r.Raised? <==> Truthy(Get(data, resultKey)) && !Truthy(Get(data, flagKey)) && !data[resultKey].Obj?
    ensures r.Raised? ==> r.exc == AttributeError
  {
    var result := Get(data, resultKey);
    if !Truthy(result) then Ok(data[resultKey := Null])
    else if Truthy(Get(data, flagKey)) then Ok(data)
    else if !result.Obj? then Raised(AttributeError)
    else if Get(result.fields, "status") == Str("unavailable") then Ok(data[resultKey := Null])
    else Ok(data)
  }

  /** `TranscriptResponse.__init__`'s rewrite of its keyword arguments, before validation. */
  function CleanResponse(data: map<string, Value>): (r: Result<map<string, Value>>)
    ensures r.Ok? ==> r.value.Keys == data.Keys + {"iab_categories_result", "content_safety_labels"}
    ensures r.Ok? ==> forall k :: k in data && k !in {"iab_categories_result", "content_safety_labels"} ==> r.value[k] == data[k]
    ensures r.Ok? <==>
      CleanResult(data, "iab_categories", "iab_categories_result").Ok? && CleanResult(data, "content_safety", "content_safety_labels").Ok?
    ensures r.Ok? ==>
      r.value["iab_categories_result"] == CleanResult(data, "iab_categories", "iab_categories_result").value["iab_categories_result"]
    ensures r.Ok? ==>
      r.value["content_safety_labels"] == CleanResult(data, "content_safety", "content_safety_labels").value["content_safety_labels"]
    ensures r.Raised? ==> r.exc == AttributeError
  {
    match CleanResult(data, "iab_categories", "iab_categories_result")
    case Raised(e) => Raised(e)
    case Ok(d) =>
      CleanResultLocal(data, d, "content_safety", "content_safety_labels");
      CleanResult(d, "content_safety", "content_safety_labels")
  }

  /** Cleaning one result reads only that result and its flag. */
  lemma CleanResultLocal(a: map<string, Value>, b: map<string, Value>, flagKey: string, resultKey: string)
    requires flagKey != resultKey
    requires Get(a, flagKey) == Get(b, flagKey) && Get(a, resultKey) == Get(b, resultKey)
    ensures CleanResult(a, flagKey, resultKey).Ok? == CleanResult(b, flagKey, resultKey).Ok?
    ensures CleanResult(a, flagKey, resultKey).Ok? ==>
      CleanResult(a, flagKey, resultKey).value[resultKey] == CleanResult(b, flagKey, resultKey).value[resultKey]
  {
  }

  /** Cleaning a cleaned response changes nothing. */
  lemma CleanResultIdempotent(data: map<string, Value>, flagKey: string, resultKey: string)
    requires flagKey != resultKey && CleanResult(data, flagKey, resultKey).Ok?
    ensures CleanResult(CleanResult(data, flagKey, resultKey).value, flagKey, resultKey) == CleanResult(data, flagKey, resultKey)
  {
    var d := CleanResult(data, flagKey, resultKey).value;
    if d[resultKey] != Null {
      assert d == data;
    } else {
      assert d[resultKey := Null] == d;
    }
  }

  lemma {:induction false} CleanResponseIdempotent(data: map<string, Value>)
    requires CleanResponse(data).Ok?
    ensures CleanResponse(CleanResponse(data).value) == CleanResponse(data)
  {
    var d1 := CleanResult(data, "iab_categories", "iab_categories_result").value;
    var d2 := CleanResult(d1, "content_safety", "content_safety_labels").value;
    CleanResultIdempotent(data, "iab_categories", "iab_categories_result");
    CleanResultIdempotent(d1, "content_safety", "content_safety_labels");
    CleanResultStable(d1, d2, "iab_categories", "iab_categories_result");
    CleanResultStable(d2, d2, "content_safety", "content_safety_labels");
  }

  /** A map that agrees with a clean one on the flag and the result is clean too. */
  lemma CleanResultStable(a: map<string, Value>, b: map<string, Value>, flagKey: string, resultKey: string)
    requires flagKey != resultKey && CleanResult(a, flagKey, resultKey) == Ok(a)
    requires resultKey in b && Get(b, flagKey) == Get(a, flagKey) && Get(b, resultKey) == Get(a, resultKey)
    ensures CleanResult(b, flagKey, resultKey) == Ok(b)
  {
    if b[resultKey] == Null {
      assert b[resultKey := Null] == b;
    }
  }

  /** A result the service marked unavailable for a feature that was not requested is dropped. */
  lemma UnavailableResultDropped(data: map<string, Value>)
    requires "iab_categories" !in data
    requires "iab_categories_result" in data && data["iab_categories_result"] == Obj(map["status" := Str("unavailable")])
    ensures CleanResult(data, "iab_categories", "iab_categories_result") == Ok(data["iab_categories_result" := Null])
  {
  }
}
