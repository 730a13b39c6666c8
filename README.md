# AssemblyAI Python SDK: streaming sessions, transcript groups and transcription config

This project is a Dafny model of the core of the AssemblyAI Python SDK. It covers four parts:

- **The v3 streaming client** (`assemblyai/streaming/v3/client.py`, `models.py`).
  - The wire models, their validation and the fixed `type` literals.
  - The outbound operation messages.
  - The error-code table.
  - `StreamingClient` itself: the handler table, the write queue, the stop event, and the two pump loops. Each loop is modelled one iteration at a time.
- **The v2 real-time transcriber** (`assemblyai/transcriber.py`, `_RealtimeTranscriberImpl`).
  - Base64 framing of audio chunks.
  - Routing of inbound messages to the `on_data` / `on_open` / `on_error` callbacks.
  - Turning close codes into error texts.
  - `connect`, `stream` and `close`, and the read and write loops.
- **Transcripts and transcript groups** (`assemblyai/transcriber.py`).
  - The polling loop of `wait_for_completion`, over a sequence of poll results.
  - The ordered member list of a group, and the status a group reports.
- **`TranscriptionConfig` and `TranscriptResponse`** (`assemblyai/types.py`).
  - The constructor and every setter and `set_*` helper, each specified by a function on the raw config record.
  - The clean-up `TranscriptResponse.__init__` applies to its arguments.
  - The v2 close-code table.

Decoded JSON is a `Json.Value`, and Python's `in`, `.get` and truth value are modelled on it. `json.dumps`, `urlencode` and the user-agent string are passed in as parameters. Anything the transport decides is an argument of the step that consumes it:

- a receive, timeout or close;
- a send that fails;
- a handshake that fails;
- a poll that raises.

Callbacks are recorded, in order, in a `calls` log of each object.

Files, one module each: `wrappers.dfy`, `json.dfy`, `base64.dfy` (section 4 of RFC 4648), `streaming_models.dfy`, `streaming_client.dfy`, `types.dfy`, `config.dfy`, `transcripts.dfy`, `realtime.dfy`.

## Model

| member | source | states |
|---|---|---|
| StreamingModels.Lookup | assemblyai/streaming/v3/models.py:116-120 | a name gives a member exactly when some member has that name, and the member found has it |
| StreamingModels.AllEventsComplete | assemblyai/streaming/v3/models.py:116-120 | StreamingEvents has exactly the four members Begin, Termination, Turn, Error |
| StreamingModels.ValidateWords | assemblyai/streaming/v3/models.py:8-13 | a validated word list has one word per JSON item |
| StreamingModels.WordsRoundTrip | assemblyai/streaming/v3/models.py:8-13 | every word list validates back to itself from its JSON form |
| StreamingModels.BeginRoundTrip | assemblyai/streaming/v3/models.py:26-29 | a Begin event validates back to itself from its JSON fields |
| StreamingModels.TerminationRoundTrip | assemblyai/streaming/v3/models.py:32-35 | a Termination event validates back to itself |
| StreamingModels.TurnRoundTrip | assemblyai/streaming/v3/models.py:16-23 | a Turn event, words included, validates back to itself |
| StreamingModels.ErrorRoundTrip | assemblyai/streaming/v3/models.py:38-39 | an Error event validates back to itself |
| StreamingModels.TypeDefaults | assemblyai/streaming/v3/models.py:16-35 | a missing `type` defaults to "Begin" / "Termination", but a Turn without `type` is rejected |
| StreamingModels.TerminationDefaults | assemblyai/streaming/v3/models.py:32-35 | both Termination durations are optional and default to None |
| StreamingModels.TurnFieldsRequired | assemblyai/streaming/v3/models.py:16-23 | removing any of the seven Turn fields makes validation fail |
| StreamingModels.ParameterPairs | assemblyai/streaming/v3/models.py:58-66 | connection parameters end with the mandatory sample_rate, and no pair carries None |
| StreamingModels.ParameterPairsMatchSessionFields | assemblyai/streaming/v3/client.py:74-75 | the query pairs before sample_rate are exactly the set session parameters, each with its value, as in their JSON object |
| StreamingModels.OperationJson | assemblyai/streaming/v3/models.py:50-78 | each control message carries its own `type` literal, and Terminate and ForceEndpoint carry nothing else |
| StreamingModels.SessionFieldsShape | assemblyai/streaming/v3/models.py:58-71 | a session parameter is a key exactly when it is set, with its value; no other key and no None |
| StreamingModels.UpdateConfigurationJson | assemblyai/streaming/v3/models.py:58-71 | UpdateConfiguration carries each session parameter exactly when it is set, with its value, and no None |
| StreamingModels.MakeOptions | assemblyai/streaming/v3/models.py:81-84 | api_host defaults to "streaming.assemblyai.com"; api_key and token are kept as given |
| StreamingModels.ErrorCodesShape | assemblyai/streaming/v3/models.py:93-113 | the table's keys are exactly the 18 listed close codes, all private-use codes in 4000..4103 except 1013 |
| StreamingClient.ParseEventType | assemblyai/streaming/v3/client.py:213-221 | only a string that names a member gives that member; anything else gives None |
| StreamingClient.ParseMessage | assemblyai/streaming/v3/client.py:194-211 | `type` is consulted before `error`; the result is validated against the model the type names; an unknown type or the Error name is unsupported; a message with neither key is unsupported; a scalar raises TypeError |
| StreamingClient.ParseMessageRoundTrip | assemblyai/streaming/v3/client.py:194-211 | every event the service sends is classified as itself |
| StreamingClient.TypeBeforeError | assemblyai/streaming/v3/client.py:195-209 | a message with both `type` and `error` is never read as an error event |
| StreamingClient.ParseError | assemblyai/streaming/v3/client.py:237-263 | a server error keeps its text without a code; a close other than 1000 carries its code, with the table text for listed private-use codes and the reason otherwise; 1000 gives "Unknown error: ..." |
| StreamingClient.ParseErrorCodes | assemblyai/streaming/v3/client.py:249-263 | a code is reported exactly for closes other than 1000, and 1013 reports the reason |
| StreamingClient.UntypedMessageCrashesAsWritten | assemblyai/streaming/v3/client.py:176-183 | as written, `{}` and `{"message": "hello"}` end the read pump with KeyError |
| StreamingClient.ReadAction | assemblyai/streaming/v3/client.py:176-183 | the corrected read decision: only a parse failure ends the pump, unsupported messages are skipped, error events are reported, the rest is dispatched |
| StreamingClient.ReadActionsAgree | assemblyai/streaming/v3/client.py:176-183 | the two read decisions differ exactly on unsupported messages without a `type` key |
| StreamingClient.FrameOf | assemblyai/streaming/v3/client.py:146-152 | bytes go out as a binary frame of the same bytes, models as their JSON text |
| StreamingClient.FramesAt | assemblyai/streaming/v3/client.py:136-155 | the k-th frame sent is the frame of the k-th item taken |
| StreamingClient.CallsFor | assemblyai/streaming/v3/client.py:191-192 | every registered handler is called once, in registration order |
| StreamingClient.Authorization | assemblyai/streaming/v3/client.py:78-81 | the token when it is truthy, otherwise the API key |
| StreamingClient.Request | assemblyai/streaming/v3/client.py:73-91 | the URL is `wss://{api_host}/v3/ws?{params}`; the three headers; AssemblyAI-Version "2025-05-12"; open timeout 15 |
| StreamingClient.EmptyHandlers | assemblyai/streaming/v3/client.py:63-66 | one empty handler list per member |
| StreamingClient.Client.constructor | assemblyai/streaming/v3/client.py:58-71 | empty handler lists, empty queue, no thread started, stop event clear |
| StreamingClient.Client.On | assemblyai/streaming/v3/client.py:132-134 | appends the handler to its event's list only when both are valid |
| StreamingClient.Client.Stream | assemblyai/streaming/v3/client.py:114-122 | queues every chunk, in order, keeping the queue FIFO |
| StreamingClient.Client.StreamBytes | assemblyai/streaming/v3/client.py:117-119 | a single bytes object is queued whole |
| StreamingClient.Client.SetParams | assemblyai/streaming/v3/client.py:124-126 | queues an UpdateConfiguration with the same parameters |
| StreamingClient.Client.ForceEndpoint | assemblyai/streaming/v3/client.py:128-130 | queues a ForceEndpoint |
| StreamingClient.Client.Connect | assemblyai/streaming/v3/client.py:73-97 | a handshake close goes to error handling and starts nothing; its disconnect changes nothing before a start, and after an earlier start waits for both pumps and then closes the earlier socket; otherwise both pumps start, and RuntimeError is raised when they already were |
| StreamingClient.Client.StartPumps | assemblyai/streaming/v3/client.py:95-96 | after an open handshake the socket is open and both pumps start; RuntimeError when they already were |
| StreamingClient.Client.Disconnect | assemblyai/streaming/v3/client.py:101-112 | Terminate is queued only while the stop event is clear; the socket closes once both pumps ended |
| StreamingClient.Client.HandleError | assemblyai/streaming/v3/client.py:223-235 | every Error handler gets the normalised error |
| StreamingClient.Client.HandleMessage | assemblyai/streaming/v3/client.py:185-192 | a Termination sets the stop event before its handlers run; the handlers of the message's kind are called in order |
| StreamingClient.Client.ReadStep | assemblyai/streaming/v3/client.py:157-183 | one read iteration: the stop event ends the loop, a close goes to error handling and ends it, a decoded message acts as ReadAction decides |
| StreamingClient.Client.WriteStep | assemblyai/streaming/v3/client.py:136-155 | one write iteration: the head is sent as its frame, refused with ValueError, or lost to a close, which goes to error handling |
| StreamingClient.Client.DrainQueue | assemblyai/streaming/v3/client.py:136-155 | with every send succeeding, the queue is sent in FIFO order as its frames; a non-sendable item ends the pump with ValueError |
| Types.MessageTypeOf | assemblyai/types.py:1860-1870 | a JSON value is a v2 message type exactly when it is one of the four strings, and maps back to it |
| Types.RealtimeTableKeys | assemblyai/types.py:1964-1984 | the v2 table lists exactly the codes of the v3 table except 4034 |
| Types.RealtimeTableTexts | assemblyai/types.py:1964-1984 | the two tables give every v2 code the same text |
| Types.CleanResult | assemblyai/types.py:1576-1590 | a missing or falsy result becomes None; a result whose flag is falsy and whose status is "unavailable" becomes None; a truthy result with a truthy flag, or an object result whose status is not "unavailable", leaves the data unchanged; every other key is kept; a truthy non-object result with a falsy flag raises AttributeError |
| Types.CleanResponse | assemblyai/types.py:1576-1590 | each result is what cleaning it alone gives; the rewrite raises (AttributeError) exactly when one of the two cleanings does; no other key changes |
| Types.CleanResponseIdempotent | assemblyai/types.py:1576-1590 | cleaning a cleaned response changes nothing |
| Types.UnavailableResultDropped | assemblyai/types.py:1578-1582 | an "unavailable" topic result without the feature flag is dropped |
| Config.WithFlag | assemblyai/types.py:610-902 | a plain flag setter sets its field and no other |
| Config.WithFlagLastWins | assemblyai/types.py:610-902 | setting a flag twice keeps the last value |
| Config.WithAutoChapters | assemblyai/types.py:833-843 | enabling auto chapters raises ValueError exactly when punctuation is explicitly off |
| Config.WithCasingAndFormatting | assemblyai/types.py:930-943 | sets punctuate and format_text together, and nothing else |
| Config.WithSpeakerDiarization | assemblyai/types.py:945-965 | disabling clears both fields; enabling sets the label flag and the count |
| Config.WithWebhook | assemblyai/types.py:967-995 | no URL clears all three fields; header name and value are written only when both are truthy |
| Config.WithWordBoost | assemblyai/types.py:1015-1049 | empty words clear both fields; otherwise the words and the boost are stored exactly as passed |
| Config.WithRedactPii | assemblyai/types.py:1051-1084 | disabling clears all four fields; enabling raises ValueError exactly when no policy is given |
| Config.WithContentSafety | assemblyai/types.py:742-774 | disabling clears both fields; enabling raises ValueError exactly when the confidence is outside 25..100, before any change |
| Config.SpellingRecord | assemblyai/types.py:1109-1122 | a lone spelling becomes a one-element list, and the key becomes `to` |
| Config.SpellingRecordsAt | assemblyai/types.py:1109-1122 | one record per entry, in order |
| Config.WithCustomSpelling | assemblyai/types.py:1086-1124 | None clears the field; override or a missing list restarts it; records are appended |
| Config.WithSummarize | assemblyai/types.py:1126-1165 | disabling clears the three fields; enabling raises ValueError exactly when punctuate or format_text is explicitly off |
| Config.Configure | assemblyai/types.py:472-585 | the constructor raises ValueError exactly under one of the four refusing setters' conditions |
| Config.DefaultConfigIsEmpty | assemblyai/types.py:543-585 | a default-constructed config has every field None |
| Config.ExplicitArgumentsOverwriteBase | assemblyai/types.py:543-585 | a passed raw config survives only in the webhook header pair; every other field is overwritten by the arguments |
| Config.TranscriptionConfig.Create | assemblyai/types.py:472-585 | the constructed object holds exactly what Configure computes, or the exception is raised |
| Config.TranscriptionConfig.SetFlag | assemblyai/types.py:610-902 | the record becomes WithFlag of the old one |
| Config.TranscriptionConfig.SetLanguageCode | assemblyai/types.py:598-602 | sets language_code and nothing else |
| Config.TranscriptionConfig.SetAutoChapters | assemblyai/types.py:833-843 | applies WithAutoChapters, and leaves the record unchanged when it raises |
| Config.TranscriptionConfig.SetCasingAndFormatting | assemblyai/types.py:930-943 | applies WithCasingAndFormatting |
| Config.TranscriptionConfig.SetSpeakerDiarization | assemblyai/types.py:945-965 | applies WithSpeakerDiarization |
| Config.TranscriptionConfig.SetWebhook | assemblyai/types.py:967-995 | applies WithWebhook |
| Config.TranscriptionConfig.SetAudioSlice | assemblyai/types.py:997-1013 | sets both slice bounds and nothing else |
| Config.TranscriptionConfig.SetWordBoost | assemblyai/types.py:1015-1049 | ends in WithWordBoost of the old record, although it writes a default boost first |
| Config.TranscriptionConfig.SetRedactPii | assemblyai/types.py:1051-1084 | applies WithRedactPii, unchanged on ValueError |
| Config.TranscriptionConfig.SetContentSafety | assemblyai/types.py:742-774 | applies WithContentSafety, unchanged on ValueError |
| Config.TranscriptionConfig.SetCustomSpelling | assemblyai/types.py:1086-1124 | the appending loop ends in WithCustomSpelling of the old record |
| Config.TranscriptionConfig.SetSummarize | assemblyai/types.py:1126-1165 | applies WithSummarize, unchanged on ValueError |
| Transcripts.Poll | assemblyai/transcriber.py:78-92 | a fetched response replaces the transcript; a failed poll rebuilds it with status error and the exception text, or raises AttributeError when there is none |
| Transcripts.Wait | assemblyai/transcriber.py:73-101 | the loop ends settled on completed or error, raises only on a failed first poll without a transcript, and uses at most the polls given |
| Transcripts.WaitSplits | assemblyai/transcriber.py:78-99 | polling a concatenation is polling the first part and, if that did not settle, continuing with the rest |
| Transcripts.WaitIgnoresLaterPolls | assemblyai/transcriber.py:94-98 | once the loop stops, later poll results are never consulted |
| Transcripts.StopsAtFirstSettled | assemblyai/transcriber.py:94-98 | the loop stops at the first settled poll |
| Transcripts.FailedPollSettlesAsError | assemblyai/transcriber.py:84-92 | a failed poll after a response settles as an error carrying the exception text |
| Transcripts.Transcript.Status | assemblyai/transcriber.py:336-339 | the held response's status, or AttributeError when none is held |
| Transcripts.Transcript.WaitForCompletion | assemblyai/transcriber.py:73-101 | the loop leaves the transcript, poll count and ending that Wait computes |
| Transcripts.GroupStatus | assemblyai/transcriber.py:587-603 | the most severe status present, completed for an empty group |
| Transcripts.GroupStatusIsMostSevere | assemblyai/transcriber.py:594-603 | the group status is the only status present that is at least as severe as every member |
| Transcripts.GroupStatusPrecedence | assemblyai/transcriber.py:594-603 | error if any is error, else queued if any is queued, else processing if any is processing, else completed, in both directions |
| Transcripts.GroupStatusUnion | assemblyai/transcriber.py:594-603 | merging two groups reports the more severe of their statuses |
| Transcripts.GroupStatusExamples | tests/unit/test_transcript_group.py:62-72 | completed; then queued; queued with processing stays queued; adding an error gives error |
| Transcripts.TranscriptGroup.constructor | assemblyai/transcriber.py:493-503 | one new, unfetched transcript per id, in order |
| Transcripts.TranscriptGroup.TranscriptIds | assemblyai/transcriber.py:505-507 | the members' ids in insertion order |
| Transcripts.TranscriptGroup.AddTranscript | assemblyai/transcriber.py:509-520 | a transcript or an id appends exactly one element at the end; any other type raises TypeError and changes nothing |
| Transcripts.TranscriptGroup.Status | assemblyai/transcriber.py:587-603 | GroupStatus of the set of member statuses, or AttributeError when a member holds no response |
| Realtime.EncodeData | assemblyai/transcriber.py:1111-1122 | a chunk goes out as an object with the single key `audio_data`, holding a string |
| Realtime.EncodeDataRoundTrip | assemblyai/transcriber.py:1111-1122 | base64-decoding `audio_data` gives back the chunk |
| Realtime.EncodeDataExamples | tests/unit/test_realtime_transcriber.py:196-227 | [1,2,3,4,5] is framed as "AQIDBAU=" and [6,7,8,9,10] as "BgcICQo=" |
| Realtime.FrameOf | assemblyai/transcriber.py:1100-1105 | a dict goes out as itself, bytes through `_encode_data` |
| Realtime.FramesAt | assemblyai/transcriber.py:1088-1109 | the k-th frame sent is the frame of the k-th item taken |
| Realtime.WriteTestFrames | tests/unit/test_realtime_transcriber.py:194-227 | two queued chunks go out as their two base64 frames, in order |
| Realtime.RouteMessage | assemblyai/transcriber.py:1124-1150 | Partial and Final go to on_data; SessionBegins goes to on_open only when one is set; SessionTerminated stops; an `error` key goes to on_error only without `message_type`; a non-object raises TypeError or is ignored |
| Realtime.MessageTypeWins | assemblyai/transcriber.py:1135-1148 | a typed message is routed by its type alone, even with an `error` key |
| Realtime.UnknownMessageTypeIgnored | assemblyai/transcriber.py:1135-1148 | an unknown message_type calls nothing |
| Realtime.CloseText | assemblyai/transcriber.py:1161-1164 | codes 4000..4999 are looked up in the table, so an unlisted one raises KeyError; other codes use the reason |
| Realtime.UnlistedCodesRaise | assemblyai/transcriber.py:1161-1162 | 4005 and 4034 raise KeyError |
| Realtime.CloseTextAgreesWithStreaming | assemblyai/transcriber.py:1161-1167 | wherever v2 reports a close, it reports the same text as the v3 client |
| Realtime.ErrorCalls | assemblyai/transcriber.py:1166-1169 | on_error is called exactly when the code is not 1000, and on_close last when close returns |
| Realtime.WebSocketBaseKeeps | assemblyai/transcriber.py:1017 | a URL without "https" is unchanged by the replacement |
| Realtime.WebSocketBaseSecure | assemblyai/transcriber.py:1017 | "https" + host becomes "wss" + host |
| Realtime.ConnectParams | assemblyai/transcriber.py:1010-1015 | sample_rate always comes first; word_boost comes as JSON only when the list is not empty |
| Realtime.Request | assemblyai/transcriber.py:1017-1026 | URL `{wss base}/v2/realtime/ws?{params}`; only the Authorization header, "None" without a key; the timeout as given |
| Realtime.SecureRequestUri | assemblyai/transcriber.py:1017-1026 | an https base URL gives the wss endpoint of the same host |
| Realtime.RealtimeTranscriber.constructor | assemblyai/transcriber.py:974-998 | empty queue, no thread started, stop event clear |
| Realtime.RealtimeTranscriber.Connect | assemblyai/transcriber.py:1000-1035 | a failed handshake reports "Could not connect to the real-time service: ..." and starts nothing; otherwise both pumps start, and RuntimeError is raised when they already were |
| Realtime.RealtimeTranscriber.Stream | assemblyai/transcriber.py:1223-1240 | a bytes object is queued whole, an iterable chunk by chunk in order |
| Realtime.RealtimeTranscriber.Handshake | assemblyai/transcriber.py:1019-1035 | a failed handshake reports "Could not connect to the real-time service: ..." to on_error; an open one starts both pumps, or raises RuntimeError when they already were |
| Realtime.RealtimeTranscriber.PutAll | assemblyai/transcriber.py:1239-1240 | every chunk is appended to the queue, in iteration order |
| Realtime.RealtimeTranscriber.Put | assemblyai/transcriber.py:1037-1042 | the chunk is appended to the queue |
| Realtime.RealtimeTranscriber.Close | assemblyai/transcriber.py:1044-1059 | terminate_session is queued only while the stop event is clear; joins raising on the calling pump thread are swallowed; the socket closes only after both pumps ended; on_close last |
| Realtime.RealtimeTranscriber.CloseSession | assemblyai/transcriber.py:1242-1247 | the public close always asks for termination |
| Realtime.RealtimeTranscriber.HandleError | assemblyai/transcriber.py:1152-1169 | on_error unless the code is 1000, then close on the pump thread; an unlisted code raises KeyError out of the pump instead |
| Realtime.RealtimeTranscriber.ResumeWriterClose | assemblyai/transcriber.py:1052-1059 | a write thread inside close returns once the read pump ended, then calls on_close |
| Realtime.RealtimeTranscriber.HandleMessage | assemblyai/transcriber.py:1124-1150 | the state changes as RouteMessage decides, and an exception is returned |
| Realtime.RealtimeTranscriber.ReadStep | assemblyai/transcriber.py:1061-1086 | one read iteration: stop ends the loop; undecodable text goes to on_error; a close ends the loop and goes to error handling; a message is routed |
| Realtime.RealtimeTranscriber.WriteStep | assemblyai/transcriber.py:1088-1109 | one write iteration: the head is sent as its frame, refused with ValueError, or lost to a close, which goes to error handling |
| Realtime.RealtimeTranscriber.DrainQueue | assemblyai/transcriber.py:1088-1109 | with every send succeeding, the queue is sent in FIFO order; an unsupported item ends the pump with ValueError |
| Base64.EncodeLength | assemblyai/transcriber.py:1111-1122 | four characters for every started group of three bytes |
| Base64.EncodeAlphabet | assemblyai/transcriber.py:1111-1122 | the encoding uses only the base64 alphabet and `=`, and `=` only in the last two places |
| Base64.DecodeEncode | assemblyai/transcriber.py:1111-1122 | decoding the encoding of any byte string gives it back |

## Left out

- Threads, `threading.Event`, `queue.Queue` timeouts and `join` are not modelled as concurrency. Each pump iteration is a step method; a blocking `join` is a `returned` flag that is false while it would still wait.
- StreamingClient.Client.HandleError: the `disconnect()` it runs from the write thread first waits for the read pump. The model treats it as returning at once; the only difference is timing, because the join of the write thread then raises before the socket is closed, so it changes no state. The disconnect on the calling thread after a handshake close is modelled in StreamingClient.Client.Connect.
- StreamingClient.Client.ReadStep: the read pump uses the corrected ReadAction, so it skips an unsupported message without a `type` key where the source ends the pump with KeyError; the as-written behaviour is StreamingClient.UntypedMessageCrashesAsWritten (see Findings).
- The WebSocket library and every HTTP call are out of scope. This includes `create_temporary_token`, `_HTTPClient`, `api.get_transcript`, the transcript submission paths, LeMUR and `Client.get_default`. Their outcomes are parameters: `Incoming`, `SendOutcome`, `ConnectOutcome`, `PollResult`.
- v3 `connect` lets handshake exceptions other than a close propagate. The model only has the open and the close outcomes.
- `json.loads`, `json.dumps`, `urlencode`, `datetime` parsing of `expires_at`, and pydantic coercion and validation of the v2 message models. Frames carry structured JSON values, and `urlencode` and `json.dumps` are function parameters.
- Floats are `real` values without rounding. `speech_threshold` is not modelled.
- Callback and handler side effects, re-entrancy, and exceptions raised inside callbacks are not modelled. Each call is an entry in `calls`.
- Logging (`logger.warning`, `logger.debug`).
- Transcripts.Transcript.WaitForCompletion: the polling interval sleep is not modelled. The loop runs over a finite sequence of poll results, and `StillPending` reports that they ran out before a settled status. The rebuilt error response is not run through the `TranscriptResponse` clean-up again; Types.CleanResponseIdempotent shows a second clean-up of a cleaned response changes nothing.
- `_TranscriptGroupImpl.wait_for_completion` and the other executor-based async helpers are not modelled (thread pools).
- The `custom_spelling` getter is not modelled. It keys a dict by the `from` list, which Python cannot hash, while the tests expect `to` mapped to the spellings.
- `TranscriptionConfig` getters are plain reads of the record. `SpeakerOptions`, language-detection options and multichannel are not part of the config class modelled here.
- The stale packaging copy under `build/` and `assemblyai/extras.py` (audio file and microphone I/O) are not part of this model.
- Settings and environment loading, `setup.py`, and the package re-exports.
- Aliasing of a `raw_transcription_config` passed to the constructor is not modelled: the record is a value.

## Findings

| source | as written | input that shows it | evidently intended | confidence | as-written member | corrected member |
|---|---|---|---|---|---|---|
| assemblyai/streaming/v3/client.py:183 | an unsupported message is logged with `message_json['type']`, which raises KeyError when the message has no `type` key and ends the read pump | the decoded message `{}` (or `{"message": "hello"}`) | log and skip the message, as for an unknown `type` | not executed | StreamingClient.UntypedMessageCrashesAsWritten | StreamingClient.ReadAction |
