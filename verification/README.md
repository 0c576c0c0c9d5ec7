# Verified model of the agent platform

This project models, in Dafny, the parts of the platform whose correctness is a statement about whole runs, whole
streams or every input, and proves those statements. It follows the code, branch by branch; where a docstring says
something else, the code wins and the difference is listed below.

| module | models |
|---|---|
| `Resilience`, `Opa`, `OpaConcurrency` | the circuit breaker and the fail-closed authorization client, with a real-valued clock and an arbitrary sequence of replies: one call, calls one after another, and calls that overlap at every await |
| `CacheKey`, `ToolCache` | cache keys, the Redis cache and the `cached_tool` wrapper, as interleaved calls that share one store |
| `Unicode`, `Json`, `WireFrames` | Python strings, UTF-16 text, JSON printing and reading, and the line frames of the data stream |
| `StreamEncoding`, `StreamProperties`, `StreamContents`, `ChatService` | the stateful encoder, what it guarantees over every event sequence, what its frames carry, and the service that drives it |
| `JsText`, `SqlMarkers`, `DashboardStream`, `SqlFormat` | the dashboard: SQL markers taken out of the reasoning text, and SQL display formatting |
| `McpBridge` | the reconnecting bridge: loops, `connect`, `disconnect` and tool calls interleave at every await |
| `OrphanFiles`, `PyText` | the import worklist and the mapping from dotted names to files |
| `Base64`, `AgentContext` | the signed context header |
| `PaymentsLedger`, `NameResolution` | payment aggregation and tiered name resolution |
| `ChartPostProcess`, `PlanResults` | chart post-processing, plan result keys, the merge loop and the state reducers |
| `Common`, `Decimal`, `Order` | small shared definitions: options, decimal printing, code-point order |

Classes are used where the source updates fields in place (`CircuitBreaker`, `OpaClient`, `ToolResultCache`,
`DataStreamEncoder`, `ChatService`, `MCPToolBridge`, chart components); each of their methods is proved equal to a
step of a specification function, and the properties are proved about runs of that function. Pure code is functions
and lemmas. Loops of the source are loops here.

The environment is explicit. Clock readings, replies, failures, the order in which awaits resume, the digest
(`sha256`), the MAC (`hmac`), `uuid4` and `str` are parameters. The digest is assumed free of collisions only where a
statement says so (`CollisionFree`), the MAC is only assumed to print hex digits (`HexOutput`), and ids are only
assumed distinct where a statement says so (`Injective`).

## What is false as promised, and the exact condition

* The bridge documents a back-off that starts at 1 second. After the first exception that the handler sees it is 2,
  because the counter is incremented before the delay is computed (`McpBridge.DelaySchedule`); with safe connecting, see
  below, it is 1 only after an exception that the exit stack suppressed (`McpBridge.SleptExactly`,
  `McpBridge.SleepsAfterException`).
* The breaker documents one probe after recovery. It has no state for a probe under way. In an outage, up to the next
  recovery, exactly the calls that begin before the first failure is recorded pass it (`OpaConcurrency.PassesIff`). If all
  calls end and none is cancelled, there is one request if and only if one such call begins and only one attempt is
  allowed or its failure is not retried (`OpaConcurrency.OneProbeIff`, at an input `OpaConcurrency.TwoProbes`). With at
  most c calls at a time the traffic of an outage has a bound (`OpaConcurrency.OverlapBound`), which is reached when the
  sleep is zero (`OpaConcurrency.OverlapBoundReached`); for calls one after another the traffic is stated exactly, with
  the sleep between attempts (`Opa.CanSendIff`).
* `is_connected` is documented as live and ready. The session is set before `initialize()` has finished: a run ends
  connected but not initialized (`McpBridge.ConnectedTooEarly`). When it is true, the loop is holding the connection if
  and only if the session is initialized and not being closed (`McpBridge.ConnectedUsableIff`).
* `disconnect` is documented as safe. Connecting keeps it so if and only if the last loop has ended and no pending
  `disconnect` awaits a loop that ended cleanly (`McpBridge.ConnectSafeIff`); under that condition a `disconnect` that
  returns leaves nothing behind (`McpBridge.DisconnectedMeansEnded`), and two runs show what goes wrong otherwise.
* A plan of the tool caller is meant to store one result for each step. The node returns if and only if every step is a
  dictionary with a dictionary of parameters, each client name that counts as true is hashable, and, where a search for
  similar names takes place, these are strings; otherwise it raises and the results of all steps are lost. When it
  returns, there is one result for each step if and only if no await of a known tool was cancelled
  (`PlanResults.CallTools`, `PlanResults.ScanIff`, `PlanResults.StepReportedIff`, at an input
  `PlanResults.ListValuedName`).
* The model's own session id is documented as discarded. It and a token are, exactly when there are a trusted id and a
  user context (`McpBridge.ModelCannotChooseSessionIff`).
* Tool results carry announced ids exactly when the tool is not named like the node that runs the tools
  (`StreamProperties.ResultsOpenedIff`, `StreamProperties.ResultsMatchPlanIff`).
* A string comes back from JSON exactly when it holds no lone high surrogate directly before a lone low one
  (`Unicode.CombineUtf16`, `Json.LoadsDumps`, `AgentContext.HeaderRoundTripIff`).
* The dashboard takes the reasoning text for the words and queries that were sent if and only if no words before a query
  hold the opening marker, none after the last one are taken for a query, and no query holds the closing marker
  (`SqlMarkers.SegmentIff`, `DashboardStream.DashboardRecoversSql`); a query that holds it is cut
  (`SqlMarkers.QueriesRecoveredIff`, `SqlMarkers.CutQuery`).
* The function name is part of a cache key exactly when no argument is named `fn` (`CacheKey.FunctionNameInKeyIff`).
* `%q%` is a substring search exactly when the query has no wildcard and no escape character
  (`NameResolution.SubstringSearchIff`).
* Trends change label past 5.05 percent, not past 5, because the percentage is rounded before it is compared
  (`PaymentsLedger.TrendLabelIff`).
* Post-processing twice equals post-processing once for bar charts exactly when the limit is not negative
  (`ChartPostProcess.BarStableIff`).
* `formatSql` promises line breaks only outside quotes. It does not look at quotes, single or double: a line is broken
  inside them if and only if a token there, other than the first of all, gets a break by the layout rule
  (`SqlFormat.QuotesBrokenIff`, at inputs `SqlFormat.QuotesBroken` and `SqlFormat.DoubleQuotesBroken`). Five of its
  eighteen keywords never match (`SqlFormat.JoinPairsNeverMatch`).
* `to_header_value` documents base64url. The code writes standard base64, which is base64url if and only if no group of
  six bits is 62 or 63 (`Base64.UrlSafeIff`); it reads back what it writes (`Base64.RoundTrip`).
* A refused signature is documented to raise `ValueError`. It raises `TypeError` if and only if there are two segments
  and the second is not ASCII (`AgentContext.SignatureTypeErrorIff`).

## Model

| member | source | states |
|---|---|---|
| `Resilience.CircuitBreaker.IsOpen` | platform-sdk/platform_sdk/resilience.py:68-76 | open exactly when the failure count has reached the threshold and the recovery instant lies ahead; reading it changes nothing |
| `Resilience.CircuitBreaker.RecordSuccess` | platform-sdk/platform_sdk/resilience.py:83-87 | resets the count and keeps the recovery instant |
| `Resilience.CircuitBreaker.RecordFailure` | platform-sdk/platform_sdk/resilience.py:89-99 | counts one more and moves the recovery instant once the threshold is reached |
| `Resilience.BreakerMeaning` | platform-sdk/platform_sdk/resilience.py:64-99 | over every history the count is the number of failures since the last success, and the breaker is open exactly while it has reached the threshold and less than the recovery time has passed since the last failure |
| `Opa.OpaClient.Authorize` | platform-sdk/platform_sdk/security.py:95-157 | the retry loop computes the answer, the number of requests sent and the breaker state of the specification `AuthorizeCall` |
| `Opa.GrantedIff` | platform-sdk/platform_sdk/security.py:102-157 | access is granted if and only if the breaker lets the call through and the first reply that is not retried, within the attempts allowed, is a positive decision |
| `Opa.CallLeaves` | platform-sdk/platform_sdk/security.py:117-157 | a call that passes stops at the first reply that is not retried; a decision, also a denial, clears the count of failures, and otherwise it grows by one for each request |
| `Opa.OneProbeIff` | platform-sdk/platform_sdk/security.py:106-157 | one failing call that the breaker lets through, with no other call under way, is a single request if and only if one attempt is allowed or the first is refused |
| `Opa.TrippedBound` | platform-sdk/platform_sdk/security.py:105-157 | from a tripped breaker an outage sends nothing before the recovery instant, and n requests take, after it, at least the cost of all but their last round |
| `Opa.SharpBound` | platform-sdk/platform_sdk/security.py:105-157 | beyond the failures left before the breaker trips and one round of retries, requests in an outage take at least their cost, counting recovery times and the sleeps between attempts |
| `Opa.NeverGranted` | platform-sdk/platform_sdk/security.py:102-157 | in an outage no call is granted, from any breaker |
| `Opa.CanSendIff` | platform-sdk/platform_sdk/security.py:105-157 | the exact traffic of an outage for calls one after another: n requests can be sent between two instants if and only if they are free or their cost fits in between |
| `Opa.OutageBound` | platform-sdk/platform_sdk/security.py:105-157 | the bound without sleeps: sequential calls in an outage of length L send at most (threshold − 1 − failures + retries) + retries·⌊L / recovery⌋ requests and none is granted |
| `Opa.OutageBoundReached` | platform-sdk/platform_sdk/security.py:117-157 | that bound is reached, for every number of recovery periods, when the sleep is zero or one attempt is made |
| `OpaConcurrency.AloneIsAuthorize` | platform-sdk/platform_sdk/security.py:105-157 | a call that runs alone through the steps of the interleaved model has the answer, the requests and the breaker of `AuthorizeCall` |
| `OpaConcurrency.BreakerIsReplay` | platform-sdk/platform_sdk/security.py:117-148 | in every run of calls that overlap, with decisions and failures in any order, the breaker is what the sequence of replies makes of it |
| `OpaConcurrency.AnswerMeaning` | platform-sdk/platform_sdk/security.py:117-157 | a decision is the call's answer, a refusal or the last failure a denial, and any other failure a sleep |
| `OpaConcurrency.PassesIff` | platform-sdk/platform_sdk/resilience.py:68-76 | from the recovery instant up to the next one exactly the calls that begin before the first failure is recorded pass the breaker, however calls overlap |
| `OpaConcurrency.RequestsAre` | platform-sdk/platform_sdk/security.py:106-151 | what is sent in that span is one request for each such call, and the retries |
| `OpaConcurrency.OneProbeIff` | platform-sdk/platform_sdk/security.py:106-157 | over calls that all come to an end, none cancelled, there is one request if and only if one call begins before the first failure and only one attempt is allowed or that failure is not retried |
| `OpaConcurrency.TwoProbes` | platform-sdk/platform_sdk/security.py:106-121 | two calls that ask the recovered breaker before either is answered send two requests, with one attempt each |
| `OpaConcurrency.OverlapBound` | platform-sdk/platform_sdk/security.py:105-157 | with at most c calls under way an outage of length L sees at most (threshold − 1 − failures) + c·retries·(1 + ⌊L / recovery⌋) requests, and one round for each cancelled call |
| `OpaConcurrency.OverlapBoundReached` | platform-sdk/platform_sdk/security.py:105-157 | without a sleep that bound is reached, for every c and every number of recovery periods |
| `OpaConcurrency.NoneGranted` | platform-sdk/platform_sdk/security.py:102-157 | in an outage no call is granted, however calls overlap |
| `CacheKey.CanonSame` | platform-sdk/platform_sdk/cache.py:196-204 | the sorted form of two dictionaries is the same if and only if they are equal up to the order of entries, at every depth |
| `CacheKey.KeysAgreeIff` | platform-sdk/platform_sdk/cache.py:196-204 | two calls share a key if and only if they name the same function with arguments that are equal as JSON |
| `CacheKey.FunctionNameInKeyIff` | platform-sdk/platform_sdk/cache.py:202-202 | different functions get different keys for the same arguments if and only if no argument is named `fn` |
| `ToolCache.ToolResultCache.Get` | platform-sdk/platform_sdk/cache.py:71-86 | a miss without touching the store when there is no store or the breaker is open; otherwise the live entry, or a miss and a recorded failure |
| `ToolCache.ToolResultCache.Set` | platform-sdk/platform_sdk/cache.py:88-98 | does nothing without a store or with an open breaker; otherwise writes, and a failing write may have been applied |
| `ToolCache.CachedTool` | platform-sdk/platform_sdk/cache.py:228-251 | an uninterrupted wrapped call is the corresponding sequence of steps of the interleaved model, with the same result, store and breaker; without a cache or without Redis it is the tool |
| `ToolCache.PrefixIsError` | platform-sdk/platform_sdk/authorized_tool.py:45-48 | every text behind `ERROR:` is an error response |
| `ToolCache.ObjectErrorIff` | platform-sdk/platform_sdk/authorized_tool.py:49-53 | a printed object is an error response if and only if it has a key `error` |
| `ToolCache.OtherwiseNoError` | platform-sdk/platform_sdk/authorized_tool.py:45-53 | no other printed value is one, and no text without the prefix that does not read as an object |
| `ToolCache.StoredValues` | platform-sdk/platform_sdk/cache.py:243-246 | in every run no stored value starts with `ERROR:` and none is a printed object with a key `error` |
| `ToolCache.SecondCallIff` | platform-sdk/platform_sdk/cache.py:234-248 | an equal call after an answered one gets the first answer, whatever the tool would answer now, if and only if it is read before the time to live has passed |
| `ToolCache.RunKeeps` | platform-sdk/platform_sdk/cache.py:71-98 | over every interleaving, with faults, expiry, evictions, late writes and a time to live for each cache: no error response is stored, every stored value was computed for its key, and every hit was written less than its writer's time to live before it was read |
| `ToolCache.CachedToolAgrees` | platform-sdk/platform_sdk/cache.py:228-251 | with a deterministic tool every wrapped call that returns, in every run, returns what the tool returns |
| `Unicode.CombineUtf16` | agents/analytics-agent/src/streaming/data_stream_encoder.py:35-40 | decoding undoes UTF-16 encoding if and only if no two adjacent lone surrogates form a pair |
| `Json.StringRoundTrip` | agents/analytics-agent/src/streaming/data_stream_encoder.py:35-60 | an escaped string reads back unit by unit, control characters, quotes and surrogates included (section 7 of RFC 8259) |
| `Json.ValueRoundTrip` | agents/analytics-agent/src/streaming/data_stream_encoder.py:35-60 | a printed value followed by anything that cannot extend a number reads back as the same value in UTF-16, and the reader stops where the value ends |
| `Json.RoundTrip` | agents/analytics-agent/src/streaming/data_stream_encoder.py:35-60 | every printed value, alone, reads back as the same value in UTF-16 (sections 2 to 7 of RFC 8259) |
| `Json.WholeText` | platform-sdk/platform_sdk/authorized_tool.py:50-53 | a value with anything but white space behind it is no JSON text |
| `Json.LoadsDumps` | platform-sdk/platform_sdk/auth.py:206-219 | reading what was printed gives the value back if and only if its strings hold no adjacent lone surrogates that form a pair |
| `Json.PrintInjective` | platform-sdk/platform_sdk/cache.py:202-203 | different values print differently |
| `Json.PrintPrintable` | agents/analytics-agent/src/streaming/data_stream_encoder.py:35-60 | printed JSON holds printable ASCII only, so never a raw newline |
| `WireFrames.StreamRoundTrip` | agents/analytics-agent/src/streaming/data_stream_encoder.py:35-60 | reading the concatenated frames line by line gives back exactly those frames in order |
| `WireFrames.StreamInjective` | agents/analytics-agent/src/streaming/data_stream_encoder.py:35-60 | two frame sequences with the same bytes are the same sequence |
| `WireFrames.Tags` | agents/analytics-agent/src/streaming/data_stream_encoder.py:6-12 | the tag of every kind of frame |
| `WireFrames.TextPayloads` | agents/analytics-agent/src/streaming/data_stream_encoder.py:35-56 | the payloads of plain texts, letter by letter |
| `WireFrames.ToolPayloads` | agents/analytics-agent/src/streaming/data_stream_encoder.py:43-48 | the payloads of tool calls and results, letter by letter |
| `WireFrames.FinishPayload` | agents/analytics-agent/src/streaming/data_stream_encoder.py:59-60 | the payload of the finish frame, letter by letter |
| `StreamEncoding.DataStreamEncoder.EncodeEvent` | agents/analytics-agent/src/streaming/data_stream_encoder.py:83-102 | the bytes are the encoding of the specified frames and the three fields change as specified |
| `StreamEncoding.DataStreamEncoder.OnIntentRouterEnd` | agents/analytics-agent/src/streaming/data_stream_encoder.py:143-169 | the plan header, one announced id per step, the SQL of query steps, and the table of ids |
| `StreamEncoding.DataStreamEncoder.OnMcpToolCallerEnd` | agents/analytics-agent/src/streaming/data_stream_encoder.py:171-200 | one result per active tool under its announced or a new id, then SQL, then errors |
| `StreamEncoding.DataStreamEncoder.OnSynthesisEnd` | agents/analytics-agent/src/streaming/data_stream_encoder.py:202-220 | components, follow-ups, and the narrative unless an answer was streamed |
| `StreamEncoding.DataStreamEncoder.OnErrorHandlerEnd` | agents/analytics-agent/src/streaming/data_stream_encoder.py:222-239 | the narrative, or else the joined errors, then follow-ups |
| `StreamEncoding.DataStreamEncoder.OnChatModelStream` | agents/analytics-agent/src/streaming/data_stream_encoder.py:241-252 | one frame per token with content, and the streamed flag when it went out as text |
| `StreamProperties.TokenRouting` | agents/analytics-agent/src/streaming/data_stream_encoder.py:115-141 | a model token is sent as reasoning exactly when the last node start with no later node end was that of a reasoning node |
| `StreamProperties.StreamedMeaning` | agents/analytics-agent/src/streaming/data_stream_encoder.py:241-252 | the streamed flag is set exactly when some token of the run went out as text |
| `StreamProperties.NarrativeNotRepeated` | agents/analytics-agent/src/streaming/data_stream_encoder.py:202-252 | the end of synthesis sends its narrative, once, if and only if there is one and no token was sent as text before |
| `StreamProperties.ActiveOpened` | agents/analytics-agent/src/streaming/data_stream_encoder.py:155-182 | a planned tool has an entry in the table, and every entry is an id announced before |
| `StreamProperties.ResultForIsSent` | agents/analytics-agent/src/streaming/data_stream_encoder.py:174-182 | the i-th active tool gets the i-th result frame |
| `StreamProperties.ResultsOpenedIff` | agents/analytics-agent/src/streaming/data_stream_encoder.py:119-182 | the results of a planned tool always carry an announced id if and only if the tool is not named `mcp_tool_caller` |
| `StreamProperties.ResultsMatchPlan` | agents/analytics-agent/src/streaming/data_stream_encoder.py:155-182 | with distinct tool names the result ids are a permutation of the ids announced for the plan, whatever comes in between but another plan |
| `StreamProperties.ResultsMatchPlanIff` | agents/analytics-agent/src/streaming/data_stream_encoder.py:119-182 | with fresh ids they are one if and only if no tool named like the node was planned before that node started |
| `StreamContents.DataInOrder` | agents/analytics-agent/src/streaming/data_stream_encoder.py:202-239 | over every run the data frames are, in event order, the components and then the follow-ups of each synthesis end and the follow-ups of each error-handler end |
| `StreamContents.NarrativeInOrder` | agents/analytics-agent/src/streaming/data_stream_encoder.py:202-252 | over every run the narrative frames are, in event order, the tokens outside reasoning nodes, the narrative of a synthesis end before which nothing was streamed, and the narrative of an error-handler end or else its joined errors |
| `StreamContents.JoinedMeaning` | agents/analytics-agent/src/streaming/data_stream_encoder.py:229-231 | errors are joined with a semicolon and a space |
| `StreamContents.PlanBegun` | agents/analytics-agent/src/streaming/data_stream_encoder.py:155-160 | a plan announces one call for each step, in order, as `server/tool`, under ids drawn one after another |
| `StreamContents.SqlFollows` | agents/analytics-agent/src/streaming/data_stream_encoder.py:160-168 | the SQL of a query step follows its begin frame at once |
| `StreamContents.IdsDiffer` | agents/analytics-agent/src/streaming/data_stream_encoder.py:155-160 | in every run all announced ids differ, within a plan and across plans |
| `StreamContents.StatusReads` | agents/analytics-agent/src/streaming/data_stream_encoder.py:179-182 | the result text reads back as status complete and the name of the tool |
| `StreamContents.OrderWithin` | agents/analytics-agent/src/streaming/data_stream_encoder.py:143-239 | within one event the header comes first, results come before words, and the narrative comes after the data of a synthesis end and before that of an error-handler end |
| `StreamContents.HeaderMeaning` | agents/analytics-agent/src/streaming/data_stream_encoder.py:147-153 | the header names intent and reasoning and ends with the number of steps |
| `ChatService.ChatService.Execute` | agents/analytics-agent/src/services/chat_service.py:56-161 | the bytes of the stream and what is added to the store, for every event sequence and every failure point |
| `ChatService.StreamShape` | agents/analytics-agent/src/services/chat_service.py:75-161 | event frames, then at most one error frame, then exactly one finish frame in last place; an error frame exactly when something failed |
| `ChatService.StreamEnds` | agents/analytics-agent/src/services/chat_service.py:102-161 | the same read back from the bytes by a client |
| `ChatService.StreamIs` | agents/analytics-agent/src/services/chat_service.py:75-161 | for every failure point: all frames of the events before it, those of an event that was sent before its capture failed, the message, and the finish frame |
| `ChatService.CapturedMeaning` | agents/analytics-agent/src/services/chat_service.py:109-119 | what is captured is the narrative of the last synthesis end that has one |
| `ChatService.SavedIff` | agents/analytics-agent/src/services/chat_service.py:121-134 | with a working store, user message and answer are saved in this order if and only if nothing failed and the last narrative is that answer |
| `ChatService.SavedOnlyIf` | agents/analytics-agent/src/services/chat_service.py:121-140 | whatever the store does, nothing is saved after a failed run or without a narrative, and never the answer without the question |
| `ChatService.ComponentsMeaning` | agents/analytics-agent/src/services/chat_service.py:113-119 | what is captured are the components of the last synthesis end that has some |
| `ChatService.SavedExactly` | agents/analytics-agent/src/services/chat_service.py:123-134 | what is saved after a complete run with a working store: the question, and the last narrative with the last components |
| `JsText.FindMarker` | frontends/analytics-dashboard/components/chat/Message.tsx:55-56 | a marker that cannot overlap itself is found where it was put, even across a segment boundary |
| `SqlMarkers.ExtractSql` | frontends/analytics-dashboard/components/chat/Message.tsx:53-61 | the replace loop collects the trimmed groups and leaves the rest |
| `SqlMarkers.ExtractRender` | frontends/analytics-dashboard/components/chat/Message.tsx:53-61 | extraction recovers exactly the trimmed queries, in order, and leaves all other text unchanged |
| `SqlMarkers.QueriesRecoveredIff` | frontends/analytics-dashboard/components/chat/Message.tsx:53-61 | with words that are not taken for queries the queries come back if and only if none holds the closing marker |
| `SqlMarkers.CutQuery` | frontends/analytics-dashboard/components/chat/Message.tsx:56-59 | a query that holds the closing marker is cut at its first occurrence |
| `SqlMarkers.ExtractSegment` | frontends/analytics-dashboard/components/chat/Message.tsx:53-61 | whatever the text, extraction gives the queries and the shown text of the document it is taken for |
| `SqlMarkers.SegmentClean` | frontends/analytics-dashboard/components/chat/Message.tsx:53-61 | that document renders to the text, and its runs and queries are clean |
| `SqlMarkers.SegmentIff` | frontends/analytics-dashboard/components/chat/Message.tsx:53-61 | every document is taken for what it is, run by run and query by query, if and only if it is clean |
| `DashboardStream.SentText` | agents/analytics-agent/src/streaming/data_stream_encoder.py:143-200 | the joined reasoning text of a run is its words and wrapped queries in order |
| `DashboardStream.DashboardRecoversSql` | frontends/analytics-dashboard/components/chat/Message.tsx:47-61 | end to end, from graph events over the bytes to the dashboard: the text is taken for the words and queries that were sent if and only if it is clean; with clean words the listed queries are the ones that were wrapped, if and only if none holds the closing marker |
| `SqlFormat.NormalizeMeaning` | frontends/analytics-dashboard/components/chat/SqlReveal.tsx:68-68 | normalising leaves exactly the tokens with one space between them |
| `SqlFormat.MatchIsHit` | frontends/analytics-dashboard/components/chat/SqlReveal.tsx:79-79 | the regular expression matches at a token exactly if the token starts like the keyword, or equals its first word before a single space and a token that starts like its second |
| `SqlFormat.ReplaceIsPass` | frontends/analytics-dashboard/components/chat/SqlReveal.tsx:77-81 | one global replacement over the text adds one line break at exactly those tokens and changes nothing else |
| `SqlFormat.FormatSql` | frontends/analytics-dashboard/components/chat/SqlReveal.tsx:66-87 | the keyword loop computes a layout in which the breaks before a token depend on it and the next token only |
| `SqlFormat.TokensKept` | frontends/analytics-dashboard/components/chat/SqlReveal.tsx:77-81 | the token sequence is the same after every pass |
| `SqlFormat.FormatIdempotent` | frontends/analytics-dashboard/components/chat/SqlReveal.tsx:66-87 | for every input the tokens are kept, and formatting twice equals formatting once |
| `SqlFormat.FormatAgreesIff` | frontends/analytics-dashboard/components/chat/SqlReveal.tsx:66-87 | two inputs are shown alike if and only if they have the same tokens |
| `SqlFormat.CaseBlind` | frontends/analytics-dashboard/components/chat/SqlReveal.tsx:79-79 | the layout does not depend on the case of letters |
| `SqlFormat.BoundaryIff` | frontends/analytics-dashboard/components/chat/SqlReveal.tsx:79-79 | a token is taken for a keyword exactly if no letter, digit or underscore follows it |
| `SqlFormat.JoinPairsNeverMatch` | frontends/analytics-dashboard/components/chat/SqlReveal.tsx:72-81 | the passes for LEFT JOIN, RIGHT JOIN, INNER JOIN, OUTER JOIN and CROSS JOIN change nothing |
| `SqlFormat.QuotesBrokenIff` | frontends/analytics-dashboard/components/chat/SqlReveal.tsx:70-81 | a line is broken inside single or double quotes if and only if a token there, other than the first of all, gets a break by the layout rule |
| `SqlFormat.QuotesBroken` | frontends/analytics-dashboard/components/chat/SqlReveal.tsx:70-81 | the input `'X OR Y'` is shown with a line break inside the quotes |
| `SqlFormat.DoubleQuotesBroken` | frontends/analytics-dashboard/components/chat/SqlReveal.tsx:70-81 | so is the input `"X OR Y"` |
| `SqlFormat.ApostropheInName` | frontends/analytics-dashboard/components/chat/SqlReveal.tsx:70-81 | an apostrophe inside a quoted name opens nothing: the input `"it's" OR t` is broken outside quotes only |
| `McpBridge.MCPToolBridge.Connect` | platform-sdk/platform_sdk/mcp_bridge.py:468-483 | a new stop event and a new loop, without looking at earlier ones |
| `McpBridge.MCPToolBridge.Disconnect` | platform-sdk/platform_sdk/mcp_bridge.py:501-515 | sets stop, and returns at once or waits for the loop |
| `McpBridge.MCPToolBridge.ResumeDisconnect` | platform-sdk/platform_sdk/mcp_bridge.py:509-515 | goes on when the loop has ended, and returns unless awaiting it raised past the handler |
| `McpBridge.MCPToolBridge.CancelDisconnect` | platform-sdk/platform_sdk/mcp_bridge.py:509-514 | a pending call that is cancelled after the loop has ended clears nothing |
| `McpBridge.MCPToolBridge.ResumeLoop` | platform-sdk/platform_sdk/mcp_bridge.py:385-442 | one stretch of the loop between two awaits, for every way the await ends, an exception that the exit stack suppresses included |
| `McpBridge.SessionOnlyInLiveAttempt` | platform-sdk/platform_sdk/mcp_bridge.py:385-423 | in every interleaving, however often anyone connects, a session is there only inside a live attempt of the loop that set it |
| `McpBridge.OnlyNewestLoopLives` | platform-sdk/platform_sdk/mcp_bridge.py:468-515 | with connecting as in `ConnectSafeIff` the session is that of the newest loop and all earlier loops have ended |
| `McpBridge.ConnectedUsableIff` | platform-sdk/platform_sdk/mcp_bridge.py:354-357 | when `is_connected` is true, the loop holds the connection if and only if `initialize()` of this attempt has returned and the connection is not being closed |
| `McpBridge.ConnectedTooEarly` | platform-sdk/platform_sdk/mcp_bridge.py:391-394 | a run that ends connected but not initialized |
| `McpBridge.ConnectSafeIff` | platform-sdk/platform_sdk/mcp_bridge.py:468-515 | after a `connect`, every later `disconnect` that returns leaves no loop and no session, if and only if the last loop had ended and no pending `disconnect` awaited a loop that ended cleanly |
| `McpBridge.DisconnectedMeansEnded` | platform-sdk/platform_sdk/mcp_bridge.py:501-515 | once `disconnect` returns every loop has ended and the session is null, and it stays so until the next `connect` |
| `McpBridge.NoAttemptAfterStop` | platform-sdk/platform_sdk/mcp_bridge.py:385-442 | no attempt starts once stop is set, however the run goes on |
| `McpBridge.EndsIff` | platform-sdk/platform_sdk/mcp_bridge.py:385-442 | a loop ends exactly when stop is set, an attempt ends in a cancellation or worse, or something is raised before the first attempt or in the sleep |
| `McpBridge.FailureBacksOff` | platform-sdk/platform_sdk/mcp_bridge.py:413-440 | without stop an attempt that ends in an exception leads to the sleep for one failure more, without a session |
| `McpBridge.DroppedLink` | platform-sdk/platform_sdk/mcp_bridge.py:407-440 | in every run a connection that drops leads to a sleep of two seconds |
| `McpBridge.RunReconnects` | platform-sdk/platform_sdk/mcp_bridge.py:385-440 | in every run a loop that sleeps starts its next attempt after the seconds that are left, whatever else happens, unless something calls `disconnect` |
| `McpBridge.AttemptSucceeds` | platform-sdk/platform_sdk/mcp_bridge.py:387-408 | an attempt whose awaits end normally holds its session and has no failures on its count |
| `McpBridge.StopEndsLoop` | platform-sdk/platform_sdk/mcp_bridge.py:385-442 | after stop the loop ends within a bounded number of resumptions |
| `McpBridge.SleptExactly` | platform-sdk/platform_sdk/mcp_bridge.py:428-440 | in every run a loop that goes from back-off to a new attempt has slept exactly min(2^f, 60) seconds, f the exceptions it saw since a session last came up |
| `McpBridge.SleepsAfterException` | platform-sdk/platform_sdk/mcp_bridge.py:413-440 | with safe connecting f is at least one, unless the exit stack suppressed the last exception |
| `McpBridge.DelayMonotone` | platform-sdk/platform_sdk/mcp_bridge.py:430-430 | the delay does not decrease with the failures and never exceeds a minute |
| `McpBridge.DelaySchedule` | platform-sdk/platform_sdk/mcp_bridge.py:377-430 | the first delay is two seconds, it doubles, and it is sixty exactly from the sixth failure on |
| `McpBridge.SecondConnectLeaksLoop` | platform-sdk/platform_sdk/mcp_bridge.py:468-515 | connecting while a loop lives can leave a session behind a `disconnect` that returned |
| `McpBridge.EarlyConnectLosesTask` | platform-sdk/platform_sdk/mcp_bridge.py:509-514 | connecting before a pending `disconnect` has gone on can lose the new loop |
| `McpBridge.Invoke` | platform-sdk/platform_sdk/mcp_bridge.py:241-275 | nothing is sent without a session; otherwise the arguments with the trusted session id and token |
| `McpBridge.ArgumentsMeaning` | platform-sdk/platform_sdk/mcp_bridge.py:252-268 | argument by argument: the bridge's id before the context's, only for scoped tools, the user's token, and everything else as the model supplied it |
| `McpBridge.ModelCannotChooseSessionIff` | platform-sdk/platform_sdk/mcp_bridge.py:252-268 | what a session-scoped tool is sent never depends on a session id or token that the model supplied, if and only if there are a trusted id and a user context |
| `OrphanFiles.LastDot` | cleanup/orphan_files.py:86-86 | the last dot of a name, if any, starts the suffix |
| `OrphanFiles.ModuleToPaths` | cleanup/orphan_files.py:77-98 | the candidates are exactly the files whose dotted name ends in the module's segments |
| `OrphanFiles.FindOrphans` | cleanup/orphan_files.py:101-123 | the worklist terminates; visited is exactly the set of files reachable from an existing entry point by import statements, and the orphans are exactly the other files |
| `OrphanFiles.Targets` | cleanup/orphan_files.py:118-121 | the queue gains exactly the unvisited files that the imports name |
| `OrphanFiles.EntryPointCounts` | cleanup/orphan_files.py:106-111 | an entry point that exists is reached, and one that does not leads nowhere |
| `OrphanFiles.CollectedIff` | cleanup/orphan_files.py:60-74 | what is collected is exactly what the `import` and `from` statements name; a file that does not parse imports nothing |
| `OrphanFiles.MatchesIff` | cleanup/orphan_files.py:80-97 | a name finds a file exactly when it is the dotted name of the file or a part of it behind some dot |
| `OrphanFiles.DottedNameMeaning` | cleanup/orphan_files.py:86-93 | `a/b/c.py` is a.b.c and `a/b/__init__.py` is a.b |
| `OrphanFiles.OwnNameMatches` | cleanup/orphan_files.py:86-97 | the dotted name of a file, and every suffix of it, finds the file |
| `Base64.RoundTrip` | platform-sdk/platform_sdk/auth.py:206-219 | the lenient decoder undoes the encoder on every byte string (section 4 of RFC 4648) |
| `Base64.NoDot` | platform-sdk/platform_sdk/auth.py:206-208 | the encoding is ASCII without a dot, so the header has two segments |
| `Base64.AlphabetTable` | platform-sdk/platform_sdk/auth.py:206-206 | the alphabet of section 4 of RFC 4648 |
| `Base64.TestVectors` | platform-sdk/platform_sdk/auth.py:206-206 | values of section 10 of RFC 4648 |
| `Base64.UrlSafeIff` | platform-sdk/platform_sdk/auth.py:204-206 | the encoding is base64url (section 5 of RFC 4648) if and only if no group of six bits is 62 or 63 |
| `AgentContext.AcceptedIff` | platform-sdk/platform_sdk/auth.py:104-131 | a header is accepted exactly when it is one payload, one dot, and the payload's signature under the current or the previous secret |
| `AgentContext.SignatureTypeErrorIff` | platform-sdk/platform_sdk/auth.py:111-131 | verification raises a `TypeError` instead of the documented `ValueError` if and only if there are two segments and the second is not ASCII |
| `AgentContext.HeaderRoundTripIff` | platform-sdk/platform_sdk/auth.py:201-229 | under any configuration that has the signing secret as current or previous one, the context comes back if and only if its strings survive JSON |
| `AgentContext.NormalisationMeaning` | platform-sdk/platform_sdk/auth.py:176-185 | a known role is kept and any other becomes none, a clearance is kept and none becomes `standard`, and nothing else changes |
| `AgentContext.HeaderRaisesNothing` | platform-sdk/platform_sdk/auth.py:201-229 | whatever context was signed, normal or not, reading its header keeps a known user role, drops any other, gives the lowest clearance for none, and changes nothing else |
| `AgentContext.AbsentKeys` | platform-sdk/platform_sdk/auth.py:220-229 | a signed dictionary without keys gives the least privileged context |
| `AgentContext.KeyNames` | platform-sdk/platform_sdk/auth.py:189-199 | the names under which a context is sent |
| `AgentContext.SecretMeaning` | platform-sdk/platform_sdk/auth.py:40-67 | the order of the secrets, and that an empty previous one counts as none |
| `PaymentsLedger.GroupSums` | tools/payments-mcp/src/payments_service.py:276-288 | rows grouped by two columns carry the sums and counts by the first column and the grand total |
| `PaymentsLedger.Aggregate` | tools/payments-mcp/src/payments_service.py:276-288 | the two loops fold the rows into per-rail sums and counts, one entry for each rail that occurs |
| `PaymentsLedger.Summary` | tools/payments-mcp/src/payments_service.py:143-202 | the report equals one-pass sums and counts over completed transactions in the window, per rail and in total, with the trend against the prior period; there is none exactly when no transaction qualifies |
| `PaymentsLedger.OneTransactionMore` | tools/payments-mcp/src/payments_service.py:144-202 | one transaction more changes volumes and numbers exactly where its party, status and date qualify, and the prior volume exactly in the window before |
| `PaymentsLedger.PeriodsAddUp` | tools/payments-mcp/src/payments_service.py:190-202 | current and prior volume add up to the volume of twice the window |
| `PaymentsLedger.RailsAddUp` | tools/payments-mcp/src/payments_service.py:649-662 | the rails, listed without repetition in any order, add up to the grand total |
| `PaymentsLedger.CounterpartyConservation` | tools/payments-mcp/src/payments_service.py:507-646 | originated plus received is the sum over all counterparty banks before the LIMIT plus twice what the bank sent to itself |
| `PaymentsLedger.TrendLabelIff` | tools/payments-mcp/src/payments_service.py:290-297 | the label is increasing exactly above 5.05 percent and declining exactly below its negative, and stable without a positive prior |
| `NameResolution.PatternsMeaning` | tools/payments-mcp/src/payments_service.py:63-79 | for a plain query the two patterns are prefix and substring search, whatever the case of letters |
| `NameResolution.EqualIff` | tools/payments-mcp/src/payments_service.py:57-57 | comparison is blind to the case of ASCII letters and to nothing else |
| `NameResolution.SubstringSearchIff` | tools/payments-mcp/src/payments_service.py:75-95 | the substring pattern is a substring search if and only if the query is plain |
| `NameResolution.Resolve` | tools/payments-mcp/src/payments_service.py:55-100 | the tiers in order with at most five suggestions; for a plain query none is found exactly when no name contains it, and what is returned is of the first tier that has a name and, but for equality, the least of it |
| `NameResolution.ResolutionTiers` | tools/payments-mcp/src/payments_service.py:63-98 | for a plain query the match lists are empty exactly when no name has the prefix or the substring, and each starts with the least such name |
| `ChartPostProcess.StableUnique` | agents/analytics-agent/src/nodes/synthesis.py:333-333 | there is one stable descending order, so the sort of the model is the sort of the source |
| `ChartPostProcess.PostProcess` | agents/analytics-agent/src/nodes/synthesis.py:309-358 | the three in-place passes give every component the specified type and data |
| `ChartPostProcess.BarTopPoints` | agents/analytics-agent/src/nodes/synthesis.py:330-358 | with a limit that is not negative every bar chart holds the min(n, limit) largest points, descending, ties in input order, and every kept value is at least every dropped one |
| `ChartPostProcess.SeriesKept` | agents/analytics-agent/src/nodes/synthesis.py:309-358 | a line or area chart within the limit keeps its type exactly when it is empty or some category is a date, and then is unchanged |
| `ChartPostProcess.SeriesOverLimit` | agents/analytics-agent/src/nodes/synthesis.py:340-358 | a line or area chart over the limit that keeps its type holds its largest points, in descending order |
| `ChartPostProcess.KindIff` | agents/analytics-agent/src/nodes/synthesis.py:309-344 | the type changes exactly for a line or area chart with data and without a date, and other components are not touched |
| `ChartPostProcess.DateMeaning` | agents/analytics-agent/src/nodes/synthesis.py:36-53 | which categories are dates or periods, place by place |
| `ChartPostProcess.OddValues` | agents/analytics-agent/src/nodes/synthesis.py:56-67 | a value that is no number counts as zero, and a text that is one counts as it |
| `ChartPostProcess.BarStableIff` | agents/analytics-agent/src/nodes/synthesis.py:309-358 | a second pass leaves every bar chart unchanged if and only if the limit is not negative |
| `PlanResults.KeysEqualIff` | agents/analytics-agent/src/nodes/mcp_tool_caller.py:102-105 | two keys are equal if and only if the indices are equal and the joined names agree, whatever colons the names hold |
| `PlanResults.ScanIff` | agents/analytics-agent/src/nodes/mcp_tool_caller.py:161-166 | the scan for client names raises nothing if and only if every step is a dictionary with a dictionary of parameters whose client name, if it counts as true, is hashable; it then has exactly those names |
| `PlanResults.FalseValues` | agents/analytics-agent/src/nodes/mcp_tool_caller.py:165-165 | which values do not count as true |
| `PlanResults.CallTools` | agents/analytics-agent/src/nodes/mcp_tool_caller.py:77-207 | the node returns if and only if the scan does and, where a search takes place, every similar name is a string; then it returns one result for each step that ended with a value, as many as steps exactly if every step did, the error lines in plan order, and suggestions exactly after a search |
| `PlanResults.SuggestionMeaning` | agents/analytics-agent/src/nodes/mcp_tool_caller.py:180-196 | a suggestion carries the name that was searched and the names that were found |
| `PlanResults.ListValuedName` | agents/analytics-agent/src/nodes/mcp_tool_caller.py:161-166 | at a client name given as a list the step stores its result and the node raises |
| `PlanResults.StepReportedIff` | agents/analytics-agent/src/nodes/mcp_tool_caller.py:100-159 | a step that is a dictionary stores what its tool returned, or its error, unless the await was cancelled, and its error line is exactly that of an unknown tool, a tool that raised, or a value with an error entry |
| `PlanResults.NothingFailed` | agents/analytics-agent/src/nodes/mcp_tool_caller.py:151-153 | whenever the scan raises nothing no step raised, so the error line for a raising step is never returned |
| `PlanResults.Merge` | agents/analytics-agent/src/nodes/mcp_tool_caller.py:147-159 | the merge loop keeps one result for each step that ended with a value, under pairwise distinct keys, and the error lines in plan order |
| `PlanResults.MergeDataContext` | agents/analytics-agent/src/state.py:27-45 | the merged context is the old one overridden by the new one, and the warned keys are exactly the common ones |
| `PlanResults.LastWriteWins` | agents/analytics-agent/src/state.py:27-45 | over any number of turns a key holds a value exactly if the last turn that writes the key writes it, or no turn does and it was there |
| `PlanResults.OnlyGrows` | agents/analytics-agent/src/state.py:27-50 | no key disappears, and the error list grows only at its end, by exactly what the turns report |
| `PlanResults.TurnsCompose` | agents/analytics-agent/src/state.py:27-50 | turns can be grouped at will |
| `Decimal.DecimalInjective` | agents/analytics-agent/src/nodes/mcp_tool_caller.py:105-105 | different indices print differently |

## Left out

- Opa.OpaClient.Authorize: the server-stamped fields of the request are not modelled; the sleep between attempts is a condition on the clock readings (`Opa.Paced`).
- Opa.CanSendIff: for calls one after another, with at least one attempt each; with none nothing is sent (`Opa.NothingSent`), and calls that overlap have the bounds of `OpaConcurrency`.
- OpaConcurrency.OverlapBoundReached: for a sleep of zero; with a sleep between attempts `OverlapBound` holds but may not be reached.
- SqlFormat.QuotesBrokenIff: quotes are ' and ", closed by the same mark; comments and dollar quotes are not read.
- Resilience.BreakerMeaning: speaks of one process; several workers have a breaker each.
- CacheKey.KeysAgreeIff: numbers are compared by their literals, so 1, 1.0 and True differ, which Python equates; they do print differently.
- ToolCache.CachedToolAgrees: a tool is its `__name__`, so two tools with one name count as one; arguments are JSON values without an argument named `fn`; values that `default=str` prints are not modelled, and the digest is assumed free of collisions.
- Json.RoundTrip: numbers carry their literal, so conversion to floating point, NaN and the infinities, which Python also reads, are not modelled.
- StreamEncoding.DataStreamEncoder.OnMcpToolCallerEnd: the SQL found in raw tool data is a given list; finding `_sql_queries` in the data, and entries that are not strings, are not modelled.
- StreamEncoding.DataStreamEncoder.EncodeEvent: malformed event dictionaries and explicit null values are not modelled; a handler that raises is a failing turn of `ChatService.ChatService.Execute`.
- ChatService.ChatService.Execute: a client that goes away in mid-stream is not modelled.
- DashboardStream.DashboardRecoversSql: when the text is not taken for what was sent because of words that hold the opening marker, it is not claimed that the list of queries differs.
- McpBridge.MCPToolBridge.Connect: the wait for the first connection, which has no effect on the state, is not modelled.
- McpBridge.Invoke: the time limit, the result text and the fallback after an error are not modelled.
- OrphanFiles.FindOrphans: parsing is a given function from a file to its import statements, and the printing order is not modelled.
- AgentContext.HeaderRoundTripIff: a payload that is signed but is not what a context prints as is one error, `BadShape`, without the exception the source raises.
- PaymentsLedger.Summary: the lists cut by LIMIT, the compliance profile, masking, rounding of the totals to two digits and truncation of the output are not modelled; amounts are whole cents instead of floating point.
- PaymentsLedger.CounterpartyConservation: null banks are not modelled.
- NameResolution.ResolutionTiers: case folding is that of ASCII letters and order is by code point; the database may be configured otherwise.
- ChartPostProcess.BarTopPoints: values are reals, without NaN, and `\d` stands for ASCII digits.
- PlanResults.CallTools: whether a result says that a client was not found, and the names a search yields, are given functions; the injected session id and the tool status list are not modelled, and a number counts as zero by its digits.
- `migrate_state`, `from_jwt`, row filters and column masks: field-by-field rules with no property over runs.
- Compaction, routes, configuration, telemetry, prompts and React components: plumbing or decided by external code.
