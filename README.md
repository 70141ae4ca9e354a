# SmartStress: a verified model of the chat stream decoder and the agent bookkeeping

SmartStress has two parts:

- **A React front end.** It talks to a chat back end. Its streaming call, `sendChatMessageStream`, reads text chunks and keeps an unterminated tail in a buffer. It frames the buffer either as Server-Sent Events (`data:` blocks separated by a blank line) or as newline-delimited JSON. It passes the first non-empty content field of each parsed event to a callback, and remembers the last non-empty `conversation_id` for the next request.
- **A Python agent back end.** A supervisor routes wearable payloads to a physiology model and conversational payloads to a supervisor agent. It keeps a bounded journal in a per-user session and starts a proactive outreach when the stress probability reaches a threshold. Around it are schema validators, an in-memory calendar, a keyword-routed retrieval tool, a patient preference lookup and an adapter for agent parameters.

This project models the deterministic core of both parts and proves what the code promises about it.

## Files

- `Wrappers.dfy`: the `Option` and `Result` types.
- `Text.dfy`: the JavaScript and Python string operations the core uses:
  - `indexOf`/`includes`/`in` as leftmost search;
  - `startsWith`;
  - `split` and `join`, with the lemma that splitting loses nothing;
  - `trim` with the ECMAScript whitespace set;
  - ASCII lower-casing.
- `ApiClient.dfy`: `sendChatMessage`'s field priority, plus the stream decoder. The decoder has three layers:
  - the framing functions (`Detect`, `Payload`, `EventOf`, `Delivery`, `IdAfter`);
  - the one-chunk step `Step` and the whole-stream fold `Run`;
  - the imperative layer: a `StreamDecoder` class with a `buffer` field and a `Pump` method, a `ConversationRef` class for `conversationIdRef`, the frame loop `Dispatch`, and the outer stream loop `SendChatMessageStream`.
- `DifyClient.dfy`: the demo keyword responder and the demo prediction.
- `Schemas.dfy`: the declared constraints and defaults of the pydantic models.
- `Session.dfy`:
  - the state/session conversion;
  - the fallback in-memory session store, as a class whose `store` map is updated by `Get` (set-default) and `Save`.
- `Supervisor.dfy`:
  - the journal bound;
  - the routing dispatch, the wearable and conversational handlers and the threshold gate, as methods of `SupervisorStack` that update the session service;
  - the specification function `RouteSpec` those methods are proved against.
- `Calendar.dfy`: the `_CALENDAR_EVENTS` table as a class with an insertion order and a map, and the overlap query, create and update.
- `StressModel.dfy`: the window loop of `run_stress_model` and its decision tail.
- `Rag.dfy`: the keyword classifier and the `[:top_k]` slice.
- `PatientMemory.dfy`: the preference lookup with defaults.
- `AgentParams.dfy`: `llm_agent_supports_field`, `set_instruction_param` and `apply_generation_params`, as methods on a parameter dictionary.

## Parameters standing in for foreign code

- `JSON.parse` is a parameter `parse: string -> Option<Event>`:
  - `None` stands for a throw, which the decoder's `catch` swallows;
  - an `Event` holds the optional string fields `chunk`, `delta`, `content`, `message` and `conversation_id`.
- "Truthy" means present and non-empty.
- The UTF-8 `TextDecoder` is abstracted away: the response body is a sequence of already-decoded text chunks.
- The agents' replies, the wall clock and the `:.2f` formatter are fields of a `Supervisor.Env` value. The supervisor and mindcare agents' outcomes are either a reply or a raised exception's message.
- In `StressModel.Numerics`, the feature extraction, `mean`, `pstdev` and the logistic function are opaque real-valued functions.
- The model field set of `LlmAgent` is a parameter `Option<set<string>>`. The `genai_types` library is a parameter `Genai`, saying whether it is available and which configurations it constructs.
- The alert threshold is a constant of `SupervisorStack`, set by its constructor. The configuration's default is 0.9.
- Instants are integers.

## Stream decoder behaviour as written

The stream decoder re-decides its framing on every chunk and does not latch it:
- SSE is chosen when the buffer contains `data:`;
- otherwise NDJSON, when it contains a newline;
- otherwise nothing is extracted.

The decoder has no end-of-stream flush: a tail left at end of input is dropped. It handles no `answer` or `event` fields, and `[DONE]` is skipped like an empty payload rather than ending the stream.

## Model

| member | source | states |
|---|---|---|
| ApiClient.SendChatMessage | src/services/apiClient.js:26 | the reply is `response` when it is truthy, else `answer` when truthy, else `message` |
| ApiClient.OrChain | src/services/apiClient.js:76 | a chain of `\|\|` yields the first truthy operand, or the last operand when none is truthy |
| ApiClient.OrChain3 | src/services/apiClient.js:76 | the three-operand chain of `chunk \|\| delta \|\| content` unfolded |
| ApiClient.OrChain4 | src/services/apiClient.js:75-79 | the four-operand chain unfolded one step |
| ApiClient.MessageOf | src/services/apiClient.js:75-79 | an event yields a message iff one of `chunk`, `delta`, `content`, `message` is truthy, and the message is the first truthy one in that order |
| ApiClient.Separator | src/services/apiClient.js:64 | both framings split on a non-empty separator |
| ApiClient.Delivery | src/services/apiClient.js:75-79 | one frame makes at most one `onMessage` call |
| ApiClient.AtMostOneDeliveryPerFrame | src/services/apiClient.js:67-86 | the calls over a batch of frames are no more than the frames |
| ApiClient.DeliveriesAppend | src/services/apiClient.js:67-86 | frames are handled in order: the calls for `a + b` are those for `a` then those for `b` |
| ApiClient.IdAfterAllAppend | src/services/apiClient.js:80-82 | the id after `a + b` is the id after `b` started from the id after `a` |
| ApiClient.SkippedFrameIsInert | src/services/apiClient.js:83-85 | a frame that fails to parse causes no call and no id change, and the frames around it are processed as if it were absent |
| ApiClient.SkipOne | src/services/apiClient.js:105-107 | a failing last frame adds no call and changes no id |
| ApiClient.SsePieceHandling | src/services/apiClient.js:68-73 | an SSE piece without the `data:` prefix is skipped; otherwise the event is the parse of the trimmed text after the 5-character prefix |
| ApiClient.SseEmptyOrDoneIsSkipped | src/services/apiClient.js:70 | an empty payload or `[DONE]` causes no call and no id change |
| ApiClient.IdUnchangedWithoutCarrier | src/services/apiClient.js:80-82 | with no frame carrying a truthy `conversation_id` the ref keeps its value |
| ApiClient.LastIdWins | src/services/apiClient.js:102-104 | the ref ends holding the id of the last frame that carries one |
| ApiClient.IdOnlyBecomesTruthy | src/services/apiClient.js:80-82 | the ref either keeps its old value or ends truthy |
| ApiClient.StepReassembles | src/services/apiClient.js:59-65 | no loss: the extracted frames, each followed by its separator, then the retained buffer, give buffer + chunk |
| ApiClient.StepRetainsUnterminatedTail | src/services/apiClient.js:63-91 | after an SSE split the buffer holds no blank line; after an NDJSON split it holds no newline; unframed text is only appended |
| ApiClient.StepSplitsByFraming | src/services/apiClient.js:63-91 | SSE is chosen when the buffer contains `data:`, before the newline test; the frames plus the retained tail are exactly `split` on that framing's separator |
| ApiClient.UnframedChunkOnlyGrows | src/services/apiClient.js:89 | with neither `data:` nor a newline nothing is extracted, called or changed, and the buffer is buffer + chunk |
| ApiClient.RunExtend | src/services/apiClient.js:56-59 | the stream loop handles one chunk per iteration, each from the state the previous chunk left |
| ApiClient.RunReassembles | src/services/apiClient.js:56-110 | over a whole stream, the text consumed plus the final buffer is the concatenation of the chunks |
| ApiClient.RunIdOnlyBecomesTruthy | src/services/apiClient.js:80-82 | over a whole stream the ref keeps its value or ends truthy |
| ApiClient.OutboundConversationId | src/services/apiClient.js:43 | the request carries the ref's id iff it is truthy, and otherwise leaves it out |
| ApiClient.NextRequestCarriesId | src/services/apiClient.js:43 | an id learned from a stream is sent with the next request |
| ApiClient.ConversationRef.constructor | src/services/apiClient.js:35 | the ref starts with the given value |
| ApiClient.StreamDecoder.constructor | src/services/apiClient.js:54 | the buffer starts empty |
| ApiClient.StreamDecoder.Pump | src/services/apiClient.js:57-109 | one chunk: the new buffer, the ordered calls and the new ref value are those of `Step`; the invariant that consumed text plus buffer equals all text received is kept |
| ApiClient.Dispatch | src/services/apiClient.js:67-86 | the frame loop makes exactly the calls `Deliveries` lists, in order, and leaves the ref at `IdAfterAll` |
| ApiClient.SendChatMessageStream | src/services/apiClient.js:35-111 | a non-ok response is an HTTP error before any body read, so no call is made and the ref is unchanged; otherwise the calls and the final ref are those of `Run` over all chunks |
| Text.Find | src/services/apiClient.js:63 | `includes`: the index found is an occurrence and no earlier index is one; no index is found only when there is no occurrence |
| Text.Split | src/services/apiClient.js:64 | `split` always returns at least one piece, so `pop` always has one to remove |
| Text.SplitJoin | src/services/apiClient.js:64 | joining the pieces of a split with the separator gives the input back |
| Text.SplitPiecesFree | src/services/apiClient.js:64-65 | no piece of a split contains the separator, in particular not the popped tail |
| Text.SplitReassembles | src/services/apiClient.js:64-65 | all pieces but the last, each terminated by the separator, then the last piece: the input again |
| Text.SkipLeading | src/services/apiClient.js:69 | the start of the kept text: everything skipped is whitespace, and the character found is not |
| Text.SkipTrailing | src/services/apiClient.js:69 | the end of the kept text: everything skipped is whitespace, and the character before it is not |
| Text.Trim | src/services/apiClient.js:69 | `trim` keeps a slice of the input with only whitespace on either side of it; the slice starts and ends with non-whitespace, and is empty iff the input is all whitespace (the `!line.trim()` test at line 94) |
| Text.Lower | src/services/difyClient.js:15 | lower-casing keeps the length and maps every character |
| DifyClient.SendChatMessageDemo | src/services/difyClient.js:14-26 | the reply is one of four constants: the greeting iff the lowered message greets; otherwise advice, else the forecast, else the demo note, each iff the earlier tests failed and its own holds |
| DifyClient.LowerIdempotent | src/services/difyClient.js:15 | lowering twice is lowering once |
| DifyClient.DemoIgnoresCase | src/services/difyClient.js:15 | messages equal up to case get the same reply |
| DifyClient.DemoOfLowered | src/services/difyClient.js:15 | lowering the message first does not change the reply |
| DifyClient.GetPredictionDemo | src/services/difyClient.js:35-40 | defines the demo prediction, a constant title and detail |
| Rag.Library | Agents_ADK/smartstress_adk/tools/rag.py:17-33 | each category holds three interventions |
| Rag.Classify | Agents_ADK/smartstress_adk/tools/rag.py:34-40 | on the lowered query: `breathing` iff a breath word occurs; `cognitive` iff none does and a thinking word does; `physical` otherwise |
| Rag.SlicePrefix | Agents_ADK/smartstress_adk/tools/rag.py:42 | Python `[:k]`: a prefix of length `min(k, n)` for `k >= 0`, and `max(n + k, 0)` for negative `k` |
| Rag.RetrieveMindcareContext | Agents_ADK/smartstress_adk/tools/rag.py:9-48 | the index name and the original query are echoed; the key is the classification; the contexts are a prefix of that category's list, of length `min(top_k, 3)` for `top_k >= 0` |
| Rag.DefaultTopKReturnsAll | Agents_ADK/smartstress_adk/tools/rag.py:10 | with the default `top_k = 3` the whole category is returned |
| Rag.ClassifyIgnoresCase | Agents_ADK/smartstress_adk/tools/rag.py:34 | queries equal up to case get the same key and contexts |
| PatientMemory.InitialStoreConsistent | Agents_ADK/smartstress_adk/tools/patient_memory.py:9-16 | the seeded store files `patient-001` under its own id |
| PatientMemory.RetrievePatientInfo | Agents_ADK/smartstress_adk/tools/patient_memory.py:24 | a known id gives the stored preference; an unknown id gives the defaults with the queried id; with a consistent store the result's id is the queried one. The store is a value and is not changed |
| PatientMemory.LookupAnswersForQueriedId | Agents_ADK/smartstress_adk/tools/patient_memory.py:24 | on the seeded store every lookup answers for the queried id |
| Schemas.OrDefault | Agents_ADK/smartstress_adk/schemas.py:51-53 | defines pydantic's default for an omitted field; `BuildPreference` and `DefaultPreference` state what it gives |
| Schemas.Numbers | Agents_ADK/smartstress_adk/schemas.py:12 | the numeric values of an all-numeric list, in order |
| Schemas.EnsureNumeric | Agents_ADK/smartstress_adk/schemas.py:16-22 | the validator accepts iff every value is numeric and returns the values unchanged; otherwise it fails with its message |
| Schemas.WindowErrors | Agents_ADK/smartstress_adk/schemas.py:9-22 | each constraint of `SignalWindow` other than the length is reported iff it is broken; the length error is reported iff the list is missing, or short with every item a number, since an item type error suppresses it as in pydantic's list validation; there is no error iff the window is valid |
| Schemas.ValidateWindow | Agents_ADK/smartstress_adk/schemas.py:9-22 | a window is accepted iff the sensor is one of ppg/eda/acc, the rate is positive, there are at least 32 values, all numeric, there is a timestamp and there are no extra fields; the accepted window carries the input's values |
| Schemas.ValidateRequest | Agents_ADK/smartstress_adk/schemas.py:25-28 | a request is accepted iff it has a user id, at least one window, each valid, and a `metadata` that is absent or maps strings to strings; the accepted request carries the windows in order and the metadata as given |
| Schemas.BuildResult | Agents_ADK/smartstress_adk/schemas.py:31-39 | a result is accepted iff `stress_prob` and `confidence` lie in [0, 1] and the action is monitor/reach_out/escalate |
| Schemas.BuildExchange | Agents_ADK/smartstress_adk/schemas.py:42-46 | accepted iff the role is user or agent; the timestamp defaults to the current time |
| Schemas.BuildPreference | Agents_ADK/smartstress_adk/schemas.py:49-53 | each omitted field takes its default (false, None, []) and each given one is kept |
| Schemas.DefaultPreference | Agents_ADK/smartstress_adk/schemas.py:49-53 | the preference with every field defaulted |
| Schemas.BuildProposal | Agents_ADK/smartstress_adk/schemas.py:65-69 | accepted iff the action is create, update or delete and a `payload` dictionary is given; the accepted proposal carries that payload |
| Schemas.BuildTaskRecommendation | Agents_ADK/smartstress_adk/schemas.py:72-76 | accepted iff the channel is calendar/asana/todoist and a deadline (possibly None) is given; confirmation defaults to true |
| Schemas.ParseEvent | Agents_ADK/smartstress_adk/schemas.py:56-62 | a payload is accepted iff the four required fields have the right kinds and the optional ones are well-typed; no start/end ordering is imposed; `attendees` defaults to [] and `location` to None |
| Schemas.DumpEvent | Agents_ADK/smartstress_adk/schemas.py:56-62 | `model_dump` produces exactly the six field keys |
| Schemas.ParseDumpEvent | Agents_ADK/smartstress_adk/schemas.py:56-62 | parsing a dump gives the event back |
| Schemas.EventDefaults | Agents_ADK/smartstress_adk/schemas.py:61-62 | an event given only its required fields has no attendees and no location |
| Session.FromSession | Agents_ADK/smartstress_adk/services/session.py:31-38 | the state carries the given user id; each absent key reads as None, None or [] |
| Session.ToSession | Agents_ADK/smartstress_adk/services/session.py:40-47 | the session has exactly the keys `stress_prob`, `last_agent` and `journal`, holding the state's values |
| Session.RoundTrip | Agents_ADK/smartstress_adk/services/session.py:31-47 | converting a state to a session and back gives the same state |
| Session.FromEmptySession | Agents_ADK/smartstress_adk/services/session.py:34-37 | an empty session reads as no probability, no last agent and an empty journal |
| Session.SmartStressSessionState.constructor | Agents_ADK/smartstress_adk/services/session.py:24-29 | the object holds the given fields |
| Session.SetDefault | Agents_ADK/smartstress_adk/services/session.py:18 | defines the store after `setdefault`; `GetIsStable`, `SaveAfterGet` and `GetAfterSave` state its properties |
| Session.Lookup | Agents_ADK/smartstress_adk/services/session.py:18 | defines the value `setdefault` returns; `GetIsStable` and `GetAfterSave` state its properties |
| Session.GetIsStable | Agents_ADK/smartstress_adk/services/session.py:17-18 | a second `get` changes nothing and returns what the first returned |
| Session.SaveAfterGet | Agents_ADK/smartstress_adk/services/session.py:17-21 | a `save` after a `get` of the same key leaves the same store as the `save` alone |
| Session.GetAfterSave | Agents_ADK/smartstress_adk/services/session.py:17-21 | after `save(k, v)`, `get(k)` returns `v` and other keys read as before |
| Session.GetStateAfterUpdate | Agents_ADK/smartstress_adk/services/session.py:55-60 | `get_state` after `update_state(s)` returns `s` |
| Session.SmartStressSessionService.constructor | Agents_ADK/smartstress_adk/services/session.py:14-15 | the store starts empty |
| Session.SmartStressSessionService.Get | Agents_ADK/smartstress_adk/services/session.py:17-18 | the store becomes its set-default at the key, and the stored session is returned |
| Session.SmartStressSessionService.Save | Agents_ADK/smartstress_adk/services/session.py:20-21 | the key is overwritten and nothing else changes |
| Session.SmartStressSessionService.GetState | Agents_ADK/smartstress_adk/services/session.py:55-57 | a fresh state read from the session at the user id, which `get` inserts if needed |
| Session.SmartStressSessionService.UpdateState | Agents_ADK/smartstress_adk/services/session.py:59-60 | the state's session is saved under its user id and nothing else changes |
| Supervisor.Appended | Agents_ADK/smartstress_adk/agents/supervisor.py:152-155 | the journal ends with the entry, keeps at most 50 of the most recent entries in order, and is exactly journal + [entry] while it held fewer than 50 |
| Supervisor.AppendJournal | Agents_ADK/smartstress_adk/agents/supervisor.py:152-155 | the state's journal becomes `Appended` of the old one; the other fields are untouched |
| Supervisor.StressProbOf | Agents_ADK/smartstress_adk/agents/supervisor.py:63 | a missing `stress_prob` counts as 0.0 |
| Supervisor.MissingUserIdRejected | Agents_ADK/smartstress_adk/agents/supervisor.py:50-52 | routing fails with a missing user id iff the id is absent or empty, and then no agent is invoked and no session changes |
| Supervisor.DispatchOnWindows | Agents_ADK/smartstress_adk/agents/supervisor.py:53-55 | the test is on the presence of the `windows` key: when present the wearable path runs and succeeds iff the request validates, invoking the physiology agent first, and a `null` value fails validation with nothing invoked or changed; when absent only the supervisor agent is invoked, and the route succeeds iff it replies; every failure leaves the sessions unchanged |
| Supervisor.OtherSessionsUnchanged | Agents_ADK/smartstress_adk/agents/supervisor.py:49-89 | routing changes at most the session of the given user |
| Supervisor.JournalStaysBounded | Agents_ADK/smartstress_adk/agents/supervisor.py:33 | after any successful route the stored journal holds at most 50 entries |
| Supervisor.ReadBack | Agents_ADK/smartstress_adk/agents/supervisor.py:70 | a state saved under its user id reads back unchanged |
| Supervisor.ThresholdGate | Agents_ADK/smartstress_adk/agents/supervisor.py:97-100 | the stored probability is the physiology reply's; mindcare is not invoked and there is no follow-up iff the probability is below the threshold; a follow-up reflects mindcare's outcome |
| Supervisor.LastAgentAfterWearable | Agents_ADK/smartstress_adk/agents/supervisor.py:113-121 | the last agent is MindCareAgent iff the outreach was triggered and succeeded, and PhysioSense otherwise, including when mindcare raised |
| Supervisor.SupervisorStack.constructor | Agents_ADK/smartstress_adk/agents/supervisor.py:40-47 | the stack holds the given session service and threshold |
| Supervisor.SupervisorStack.Route | Agents_ADK/smartstress_adk/agents/supervisor.py:49-55 | the result, the invoked agents and the new session store are those of `RouteSpec`, whose properties are the lemmas above |
| Supervisor.SupervisorStack.HandleWearable | Agents_ADK/smartstress_adk/agents/supervisor.py:57-76 | an invalid request fails before any agent runs or any session changes; otherwise the outcome is `WearableSpec` |
| Supervisor.SupervisorStack.RecordInference | Agents_ADK/smartstress_adk/agents/supervisor.py:61-70 | the state gets the reply's probability, PhysioSense as last agent and the inference entry, and is saved under the user id |
| Supervisor.SupervisorStack.MaybeTriggerMindcare | Agents_ADK/smartstress_adk/agents/supervisor.py:91-127 | mindcare is called iff the probability is not below the threshold; a failure journals and saves but keeps `last_agent`; a success also sets MindCareAgent; below the threshold nothing changes |
| Supervisor.SupervisorStack.HandleConversational | Agents_ADK/smartstress_adk/agents/supervisor.py:78-89 | when the supervisor agent raises, the exception propagates and no session changes; when it replies, the user's session gets SmartStressSupervisor as last agent and the routing entry, and the response is the reply |
| Calendar.OverlappingMembers | Agents_ADK/smartstress_adk/tools/calendar.py:27-29 | an event is returned iff it is stored and `start_time <= end` and `end_time >= start` |
| Calendar.OverlappingInOrder | Agents_ADK/smartstress_adk/tools/calendar.py:27-30 | the results are exactly the overlapping events of the table, taken at strictly increasing positions, so a subsequence in table order |
| Calendar.MergeValidates | Agents_ADK/smartstress_adk/tools/calendar.py:51-53 | a merge succeeds iff every field named in `updates` has the right kind |
| Calendar.MergeKeepsOtherFields | Agents_ADK/smartstress_adk/tools/calendar.py:51-53 | a field named in `updates` takes its new value; every other field keeps its old one |
| Calendar.MergeNothing | Agents_ADK/smartstress_adk/tools/calendar.py:51-53 | an empty update gives the event back |
| Calendar.CalendarTable.constructor | Agents_ADK/smartstress_adk/tools/calendar.py:10 | the table starts empty |
| Calendar.CalendarTable.Values | Agents_ADK/smartstress_adk/tools/calendar.py:27 | defines the stored events in insertion order; `GetCalendarEvents` and `OverlappingInOrder` state what the query returns from them |
| Calendar.CalendarTable.GetCalendarEvents | Agents_ADK/smartstress_adk/tools/calendar.py:17-30 | the overlapping events in table order, whatever `user_id` is; the table is not changed |
| Calendar.CalendarTable.CreateCalendarEvent | Agents_ADK/smartstress_adk/tools/calendar.py:33-40 | an invalid payload changes nothing; a valid one is stored under its id, overwriting in place or appending a new id, and returned |
| Calendar.CalendarTable.UpdateCalendarEvent | Agents_ADK/smartstress_adk/tools/calendar.py:43-55 | an unknown id fails with "Event … not found." and changes nothing; otherwise the merge result is stored under the original id, even if `updates` renames it, and no other entry changes |
| StressModel.FeatureMap | Agents_ADK/smartstress_adk/tools/stress_model.py:17-24 | a window's map is non-empty and holds `<sensor>_max` |
| StressModel.FeatureMaps | Agents_ADK/smartstress_adk/tools/stress_model.py:42-43 | defines one feature map per window, in order; `CombinedLastWins`, `CombinedKeys` and `Accumulate` state its properties |
| StressModel.CombinedLastWins | Agents_ADK/smartstress_adk/tools/stress_model.py:44 | the combined map takes each key from the last window that has it |
| StressModel.CombinedKeys | Agents_ADK/smartstress_adk/tools/stress_model.py:44 | the combined keys are exactly those of some window |
| StressModel.FeaturesNonEmpty | Agents_ADK/smartstress_adk/tools/stress_model.py:42-45 | with at least one window the features are non-empty |
| StressModel.Amplitudes | Agents_ADK/smartstress_adk/tools/stress_model.py:45 | one non-negative amplitude per window, the absolute peak |
| StressModel.Clamp | Agents_ADK/smartstress_adk/tools/stress_model.py:50 | the probability lies in [0.01, 0.99], whatever the logistic value |
| StressModel.Confidence | Agents_ADK/smartstress_adk/tools/stress_model.py:51 | confidence is at most 0.99, at least 0.6 for non-negative variability, and 0.99 from variability 0.39 on |
| StressModel.RecommendedAction | Agents_ADK/smartstress_adk/tools/stress_model.py:53-57 | escalate iff p >= 0.9, reach_out iff 0.7 <= p < 0.9, monitor iff p < 0.7 |
| StressModel.Interpretation | Agents_ADK/smartstress_adk/tools/stress_model.py:63-67 | the elevated text iff p >= 0.7, the within-bounds text otherwise |
| StressModel.ActionAgreesWithInterpretation | Agents_ADK/smartstress_adk/tools/stress_model.py:53-67 | the action is other than monitor iff the interpretation is the elevated text |
| StressModel.InferenceProperties | Agents_ADK/smartstress_adk/tools/stress_model.py:47-71 | the user id is echoed; the probability lies in [0.01, 0.99]; the action and interpretation follow it; the version is constant; the features are the combined maps and non-empty |
| StressModel.ResultValidates | Agents_ADK/smartstress_adk/tools/stress_model.py:59-72 | the result passes the schema iff variability is at least -0.6, so always when `pstdev` is non-negative |
| StressModel.Accumulate | Agents_ADK/smartstress_adk/tools/stress_model.py:42-45 | the loop builds exactly the combined features and the amplitude list |
| StressModel.RunStressModel | Agents_ADK/smartstress_adk/tools/stress_model.py:32-72 | an invalid payload fails; otherwise the result is the validated inference |
| AgentParams.SupportsField | Agents_ADK/smartstress_adk/agents/base.py:56-63 | defines the field test: true when the field list is unavailable, otherwise membership; `DirectFieldsWritten` and `ConfigOnlyForMissing` state what depends on it |
| AgentParams.InstructionKey | Agents_ADK/smartstress_adk/agents/base.py:70-73 | defines the key choice, `instructions` when supported, else `instruction`; `WithInstruction` states its effect |
| AgentParams.WithInstruction | Agents_ADK/smartstress_adk/agents/base.py:66-73 | exactly one key is added or overwritten, holding the instructions; others are kept |
| AgentParams.BuildConfig | Agents_ADK/smartstress_adk/agents/base.py:76-82 | a config exists iff some argument is given, the library is present and construction succeeds |
| AgentParams.NoGenerationParams | Agents_ADK/smartstress_adk/agents/base.py:95-96 | with neither argument the parameters are unchanged |
| AgentParams.DirectFieldsWritten | Agents_ADK/smartstress_adk/agents/base.py:102-105 | a given temperature or max-tokens is written under its own key iff that field is supported; otherwise that key is untouched |
| AgentParams.ConfigOnlyForMissing | Agents_ADK/smartstress_adk/agents/base.py:107-121 | `generate_content_config` is set iff that field is supported, a given argument lacks its field and a config is built, and it carries only the missing arguments; otherwise that key is untouched |
| AgentParams.OtherParamsUnchanged | Agents_ADK/smartstress_adk/agents/base.py:85-121 | no other key changes |
| AgentParams.ParamDict.constructor | Agents_ADK/smartstress_adk/agents/base.py:66 | the dictionary holds the given entries |
| AgentParams.ParamDict.SetInstructionParam | Agents_ADK/smartstress_adk/agents/base.py:66-73 | the entries become `WithInstruction` of the old ones |
| AgentParams.ParamDict.ApplyGenerationParams | Agents_ADK/smartstress_adk/agents/base.py:85-121 | the entries become `WithGeneration` of the old ones |

## Left out

- HTTP transport: `fetch`, the axios client, `getPrediction` and `response.text()` are not modelled. The response is a value holding `ok`, the status, the error text and the decoded chunks.
- The byte-level state of `TextDecoder` is not modelled: chunks arrive as decoded text.
- `console.error` logging of parse failures is left out; only skipping the frame is modelled.
- ApiClient.Dispatch: assumes the `onMessage` callback returns. In the source an exception it throws is caught by the same `catch` as a parse failure, logged, and skips that frame's `conversation_id` update; this is not modelled.
- `JSON.parse` is a parameter, and event fields are strings only. A non-string `chunk` would be passed to `onMessage` as is in the source.
- Text.Lower: maps ASCII letters only; full Unicode lower-casing of `toLowerCase` and `lower()` is not modelled.
- Floating point is modelled as exact reals. There is no float32 rounding in the features and no IEEE behaviour of `exp`.
- Datetimes are integers. `datetime.fromisoformat` parsing and time zones are not modelled.
- Pydantic coercion (string to number, int to float) and the order of its error messages are not modelled. Window errors are a set.
- Schemas.EnsureNumeric: keeps the "must be numeric" failure. After pydantic's `list[float]` coercion that branch cannot be reached.
- A stored session value of the wrong type reads as the default. The model never writes one.
- Supervisor.SupervisorStack.HandleWearable: the state and the stored session share one journal list in the source. The model copies the value. Every path ends in `update_state`, so the final store agrees.
- The agents' `invoke` calls, `_utc_timestamp` and the `:.2f` formatting are parameters. So is `MindcareExchange`'s `utcnow` default.
- `_build_outreach_prompt` is not modelled: it only formats text for the agent.
- `build_supervisor_stack` and the environment-reading configuration are not modelled. The threshold is a constructor argument.
- Exceptions from the physiology agent, and a `stress_prob` that `float()` cannot convert, are not modelled. Only the supervisor and mindcare agents' outcomes include raising.
- `SmartStressSessionService` and the fallback `InMemorySessionService` are merged into one class. The real google.adk session service is not modelled.
- `_llm_model_fields` reflection is not modelled: the field set is a parameter.
- The values inside `metadata` are not modelled beyond being strings: the code only validates and carries them.
- The React components, `mockData.js`, `physio_workflow.py` and the FastAPI surface are outside the core.
- There is no concrete counterexample showing that per-chunk re-detection can split an NDJSON stream once a later chunk brings `data:`. The lemmas state the per-chunk choice as written.
