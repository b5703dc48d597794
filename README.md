# AG-UI bridge core, modelled in Dafny

The bridge turns the event stream of an agent backend into AG-UI protocol events. This project models three parts of it:

- **`AGUIProtocolTranslator`.** This is the state machine that reads upstream envelopes, each holding `content.parts`. It emits text-message, tool-call, snapshot and run events, and records thinking steps and session statistics in a metadata store.
- **`MetadataStore`.** This is the in-memory table from thread id to thinking entries, last session statistics and timestamps.
- **The request rules of the `/chat` endpoint.** These cover the client check, extracting the user message, choosing ids, and using one fresh translator per request.

Files:

- **`wrappers.dfy`:** `Option`, for fields that may be `None` and dictionary keys that may be absent.
- **`metadata_store.dfy` (module `Metadata`):** pure functions over the table (`Initialized`, `WithThinking`, `WithSessionStats`, `MetadataOf`, `WithoutStale`). It also holds the class `MetadataStore`, whose methods update the `threads` map in place and are proved equal to those functions.
- **`protocol_translator.dfy` (module `ProtocolTranslator`):**
  - the envelope and event datatypes;
  - pure functions giving the output and effects of one part (`TranslatePart`), one envelope (`TranslateParts`), the envelopes of a run (`TranslateEnvelopes`) and a whole run (`Translate`);
  - the class `Translator`. Its fields are the source's instance fields, and each method is proved to produce exactly what the matching function says.
- **`translator_properties.dfy` (module `TranslatorProperties`):** what the translator promises, proved of those functions:
  - the text-message bracket discipline;
  - the shape of a completed and of a failed run;
  - the session-statistics counters against independent counting definitions;
  - what each kind of part emits;
  - what the store receives.
- **`main_direct.dfy` (module `MainDirect`):** the `/chat` rules. The user-message loop is proved equal to a recursive definition, and `Chat` is proved to run a fresh translator.

How the environment is modelled:

- **Uuids and clocks.** `uuid.uuid4()` and the clocks are an oracle, `Env(uuid, clockMs)`. The translator reads them through the cursors `uuidDraws` and `clockReads`. Each `time.time()` call of the translator is a reading of its own (the run's start and end, each thinking id), and each store write takes one more reading as its `now`.
- **Eager `get` defaults.** Python evaluates the default of `dict.get` eagerly. So a function call draws one uuid even when it carries an id, and a function response draws two: the fallback id and the result's message id.
- **Time.** Times are integer milliseconds. The store's TTL is `ttlMinutes * 60000`.
- **The upstream stream.** It is a finite sequence of envelopes, after which it either ends or raises with a message.
- **The store inside the translator.** It is the table `Threads`, written only when a store is attached and the thread id is non-empty.

## Model

| member | source | states |
|---|---|---|
| Metadata.Initialized | src/metadata_store.py:18-27 | the thread is present afterwards; an existing thread's record and every other thread are unchanged; a new thread gets an empty record stamped `now` |
| Metadata.MetadataOf | src/metadata_store.py:46-60 | an unknown thread reads as empty thinking, no stats, no `lastUpdated`; a known one returns its stored thinking list, stats and `last_updated` |
| Metadata.WithThinking | src/metadata_store.py:29-37 | the thread exists afterwards, its thinking list is the old one plus exactly the new stamped entry at the end, its stats and `created_at` are kept, `last_updated` is `now`, other threads are unchanged |
| Metadata.WithSessionStats | src/metadata_store.py:39-44 | the stats are replaced, the thinking list and `created_at` are kept, `last_updated` is `now`, other threads are unchanged |
| Metadata.WithoutStale | src/metadata_store.py:62-71 | a thread survives exactly when its `last_updated` is at or after `now - ttl`, and survivors are unchanged |
| Metadata.InitThreadIdempotent | src/metadata_store.py:18-27 | a second `init_thread` changes nothing, and `init_thread` never touches the thinking list |
| Metadata.ThinkingAppendsInOrder | src/metadata_store.py:29-37 | after a series of `add_thinking` calls, each stamped with its own time, the thread's thinking list is the old list followed by the new entries in call order, each with its call's time; other threads are unchanged |
| Metadata.CleanupIdempotent | src/metadata_store.py:62-71 | a second cleanup at the same time removes nothing more |
| Metadata.FreshWriteSurvivesCleanup | src/metadata_store.py:62-71 | a thread just written survives a cleanup at the same time when the TTL is non-negative |
| Metadata.MetadataStore.constructor | src/metadata_store.py:14-16 | the table starts empty with the given TTL |
| Metadata.MetadataStore.InitThread | src/metadata_store.py:18-27 | the table becomes `Initialized` of the old table |
| Metadata.MetadataStore.AddThinking | src/metadata_store.py:29-37 | the table becomes `WithThinking` of the old table |
| Metadata.MetadataStore.SetSessionStats | src/metadata_store.py:39-44 | the table becomes `WithSessionStats` of the old table |
| Metadata.MetadataStore.GetMetadata | src/metadata_store.py:46-60 | returns the empty answer for an unknown thread and the stored fields for a known one; it modifies nothing, so it creates no entry |
| Metadata.MetadataStore.CleanupOldThreads | src/metadata_store.py:62-71 | the collect-then-delete loop leaves exactly `WithoutStale` of the old table |
| ProtocolTranslator.CloseOpen | src/protocol_translator.py:163-171 | reference definition of closing the open message before a thought, a tool call or the end of a run; its properties are stated by `CloseOpenTracks` and the shape lemmas, and `Translator.CloseMessage` is proved equal to it |
| ProtocolTranslator.OpenMessage | src/protocol_translator.py:231-242 | reference definition of starting a message under a fresh uuid; `OpenMessageTracks` and `PlainTextStreams` state its effect |
| ProtocolTranslator.EmitThinking | src/protocol_translator.py:174-229 | reference definition of the thought branch once the open message is closed; `ThoughtPartShape`, `PartRecords` and `PartCounts` state its events, store write and token count, and `Translator.ThinkingStep` is proved equal to it |
| ProtocolTranslator.TextStep | src/protocol_translator.py:157-249 | reference definition of `_handle_text_message`; `EmptyTextIsSilent`, `PlainTextStreams`, `ThoughtPartShape` and `TextStepTracks` state its properties, and `Translator.HandleTextMessage` is proved equal to it |
| ProtocolTranslator.CallStep | src/protocol_translator.py:258-300 | reference definition of `_handle_function_call`; `FunctionCallShape` and `CallStepTracks` state its properties, and `Translator.HandleFunctionCall` is proved equal to it |
| ProtocolTranslator.ResponseStep | src/protocol_translator.py:302-322 | reference definition of `_handle_function_response`; `FunctionResponseShape` states its properties, and `Translator.HandleFunctionResponse` is proved equal to it |
| ProtocolTranslator.TranslatePart | src/protocol_translator.py:136-148 | reference definition of the dispatch on one part (text, then `function_call`, then `function_response`); `OtherPartIsSkipped`, `PartKeepsBrackets` and `PartCounts` state its properties, and `Translator.TranslatePartStep` is proved equal to it |
| ProtocolTranslator.TranslateParts | src/protocol_translator.py:134-148 | reference definition of the parts loop of `_translate_event`; `PartsKeepBrackets`, `PartsCount` and `PartsRecord` state its properties, and `Translator.TranslateEvent` is proved equal to it |
| ProtocolTranslator.TranslateEnvelopes | src/protocol_translator.py:60-65 | reference definition of the envelope loop of `translate_stream`; `EnvelopesKeepBrackets`, `EnvelopesCount` and `EnvelopesRecord` state its properties, and `Translator.TranslateEvents` is proved equal to it |
| ProtocolTranslator.Finish | src/protocol_translator.py:67-112 | reference definition of the end of a completed run; `FinishShape` and `FinishTracks` state its properties, and `Translator.FinishRun` is proved equal to it |
| ProtocolTranslator.Translate | src/protocol_translator.py:31-121 | reference definition of `translate_stream`; `TranslateSplits`, `CompletedRunShape`, `FailedRunShape`, `CompletedRunIsWellBracketed` and `SnapshotReportsRunTotals` state its properties, and `Translator.TranslateStream` is proved equal to it |
| ProtocolTranslator.TranslateSplits | src/protocol_translator.py:48-121 | a run's output is `RUN_STARTED`, then the envelopes' events, then the tail (error or finish) built from the state the envelopes leave |
| ProtocolTranslator.Translator.constructor | src/protocol_translator.py:16-29 | counters at zero, no open message, no thread or run id, the given store |
| ProtocolTranslator.Translator.CloseMessage | src/protocol_translator.py:262-269 | an open message is ended with its own id and closed; otherwise nothing is emitted |
| ProtocolTranslator.Translator.ThinkingStep | src/protocol_translator.py:174-229 | once the open message is closed, adds the thought tokens, emits the `thinking_step` START/ARGS/END/RESULT and records the step, exactly as `EmitThinking` says |
| ProtocolTranslator.Translator.RecordThinking | src/protocol_translator.py:227-229 | when a store is attached and the thread id is non-empty, the table gains exactly the thinking entry, stamped with one new clock reading; otherwise the table and the clock cursor are unchanged |
| ProtocolTranslator.Translator.HandleTextMessage | src/protocol_translator.py:150-249 | output, new state and new table are those of `TextStep` |
| ProtocolTranslator.Translator.HandleFunctionCall | src/protocol_translator.py:258-300 | output and new state are those of `CallStep` |
| ProtocolTranslator.Translator.HandleFunctionResponse | src/protocol_translator.py:302-322 | output and new state are those of `ResponseStep` |
| ProtocolTranslator.Translator.TranslatePartStep | src/protocol_translator.py:134-148 | one part dispatched text > function call > function response, with the effect of `TranslatePart` |
| ProtocolTranslator.Translator.TranslateEvent | src/protocol_translator.py:123-148 | the loop over an envelope's parts has the effect of `TranslateParts` |
| ProtocolTranslator.Translator.TranslateEvents | src/protocol_translator.py:60-65 | the loop over the envelopes has the effect of `TranslateEnvelopes` |
| ProtocolTranslator.Translator.FinishRun | src/protocol_translator.py:67-112 | snapshot, stored stats, closing end and `RUN_FINISHED` as `Finish` says |
| ProtocolTranslator.Translator.RecordStats | src/protocol_translator.py:91-93 | when a store is attached and the thread id is non-empty, the thread's stats become exactly the reported ones, stamped with one new clock reading; otherwise the table and the clock cursor are unchanged |
| ProtocolTranslator.Translator.TranslateStream | src/protocol_translator.py:31-121 | the run's whole output, final state and final table are those of `Translate` |
| TranslatorProperties.PartKeepsBrackets | src/protocol_translator.py:157-249 | each part's events are well bracketed from the open message and leave open the message its state records; no part opens a message with an empty id |
| TranslatorProperties.PartsKeepBrackets | src/protocol_translator.py:134-148 | the same over an envelope's parts |
| TranslatorProperties.EnvelopesKeepBrackets | src/protocol_translator.py:60-65 | the same over a run's envelopes |
| TranslatorProperties.CompletedRunIsWellBracketed | src/protocol_translator.py:81-112 | in a completed run, `TEXT_MESSAGE_START` only comes when no message is open, every `TEXT_MESSAGE_CONTENT` and `TEXT_MESSAGE_END` carries the open message's id, and no message is left open |
| TranslatorProperties.CompletedRunEndsEveryMessage | src/protocol_translator.py:97-105 | a completed run of a fresh translator has as many `TEXT_MESSAGE_END` as `TEXT_MESSAGE_START` events |
| TranslatorProperties.BracketsBalance | src/protocol_translator.py:231-241 | well-bracketed events start as many messages as they end, up to the messages open before and after |
| TranslatorProperties.FailedRunLeavesMessageOpen | src/protocol_translator.py:114-121 | when the upstream raises, the output is well bracketed up to the `RUN_ERROR`, and a message still open is not ended |
| TranslatorProperties.BodyShape | src/protocol_translator.py:48-65 | `RUN_STARTED` with the given ids comes first, and only part events follow before the tail |
| TranslatorProperties.FinishShape | src/protocol_translator.py:67-112 | the tail is the `SESSION_STATS` snapshot with id `session-stats-{thread}-{run}` and replace set, carrying the counters; then `TEXT_MESSAGE_END` if and only if a message with a non-empty id is open; then `RUN_FINISHED`; the stats go to the store only when recording |
| TranslatorProperties.CompletedRunShape | src/protocol_translator.py:48-112 | a completed run is `RUN_STARTED` (never repeated), part events, the snapshot carrying the counters, the closing end if and only if a message is open, and `RUN_FINISHED` last |
| TranslatorProperties.FailedRunShape | src/protocol_translator.py:114-121 | a failed run is `RUN_STARTED`, part events, then a single `RUN_ERROR` with code `TRANSLATION_ERROR` and the upstream's message; it holds no snapshot and no `RUN_FINISHED` |
| TranslatorProperties.EnvelopesCount | src/protocol_translator.py:176-179 | over the envelopes, `total_tool_calls` grows by the number of function-call parts and `total_thinking_tokens` by the thought tokens, both counted independently |
| TranslatorProperties.SnapshotReportsRunTotals | src/protocol_translator.py:67-87 | the snapshot of a fresh translator's completed run reports exactly the function-call parts and the sum of `thoughts_token_count` (default 0) over thought parts with non-empty text |
| TranslatorProperties.ReusedTranslatorCarriesCounters | src/protocol_translator.py:48-50 | `translate_stream` does not reset the counters: a reused translator's state and its snapshot report its earlier totals plus this run's |
| TranslatorProperties.EmptyTextIsSilent | src/protocol_translator.py:157-161 | an empty text part emits nothing and changes nothing, even with a thought signature |
| TranslatorProperties.PlainTextStreams | src/protocol_translator.py:231-249 | plain text opens a message only when none is open, then streams its content under the open id; counters and store are unchanged |
| TranslatorProperties.ThoughtPartShape | src/protocol_translator.py:163-249 | a thought part closes the open message, emits START, ARGS, END and RESULT under one id (result id `result-` + that id), then opens a new message and streams its text; tool calls are unchanged and tokens grow by the envelope's count |
| TranslatorProperties.FunctionCallShape | src/protocol_translator.py:258-300 | a function call closes the open message, then emits START, ARGS, END with one id (the upstream id when present; name defaults to `unknown`, args to `{}`), and adds exactly one tool call |
| TranslatorProperties.FunctionResponseShape | src/protocol_translator.py:302-322 | a function response emits exactly one `TOOL_CALL_RESULT` with its id and role `tool`; the open message, counters and store are unchanged |
| TranslatorProperties.OtherPartIsSkipped | src/protocol_translator.py:134-148 | a part with none of the three keys emits nothing and changes nothing |
| TranslatorProperties.PartRecords | src/protocol_translator.py:227-229 | a part adds a thinking entry exactly when it is a thought part and the run records, stamped with a clock reading taken after the id's; otherwise the store is untouched |
| TranslatorProperties.PartsRecord | src/protocol_translator.py:227-229 | over one envelope's parts the thread's thinking list only grows, and what it gains is the thinking arguments of each thought part, in order; other threads are unchanged |
| TranslatorProperties.EnvelopesRecord | src/protocol_translator.py:227-229 | over a recording run's envelopes the thread's thinking list only grows, and what it gains is the thinking arguments of each thought part, in order; other threads are unchanged |
| TranslatorProperties.EnvelopesDoNotRecord | src/protocol_translator.py:227-229 | without a store or a thread id, the envelopes leave the store untouched |
| TranslatorProperties.CompletedRunStoresStats | src/protocol_translator.py:91-93 | a completed recording run stores under its thread exactly the stats it sent in the snapshot, after thinking entries that carry the arguments of each thought part, in order |
| TranslatorProperties.SilentRunLeavesStore | src/protocol_translator.py:227-229 | a run that does not record leaves the store as it was, whether it completes or fails |
| MainDirect.FirstTextPart | src/main_direct.py:157-162 | reference definition of the inner loop over list content; `FirstTextPartDecides` states which part decides |
| MainDirect.ContentText | src/main_direct.py:155-162 | reference definition of what a user message's content contributes: a string as it is, list content through `FirstTextPart`, anything else nothing |
| MainDirect.UserMessage | src/main_direct.py:152-163 | reference definition of the user-message extraction; `FirstUserMessageDecides`, `NoUserRoleMeansEmpty` and `LaterMessagesIgnored` state its properties, and `ExtractUserMessage` is proved equal to it |
| MainDirect.FirstUserMessageDecides | src/main_direct.py:153-163 | the user message is the content of the first message with role `user` |
| MainDirect.NoUserRoleMeansEmpty | src/main_direct.py:152-163 | without a user-role message, the user message is empty |
| MainDirect.LaterMessagesIgnored | src/main_direct.py:153-163 | messages after the first user message are never consulted, even when the first one yields nothing |
| MainDirect.FirstTextPartDecides | src/main_direct.py:157-162 | list content gives the text of its first dict part of type `text`, and `""` when that part has no text |
| MainDirect.ExtractUserMessage | src/main_direct.py:152-163 | the loop with its two `break`s computes exactly the recursive `UserMessage`: string content is returned as it is, list content gives its first text part, anything else gives `""` |
| MainDirect.ChooseId | src/main_direct.py:173-174 | a non-empty supplied id is used as it is; the generated one is used only when the field is missing or empty, so the id is never empty when the generated one is not |
| MainDirect.Chat | src/main_direct.py:144-193 | an uninitialised client gives a single `RUN_ERROR` with code `NOT_INITIALIZED`; an empty user message gives a single `RUN_ERROR` with code `INVALID_INPUT`; neither sends anything upstream or touches the store; otherwise the user message goes upstream, and the output and store are those of a run of a fresh translator from the initial state with the chosen ids |

## Left out

- The network client and stream decoding (`agent_engine_client.py`, `agent_engine_stream.py`), FastAPI, `StreamingResponse`, CORS, logging, and the `/metadata`, `/health` and `/` endpoints are not part of this model. The upstream stream is a finite sequence of envelopes plus an optional failure message.
- Async generators, backpressure and cancellation are not modelled. A run is a method over a finite sequence.
- JSON serialisation and SSE framing (`_format_sse`, `json.dumps` of args and responses) are left out. Events are a datatype, and args and responses are opaque strings.
- Upstream JSON `null`s are not modelled where the source would raise inside a handler. This covers `content`, `usage_metadata`, `function_call`, `function_response` and a token count. Only the upstream iteration raises in this model. A `null` text behaves like empty text, so it is modelled as `Some("")`.
- A key that is present with a `null` value is modelled only as an absent key. So a `null` `id` or `name` of a function call (src/protocol_translator.py:272-273), a `null` `id` of a function response (src/protocol_translator.py:306), and a `null` `model_version` or usage count (src/protocol_translator.py:190-193) get the model's defaults (the uuid fallback, `"unknown"`, 0), where the source emits `null`.
- Two pieces of the source are not modelled. The `STREAM_ERROR` branch of `chat` is left out, because nothing in the modelled core raises outside the translator's own handler. The `current_message_id` field is left out, because it is never read.
- ProtocolTranslator.Finish: the duration is the integer millisecond difference, not `round(seconds, 2)`. Floating point is left out.
- ProtocolTranslator.ThinkingId: the thinking step's id is built from a millisecond clock reading. Two thought parts in the same millisecond share an id, and no uniqueness is claimed.
- Metadata: within one store call all its `datetime.now()` readings are one `now`, although the source calls `datetime.now()` up to four times (twice in `init_thread` for an unknown thread, then twice in `add_thinking`). The translator takes that `now` as a clock reading of its own, after the readings for the thinking id and the duration, and only when the store is written. The isoformat timestamp of a thinking entry is kept as the integer time.
- Metadata.MetadataOf: `get_metadata` hands out the store's live `thinking` list (src/metadata_store.py:57), so a caller that mutates it changes the store. The model returns a value, and that aliasing is not captured.
- MainDirect: a list-content `text` entry that is present but not a string is not modelled. The extracted text is a string or absent.
- MainDirect.Chat: the agent client is a flag and the fallback uuids are parameters. The `user_id` constant and the agent call itself are not modelled. `prompt` is only what would be sent.
