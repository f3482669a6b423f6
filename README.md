# Real-time chat relay: the stream translator and the page's consumer

The application is a chat service in two parts. A web endpoint runs an agent
engine on the user's question and relays what the engine does as a stream of
server-sent-event frames. A chat page posts the question, reads that stream
chunk by chunk, shows the answer as it arrives, and lists the web pages the
search tool found.

This project models the two pieces of original logic and proves what they
promise, each on its own and together:

- **The translator.** `generate_chat_responses` and
  `serialise_ai_message_chunk` in main.py run the engine's events through a
  transducer. Each frame is the text `"data: "`, then a JSON object with a
  `"type"` field, then a blank line. Frame types are `checkpoint`,
  `content`, `search_start`, `search_results`, `end` and `error`.
- **The consumer.** `stream_from_api` in streamlit.py is a reducer over text
  chunks. It keeps the stored thread id, the yielded contents, the collected
  search URLs, and whether it has stopped. The page's session state also
  keeps the conversation and the reset button.

Modules:

| module | contents |
|---|---|
| `Wrappers` | `Option` and `Result` |
| `Json` | JSON values as `json.loads` produces them, with the Python operations the code applies to them (`dict.get`, `in`, iteration, truthiness) |
| `Text` | `str.strip` and `str.replace(pat, "")` |
| `Wire` | the frames, their payload dicts and their text |
| `Translator` | the session choice, per-event translation, URL extraction, and end/error framing, as specification functions. The imperative parts of the source are methods proved equal to them: the URL-collecting loop (`CollectUrls`), the tool-output handler, one pass of the event loop, and the event loop with its handlers (`RelayEvents`). |
| `TranslatorProperties` | what the translator promises about a run |
| `Client` | the chunk reducer, the display cap, and the `ChatSession` class holding the page's session state |
| `ClientProperties` | what the consumer promises about the chunks it reads |
| `EndToEnd` | the server's frames read back by the consumer |

Some effects are abstracted:

- The fresh conversation id from `uuid4()` is a parameter `freshId`.
- What iterating the engine delivers is a parameter `run`: a finite sequence
  of events, plus whether the iteration then raises.
- `json.loads` is a partial function parameter `loads`, where `None` stands
  for a decode error.
- `json.dumps` is a function parameter `dumps`.

In main.py the `end` frame is yielded inside the outer `try` (lines 164-165),
so a run that raises ends with the `error` frame alone, and nothing follows
it. `Translator.Finish` and `TranslatorProperties.RunEndsWithOneTerminalFrame`
state this.

## Model

| member | source | states |
|---|---|---|
| Translator.IsNewConversation | main.py:54-56 | The new-conversation test: `checkpoint_id` is None or "new". |
| Translator.SessionFrames | main.py:58-89 | The frames yielded before the engine is iterated: the `checkpoint` frame with the fresh id for a new conversation, and nothing otherwise. |
| Translator.QueryArg | main.py:119 | The "query" argument of a tool call, or "" when there is none. |
| Translator.SearchStartFrames | main.py:106-125 | The frames for a model end: one `search_start` frame with the first search call's query when there is a search call, and nothing otherwise. A missing `tool_calls` counts as no calls. |
| Translator.UrlsOf | main.py:142-153 | The `url` of each item that is a dict holding "url", in item order. There are never more URLs than items. |
| Translator.ToolUrls | main.py:133-162 | The URLs of a tool output. There are none without `content`. A string content is decoded with `loads` first, and a decode failure is reported. Any other content is searched as it is. |
| Translator.EventFrames | main.py:92-162 | The frames one event yields, or the message of the exception it raises. A model-stream chunk gives one `content` frame, a model end its `search_start` frames, a tool end its `search_results` frames, and any other event nothing. |
| Translator.Translate | main.py:91-162 | The `async for` loop over the events. It either completes with the frames of every event in order, or raises after the frames of the events before the first failing one, or after all of them when the engine raises. |
| Translator.Finish | main.py:164-175 | The frames after the loop: `end` after a completed loop, and the handler's `error` frame, with no `end`, after a raised one. |
| Translator.Responses | main.py:39-175 | Everything the generator yields for one run: the session frames, then the loop's frames, then the closing frame. |
| Wire.Payload | main.py:73-175 | The dict passed to `json.dumps` for each of the six frame kinds: "type", plus the frame's own field. |
| Wire.FrameText | main.py:77 | A frame's text: "data: ", the encoded payload, then a blank line. |
| Json.Truthy | streamlit.py:47 | Python truthiness: None, False, 0, "", an empty list and an empty dict are false. |
| Json.DistinctKeys | streamlit.py:59 | A dict's keys are distinct. |
| Json.LookupDistinct | streamlit.py:61-66 | In a dict with distinct keys, `d.get(key)` finds the one entry stored under `key`. |
| Text.Strip | streamlit.py:52-55 | `str.strip`: the text without its leading and trailing whitespace; see `Text.TrimStart` and `Text.TrimEnd`. |
| Text.RemoveAll | streamlit.py:55 | `str.replace(pat, "")`: scanning left to right, every non-overlapping occurrence of `pat` is deleted. The result is never longer than the text. |
| Client.CleanChunk | streamlit.py:55 | A chunk with every "data: " removed, then stripped. |
| Client.Abort | streamlit.py:74-76 | The connection handler: the apology is yielded and reading stops. |
| Client.Dispatch | streamlit.py:61-76 | The dispatch on "type" for decoded data. A `checkpoint` frame stores its id, `content` yields its text (or ""), `search_results` extends the URLs, and `error` stops. Other types change nothing. Data that is not a dict, or "urls" that cannot be iterated, reach the connection handler. |
| Client.Step | streamlit.py:51-73 | One chunk of the loop. A stopped consumer, a blank chunk, a chunk empty after cleaning, and a chunk that does not decode all leave the state as it is. Any other chunk is dispatched. |
| Client.Consume | streamlit.py:51 | The state after reading the chunks one after the other. |
| Translator.GenerateChatResponses | main.py:39-175 | The engine runs under the fresh id for a new conversation and under the given id otherwise. The frames yielded are the session frame, if any, then the relayed events as `Responses` defines them. |
| Translator.ThreadIdFor | main.py:54-89 | It is `freshId` when `checkpoint_id` is None or "new", and the given id otherwise. |
| Translator.RequestCheckpoint | main.py:178-181 | A request with a thread id passes it on. A request without one gets "001", which is not a new conversation, so thread "001" is reused. |
| Translator.SerialiseAiMessageChunk | main.py:28-36 | It succeeds exactly for an `AIMessageChunk`, with the chunk's content. Any other object fails with its type's name. |
| Translator.SearchCalls | main.py:113-116 | The selected calls are tool calls named "tavily_search", drawn from the input and no more numerous than it. |
| Translator.ResultsUrls | main.py:142-153 | A list yields the URLs of its items. A value that is neither a list nor a dict holding "results" yields none. |
| Translator.ToolEndFrames | main.py:127-160 | A tool end yields a frame exactly when the tool is the search tool and its output yields URLs, and nothing else. That frame is the one `search_results` frame carrying those URLs. |
| Translator.CollectUrls | main.py:142-153 | The `append` loop collects exactly `UrlsOf(items)`. |
| Translator.ProcessToolOutput | main.py:133-162 | The inner `try` gives the URLs of the output's content, or why it has none: a decode error, or "results" that cannot be iterated. |
| Translator.TranslateEvent | main.py:91-162 | One pass of the `async for` body yields the event's frames, or the exception that leaves the loop. |
| Translator.TranslateEventAt | main.py:91-175 | A failing event, followed by the outer handler, leaves exactly the `error` frame. A succeeding event's frames come before the rest of the run's frames. |
| Translator.CloseRun | main.py:164-175 | After the last event the run closes with `end`, or with the handler's `error` frame when the engine raised. |
| Translator.RelayEvents | main.py:53-175 | The loop and its two handlers yield exactly the frames of `Finish(Translate(...))`. |
| TranslatorProperties.TranslateShape | main.py:91-162 | The loop yields only content and search frames. It raises exactly when a non-`AIMessageChunk` chunk arrives or the engine raises. |
| TranslatorProperties.CheckpointOnlyForNewConversation | main.py:54-89 | In a new conversation the first frame is the checkpoint with the fresh id, and no later frame is a checkpoint. A reused conversation yields no checkpoint and keeps the given id. |
| TranslatorProperties.RunEndsWithOneTerminalFrame | main.py:164-175 | Every run ends with exactly one terminal frame, and it is the last. It is `error` with "An error occurred" when the run failed, and `end` otherwise. No `end` follows an `error`. |
| TranslatorProperties.ContentFramesFollowChunks | main.py:91-104 | If every chunk is an `AIMessageChunk`, the content frames carry the chunks' contents one for one, in arrival order. |
| TranslatorProperties.EngineFailureKeepsFrames | main.py:167-175 | When the engine raises, every frame yielded before the failure is kept, and the error frame takes the place of `end`. |
| TranslatorProperties.ForeignChunkStopsRun | main.py:28-36 | A chunk that is not an `AIMessageChunk` keeps the earlier frames and stops translation. The outer handler then yields the error frame. |
| TranslatorProperties.SilentEventLeavesNoTrace | main.py:91-162 | An event that yields nothing changes nothing in the run. |
| TranslatorProperties.IgnoredToolEndsLeaveNoTrace | main.py:127-162 | These tool ends leave the run exactly as if they had not arrived: another tool's end, a search output without `content`, and a search output that fails to decode or extract. |
| TranslatorProperties.OnlyStringContentIsDecoded | main.py:137-140 | A string content is decoded, and a decode failure is reported. Any other content is searched for URLs as it is. |
| TranslatorProperties.SearchCallsEmptyIff | main.py:113-118 | No search call is selected exactly when no tool call is named "tavily_search". |
| TranslatorProperties.SearchCallsHead | main.py:113-119 | The first selected call is the first tool call named "tavily_search". |
| TranslatorProperties.SearchStartCarriesFirstQuery | main.py:106-125 | A model end with a search call yields exactly one `search_start` frame. It carries the first search call's "query", or "" when that argument is absent. |
| TranslatorProperties.NoSearchCallNoFrame | main.py:106-118 | A model end without `tool_calls`, or without a search call, yields nothing. |
| TranslatorProperties.UrlsOfAppend | main.py:142-153 | The URLs are collected in item order. |
| TranslatorProperties.UrlsOfMembership | main.py:144-146 | A URL is collected exactly when some item is a dict holding "url" with that value. |
| TranslatorProperties.UrlsOfEmptyIff | main.py:144-146 | Nothing is collected exactly when no item is a dict holding "url". |
| TranslatorProperties.UrlsOfAllItems | main.py:144-146 | When every item holds "url", there is one URL per item, in order. |
| TranslatorProperties.ResultsFieldIsSearched | main.py:147-153 | A dict holding "results" is searched through that field's items. |
| Wire.PayloadType | main.py:73-76 | Every payload is a dict whose "type" names the frame's kind. |
| Wire.PayloadFields | main.py:73-175 | Each payload carries the frame's own field under its key: `checkpoint_id`, `content`, `query`, `urls` or `message`. |
| Wire.TypeNameDistinguishes | main.py:73-175 | Frames of different kinds have different "type" values. |
| Wire.PayloadKeysDistinct | main.py:73-175 | Every payload the server builds holds each key once. |
| Wire.FrameTextShape | main.py:77 | A frame's text is "data: ", then the encoded payload, then a blank line. |
| Wire.ContentsOfAppend | main.py:91-160 | The contents and URLs of consecutive frames are those of each part, in order. |
| Json.Lookup | main.py:119 | `d.get(key)` finds a value exactly when the key is present, and the value found is stored under that key. |
| Json.GetOr | streamlit.py:64 | `d.get(key, default)` gives the stored value when the key is present, and the default otherwise. |
| Json.Iterate | streamlit.py:66 | Lists, strings and dicts can be iterated, and nothing else can. A list yields its items. Strings and dicts yield no dicts. |
| Text.TrimStart | streamlit.py:52 | It removes exactly the leading whitespace. |
| Text.TrimEnd | streamlit.py:52 | It removes exactly the trailing whitespace. |
| Text.StripEmptyIff | streamlit.py:52 | A chunk strips to nothing exactly when it is all whitespace. |
| Text.RemoveAllIdentity | streamlit.py:55 | Text without the marker is left as it is. |
| Text.NoMatchInTail | streamlit.py:55 | Dropping the first character of text without the pattern leaves text without it. |
| Text.NoMatchAtStart | streamlit.py:55 | Text without the pattern, followed by a pattern that cannot overlap itself, does not start with the pattern. |
| Text.RemoveAllBeforeMatch | streamlit.py:55 | Text without the pattern, followed by an occurrence of a pattern that cannot overlap itself, passes through the replace unchanged. |
| Text.RemoveAllSkips | streamlit.py:55 | A prefix that cannot start the marker is kept in front of what the rest becomes. |
| Client.RequestThreadId | streamlit.py:45-48 | The request carries the stored thread id when it is truthy, and "new" otherwise. |
| Client.DisplayedUrls | streamlit.py:128 | The page shows the first four collected URLs, or all of them when there are fewer. |
| Client.StoppedStaysStopped | streamlit.py:67-69 | Once the consumer has stopped, no later chunk changes its state. |
| Client.ReadChunk | streamlit.py:51-73 | One pass of the chunk loop does what `Step` says. |
| Client.DispatchData | streamlit.py:61-76 | The `if`/`elif` chain on "type" does what `Dispatch` says. |
| Client.ChatSession.constructor | streamlit.py:12-16 | A new page has no stored thread and no messages. |
| Client.ChatSession.StreamFromApi | streamlit.py:43-76 | The loop over the chunks yields and collects what `Consume` gives. It stores that run's thread id in place, stops early on an error frame, and leaves the messages alone. |
| Client.ChatSession.Submit | streamlit.py:28-83 | An empty input does nothing. Otherwise the request carries `RequestThreadId`. The user message and the streamed answer are appended, the thread id that the stream leaves is stored, and the page shows `DisplayedUrls` of the collected URLs. |
| Client.ChatSession.Clear | streamlit.py:135-137 | Clearing empties the conversation and forgets the thread id. |
| ClientProperties.StepOnDecodedChunk | streamlit.py:51-61 | A chunk that cleans to valid JSON is dispatched on the decoded data. |
| ClientProperties.WhitespaceChunkCleansToEmpty | streamlit.py:52-57 | A whitespace-only chunk is also empty after cleaning. |
| ClientProperties.CleanedChunkNotBlank | streamlit.py:52-57 | A chunk that is non-empty after cleaning was not blank. |
| ClientProperties.SkippedChunkChangesNothing | streamlit.py:52-73 | A chunk that is blank, empty after cleaning, or not valid JSON leaves the state unchanged. |
| ClientProperties.MarkerNoSelfOverlap | streamlit.py:55 | Two occurrences of "data: " can never overlap. |
| ClientProperties.EveryMarkerRemoved | streamlit.py:55 | Every "data: " is removed, including one in the middle of the text. For any list of pieces, none of which holds the marker, the pieces each preceded by the marker clean to the pieces joined. |
| ClientProperties.StoppedConsumerIgnoresRest | streamlit.py:67-69 | A stopped consumer ignores every later chunk. |
| ClientProperties.ConsumeSingle | streamlit.py:51 | Reading one chunk is one pass of the loop. |
| ClientProperties.ConsumeAppend | streamlit.py:51 | Reading `a` and then `b` is reading `a + b`. |
| ClientProperties.ErrorFrameStops | streamlit.py:67-69 | An `error` frame stops the consumer and keeps everything else. |
| ClientProperties.ErrorFrameStopsProcessing | streamlit.py:67-69 | After an `error` frame, no later chunk changes the state. |
| ClientProperties.EndAndUnknownFramesChangeNothing | streamlit.py:61-69 | An `end` frame, or one of unknown type, has no effect. |
| ClientProperties.ContentFrameYieldsItsText | streamlit.py:63-64 | A `content` frame yields its "content" value, or "" when it has none, and changes nothing else. |
| ClientProperties.SearchResultsExtendUrls | streamlit.py:65-66 | `search_results` appends the items of its "urls" list in order. Without "urls" it appends nothing. If "urls" cannot be iterated, the handler apologises and stops. |
| ClientProperties.CheckpointTakesEffectNextRequest | streamlit.py:47-62 | A `checkpoint` frame stores its `checkpoint_id`, whatever value it is (None when absent), and changes nothing else. The next request carries that id when it is truthy, and "new" otherwise. |
| ClientProperties.DispatchOnlyAppends | streamlit.py:61-76 | A dispatch only appends to the yielded contents and the collected URLs. |
| ClientProperties.StepOnlyAppends | streamlit.py:51-76 | One chunk only appends to the yielded contents and the collected URLs. |
| ClientProperties.ConsumeOnlyAppends | streamlit.py:51-76 | Reading chunks never removes or reorders what was yielded or collected. |
| EndToEnd.DispatchOnPayload | streamlit.py:61-69 | The consumer handles each frame's payload as intended. It stores a checkpoint's id, yields a content's text, collects a search_results frame's URLs, stops at an error frame, and ignores search_start and end. |
| EndToEnd.ReadingOneFrame | streamlit.py:51-69 | A decodable frame is read as its payload says. |
| EndToEnd.BodyFrameEffect | streamlit.py:63-66 | A content or search frame only appends to what was yielded or collected. |
| EndToEnd.ReadingBodyFrames | streamlit.py:51-69 | Reading the loop's frames yields their contents and collects their URLs, in order, without stopping. |
| EndToEnd.ReadingSession | streamlit.py:61-62 | Reading the session frame stores the fresh id. |
| EndToEnd.ReadingClosingFrame | streamlit.py:67-69 | Reading the closing `end` or `error` frame changes only whether the consumer stops. |
| EndToEnd.ReadingRun | streamlit.py:51-69 | Reading the loop's frames and then the closing frame appends their contents and URLs. The consumer stops exactly at an `error` frame. |
| EndToEnd.ReadingResponses | main.py:58-77 | Reading a run's frames means reading the session frame, then everything after it. |
| EndToEnd.FrameAccounting | main.py:73-77 | The session and closing frames carry no content and no URLs. |
| EndToEnd.ClientFollowsServer | main.py:39-175 | After one run the page has yielded every content frame's text and collected every search_results URL, in order. It stores the fresh id exactly for a new conversation, and it has stopped exactly when the run failed. |
| EndToEnd.ClientYieldsStreamedChunks | main.py:91-104 | When no chunk made the run fail, the page has yielded every streamed chunk, in arrival order. |
| EndToEnd.NextRequestContinuesThread | streamlit.py:47 | After a new conversation the page's next request carries the fresh id, and the server continues that thread. |
| EndToEnd.ClearedSessionStartsNewThread | streamlit.py:135-137 | A page without a stored thread asks for a new conversation, and the server starts one. |

## Left out

- The FastAPI application, CORS, `StreamingResponse` and async cancellation (main.py:15-25, 184-199) are HTTP plumbing and concurrency. The endpoint is modelled as the function from one request to its frames. Its only logic, the default thread id, is in `RequestCheckpoint`.
- `message`, and the user's `query`, only feed the agent engine. The model does not carry them.
- The agent engine (app/graph.py) and the search tool (app/tools.py) are foreign code. Their behaviour is the input `run`. An engine failure is modelled as raising after the delivered events, and a failing event as a non-`AIMessageChunk` chunk.
- `uuid4()` is the parameter `freshId`.
- `json.dumps` escaping and `json.loads` parsing are the parameters `dumps` and `loads`. JSON numbers are integers, and floating point is not modelled.
- EndToEnd.ClientFollowsServer: it assumes every frame arrives as one chunk and decodes back to its payload (`ClientDecodes`). It says nothing about payloads whose encoding contains "data: " or starts or ends with whitespace. It also does not cover chunk boundaries that split or merge frames, because those depend on the transport.
- EndToEnd.ClientYieldsStreamedChunks: it rests on the same `ClientDecodes` assumption as `ClientFollowsServer`.
- EndToEnd.NextRequestContinuesThread: it rests on the same `ClientDecodes` assumption as `ClientFollowsServer`.
- EndToEnd.ReadingResponses: it rests on the same `ClientDecodes` assumption as `ClientFollowsServer`.
- Translator.SerialiseAiMessageChunk: the TypeError's message text is not modelled, only the type name it carries. The outer handler never uses that text.
- Only string content of an `AIMessageChunk` is modelled. Content as a list of parts is not.
- The model does not check `InputData` field validation or the request body schema (pydantic).
- Streamlit rendering is UI and is not modelled: chat history display, the form, the typing animation with `time.sleep`, `st.error`, the HTML link grid, and `write_stream`'s joining of the yielded parts into one answer. The assistant message holds the yielded values as a list.
- `httpx` transport errors, such as connection refused or timeout, are not modelled. Only two exceptions that reach the connection handler are modelled: data that is not a dict, and "urls" that cannot be iterated. Both yield the apology and stop.
- The `print` and `traceback` logging is output only and is not modelled.
- Json.Lookup: a JSON object is a list of entries, and the type does not exclude a repeated key. `Lookup` reads the first entry for a key, while a dict built by `json.loads` keeps the last value. The model assumes every object holds each key once, as a Python dict does (`Json.DistinctKeys`). With distinct keys the two readings agree (`Json.LookupDistinct`). The server's own payloads have distinct keys (`Wire.PayloadKeysDistinct`).
