/** The chat endpoint's stream translator (`generate_chat_responses` in
    main.py): it turns the agent engine's events for one run into the ordered
    frames of the server-sent-event response. */
module Translator {
  import opened Wrappers
  import opened Json
  import opened Wire

  /** The name under which the web-search tool is registered. */
  const SearchToolName: string := "tavily_search"
  /** The thread id a client sends to ask for a new conversation. */
  const NewConversation: string := "new"
  /** `InputData.thread_id` when the request does not carry one. */
  const DefaultThreadId: string := "001"
  /** The only text an `error` frame ever carries. */
  const GenericErrorMessage: string := "An error occurred"

  /** The `chunk` of a model-stream event: an `AIMessageChunk`, or an object
      of some other type, named by `typeName`. */
  datatype Chunk = AIMessageChunk(content: string) | OtherChunk(typeName: string)

  /** One entry of `output.tool_calls`: the tool's name and its arguments. */
  datatype ToolCall = ToolCall(name: string, args: seq<(string, Json)>)

  /** The output of a finished model call; `toolCalls` is None when the
      object has no `tool_calls` attribute. */
  datatype ModelOutput = ModelOutput(toolCalls: Option<seq<ToolCall>>)

  /** A tool's output: the value of its `content` attribute, or None when it
      has none. A string content is JSON text the server decodes; any other
      value is used as it is. */
  datatype ToolOutput = ToolOutput(content: Option<Json>)

  /** The engine events the translator distinguishes (`event["event"]`). */
  datatype Event =
    | ChatModelStream(chunk: Chunk)
    | ChatModelEnd(modelOutput: ModelOutput)
    | ToolEnd(name: string, toolOutput: ToolOutput)
    | Other

  /** What iterating `graph.astream_events` delivers: these events, and then
      either the end of the stream or, when `raises`, an exception. */
  datatype EngineRun = EngineRun(events: seq<Event>, raises: bool)

  /** Why a tool output yielded no URLs: `json.loads` rejected its text, or
      its "results" field is not iterable (Python's TypeError). */
  datatype ToolFailure = DecodeError | NotIterable

  /** What the `async for` loop inside the outer `try` did: it ran to the end
      having yielded `frames`, or it raised after yielding `frames`. */
  datatype Outcome = Completed(frames: seq<WireFrame>) | Raised(frames: seq<WireFrame>)

  // ---------------------------------------------------------------------
  // Session choice

  /** `checkpoint_id is None or checkpoint_id == "new"` */
  predicate IsNewConversation(checkpointId: Option<string>)
  {
    checkpointId.None? || checkpointId.value == NewConversation
  }

  /** The `thread_id` the engine is configured with; `freshId` stands for
      `str(uuid4())`. */
  function ThreadIdFor(checkpointId: Option<string>, freshId: string): (t: string)
    ensures IsNewConversation(checkpointId) ==> t == freshId
    ensures !IsNewConversation(checkpointId) ==> t == checkpointId.value
  {
    if IsNewConversation(checkpointId) then freshId else checkpointId.value
  }

  /** The checkpoint id `chat_stream` passes on for a request that carries
      `threadId`, or none. */
  function RequestCheckpoint(threadId: Option<string>): (c: string)
    ensures threadId.Some? ==> c == threadId.value
    ensures threadId.None? ==> !IsNewConversation(Some(c)) && ThreadIdFor(Some(c), "") == "001"
  {
    threadId.GetOr(DefaultThreadId)
  }

  /** The frames yielded before the engine is iterated. */
  function SessionFrames(checkpointId: Option<string>, freshId: string): seq<WireFrame>
  {
    if IsNewConversation(checkpointId) then [Checkpoint(freshId)] else []
  }

  // ---------------------------------------------------------------------
  // Per-event translation

  /** `serialise_ai_message_chunk`: the chunk's content, or a TypeError
      naming the type of any other kind of object. */
  function SerialiseAiMessageChunk(chunk: Chunk): (r: Result<string, string>)
    ensures r.Success? <==> chunk.AIMessageChunk?
    ensures r.Success? ==> r.value == chunk.content
    ensures chunk.OtherChunk? ==> r == Failure(chunk.typeName)
  {
    match chunk
    case AIMessageChunk(c) => Success(c)
    case OtherChunk(t) =>
      Failure(t)
  }

  /** `[call for call in tool_calls if call["name"] == "tavily_search"]` */
  function SearchCalls(calls: seq<ToolCall>): (r: seq<ToolCall>)
    ensures |r| <= |calls|
    ensures forall j :: 0 <= j < |r| ==> r[j].name == SearchToolName && r[j] in calls
  {
    if |calls| == 0 then []
    else (if calls[0].name == SearchToolName then [calls[0]] else []) + SearchCalls(calls[1..])
  }

  /** `args.get("query", "")` */
  function QueryArg(args: seq<(string, Json)>): Json
  {
    GetOr(JObject(args), "query", JString(""))
  }

  /** The frames for an `on_chat_model_end` event. */
  function SearchStartFrames(output: ModelOutput): seq<WireFrame>
  {
    var searchCalls := SearchCalls(output.toolCalls.GetOr([]));
    if |searchCalls| > 0 then [SearchStart(QueryArg(searchCalls[0].args))] else []
  }

  /** The `url` of every item that is a dict holding "url", in order: what
      the `for item in ...: if ...: urls.append(item["url"])` loops build. */
  function UrlsOf(items: seq<Json>): (urls: seq<Json>)
    ensures |urls| <= |items|
  {
    if |items| == 0 then []
    else (if IsObjectWith(items[0], "url") then [Field(items[0], "url")] else []) + UrlsOf(items[1..])
  }

  /** The URLs found in a decoded tool result: in its items when it is a
      list, in the items of its "results" field when it is a dict holding
      one, and none otherwise. */
  function ResultsUrls(results: Json): (r: Result<seq<Json>, ToolFailure>)
    ensures results.JArray? ==> r == Success(UrlsOf(results.items))
    ensures !results.JArray? && !IsObjectWith(results, "results") ==> r == Success([])
  {
    if results.JArray? then Success(UrlsOf(results.items))
    else if IsObjectWith(results, "results") then
      match Iterate(Field(results, "results"))
      case None => Failure(NotIterable)
      case Some(items) => Success(UrlsOf(items))
    else Success([])
  }

  /** The inner `try` of the `on_tool_end` branch. An output without
      `content` yields no URLs; a text content is decoded with `loads`
      (`json.loads`) first. */
  function ToolUrls(output: ToolOutput, loads: string -> Option<Json>): Result<seq<Json>, ToolFailure>
  {
    match output.content
    case None => Success([])
    case Some(JString(t)) =>
      (match loads(t)
       case None => Failure(DecodeError)
       case Some(v) => ResultsUrls(v))
    case Some(v) => ResultsUrls(v)
  }

  /** The frames for an `on_tool_end` event: one `search_results` frame when
      the search tool's output yields URLs, nothing otherwise. */
  function ToolEndFrames(name: string, output: ToolOutput, loads: string -> Option<Json>): (fs: seq<WireFrame>)
    ensures fs != [] <==> name == SearchToolName && ToolUrls(output, loads).Success? && ToolUrls(output, loads).value != []
    ensures fs != [] ==> fs == [SearchResults(ToolUrls(output, loads).value)]
  {
    if name != SearchToolName then []
    else
      match ToolUrls(output, loads)
      case Failure(_) => []
      case Success(urls) => if |urls| > 0 then [SearchResults(urls)] else []
  }

  /** One pass of the `async for` body: the frames the event yields, or the
      message of the exception that escapes to the outer handler. */
  function EventFrames(e: Event, loads: string -> Option<Json>): Result<seq<WireFrame>, string>
  {
    match e
    case ChatModelStream(chunk) =>
      (match SerialiseAiMessageChunk(chunk)
       case Success(c) => Success([Content(c)])
       case Failure(m) => Failure(m))
    case ChatModelEnd(output) => Success(SearchStartFrames(output))
    case ToolEnd(name, output) => Success(ToolEndFrames(name, output, loads))
    case Other => Success([])
  }

  // ---------------------------------------------------------------------
  // The whole run

  function Prepend(fs: seq<WireFrame>, o: Outcome): Outcome
  {
    match o
    case Completed(gs) => Completed(fs + gs)
    case Raised(gs) => Raised(fs + gs)
  }

  lemma FinishPrepend(fs: seq<WireFrame>, o: Outcome)
    ensures Finish(Prepend(fs, o)) == fs + Finish(o)
  {
  }

  /** The `async for` loop over the engine's events. */
  function Translate(events: seq<Event>, raises: bool, loads: string -> Option<Json>): Outcome
    decreases |events|
  {
    if |events| == 0 then
      if raises then Raised([]) else Completed([])
    else
      match EventFrames(events[0], loads)
      case Failure(_) => Raised([])
      case Success(fs) => Prepend(fs, Translate(events[1..], raises, loads))
  }

  /** The frames after the loop: `end` when it completed (still inside the
      outer `try`), the handler's `error` frame when it raised. */
  function Finish(o: Outcome): seq<WireFrame>
  {
    match o
    case Completed(fs) => fs + [End]
    case Raised(fs) => fs + [Error(GenericErrorMessage)]
  }

  /** Everything `generate_chat_responses` yields for one run. */
  function Responses(checkpointId: Option<string>, freshId: string, run: EngineRun, loads: string -> Option<Json>): seq<WireFrame>
  {
    SessionFrames(checkpointId, freshId) + Finish(Translate(run.events, run.raises, loads))
  }

  // ---------------------------------------------------------------------
  // The imperative translator

  /** The URL-collecting loop of the `on_tool_end` branch. */
  method CollectUrls(items: seq<Json>) returns (urls: seq<Json>)
    ensures urls == UrlsOf(items)
  {
    urls := [];
    var i := 0;
    while i < |items|
      invariant 0 <= i <= |items|
      invariant urls + UrlsOf(items[i..]) == UrlsOf(items)
    {
      assert items[i..][1..] == items[i + 1..];
      var item := items[i];
      if IsObjectWith(item, "url") {
        urls := urls + [Field(item, "url")];
      }
      i := i + 1;
    }
    assert items[i..] == [];
  }

  /** The body of the inner `try` of the `on_tool_end` branch. */
  method ProcessToolOutput(output: ToolOutput, loads: string -> Option<Json>) returns (r: Result<seq<Json>, ToolFailure>)
    ensures r == ToolUrls(output, loads)
  {
    if output.content.None? {
      return Success([]);
    }
    var content := output.content.value;
    var results := content;
    if content.JString? {
      var decoded := loads(content.s);
      if decoded.None? {
        return Failure(DecodeError);
      }
      results := decoded.value;
    }
    var urls: seq<Json> := [];
    if results.JArray? {
      urls := CollectUrls(results.items);
    } else if IsObjectWith(results, "results") {
      var items := Iterate(Field(results, "results"));
      if items.None? {
        return Failure(NotIterable);
      }
      urls := CollectUrls(items.value);
    }
    r := Success(urls);
  }

  /** One pass of the `async for` body: the frames it yields for `e`, or the
      exception that leaves the loop. */
  method TranslateEvent(e: Event, loads: string -> Option<Json>) returns (r: Result<seq<WireFrame>, string>)
    ensures r == EventFrames(e, loads)
  {
    r := Success([]);
    match e {
      case ChatModelStream(chunk) =>
        var content := SerialiseAiMessageChunk(chunk);
        if content.Failure? {
          return Failure(content.error);
        }
        r := Success([Content(content.value)]);
      case ChatModelEnd(output) =>
        var toolCalls := if output.toolCalls.Some? then output.toolCalls.value else [];
        var searchCalls := SearchCalls(toolCalls);
        if |searchCalls| > 0 {
          r := Success([SearchStart(QueryArg(searchCalls[0].args))]);
        }
      case ToolEnd(name, output) =>
        if name == SearchToolName {
          var urls := ProcessToolOutput(output, loads);
          if urls.Success? && |urls.value| > 0 {
            r := Success([SearchResults(urls.value)]);
          }
        }
      case Other =>
    }
  }

  /** One pass of the loop body at position `i`, stated as the step it takes
      through `Translate`. */
  method TranslateEventAt(events: seq<Event>, i: nat, raises: bool, loads: string -> Option<Json>)
    returns (r: Result<seq<WireFrame>, string>)
    requires i < |events|
    ensures r.Failure? ==> Finish(Translate(events[i..], raises, loads)) == [Error(GenericErrorMessage)]
    ensures r.Success? ==>
      Finish(Translate(events[i..], raises, loads)) == r.value + Finish(Translate(events[i + 1..], raises, loads))
  {
    r := TranslateEvent(events[i], loads);
    assert events[i..][0] == events[i] && events[i..][1..] == events[i + 1..];
    if r.Success? {
      FinishPrepend(r.value, Translate(events[i + 1..], raises, loads));
    }
  }

  /** The frame after the loop has gone through every event: `end`, or the
      handler's `error` frame when iterating the engine raised. */
  method CloseRun(raises: bool, loads: string -> Option<Json>) returns (closing: seq<WireFrame>)
    ensures closing == Finish(Translate([], raises, loads))
  {
    if raises {
      closing := [Error(GenericErrorMessage)];
    } else {
      closing := [End];
    }
  }

  /** The outer `try` after the session choice: the `async for` loop over
      the engine's events, then `end`, or the handler's `error` frame once
      something raises. */
  method RelayEvents(run: EngineRun, loads: string -> Option<Json>) returns (frames: seq<WireFrame>)
    ensures frames == Finish(Translate(run.events, run.raises, loads))
  {
    frames := [];
    var events := run.events;
    var i := 0;
    assert events[i..] == events;
    while i < |events|
      invariant 0 <= i <= |events|
      invariant frames + Finish(Translate(events[i..], run.raises, loads)) == Finish(Translate(events, run.raises, loads))
    {
      var step := TranslateEventAt(events, i, run.raises, loads);
      if step.Failure? {
        frames := frames + [Error(GenericErrorMessage)];
        return;
      }
      assert (frames + step.value) + Finish(Translate(events[i + 1..], run.raises, loads))
          == frames + (step.value + Finish(Translate(events[i + 1..], run.raises, loads)));
      frames := frames + step.value;
      i := i + 1;
    }
    assert events[i..] == [];
    var closing := CloseRun(run.raises, loads);
    frames := frames + closing;
  }

  /** `generate_chat_responses`: the thread id the engine runs under and the
      frames yielded, in order. `freshId` stands for `str(uuid4())`, `run`
      for what iterating `graph.astream_events` delivers, and `loads` for
      `json.loads`. */
  method GenerateChatResponses(checkpointId: Option<string>, freshId: string, run: EngineRun, loads: string -> Option<Json>)
    returns (threadId: string, frames: seq<WireFrame>)
    ensures threadId == ThreadIdFor(checkpointId, freshId)
    ensures frames == Responses(checkpointId, freshId, run, loads)
  {
    if checkpointId.None? || checkpointId.value == NewConversation {
      threadId := freshId;
      frames := [Checkpoint(freshId)];
    } else {
      threadId := checkpointId.value;
      frames := [];
    }
    var relayed := RelayEvents(run, loads);
    frames := frames + relayed;
  }
}
