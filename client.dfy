/** The chat page's consumer of the stream (`stream_from_api` in
    streamlit.py) and the session state it keeps between requests. */
module Client {
  import opened Wrappers
  import opened Json
  import opened Text
  import opened Wire

  /** The thread id sent when no thread is stored. */
  const NewThreadRequest: string := "new"
  /** The text yielded when the connection handler catches an exception. */
  const SorryText: string := "Sorry, there was an error connecting to the server."
  /** How many search links the page shows. */
  const DisplayCap: nat := 4

  datatype Message = UserMessage(text: string) | AssistantMessage(parts: seq<Json>)

  /** Where the consumer stands: the stored thread id (JNull for Python's
      None), what it has yielded to the page, the URLs collected into
      `search_urls`, and whether it has stopped reading. */
  datatype StreamState = StreamState(threadId: Json, yielded: seq<Json>, searchUrls: seq<Json>, stopped: bool)

  function Start(threadId: Json): StreamState
  {
    StreamState(threadId, [], [], false)
  }

  /** `st.session_state.thread_id or "new"` */
  function RequestThreadId(stored: Json): (r: Json)
    ensures Truthy(stored) ==> r == stored
    ensures !Truthy(stored) ==> r == JString(NewThreadRequest)
  {
    if Truthy(stored) then stored else JString(NewThreadRequest)
  }

  /** `chunk.replace("data: ", "").strip()` */
  function CleanChunk(chunk: string): string
  {
    Strip(RemoveAll(chunk, Marker))
  }

  /** The outer `except`: the page yields the apology and the stream ends. */
  function Abort(s: StreamState): StreamState
  {
    s.(yielded := s.yielded + [JString(SorryText)], stopped := true)
  }

  /** The dispatch on `data.get("type")` for one decoded chunk. Data that is
      not a dict has no `get` (AttributeError), and "urls" that cannot be
      iterated make `extend` raise (TypeError): both reach the outer
      handler. */
  function Dispatch(s: StreamState, data: Json): StreamState
  {
    if !data.JObject? then Abort(s)
    else
      var kind := GetOr(data, "type", JNull);
      if kind == JString("checkpoint") then s.(threadId := GetOr(data, "checkpoint_id", JNull))
      else if kind == JString("content") then s.(yielded := s.yielded + [GetOr(data, "content", JString(""))])
      else if kind == JString("search_results") then
        match Iterate(GetOr(data, "urls", JArray([])))
        case None => Abort(s)
        case Some(urls) => s.(searchUrls := s.searchUrls + urls)
      else if kind == JString("error") then s.(stopped := true)
      else s
  }

  /** The frame types the dispatch tests for are four different strings. */
  lemma FrameTypesDiffer()
    ensures JString("checkpoint") != JString("content") && JString("checkpoint") != JString("search_results")
    ensures JString("checkpoint") != JString("error") && JString("content") != JString("search_results")
    ensures JString("content") != JString("error") && JString("search_results") != JString("error")
  {
    assert |"checkpoint"| == 10 && |"content"| == 7 && |"search_results"| == 14 && |"error"| == 5;
  }

  /** One pass of the `for chunk in response.iter_text()` loop; `loads`
      stands for `json.loads`, None for a JSONDecodeError. */
  function Step(s: StreamState, chunk: string, loads: string -> Option<Json>): StreamState
  {
    if s.stopped || Strip(chunk) == [] then s
    else
      var clean := CleanChunk(chunk);
      if clean == [] then s
      else
        match loads(clean)
        case None => s
        case Some(data) => Dispatch(s, data)
  }

  /** The state after the loop has read `chunks`, one after the other. */
  function Consume(s: StreamState, chunks: seq<string>, loads: string -> Option<Json>): StreamState
    decreases |chunks|
  {
    if |chunks| == 0 then s
    else Step(Consume(s, chunks[..|chunks| - 1], loads), chunks[|chunks| - 1], loads)
  }

  /** `search_urls[:4]`: the links the page shows. */
  function DisplayedUrls(urls: seq<Json>): (shown: seq<Json>)
    ensures |shown| == if |urls| < DisplayCap then |urls| else DisplayCap
    ensures shown == urls[..|shown|]
  {
    if |urls| <= DisplayCap then urls else urls[..DisplayCap]
  }

  /** A consumer that has stopped reads nothing more. */
  lemma {:induction false} StoppedStaysStopped(s: StreamState, chunks: seq<string>, k: nat, loads: string -> Option<Json>)
    requires k <= |chunks| && Consume(s, chunks[..k], loads).stopped
    ensures Consume(s, chunks, loads) == Consume(s, chunks[..k], loads)
    decreases |chunks| - k
  {
    if k < |chunks| {
      var prefix := chunks[..|chunks| - 1];
      assert prefix[..k] == chunks[..k];
      StoppedStaysStopped(s, prefix, k, loads);
    } else {
      assert chunks[..k] == chunks;
    }
  }

  /** One pass of the loop body, from the `strip` test to the dispatch. */
  method ReadChunk(s: StreamState, chunk: string, loads: string -> Option<Json>) returns (t: StreamState)
    requires !s.stopped
    ensures t == Step(s, chunk, loads)
  {
    if Strip(chunk) == [] {
      return s;
    }
    var clean := Strip(RemoveAll(chunk, Marker));
    if clean == [] {
      return s;
    }
    assert clean == CleanChunk(chunk);
    var decoded := loads(clean);
    if decoded.None? {
      return s;
    }
    assert Step(s, chunk, loads) == Dispatch(s, decoded.value);
    t := DispatchData(s, decoded.value);
  }

  /** The `if`/`elif` chain on `data.get("type")`. */
  method DispatchData(s: StreamState, data: Json) returns (t: StreamState)
    ensures t == Dispatch(s, data)
  {
    if !data.JObject? {
      return Abort(s);
    }
    var kind := GetOr(data, "type", JNull);
    FrameTypesDiffer();
    t := s;
    if kind == JString("checkpoint") {
      t := t.(threadId := GetOr(data, "checkpoint_id", JNull));
    } else if kind == JString("content") {
      t := t.(yielded := t.yielded + [GetOr(data, "content", JString(""))]);
    } else if kind == JString("search_results") {
      var urls := Iterate(GetOr(data, "urls", JArray([])));
      if urls.None? {
        return Abort(s);
      }
      t := t.(searchUrls := t.searchUrls + urls.value);
    } else if kind == JString("error") {
      t := t.(stopped := true);
    }
  }

  /** The page's session state: the stored thread id and the conversation. */
  class ChatSession {
    var threadId: Json
    var messages: seq<Message>

    /** A page opened for the first time. */
    constructor ()
      ensures threadId == JNull && messages == []
    {
      threadId := JNull;
      messages := [];
    }

    /** `stream_from_api` reading `chunks`: what it yields and what it
        collects into `search_urls`; a `checkpoint` frame updates the stored
        thread id in place. */
    method StreamFromApi(chunks: seq<string>, loads: string -> Option<Json>) returns (yielded: seq<Json>, searchUrls: seq<Json>)
      modifies this
      ensures var s := Consume(Start(old(threadId)), chunks, loads);
        threadId == s.threadId && yielded == s.yielded && searchUrls == s.searchUrls
      ensures messages == old(messages)
    {
      ghost var start := Start(threadId);
      yielded, searchUrls := [], [];
      var i := 0;
      while i < |chunks|
        invariant 0 <= i <= |chunks|
        invariant messages == old(messages)
        invariant Consume(start, chunks[..i], loads) == StreamState(threadId, yielded, searchUrls, false)
      {
        assert chunks[..i + 1][..i] == chunks[..i];
        var next := ReadChunk(StreamState(threadId, yielded, searchUrls, false), chunks[i], loads);
        threadId, yielded, searchUrls := next.threadId, next.yielded, next.searchUrls;
        if next.stopped {
          StoppedStaysStopped(start, chunks, i + 1, loads);
          return;
        }
        i := i + 1;
      }
      assert chunks[..i] == chunks;
    }

    /** Submitting `userInput` when the server answers with `chunks`: the
        thread id the request carries, and the links shown under the answer.
        An empty input submits nothing. */
    method Submit(userInput: string, chunks: seq<string>, loads: string -> Option<Json>) returns (request: Option<Json>, shown: seq<Json>)
      modifies this
      ensures userInput == [] ==>
        request == None && shown == [] && threadId == old(threadId) && messages == old(messages)
      ensures userInput != [] ==>
        var s := Consume(Start(old(threadId)), chunks, loads);
        && request == Some(RequestThreadId(old(threadId)))
        && threadId == s.threadId
        && messages == old(messages) + [UserMessage(userInput), AssistantMessage(s.yielded)]
        && shown == DisplayedUrls(s.searchUrls)
    {
      if userInput == [] {
        return None, [];
      }
      messages := messages + [UserMessage(userInput)];
      request := Some(RequestThreadId(threadId));
      var fullResponse, searchUrls := StreamFromApi(chunks, loads);
      messages := messages + [AssistantMessage(fullResponse)];
      shown := [];
      if searchUrls != [] {
        shown := DisplayedUrls(searchUrls);
      }
    }

    /** The "Clear Conversation" button. */
    method Clear()
      modifies this
      ensures messages == [] && threadId == JNull
    {
      messages := [];
      threadId := JNull;
    }
  }
}
