/** What the translator promises about the frames of a run: the session
    frame, the order of content frames, the search frames, the isolation of
    tool-output failures, and how a run ends. */
module TranslatorProperties {
  import opened Wrappers
  import opened Json
  import opened Wire
  import opened Translator

  /** The frames an event can yield inside the loop. */
  predicate BodyFrame(f: WireFrame)
  {
    f.Content? || f.SearchStart? || f.SearchResults?
  }

  /** The engine events that make the loop raise: chunks that are not an
      `AIMessageChunk`. */
  predicate IsForeignChunk(e: Event)
  {
    e.ChatModelStream? && e.chunk.OtherChunk?
  }

  predicate NoForeignChunk(events: seq<Event>)
  {
    forall i :: 0 <= i < |events| ==> !IsForeignChunk(events[i])
  }

  /** The content of every model-stream event, in arrival order. */
  function StreamedChunks(events: seq<Event>): seq<string>
  {
    if |events| == 0 then []
    else (if events[0].ChatModelStream? && events[0].chunk.AIMessageChunk? then [events[0].chunk.content] else [])
         + StreamedChunks(events[1..])
  }

  lemma EventFramesAreBodyFrames(e: Event, loads: string -> Option<Json>)
    requires EventFrames(e, loads).Success?
    ensures forall j :: 0 <= j < |EventFrames(e, loads).value| ==> BodyFrame(EventFrames(e, loads).value[j])
  {
  }

  /** The loop yields only content and search frames, and it raises exactly
      when a foreign chunk arrives or the engine itself raises. */
  lemma {:induction false} TranslateShape(events: seq<Event>, raises: bool, loads: string -> Option<Json>)
    ensures forall j :: 0 <= j < |Translate(events, raises, loads).frames| ==> BodyFrame(Translate(events, raises, loads).frames[j])
    ensures Translate(events, raises, loads).Raised? <==> raises || !NoForeignChunk(events)
    decreases |events|
  {
    if |events| > 0 {
      TranslateShape(events[1..], raises, loads);
      assert forall i :: 0 <= i < |events[1..]| ==> events[1..][i] == events[i + 1];
      match EventFrames(events[0], loads)
      case Failure(_) =>
        assert IsForeignChunk(events[0]);
      case Success(fs) =>
        EventFramesAreBodyFrames(events[0], loads);
        if !NoForeignChunk(events) {
          var i :| 0 <= i < |events| && IsForeignChunk(events[i]);
          assert i != 0;
          assert IsForeignChunk(events[1..][i - 1]);
        }
    }
  }

  /** A new conversation's first frame is the checkpoint carrying the fresh
      id, and no other frame is a checkpoint; a reused conversation yields
      no checkpoint frame at all and runs under the id it was given. */
  lemma CheckpointOnlyForNewConversation(checkpointId: Option<string>, freshId: string, run: EngineRun, loads: string -> Option<Json>)
    ensures var r := Responses(checkpointId, freshId, run, loads);
      && (IsNewConversation(checkpointId) ==>
            r[0] == Checkpoint(freshId) && forall j :: 0 < j < |r| ==> !r[j].Checkpoint?)
      && (!IsNewConversation(checkpointId) ==>
            (forall j :: 0 <= j < |r| ==> !r[j].Checkpoint?) && ThreadIdFor(checkpointId, freshId) == checkpointId.value)
  {
    TranslateShape(run.events, run.raises, loads);
  }

  /** Every run ends with exactly one terminal frame, and it is the last:
      `end` when the loop completed, `error` with the fixed message when it
      raised. On the error path no `end` frame is yielded at all. */
  lemma RunEndsWithOneTerminalFrame(checkpointId: Option<string>, freshId: string, run: EngineRun, loads: string -> Option<Json>)
    ensures var r := Responses(checkpointId, freshId, run, loads);
      var failed := run.raises || !NoForeignChunk(run.events);
      && |r| > 0
      && (forall j :: 0 <= j < |r| - 1 ==> !r[j].End? && !r[j].Error?)
      && (failed ==> r[|r| - 1] == Error(GenericErrorMessage))
      && (!failed ==> r[|r| - 1] == End)
  {
    TranslateShape(run.events, run.raises, loads);
  }

  /** With every chunk an `AIMessageChunk`, the content frames carry the
      chunks' contents one for one, in arrival order, none merged or
      dropped. */
  lemma {:induction false} ContentFramesFollowChunks(events: seq<Event>, raises: bool, loads: string -> Option<Json>)
    requires NoForeignChunk(events)
    ensures ContentsOf(Translate(events, raises, loads).frames) == StreamedChunks(events)
    decreases |events|
  {
    if |events| > 0 {
      assert NoForeignChunk(events[1..]) by {
        assert forall i :: 0 <= i < |events[1..]| ==> events[1..][i] == events[i + 1];
      }
      ContentFramesFollowChunks(events[1..], raises, loads);
      assert !IsForeignChunk(events[0]);
      var fs := EventFrames(events[0], loads).value;
      ContentsOfAppend(fs, Translate(events[1..], raises, loads).frames);
      if !events[0].ChatModelStream? {
        EventFramesAreBodyFrames(events[0], loads);
        assert ContentsOf(fs) == [] by {
          if |fs| == 1 {
            assert !fs[0].Content?;
            assert ContentsOf(fs) == ContentsOf(fs[1..]);
          } else {
            assert fs == [];
          }
        }
      }
    }
  }

  /** A failure when the engine raises keeps every frame yielded before it:
      the run yields what it would have yielded, with the error frame in
      place of `end`. */
  lemma {:induction false} EngineFailureKeepsFrames(events: seq<Event>, loads: string -> Option<Json>)
    ensures Translate(events, true, loads) == Raised(Translate(events, false, loads).frames)
    decreases |events|
  {
    if |events| > 0 {
      EngineFailureKeepsFrames(events[1..], loads);
    }
  }

  /** A chunk that is not an `AIMessageChunk` ends the loop: the frames
      yielded for the events before it are kept, nothing after it is
      translated, and the outer handler follows with the error frame. */
  lemma {:induction false} ForeignChunkStopsRun(pre: seq<Event>, typeName: string, post: seq<Event>, raises: bool, loads: string -> Option<Json>)
    requires Translate(pre, false, loads).Completed?
    ensures Translate(pre + [ChatModelStream(OtherChunk(typeName))] + post, raises, loads)
         == Raised(Translate(pre, false, loads).frames)
    decreases |pre|
  {
    var bad := ChatModelStream(OtherChunk(typeName));
    if |pre| == 0 {
      assert pre + [bad] + post == [bad] + post;
    } else {
      assert (pre + [bad] + post)[0] == pre[0];
      assert (pre + [bad] + post)[1..] == pre[1..] + [bad] + post;
      ForeignChunkStopsRun(pre[1..], typeName, post, raises, loads);
    }
  }

  /** An event that yields nothing leaves no trace: translating the run
      without it gives the same outcome. */
  lemma {:induction false} SilentEventLeavesNoTrace(pre: seq<Event>, e: Event, post: seq<Event>, raises: bool, loads: string -> Option<Json>)
    requires EventFrames(e, loads) == Success([])
    ensures Translate(pre + [e] + post, raises, loads) == Translate(pre + post, raises, loads)
    decreases |pre|
  {
    if |pre| == 0 {
      assert pre + [e] + post == [e] + post;
      assert ([e] + post)[1..] == post;
      assert pre + post == post;
    } else {
      assert (pre + [e] + post)[0] == pre[0] && (pre + post)[0] == pre[0];
      assert (pre + [e] + post)[1..] == pre[1..] + [e] + post;
      assert (pre + post)[1..] == pre[1..] + post;
      SilentEventLeavesNoTrace(pre[1..], e, post, raises, loads);
    }
  }

  /** A search-tool output that cannot be decoded or whose "results" cannot
      be iterated yields no frame, and translation goes on with the next
      event as if it had not arrived. So does the end of any other tool, and
      the end of a search-tool run without `content`. */
  lemma IgnoredToolEndsLeaveNoTrace(pre: seq<Event>, name: string, output: ToolOutput, post: seq<Event>, raises: bool, loads: string -> Option<Json>)
    requires name != SearchToolName || output.content.None? || ToolUrls(output, loads).Failure?
    ensures Translate(pre + [ToolEnd(name, output)] + post, raises, loads) == Translate(pre + post, raises, loads)
  {
    SilentEventLeavesNoTrace(pre, ToolEnd(name, output), post, raises, loads);
  }

  /** A string content is always JSON text to decode, and only a string
      content is decoded: a decode failure is reported as such, and any other
      content is searched for URLs as it is. */
  lemma OnlyStringContentIsDecoded(content: Json, loads: string -> Option<Json>)
    ensures content.JString? && loads(content.s).None? ==>
      ToolUrls(ToolOutput(Some(content)), loads) == Failure(DecodeError)
    ensures content.JString? && loads(content.s).Some? ==>
      ToolUrls(ToolOutput(Some(content)), loads) == ResultsUrls(loads(content.s).value)
    ensures !content.JString? ==> ToolUrls(ToolOutput(Some(content)), loads) == ResultsUrls(content)
  {
  }

  /** No search call is selected exactly when no tool call is named after
      the search tool. */
  lemma {:induction false} SearchCallsEmptyIff(calls: seq<ToolCall>)
    ensures SearchCalls(calls) == [] <==> forall j :: 0 <= j < |calls| ==> calls[j].name != SearchToolName
    decreases |calls|
  {
    if |calls| > 0 {
      SearchCallsEmptyIff(calls[1..]);
      assert forall j :: 0 <= j < |calls[1..]| ==> calls[1..][j] == calls[j + 1];
    }
  }

  /** The first selected search call is the first tool call named after the
      search tool. */
  lemma {:induction false} SearchCallsHead(calls: seq<ToolCall>, k: nat)
    requires k < |calls| && calls[k].name == SearchToolName
    requires forall j :: 0 <= j < k ==> calls[j].name != SearchToolName
    ensures SearchCalls(calls) != [] && SearchCalls(calls)[0] == calls[k]
    decreases |calls|
  {
    if k > 0 {
      SearchCallsHead(calls[1..], k - 1);
    }
  }

  /** The end of a model call whose tool calls name the search tool yields
      exactly one `search_start` frame, carrying the first such call's
      "query" argument, or "" when that argument is absent. */
  lemma SearchStartCarriesFirstQuery(output: ModelOutput, k: nat)
    requires output.toolCalls.Some?
    requires k < |output.toolCalls.value| && output.toolCalls.value[k].name == SearchToolName
    requires forall j :: 0 <= j < k ==> output.toolCalls.value[j].name != SearchToolName
    ensures var args := output.toolCalls.value[k].args;
      && SearchStartFrames(output) == [SearchStart(QueryArg(args))]
      && (HasKey(args, "query") ==> QueryArg(args) == Lookup(args, "query").value)
      && (!HasKey(args, "query") ==> QueryArg(args) == JString(""))
  {
    SearchCallsHead(output.toolCalls.value, k);
  }

  /** The end of a model call without a `tool_calls` attribute, or with no
      call to the search tool, yields nothing. */
  lemma NoSearchCallNoFrame(output: ModelOutput)
    requires output.toolCalls.None? || forall j :: 0 <= j < |output.toolCalls.value| ==> output.toolCalls.value[j].name != SearchToolName
    ensures SearchStartFrames(output) == []
  {
    if output.toolCalls.Some? {
      SearchCallsEmptyIff(output.toolCalls.value);
    }
  }

  /** Collecting URLs keeps the items' order: the URLs of a concatenation
      are the URLs of each part, one after the other. */
  lemma {:induction false} UrlsOfAppend(a: seq<Json>, b: seq<Json>)
    ensures UrlsOf(a + b) == UrlsOf(a) + UrlsOf(b)
    decreases |a|
  {
    if |a| == 0 {
      assert a + b == b;
    } else {
      var h := if IsObjectWith(a[0], "url") then [Field(a[0], "url")] else [];
      assert (a + b)[0] == a[0];
      assert (a + b)[1..] == a[1..] + b;
      assert UrlsOf(a + b) == h + UrlsOf(a[1..] + b);
      assert UrlsOf(a) == h + UrlsOf(a[1..]);
      UrlsOfAppend(a[1..], b);
      assert h + (UrlsOf(a[1..]) + UrlsOf(b)) == (h + UrlsOf(a[1..])) + UrlsOf(b);
    }
  }

  /** A URL is collected exactly when some item is a dict holding "url"
      with that value. */
  lemma {:induction false} UrlsOfMembership(items: seq<Json>, u: Json)
    ensures u in UrlsOf(items) <==>
      exists i :: 0 <= i < |items| && IsObjectWith(items[i], "url") && Field(items[i], "url") == u
    decreases |items|
  {
    if |items| > 0 {
      UrlsOfMembership(items[1..], u);
      assert forall i :: 0 <= i < |items[1..]| ==> items[1..][i] == items[i + 1];
      if u in UrlsOf(items[1..]) {
        var i :| 0 <= i < |items[1..]| && IsObjectWith(items[1..][i], "url") && Field(items[1..][i], "url") == u;
        assert IsObjectWith(items[i + 1], "url");
      }
      if exists i :: 0 <= i < |items| && IsObjectWith(items[i], "url") && Field(items[i], "url") == u {
        var i :| 0 <= i < |items| && IsObjectWith(items[i], "url") && Field(items[i], "url") == u;
        if i > 0 {
          assert IsObjectWith(items[1..][i - 1], "url");
        }
      }
    }
  }

  /** No URL is collected exactly when no item is a dict holding "url". */
  lemma {:induction false} UrlsOfEmptyIff(items: seq<Json>)
    ensures UrlsOf(items) == [] <==> forall i :: 0 <= i < |items| ==> !IsObjectWith(items[i], "url")
    decreases |items|
  {
    if |items| > 0 {
      UrlsOfEmptyIff(items[1..]);
      assert forall i :: 0 <= i < |items[1..]| ==> items[1..][i] == items[i + 1];
    }
  }

  /** When every item is a dict holding "url", one URL is collected per item,
      in the items' order. */
  lemma {:induction false} UrlsOfAllItems(items: seq<Json>)
    requires forall i :: 0 <= i < |items| ==> IsObjectWith(items[i], "url")
    ensures |UrlsOf(items)| == |items|
    ensures forall i :: 0 <= i < |items| ==> UrlsOf(items)[i] == Field(items[i], "url")
    decreases |items|
  {
    if |items| > 0 {
      assert forall i :: 0 <= i < |items[1..]| ==> items[1..][i] == items[i + 1];
      UrlsOfAllItems(items[1..]);
    }
  }

  /** A dict holding "results" is searched through that field. */
  lemma ResultsFieldIsSearched(results: Json, items: seq<Json>)
    requires IsObjectWith(results, "results") && Iterate(Field(results, "results")) == Some(items)
    ensures ResultsUrls(results) == Success(UrlsOf(items))
  {
  }
}
