/** The server's frames read by the page's consumer: what the page ends up
    with after one run, when each frame arrives as one chunk and the client's
    decoder reads back the payload the server encoded. */
module EndToEnd {
  import opened Wrappers
  import opened Json
  import opened Wire
  import opened Translator
  import opened TranslatorProperties
  import opened Client
  import opened ClientProperties

  /** Each frame's text, cleaned as the client cleans it, decodes back to
      the frame's payload. A payload whose encoding contains the marker or
      is surrounded by whitespace does not meet this. */
  predicate ClientDecodes(frames: seq<WireFrame>, dumps: Json -> string, loads: string -> Option<Json>)
  {
    forall i :: 0 <= i < |frames| ==> DecodesTo(FrameText(frames[i], dumps), loads, Payload(frames[i]))
  }

  /** The contents as the page yields them. */
  function Wrap(cs: seq<string>): (js: seq<Json>)
    ensures |js| == |cs| && forall i :: 0 <= i < |cs| ==> js[i] == JString(cs[i])
  {
    seq(|cs|, i requires 0 <= i < |cs| => JString(cs[i]))
  }

  /** What reading one frame does to the consumer. */
  function Effect(s: StreamState, f: WireFrame): StreamState
  {
    match f
    case Checkpoint(id) => s.(threadId := JString(id))
    case Content(c) => s.(yielded := s.yielded + [JString(c)])
    case SearchResults(urls) => s.(searchUrls := s.searchUrls + urls)
    case Error(_) => s.(stopped := true)
    case SearchStart(_) => s
    case End => s
  }

  /** The dispatch on a frame's payload does what `Effect` says: it stores
      a checkpoint's id, yields a content frame's text, collects a
      search_results frame's URLs, stops at an error frame, and ignores
      search_start and end. */
  lemma DispatchOnPayload(s: StreamState, f: WireFrame)
    ensures Dispatch(s, Payload(f)) == Effect(s, f)
  {
    var p := Payload(f);
    PayloadType(f);
    PayloadFields(f);
    FrameTypesDiffer();
    assert JString("search_start") != JString("checkpoint") && JString("search_start") != JString("content");
    assert JString("search_start") != JString("search_results") && JString("search_start") != JString("error");
    assert |"search_start"| == 12 && |"search_results"| == 14;
    assert JString("end") != JString("checkpoint") && JString("end") != JString("content");
    assert JString("end") != JString("search_results") && JString("end") != JString("error");
  }

  /** The consumer reads a decodable frame as `Effect` says. */
  lemma ReadingOneFrame(s: StreamState, f: WireFrame, dumps: Json -> string, loads: string -> Option<Json>)
    requires !s.stopped && DecodesTo(FrameText(f, dumps), loads, Payload(f))
    ensures Step(s, FrameText(f, dumps), loads) == Effect(s, f)
  {
    StepOnDecodedChunk(s, FrameText(f, dumps), loads, Payload(f));
    DispatchOnPayload(s, f);
  }

  lemma WrapAppend(a: seq<string>, b: seq<string>)
    ensures Wrap(a + b) == Wrap(a) + Wrap(b)
  {
  }

  /** A content or search frame only appends to what was yielded or
      collected. */
  lemma BodyFrameEffect(s: StreamState, f: WireFrame)
    requires BodyFrame(f)
    ensures Effect(s, f).threadId == s.threadId && !Effect(s, f).stopped == !s.stopped
    ensures Effect(s, f).yielded == s.yielded + Wrap(ContentsOf([f]))
    ensures Effect(s, f).searchUrls == s.searchUrls + UrlsIn([f])
  {
    assert [f][1..] == [];
  }

  /** Every frame is one the loop yields. */
  predicate BodyFrames(fs: seq<WireFrame>)
  {
    forall j :: 0 <= j < |fs| ==> BodyFrame(fs[j])
  }

  /** Reading the frames of the loop yields their contents and collects
      their URLs, in order, and the consumer keeps reading. */
  lemma {:induction false} ReadingBodyFrames(s: StreamState, fs: seq<WireFrame>, dumps: Json -> string, loads: string -> Option<Json>)
    requires !s.stopped && ClientDecodes(fs, dumps, loads) && BodyFrames(fs)
    ensures var t := Consume(s, Texts(fs, dumps), loads);
      && t.threadId == s.threadId && !t.stopped
      && t.yielded == s.yielded + Wrap(ContentsOf(fs))
      && t.searchUrls == s.searchUrls + UrlsIn(fs)
    decreases |fs|
  {
    if |fs| > 0 {
      var init, last := fs[..|fs| - 1], fs[|fs| - 1];
      TextsSplitLast(fs, dumps);
      DecodesSplitLast(fs, dumps, loads);
      AccountSplitLast(fs);
      ReadingBodyFrames(s, init, dumps, loads);
      var u := Consume(s, Texts(init, dumps), loads);
      assert Consume(s, Texts(fs, dumps), loads) == Step(u, FrameText(last, dumps), loads);
      ReadingOneFrame(u, last, dumps, loads);
      BodyFrameEffect(u, last);
      WrapAppend(ContentsOf(init), ContentsOf([last]));
      var t := Step(u, FrameText(last, dumps), loads);
      var iy, ly := Wrap(ContentsOf(init)), Wrap(ContentsOf([last]));
      assert Wrap(ContentsOf(fs)) == iy + ly;
      assert t.yielded == u.yielded + ly && u.yielded == s.yielded + iy;
      AppendAssociates(s.yielded, iy, ly);
      var iu, lu := UrlsIn(init), UrlsIn([last]);
      assert t.searchUrls == u.searchUrls + lu && u.searchUrls == s.searchUrls + iu;
      AppendAssociates(s.searchUrls, iu, lu);
    }
  }

  /** The texts of all frames but the last are the first texts. */
  lemma TextsSplitLast(fs: seq<WireFrame>, dumps: Json -> string)
    requires |fs| > 0
    ensures Texts(fs, dumps)[..|fs| - 1] == Texts(fs[..|fs| - 1], dumps)
    ensures Texts(fs, dumps)[|fs| - 1] == FrameText(fs[|fs| - 1], dumps)
  {
  }

  /** Dropping the last frame keeps every frame decodable and a body frame. */
  lemma DecodesSplitLast(fs: seq<WireFrame>, dumps: Json -> string, loads: string -> Option<Json>)
    requires |fs| > 0 && ClientDecodes(fs, dumps, loads) && BodyFrames(fs)
    ensures ClientDecodes(fs[..|fs| - 1], dumps, loads) && BodyFrames(fs[..|fs| - 1])
    ensures DecodesTo(FrameText(fs[|fs| - 1], dumps), loads, Payload(fs[|fs| - 1])) && BodyFrame(fs[|fs| - 1])
  {
    var init, last := fs[..|fs| - 1], fs[|fs| - 1];
    forall j | 0 <= j < |init|
      ensures DecodesTo(FrameText(init[j], dumps), loads, Payload(init[j])) && BodyFrame(init[j])
    {
      assert init[j] == fs[j];
    }
  }

  /** The contents and URLs of the frames are those of all but the last,
      then the last frame's. */
  lemma AccountSplitLast(fs: seq<WireFrame>)
    requires |fs| > 0
    ensures ContentsOf(fs) == ContentsOf(fs[..|fs| - 1]) + ContentsOf([fs[|fs| - 1]])
    ensures UrlsIn(fs) == UrlsIn(fs[..|fs| - 1]) + UrlsIn([fs[|fs| - 1]])
  {
    var init, last := fs[..|fs| - 1], fs[|fs| - 1];
    var tail := [last];
    assert init + tail == fs;
    ContentsOfAppend(init, tail);
  }

  lemma AppendAssociates<T>(a: seq<T>, b: seq<T>, c: seq<T>)
    ensures (a + b) + c == a + (b + c)
  {
  }

  /** After one run the page has yielded the text of every content frame and
      collected the URLs of every search_results frame, in order; it stores
      the fresh id exactly when the run started a new conversation; and it
      has stopped exactly when the run failed. */
  lemma ClientFollowsServer(checkpointId: Option<string>, freshId: string, run: EngineRun, stored: Json,
                            dumps: Json -> string, loads: string -> Option<Json>)
    requires ClientDecodes(Responses(checkpointId, freshId, run, loads), dumps, loads)
    ensures var frames := Responses(checkpointId, freshId, run, loads);
      var s := Consume(Start(stored), Texts(frames, dumps), loads);
      && s.yielded == Wrap(ContentsOf(frames))
      && s.searchUrls == UrlsIn(frames)
      && s.threadId == (if IsNewConversation(checkpointId) then JString(freshId) else stored)
      && s.stopped == (run.raises || !NoForeignChunk(run.events))
  {
    var outcome := Translate(run.events, run.raises, loads);
    var body, last := outcome.frames, if outcome.Raised? then Error(GenericErrorMessage) else End;
    var s1 := Start(if IsNewConversation(checkpointId) then JString(freshId) else stored);
    ReadingResponses(checkpointId, freshId, run, stored, dumps, loads);
    TranslateShape(run.events, run.raises, loads);
    assert BodyFrames(body);
    ReadingRun(s1, body, last, dumps, loads);
    FrameAccounting(checkpointId, freshId, outcome);
    assert Responses(checkpointId, freshId, run, loads) == SessionFrames(checkpointId, freshId) + Finish(outcome);
    assert s1.yielded + Wrap(ContentsOf(body)) == Wrap(ContentsOf(body));
    assert s1.searchUrls + UrlsIn(body) == UrlsIn(body);
  }

  /** Reading a run's frames is reading the session frame, then the loop's
      frames and the closing one from the state the session frame left. */
  lemma ReadingResponses(checkpointId: Option<string>, freshId: string, run: EngineRun, stored: Json,
                         dumps: Json -> string, loads: string -> Option<Json>)
    requires ClientDecodes(Responses(checkpointId, freshId, run, loads), dumps, loads)
    ensures var outcome := Translate(run.events, run.raises, loads);
      var rest := outcome.frames + [if outcome.Raised? then Error(GenericErrorMessage) else End];
      && ClientDecodes(rest, dumps, loads)
      && Consume(Start(stored), Texts(Responses(checkpointId, freshId, run, loads), dumps), loads)
         == Consume(Start(if IsNewConversation(checkpointId) then JString(freshId) else stored), Texts(rest, dumps), loads)
  {
    var session := SessionFrames(checkpointId, freshId);
    var outcome := Translate(run.events, run.raises, loads);
    var rest := Finish(outcome);
    assert rest == outcome.frames + [if outcome.Raised? then Error(GenericErrorMessage) else End];
    ClientDecodesSplit(session, rest, dumps, loads);
    TextsAppend(session, rest, dumps);
    ConsumeAppend(Start(stored), Texts(session, dumps), Texts(rest, dumps), loads);
    ReadingSession(checkpointId, freshId, stored, dumps, loads);
  }

  /** When no chunk made the run fail, the page has yielded every streamed
      chunk, in arrival order. */
  lemma ClientYieldsStreamedChunks(checkpointId: Option<string>, freshId: string, run: EngineRun, stored: Json,
                                   dumps: Json -> string, loads: string -> Option<Json>)
    requires ClientDecodes(Responses(checkpointId, freshId, run, loads), dumps, loads)
    requires NoForeignChunk(run.events)
    ensures Consume(Start(stored), Texts(Responses(checkpointId, freshId, run, loads), dumps), loads).yielded
         == Wrap(StreamedChunks(run.events))
  {
    ClientFollowsServer(checkpointId, freshId, run, stored, dumps, loads);
    FrameAccounting(checkpointId, freshId, Translate(run.events, run.raises, loads));
    ContentFramesFollowChunks(run.events, run.raises, loads);
  }

  lemma ClientDecodesSplit(a: seq<WireFrame>, b: seq<WireFrame>, dumps: Json -> string, loads: string -> Option<Json>)
    requires ClientDecodes(a + b, dumps, loads)
    ensures ClientDecodes(a, dumps, loads) && ClientDecodes(b, dumps, loads)
  {
    forall i | 0 <= i < |a|
      ensures DecodesTo(FrameText(a[i], dumps), loads, Payload(a[i]))
    {
      assert (a + b)[i] == a[i];
    }
    forall i | 0 <= i < |b|
      ensures DecodesTo(FrameText(b[i], dumps), loads, Payload(b[i]))
    {
      assert (a + b)[|a| + i] == b[i];
    }
  }

  /** Reading the session frame, if there is one, stores the fresh id. */
  lemma ReadingSession(checkpointId: Option<string>, freshId: string, stored: Json,
                       dumps: Json -> string, loads: string -> Option<Json>)
    requires ClientDecodes(SessionFrames(checkpointId, freshId), dumps, loads)
    ensures Consume(Start(stored), Texts(SessionFrames(checkpointId, freshId), dumps), loads)
         == Start(if IsNewConversation(checkpointId) then JString(freshId) else stored)
  {
    if IsNewConversation(checkpointId) {
      assert SessionFrames(checkpointId, freshId)[0] == Checkpoint(freshId);
      ReadingOneFrame(Start(stored), Checkpoint(freshId), dumps, loads);
      assert Texts(SessionFrames(checkpointId, freshId), dumps) == [FrameText(Checkpoint(freshId), dumps)];
      ConsumeSingle(Start(stored), FrameText(Checkpoint(freshId), dumps), loads);
    } else {
      assert Texts(SessionFrames(checkpointId, freshId), dumps) == [];
    }
  }

  /** Reading the closing `end` or `error` frame changes nothing but
      whether the consumer stops. */
  lemma ReadingClosingFrame(u: StreamState, last: WireFrame, dumps: Json -> string, loads: string -> Option<Json>)
    requires !u.stopped && DecodesTo(FrameText(last, dumps), loads, Payload(last))
    requires last == End || last.Error?
    ensures var t := Consume(u, [FrameText(last, dumps)], loads);
      && t.threadId == u.threadId && t.stopped == last.Error?
      && t.yielded == u.yielded && t.searchUrls == u.searchUrls
  {
    ConsumeSingle(u, FrameText(last, dumps), loads);
    ReadingOneFrame(u, last, dumps, loads);
  }

  /** Reading the loop's frames and then the closing `end` or `error` frame
      keeps the thread, appends the loop's contents and URLs, and stops
      exactly at an `error` frame. */
  lemma ReadingRun(s: StreamState, body: seq<WireFrame>, last: WireFrame,
                   dumps: Json -> string, loads: string -> Option<Json>)
    requires !s.stopped && ClientDecodes(body + [last], dumps, loads) && BodyFrames(body)
    requires last == End || last.Error?
    ensures var t := Consume(s, Texts(body + [last], dumps), loads);
      && t.threadId == s.threadId && t.stopped == last.Error?
      && t.yielded == s.yielded + Wrap(ContentsOf(body))
      && t.searchUrls == s.searchUrls + UrlsIn(body)
  {
    var tail := [last];
    ClientDecodesSplit(body, tail, dumps, loads);
    assert tail[0] == last;
    TextsAppend(body, tail, dumps);
    ConsumeAppend(s, Texts(body, dumps), Texts(tail, dumps), loads);
    ReadingBodyFrames(s, body, dumps, loads);
    assert Texts(tail, dumps) == [FrameText(last, dumps)];
    ReadingClosingFrame(Consume(s, Texts(body, dumps), loads), last, dumps, loads);
  }

  /** The session and closing frames carry no content and no URLs. */
  lemma FrameAccounting(checkpointId: Option<string>, freshId: string, outcome: Outcome)
    ensures ContentsOf(SessionFrames(checkpointId, freshId) + Finish(outcome)) == ContentsOf(outcome.frames)
    ensures UrlsIn(SessionFrames(checkpointId, freshId) + Finish(outcome)) == UrlsIn(outcome.frames)
  {
    var tail := [if outcome.Raised? then Error(GenericErrorMessage) else End];
    assert Finish(outcome) == outcome.frames + tail;
    ContentsOfAppend(SessionFrames(checkpointId, freshId), Finish(outcome));
    ContentsOfAppend(outcome.frames, tail);
    assert tail[1..] == [];
  }

  /** After a run that started a new conversation under a non-empty fresh id
      other than "new", the page's next request carries that id, and the
      server continues that thread rather than starting another. */
  lemma NextRequestContinuesThread(run: EngineRun, freshId: string, stored: Json, requested: Option<string>,
                                   dumps: Json -> string, loads: string -> Option<Json>)
    requires IsNewConversation(requested) && freshId != [] && freshId != NewConversation
    requires ClientDecodes(Responses(requested, freshId, run, loads), dumps, loads)
    ensures var s := Consume(Start(stored), Texts(Responses(requested, freshId, run, loads), dumps), loads);
      && RequestThreadId(s.threadId) == JString(freshId)
      && !IsNewConversation(Some(freshId))
      && forall nextFreshId :: ThreadIdFor(Some(freshId), nextFreshId) == freshId
  {
    ClientFollowsServer(requested, freshId, run, stored, dumps, loads);
  }

  /** A page with no stored thread, freshly opened or cleared, asks for a
      new conversation, and the server starts one. */
  lemma ClearedSessionStartsNewThread(freshId: string)
    ensures RequestThreadId(JNull) == JString(NewThreadRequest)
    ensures IsNewConversation(Some(NewThreadRequest)) && ThreadIdFor(Some(NewThreadRequest), freshId) == freshId
  {
  }
}
