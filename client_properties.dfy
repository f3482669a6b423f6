/** What the consumer promises about the chunks it reads: which it skips,
    when it stops, what it keeps, and how a checkpoint carries over to the
    next request. */
module ClientProperties {
  import opened Wrappers
  import opened Json
  import opened Text
  import opened Wire
  import opened Client

  /** `chunk` survives cleaning and `json.loads` turns it into `data`. */
  predicate DecodesTo(chunk: string, loads: string -> Option<Json>, data: Json)
  {
    CleanChunk(chunk) != [] && loads(CleanChunk(chunk)) == Some(data)
  }

  /** A chunk that decodes is dispatched on its data. */
  lemma StepOnDecodedChunk(s: StreamState, chunk: string, loads: string -> Option<Json>, data: Json)
    requires !s.stopped && DecodesTo(chunk, loads, data)
    ensures Step(s, chunk, loads) == Dispatch(s, data)
  {
    CleanedChunkNotBlank(chunk);
  }

  /** A whitespace-only chunk is already empty after cleaning, so the first
      `strip` test on the raw chunk never decides anything the second one
      would not. */
  lemma WhitespaceChunkCleansToEmpty(chunk: string)
    requires AllSpace(chunk)
    ensures CleanChunk(chunk) == []
  {
    assert !IsSpace(Marker[0]);
    NoFirstCharNoMatch(chunk, Marker);
    RemoveAllIdentity(chunk, Marker);
    StripEmptyIff(chunk);
  }

  /** A non-empty cleaned chunk came from a chunk with something other than
      whitespace in it. */
  lemma CleanedChunkNotBlank(chunk: string)
    requires CleanChunk(chunk) != []
    ensures Strip(chunk) != []
  {
    StripEmptyIff(chunk);
    if AllSpace(chunk) {
      WhitespaceChunkCleansToEmpty(chunk);
    }
  }

  /** Chunks that are blank, empty after cleaning, or not valid JSON leave
      the state as it was. */
  lemma SkippedChunkChangesNothing(s: StreamState, chunk: string, loads: string -> Option<Json>)
    requires AllSpace(chunk) || CleanChunk(chunk) == [] || loads(CleanChunk(chunk)).None?
    ensures Step(s, chunk, loads) == s
  {
    if AllSpace(chunk) {
      StripEmptyIff(chunk);
    }
  }

  /** The pieces, each preceded by the marker. */
  function Marked(pieces: seq<string>): string
    decreases |pieces|
  {
    if |pieces| == 0 then [] else Marker + pieces[0] + Marked(pieces[1..])
  }

  /** The pieces, joined. */
  function Concat(pieces: seq<string>): string
    decreases |pieces|
  {
    if |pieces| == 0 then [] else pieces[0] + Concat(pieces[1..])
  }

  /** Two occurrences of "data: " can never overlap. */
  lemma MarkerNoSelfOverlap()
    ensures NoSelfOverlap(Marker)
  {
    forall k | 0 < k < |Marker|
      ensures Marker[k..] != Marker[..|Marker| - k]
    {
      assert Marker[k..][0] == Marker[k] != 'd';
      assert Marker[..|Marker| - k][0] == 'd';
    }
  }

  /** `replace` deletes every occurrence of the marker, not only the leading
      one: text made of marked pieces, none of which holds the marker
      itself, comes out as the pieces joined. */
  lemma {:induction false} EveryMarkerRemoved(pieces: seq<string>)
    requires forall i :: 0 <= i < |pieces| ==> !Contains(pieces[i], Marker)
    ensures RemoveAll(Marked(pieces), Marker) == Concat(pieces)
    decreases |pieces|
  {
    if |pieces| > 0 {
      var p, rest := pieces[0], Marked(pieces[1..]);
      var s := Marker + p + rest;
      assert s == Marker + (p + rest);
      assert s[..|Marker|] == Marker;
      assert s[|Marker|..] == p + rest;
      assert RemoveAll(s, Marker) == RemoveAll(p + rest, Marker);
      assert !Contains(p, Marker);
      if |pieces| == 1 {
        assert rest == [];
        assert p + rest == p;
        RemoveAllIdentity(p, Marker);
      } else {
        assert rest == Marker + pieces[1] + Marked(pieces[2..]);
        MarkerNoSelfOverlap();
        RemoveAllBeforeMatch(p, rest, Marker);
      }
      EveryMarkerRemoved(pieces[1..]);
    }
  }

  /** An error frame stops the consumer: nothing read after it changes the
      state any more. */
  lemma {:induction false} StoppedConsumerIgnoresRest(s: StreamState, chunks: seq<string>, loads: string -> Option<Json>)
    requires s.stopped
    ensures Consume(s, chunks, loads) == s
    decreases |chunks|
  {
    if |chunks| > 0 {
      StoppedConsumerIgnoresRest(s, chunks[..|chunks| - 1], loads);
    }
  }

  /** Reading one chunk is one pass of the loop. */
  lemma ConsumeSingle(s: StreamState, chunk: string, loads: string -> Option<Json>)
    ensures Consume(s, [chunk], loads) == Step(s, chunk, loads)
  {
    assert [chunk][..0] == [];
  }

  /** Reading `a` and then `b` is reading `a + b`. */
  lemma {:induction false} ConsumeAppend(s: StreamState, a: seq<string>, b: seq<string>, loads: string -> Option<Json>)
    ensures Consume(s, a + b, loads) == Consume(Consume(s, a, loads), b, loads)
    decreases |b|
  {
    if |b| == 0 {
      assert a + b == a;
    } else {
      assert (a + b)[..|a + b| - 1] == a + b[..|b| - 1];
      assert (a + b)[|a + b| - 1] == b[|b| - 1];
      ConsumeAppend(s, a, b[..|b| - 1], loads);
    }
  }

  /** Reading an `error` frame keeps what was yielded and collected, and
      stops the consumer. */
  lemma ErrorFrameStops(s: StreamState, chunk: string, loads: string -> Option<Json>, data: Json)
    requires !s.stopped && DecodesTo(chunk, loads, data)
    requires data.JObject? && GetOr(data, "type", JNull) == JString("error")
    ensures Step(s, chunk, loads) == s.(stopped := true)
  {
    StepOnDecodedChunk(s, chunk, loads, data);
    assert GetOr(data, "type", JNull) != JString("checkpoint");
    assert GetOr(data, "type", JNull) != JString("content");
    assert GetOr(data, "type", JNull) != JString("search_results");
    assert Dispatch(s, data) == s.(stopped := true);
  }

  /** An `error` frame stops processing: the state is kept as it was, and
      no later chunk changes it. */
  lemma ErrorFrameStopsProcessing(s: StreamState, chunk: string, rest: seq<string>, loads: string -> Option<Json>, data: Json)
    requires !s.stopped && DecodesTo(chunk, loads, data)
    requires data.JObject? && GetOr(data, "type", JNull) == JString("error")
    ensures Consume(s, [chunk] + rest, loads) == s.(stopped := true)
  {
    var t := s.(stopped := true);
    ErrorFrameStops(s, chunk, loads, data);
    assert [chunk][..0] == [];
    assert Consume(s, [chunk], loads) == t;
    ConsumeAppend(s, [chunk], rest, loads);
    StoppedConsumerIgnoresRest(t, rest, loads);
  }

  /** An `end` frame, or a frame of a type the consumer does not know, has no
      effect, and reading goes on. */
  lemma EndAndUnknownFramesChangeNothing(s: StreamState, chunk: string, loads: string -> Option<Json>, data: Json)
    requires DecodesTo(chunk, loads, data) && data.JObject?
    requires var kind := GetOr(data, "type", JNull);
      kind != JString("checkpoint") && kind != JString("content") && kind != JString("search_results") && kind != JString("error")
    ensures Step(s, chunk, loads) == s
  {
    CleanedChunkNotBlank(chunk);
  }

  /** A `content` frame yields its "content" value, or "" when it has none,
      and changes nothing else. */
  lemma ContentFrameYieldsItsText(s: StreamState, chunk: string, loads: string -> Option<Json>, data: Json)
    requires !s.stopped && DecodesTo(chunk, loads, data) && data.JObject?
    requires GetOr(data, "type", JNull) == JString("content")
    ensures var t := Step(s, chunk, loads);
      && t.threadId == s.threadId && t.searchUrls == s.searchUrls && !t.stopped
      && (HasKey(data.fields, "content") ==> t.yielded == s.yielded + [Lookup(data.fields, "content").value])
      && (!HasKey(data.fields, "content") ==> t.yielded == s.yielded + [JString("")])
  {
    StepOnDecodedChunk(s, chunk, loads, data);
    FrameTypesDiffer();
  }

  /** A `search_results` frame appends the items of its "urls" list to the
      collected URLs, in order; one without "urls" appends nothing; one whose
      "urls" cannot be iterated makes the connection handler apologise and
      stop. */
  lemma SearchResultsExtendUrls(s: StreamState, chunk: string, loads: string -> Option<Json>, data: Json)
    requires !s.stopped && DecodesTo(chunk, loads, data) && data.JObject?
    requires GetOr(data, "type", JNull) == JString("search_results")
    ensures var t := Step(s, chunk, loads);
      && t.threadId == s.threadId
      && (!HasKey(data.fields, "urls") ==> t == s)
      && (HasKey(data.fields, "urls") && Lookup(data.fields, "urls").value.JArray? ==>
            t == s.(searchUrls := s.searchUrls + Lookup(data.fields, "urls").value.items))
      && (HasKey(data.fields, "urls") && Iterate(Lookup(data.fields, "urls").value).None? ==>
            t.stopped && t.yielded == s.yielded + [JString(SorryText)] && t.searchUrls == s.searchUrls)
  {
    StepOnDecodedChunk(s, chunk, loads, data);
    FrameTypesDiffer();
  }

  /** A `checkpoint` frame stores its `checkpoint_id`, whatever value that
      is, and changes nothing else; the next request carries it when it is
      truthy, and asks for a new conversation otherwise. */
  lemma CheckpointTakesEffectNextRequest(s: StreamState, chunk: string, loads: string -> Option<Json>, data: Json)
    requires !s.stopped && DecodesTo(chunk, loads, data) && data.JObject?
    requires GetOr(data, "type", JNull) == JString("checkpoint")
    ensures Step(s, chunk, loads) == s.(threadId := GetOr(data, "checkpoint_id", JNull))
    ensures var id := GetOr(data, "checkpoint_id", JNull);
      RequestThreadId(Step(s, chunk, loads).threadId) == if Truthy(id) then id else JString(NewThreadRequest)
  {
    StepOnDecodedChunk(s, chunk, loads, data);
  }

  /** One dispatch appends at most one yielded value and some URLs. */
  lemma DispatchOnlyAppends(s: StreamState, data: Json)
    ensures exists extra :: Dispatch(s, data).yielded == s.yielded + extra
    ensures exists extra :: Dispatch(s, data).searchUrls == s.searchUrls + extra
  {
    var t := Dispatch(s, data);
    FrameTypesDiffer();
    if !data.JObject? {
      assert t.yielded == s.yielded + [JString(SorryText)];
      assert t.searchUrls == s.searchUrls + [];
    } else {
      var kind := GetOr(data, "type", JNull);
      if kind == JString("content") {
        assert t.yielded == s.yielded + [GetOr(data, "content", JString(""))];
        assert t.searchUrls == s.searchUrls + [];
      } else if kind == JString("search_results") && Iterate(GetOr(data, "urls", JArray([]))).Some? {
        assert t.yielded == s.yielded + [];
        assert t.searchUrls == s.searchUrls + Iterate(GetOr(data, "urls", JArray([]))).value;
      } else if kind == JString("search_results") {
        assert t.yielded == s.yielded + [JString(SorryText)];
        assert t.searchUrls == s.searchUrls + [];
      } else {
        assert t.yielded == s.yielded + [];
        assert t.searchUrls == s.searchUrls + [];
      }
    }
  }

  lemma StepOnlyAppends(s: StreamState, chunk: string, loads: string -> Option<Json>)
    ensures var t := Step(s, chunk, loads);
      && |s.yielded| <= |t.yielded| && t.yielded[..|s.yielded|] == s.yielded
      && |s.searchUrls| <= |t.searchUrls| && t.searchUrls[..|s.searchUrls|] == s.searchUrls
  {
    var t := Step(s, chunk, loads);
    if !s.stopped && Strip(chunk) != [] && CleanChunk(chunk) != [] && loads(CleanChunk(chunk)).Some? {
      var data := loads(CleanChunk(chunk)).value;
      assert t == Dispatch(s, data);
      DispatchOnlyAppends(s, data);
      var e1 :| t.yielded == s.yielded + e1;
      var e2 :| t.searchUrls == s.searchUrls + e2;
      assert t.yielded[..|s.yielded|] == s.yielded;
      assert t.searchUrls[..|s.searchUrls|] == s.searchUrls;
    } else {
      assert t == s;
    }
  }

  /** Contents are only ever appended to what was yielded, and URLs to what
      was collected. */
  lemma {:induction false} ConsumeOnlyAppends(s: StreamState, chunks: seq<string>, loads: string -> Option<Json>)
    ensures var t := Consume(s, chunks, loads);
      && |s.yielded| <= |t.yielded| && t.yielded[..|s.yielded|] == s.yielded
      && |s.searchUrls| <= |t.searchUrls| && t.searchUrls[..|s.searchUrls|] == s.searchUrls
    decreases |chunks|
  {
    if |chunks| > 0 {
      var u := Consume(s, chunks[..|chunks| - 1], loads);
      ConsumeOnlyAppends(s, chunks[..|chunks| - 1], loads);
      var t := Step(u, chunks[|chunks| - 1], loads);
      StepOnlyAppends(u, chunks[|chunks| - 1], loads);
      assert t.yielded[..|s.yielded|] == u.yielded[..|s.yielded|];
      assert t.searchUrls[..|s.searchUrls|] == u.searchUrls[..|s.searchUrls|];
    }
  }
}
