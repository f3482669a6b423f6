/** The server-sent-event frames the chat endpoint streams: each is the marker
    "data: ", a JSON object with a "type" field, and a blank line. */
module Wire {
  import opened Wrappers
  import opened Json

  const Marker: string := "data: "
  const Terminator: string := "\n\n"

  datatype WireFrame =
    | Checkpoint(checkpointId: string)
    | Content(content: string)
    | SearchStart(query: Json)
    | SearchResults(urls: seq<Json>)
    | End
    | Error(message: string)

  /** The value of the payload's "type" field. */
  function TypeName(f: WireFrame): string
  {
    match f
    case Checkpoint(_) => "checkpoint"
    case Content(_) => "content"
    case SearchStart(_) => "search_start"
    case SearchResults(_) => "search_results"
    case End => "end"
    case Error(_) => "error"
  }

  /** The dict the server passes to `json.dumps` for a frame. */
  function Payload(f: WireFrame): Json
  {
    var kind := ("type", JString(TypeName(f)));
    match f
    case Checkpoint(id) => JObject([kind, ("checkpoint_id", JString(id))])
    case Content(c) => JObject([kind, ("content", JString(c))])
    case SearchStart(q) => JObject([kind, ("query", q)])
    case SearchResults(urls) => JObject([kind, ("urls", JArray(urls))])
    case End => JObject([kind])
    case Error(m) => JObject([kind, ("message", JString(m))])
  }

  /** Every payload is a dict whose "type" names the frame's kind. */
  lemma PayloadType(f: WireFrame)
    ensures Payload(f).JObject? && Lookup(Payload(f).fields, "type") == Some(JString(TypeName(f)))
  {
  }

  /** Each payload carries the frame's own field under its key. */
  lemma PayloadFields(f: WireFrame)
    ensures f.Checkpoint? ==> Lookup(Payload(f).fields, "checkpoint_id") == Some(JString(f.checkpointId))
    ensures f.Content? ==> Lookup(Payload(f).fields, "content") == Some(JString(f.content))
    ensures f.SearchStart? ==> Lookup(Payload(f).fields, "query") == Some(f.query)
    ensures f.SearchResults? ==> Lookup(Payload(f).fields, "urls") == Some(JArray(f.urls))
    ensures f.Error? ==> Lookup(Payload(f).fields, "message") == Some(JString(f.message))
  {
    var kind := ("type", JString(TypeName(f)));
    match f
    case Checkpoint(id) =>
      LookupOfPair(kind, ("checkpoint_id", JString(id)), "checkpoint_id");
      assert |"type"| != |"checkpoint_id"|;
    case Content(c) =>
      LookupOfPair(kind, ("content", JString(c)), "content");
      assert |"type"| != |"content"|;
    case SearchStart(q) =>
      LookupOfPair(kind, ("query", q), "query");
      assert |"type"| != |"query"|;
    case SearchResults(urls) =>
      LookupOfPair(kind, ("urls", JArray(urls)), "urls");
      assert "type" != "urls" by { assert "type"[0] != "urls"[0]; }
    case End =>
    case Error(m) =>
      LookupOfPair(kind, ("message", JString(m)), "message");
      assert |"type"| != |"message"|;
  }

  /** Every payload names each of its keys once. */
  lemma PayloadKeysDistinct(f: WireFrame)
    ensures DistinctKeys(Payload(f).fields)
  {
    assert |"type"| == 4;
    assert "type" != "urls" by { assert "type"[0] != "urls"[0]; }
  }

  /** Distinct frame kinds carry distinct "type" values. */
  lemma TypeNameDistinguishes(f: WireFrame, g: WireFrame)
    requires TypeName(f) == TypeName(g)
    ensures f.Checkpoint? == g.Checkpoint? && f.Content? == g.Content? && f.SearchStart? == g.SearchStart?
    ensures f.SearchResults? == g.SearchResults? && f.End? == g.End? && f.Error? == g.Error?
  {
  }

  /** The text yielded for one frame: `f"data: {json.dumps(payload)}\n\n"`.
      `dumps` stands for `json.dumps`. */
  function FrameText(f: WireFrame, dumps: Json -> string): string
  {
    Marker + dumps(Payload(f)) + Terminator
  }

  /** A frame's text is the marker, the encoded payload, and the blank line. */
  lemma FrameTextShape(f: WireFrame, dumps: Json -> string)
    ensures var t := FrameText(f, dumps);
      && |t| == |Marker| + |dumps(Payload(f))| + |Terminator|
      && t[..|Marker|] == Marker && t[|t| - |Terminator|..] == Terminator
      && t[|Marker|..|t| - |Terminator|] == dumps(Payload(f))
  {
  }

  /** The texts of a sequence of frames, frame by frame. */
  function Texts(frames: seq<WireFrame>, dumps: Json -> string): (ts: seq<string>)
    ensures |ts| == |frames|
    ensures forall i :: 0 <= i < |ts| ==> ts[i] == FrameText(frames[i], dumps)
  {
    seq(|frames|, i requires 0 <= i < |frames| => FrameText(frames[i], dumps))
  }

  lemma TextsAppend(a: seq<WireFrame>, b: seq<WireFrame>, dumps: Json -> string)
    ensures Texts(a + b, dumps) == Texts(a, dumps) + Texts(b, dumps)
  {
    assert forall i :: 0 <= i < |a| + |b| ==> (a + b)[i] == if i < |a| then a[i] else b[i - |a|];
  }

  /** The text of every content frame, in order. */
  function ContentsOf(frames: seq<WireFrame>): (cs: seq<string>)
    ensures |cs| <= |frames|
  {
    if |frames| == 0 then []
    else (if frames[0].Content? then [frames[0].content] else []) + ContentsOf(frames[1..])
  }

  /** Every URL of every search_results frame, in order. */
  function UrlsIn(frames: seq<WireFrame>): seq<Json>
  {
    if |frames| == 0 then []
    else (if frames[0].SearchResults? then frames[0].urls else []) + UrlsIn(frames[1..])
  }

  lemma {:induction false} ContentsOfAppend(a: seq<WireFrame>, b: seq<WireFrame>)
    ensures ContentsOf(a + b) == ContentsOf(a) + ContentsOf(b)
    ensures UrlsIn(a + b) == UrlsIn(a) + UrlsIn(b)
    decreases |a|
  {
    if |a| == 0 {
      assert a + b == b;
    } else {
      var h, rest := a[0], a[1..];
      assert (a + b)[0] == h;
      assert (a + b)[1..] == rest + b;
      ContentsOfAppend(rest, b);
      var hc := if h.Content? then [h.content] else [];
      assert ContentsOf(a + b) == hc + ContentsOf(rest + b);
      assert hc + (ContentsOf(rest) + ContentsOf(b)) == (hc + ContentsOf(rest)) + ContentsOf(b);
      var hu := if h.SearchResults? then h.urls else [];
      assert UrlsIn(a + b) == hu + UrlsIn(rest + b);
      assert hu + (UrlsIn(rest) + UrlsIn(b)) == (hu + UrlsIn(rest)) + UrlsIn(b);
    }
  }
}
