/**
 * The adapter for OpenAI-compatible backends: the request payload it sends,
 * the reading of a completion reply, and the relay that turns the backend's
 * server-sent-event lines into the native protocol's `new_chunk`/`done` events.
 */
module OpenAIAdapter {
  import opened Wrappers
  import opened JsonValues
  import opened Text
  import opened Config
  import opened Slut

  /** A backend payload: the JSON object posted to `{base_url}/completions`. */
  type Payload = map<string, Json>

  /** The keys `PrepareRequest` may set. */
  const RequestKeys: set<string> := {"model", "prompt", "temperature", "top_p", "min_p", "repetition_penalty", "stop"}

  /** The value a canonical sampler carries under the backend's key for it. */
  function SamplerValue(s: Samplers, key: string): Json {
    if key == "temperature" then s.temperature
    else if key == "top_p" then s.topP
    else if key == "min_p" then s.minP
    else if key == "repetition_penalty" then s.repetitionPenalty
    else JNull
  }

  /** The backend keys of the four canonical samplers. */
  const SamplerKeys: set<string> := {"temperature", "top_p", "min_p", "repetition_penalty"}

  predicate IsSamplerKey(key: string) {
    key in SamplerKeys
  }

  /** The sampler entries of the payload: every sampler that is present (not `None`), under its backend key. */
  function SamplerEntries(samplers: Option<Samplers>): (m: Payload)
    ensures forall k :: k in m <==> IsSamplerKey(k) && samplers.Some? && SamplerValue(samplers.value, k) != JNull
    ensures forall k :: k in m ==> m[k] == SamplerValue(samplers.value, k)
  {
    match samplers
    case None => map[]
    case Some(s) => map k | k in SamplerKeys && SamplerValue(s, k) != JNull :: SamplerValue(s, k)
  }

  /**
   * `prepare_request`: the backend model id, the prompt as given, each sampler
   * that is present, and the stop sequences when they are non-empty.
   */
  function PrepareRequest(model: ModelConfig, request: TextGenerationRequest): (p: Payload)
    ensures "model" in p && p["model"] == JStr(model.modelId)
    ensures "prompt" in p && p["prompt"] == request.prompt
    ensures forall k :: k in p ==> k in RequestKeys
    ensures "stream" !in p
    ensures forall k :: IsSamplerKey(k) ==>
              (k in p <==> request.samplers.Some? && SamplerValue(request.samplers.value, k) != JNull)
    ensures forall k :: IsSamplerKey(k) && k in p ==> p[k] == SamplerValue(request.samplers.value, k)
    ensures "stop" in p <==> Truthy(request.stopSequences)
    ensures "stop" in p ==> p["stop"] == request.stopSequences
  {
    var withSamplers := map["model" := JStr(model.modelId), "prompt" := request.prompt] + SamplerEntries(request.samplers);
    if Truthy(request.stopSequences) then withSamplers["stop" := request.stopSequences] else withSamplers
  }

  /** The contract of `PrepareRequest` determines its payload: any payload meeting it key by key is that payload. */
  lemma PrepareRequestUnique(model: ModelConfig, request: TextGenerationRequest, p: Payload)
    requires "model" in p && p["model"] == JStr(model.modelId)
    requires "prompt" in p && p["prompt"] == request.prompt
    requires forall k :: k in p ==> k in RequestKeys
    requires forall k :: IsSamplerKey(k) ==>
               (k in p <==> request.samplers.Some? && SamplerValue(request.samplers.value, k) != JNull)
    requires forall k :: IsSamplerKey(k) && k in p ==> p[k] == SamplerValue(request.samplers.value, k)
    requires "stop" in p <==> Truthy(request.stopSequences)
    requires "stop" in p ==> p["stop"] == request.stopSequences
    ensures p == PrepareRequest(model, request)
  {
    var q := PrepareRequest(model, request);
    forall k | k in RequestKeys
      ensures (k in p <==> k in q) && (k in p ==> p[k] == q[k])
    {
      if IsSamplerKey(k) {
      } else {
        assert k == "model" || k == "prompt" || k == "stop";
      }
    }
    assert p.Keys == q.Keys;
  }

  /** The streaming path posts the same payload with `"stream": true` added. */
  function BackendPayload(model: ModelConfig, request: TextGenerationRequest, stream: bool): (p: Payload)
    ensures ("stream" in p) == stream
    ensures stream ==> p["stream"] == JBool(true)
    ensures forall k :: k != "stream" ==> (k in p <==> k in PrepareRequest(model, request))
    ensures forall k :: k != "stream" && k in p ==> p[k] == PrepareRequest(model, request)[k]
  {
    var p := PrepareRequest(model, request);
    if stream then p["stream" := JBool(true)] else p
  }

  /**
   * What the adapter reads of a decoded completion reply or stream chunk:
   * `choices` (`None` when the key is absent) and, per choice, `text` and
   * `finish_reason` (`None` when absent).
   */
  datatype BackendChoice = BackendChoice(text: Option<string>, finishReason: Option<Json>)
  datatype BackendResponse = BackendResponse(choices: Option<seq<BackendChoice>>)

  datatype ParseError = NoChoices

  /** The backend's finish reason in canonical terms; an unknown value is an error, never a failure. */
  function StopReasonOf(finishReason: Json): (r: StopReason)
    ensures r == MaxTokens <==> finishReason == JStr("length")
    ensures r == EndOfGeneration <==> finishReason == JStr("stop")
  {
    if finishReason == JStr("length") then MaxTokens
    else if finishReason == JStr("stop") then EndOfGeneration
    else Error
  }

  /**
   * `parse_response`: the first choice's text (default `""`) and its finish
   * reason (default `"stop"`); a reply without `choices` reads as one empty choice.
   */
  function ParseResponse(data: BackendResponse): (r: Result<TextGenerationResponse, ParseError>)
    ensures r.Failure? <==> data.choices == Some([])
    ensures data.choices.None? ==> r == Success(TextGenerationResponse("", EndOfGeneration))
    ensures r.Success? && data.choices.Some? ==>
              var first := data.choices.value[0];
              && r.value.text == first.text.GetOr("")
              && (r.value.stopReason == MaxTokens <==> first.finishReason == Some(JStr("length")))
              && (r.value.stopReason == EndOfGeneration <==>
                    first.finishReason.None? || first.finishReason == Some(JStr("stop")))
  {
    var choices := data.choices.GetOr([BackendChoice(None, None)]);
    if choices == [] then Failure(NoChoices)
    else
      var first := choices[0];
      Success(TextGenerationResponse(first.text.GetOr(""), StopReasonOf(first.finishReason.GetOr(JStr("stop")))))
  }

  // ---------------------------------------------------------------------------
  // The stream relay
  // ---------------------------------------------------------------------------

  /** The events of the native stream: `new_chunk` with a delta, `done` with the full text. */
  datatype RelayEvent = NewChunk(text: string) | Done(text: string, stopReason: StopReason) {
    function EventName(): string {
      if NewChunk? then "new_chunk" else "done"
    }

    /** The JSON object carried in the event's `data:` line. */
    function Payload(): Json {
      match this
      case NewChunk(t) => JObj(map["text" := JStr(t)])
      case Done(t, reason) => JObj(map["text" := JStr(t), "stop_reason" := JStr(reason.Value())])
    }
  }

  /** An event framed as server-sent-event text, given the JSON encoder. */
  function EventFrame(e: RelayEvent, dumps: Json -> string): (frame: string)
    ensures StartsWith(frame, "event: " + e.EventName() + "\ndata: ")
    ensures |frame| == |"event: " + e.EventName() + "\ndata: "| + |dumps(e.Payload())| + 2
    ensures frame[|frame| - 2..] == "\n\n"
    ensures frame[|"event: " + e.EventName() + "\ndata: "|..|frame| - 2] == dumps(e.Payload())
  {
    var head := "event: " + e.EventName() + "\ndata: ";
    var frame := head + dumps(e.Payload()) + "\n\n";
    assert frame[..|head|] == head;
    frame
  }

  const DataPrefix: string := "data: "
  const DoneLine: string := "data: [DONE]"

  /** The non-empty text a decoded stream chunk contributes, if any. */
  function ChunkDelta(decoded: Option<BackendResponse>): (d: Option<string>)
    ensures d.Some? ==> d.value != []
  {
    if decoded.Some? && decoded.value.choices.Some? && decoded.value.choices.value != [] then
      var delta := decoded.value.choices.value[0].text.GetOr("");
      if delta != [] then Some(delta) else None
    else None
  }

  /**
   * The relay as a function of the lines still to come and the text
   * accumulated so far: the reference the relay loop is proved against.
   */
  function RelayFrom(lines: seq<string>, decode: string -> Option<BackendResponse>, acc: string): seq<RelayEvent>
    decreases |lines|
  {
    if lines == [] then []
    else if StartsWith(lines[0], DataPrefix) then
      var data := lines[0][|DataPrefix|..];
      if data == "[DONE]" then [Done(acc, EndOfGeneration)]
      else
        match ChunkDelta(decode(data))
        case Some(delta) => [NewChunk(delta)] + RelayFrom(lines[1..], decode, acc + delta)
        case None => RelayFrom(lines[1..], decode, acc)
    else RelayFrom(lines[1..], decode, acc)
  }

  function Relay(lines: seq<string>, decode: string -> Option<BackendResponse>): seq<RelayEvent> {
    RelayFrom(lines, decode, "")
  }

  /** The ordered concatenation of the chunk texts among `events`. */
  function ChunkText(events: seq<RelayEvent>): string {
    if events == [] then []
    else ChunkText(events[..|events| - 1]) + (if events[|events| - 1].NewChunk? then events[|events| - 1].text else [])
  }

  /**
   * The relay loop of `generate_stream`: skips lines without the `data: `
   * prefix and payloads that do not decode, emits one chunk per non-empty
   * delta while accumulating it, and stops at `[DONE]` with one `done` event.
   */
  method RelayStream(lines: seq<string>, decode: string -> Option<BackendResponse>) returns (events: seq<RelayEvent>)
    ensures events == Relay(lines, decode)
  {
    events := [];
    var accumulated := "";
    var i := 0;
    while i < |lines|
      invariant 0 <= i <= |lines|
      invariant events + RelayFrom(lines[i..], decode, accumulated) == Relay(lines, decode)
    {
      var line := lines[i];
      assert lines[i..][1..] == lines[i + 1..];
      if StartsWith(line, "data: ") {
        var data := line[6..];
        if data == "[DONE]" {
          events := events + [Done(accumulated, EndOfGeneration)];
          break;
        }
        var decoded := decode(data);
        if decoded.Some? {
          var chunk := decoded.value;
          if chunk.choices.Some? && chunk.choices.value != [] {
            var delta := chunk.choices.value[0].text.GetOr("");
            if delta != "" {
              accumulated := accumulated + delta;
              events := events + [NewChunk(delta)];
            }
          }
        }
      }
      i := i + 1;
    }
  }

  lemma ChunkTextAppend(events: seq<RelayEvent>, e: RelayEvent)
    ensures ChunkText(events + [e]) == ChunkText(events) + (if e.NewChunk? then e.text else [])
  {
    assert (events + [e])[..|events|] == events;
  }

  lemma ChunkTextPrepend(e: RelayEvent, events: seq<RelayEvent>)
    ensures ChunkText([e] + events) == (if e.NewChunk? then e.text else []) + ChunkText(events)
    decreases |events|
  {
    if events == [] {
      assert [e] + events == [e];
      assert [e][..0] == [];
    } else {
      var init := events[..|events| - 1];
      var last := events[|events| - 1];
      assert [e] + events == ([e] + init) + [last];
      assert events == init + [last];
      ChunkTextAppend([e] + init, last);
      ChunkTextAppend(init, last);
      ChunkTextPrepend(e, init);
    }
  }

  /** The relay's output is well formed relative to the text accumulated before it. */
  ghost predicate WellFormedFrom(events: seq<RelayEvent>, acc: string) {
    forall i :: 0 <= i < |events| ==>
      (events[i].NewChunk? ==> events[i].text != [])
      && (events[i].Done? ==>
            && i == |events| - 1
            && events[i].stopReason == EndOfGeneration
            && events[i].text == acc + ChunkText(events[..i]))
  }

  /** A non-empty chunk in front of output well formed after it keeps the output well formed. */
  lemma PrependChunkWellFormed(delta: string, rest: seq<RelayEvent>, acc: string)
    requires delta != [] && WellFormedFrom(rest, acc + delta)
    ensures WellFormedFrom([NewChunk(delta)] + rest, acc)
  {
    var es := [NewChunk(delta)] + rest;
    forall i | 0 <= i < |es| && es[i].Done?
      ensures i == |es| - 1 && es[i].stopReason == EndOfGeneration && es[i].text == acc + ChunkText(es[..i])
    {
      assert es[i] == rest[i - 1];
      assert es[..i] == [NewChunk(delta)] + rest[..i - 1];
      ChunkTextPrepend(NewChunk(delta), rest[..i - 1]);
    }
  }

  /**
   * Every chunk carries non-empty text; a `done` event can only come last, has
   * stop reason end-of-generation, and carries the accumulated text followed
   * by every chunk emitted before it.
   */
  lemma {:induction false} RelayFromWellFormed(lines: seq<string>, decode: string -> Option<BackendResponse>, acc: string)
    ensures WellFormedFrom(RelayFrom(lines, decode, acc), acc)
    decreases |lines|
  {
    if lines == [] {
    } else if StartsWith(lines[0], DataPrefix) {
      var data := lines[0][|DataPrefix|..];
      if data == "[DONE]" {
        assert RelayFrom(lines, decode, acc) == [Done(acc, EndOfGeneration)];
        assert [Done(acc, EndOfGeneration)][..0] == [];
      } else {
        match ChunkDelta(decode(data))
        case Some(delta) =>
          RelayFromWellFormed(lines[1..], decode, acc + delta);
          PrependChunkWellFormed(delta, RelayFrom(lines[1..], decode, acc + delta), acc);
        case None =>
          RelayFromWellFormed(lines[1..], decode, acc);
      }
    } else {
      RelayFromWellFormed(lines[1..], decode, acc);
    }
  }

  /** From the start of a stream: a `done` event's text is exactly the concatenation of the chunks before it. */
  lemma RelayDoneTextIsConcatenation(lines: seq<string>, decode: string -> Option<BackendResponse>, i: nat)
    requires i < |Relay(lines, decode)| && Relay(lines, decode)[i].Done?
    ensures i == |Relay(lines, decode)| - 1
    ensures Relay(lines, decode)[i] == Done(ChunkText(Relay(lines, decode)[..i]), EndOfGeneration)
  {
    RelayFromWellFormed(lines, decode, "");
    var es := Relay(lines, decode);
    assert es[i].text == "" + ChunkText(es[..i]);
  }

  /** A relayed stream ends with `done`. */
  predicate EndsWithDone(events: seq<RelayEvent>) {
    events != [] && events[|events| - 1].Done?
  }

  lemma DoneLineIsDoneData(line: string)
    ensures (StartsWith(line, DataPrefix) && line[|DataPrefix|..] == "[DONE]") <==> line == DoneLine
  {
    if line == DoneLine {
      assert line[..|DataPrefix|] == DataPrefix;
    }
    if StartsWith(line, DataPrefix) && line[|DataPrefix|..] == "[DONE]" {
      assert line == line[..|DataPrefix|] + line[|DataPrefix|..];
    }
  }

  /** A `done` event is emitted exactly when some line is `data: [DONE]`; a stream that runs out has none. */
  lemma {:induction false} RelayFromDoneIff(lines: seq<string>, decode: string -> Option<BackendResponse>, acc: string)
    ensures EndsWithDone(RelayFrom(lines, decode, acc)) <==> DoneLine in lines
    decreases |lines|
  {
    if lines != [] {
      DoneLineIsDoneData(lines[0]);
      RelayFromDoneIff(lines[1..], decode, acc);
      assert lines == [lines[0]] + lines[1..];
      if StartsWith(lines[0], DataPrefix) && lines[0][|DataPrefix|..] != "[DONE]" {
        match ChunkDelta(decode(lines[0][|DataPrefix|..]))
        case Some(delta) =>
          RelayFromDoneIff(lines[1..], decode, acc + delta);
          var rest := RelayFrom(lines[1..], decode, acc + delta);
          assert RelayFrom(lines, decode, acc) == [NewChunk(delta)] + rest;
          if rest != [] {
            assert ([NewChunk(delta)] + rest)[|rest|] == rest[|rest| - 1];
          }
        case None =>
      }
    }
  }

  lemma RelayDoneIff(lines: seq<string>, decode: string -> Option<BackendResponse>)
    ensures EndsWithDone(Relay(lines, decode)) <==> DoneLine in lines
  {
    RelayFromDoneIff(lines, decode, "");
  }

  /** A line the relay discards: no `data: ` prefix, or a non-`[DONE]` payload that yields no text. */
  predicate Ignored(line: string, decode: string -> Option<BackendResponse>) {
    !StartsWith(line, DataPrefix)
    || (line[|DataPrefix|..] != "[DONE]" && ChunkDelta(decode(line[|DataPrefix|..])).None?)
  }

  /** Removing a discarded line anywhere in the stream changes no event and no accumulated text. */
  lemma {:induction false} RelayIgnoresLine(pre: seq<string>, line: string, post: seq<string>,
                                            decode: string -> Option<BackendResponse>, acc: string)
    requires Ignored(line, decode)
    ensures RelayFrom(pre + [line] + post, decode, acc) == RelayFrom(pre + post, decode, acc)
    decreases |pre|
  {
    if pre == [] {
      assert pre + [line] + post == [line] + post;
      assert ([line] + post)[1..] == post;
      assert pre + post == post;
    } else {
      var l := pre + [line] + post;
      var s := pre + post;
      assert l[0] == s[0] == pre[0];
      assert l[1..] == pre[1..] + [line] + post;
      assert s[1..] == pre[1..] + post;
      if StartsWith(pre[0], DataPrefix) && pre[0][|DataPrefix|..] != "[DONE]" {
        match ChunkDelta(decode(pre[0][|DataPrefix|..]))
        case Some(delta) => RelayIgnoresLine(pre[1..], line, post, decode, acc + delta);
        case None => RelayIgnoresLine(pre[1..], line, post, decode, acc);
      } else if !StartsWith(pre[0], DataPrefix) {
        RelayIgnoresLine(pre[1..], line, post, decode, acc);
      }
    }
  }

  /** Nothing after `data: [DONE]` is ever read. */
  lemma {:induction false} RelayStopsAtDone(pre: seq<string>, post1: seq<string>, post2: seq<string>,
                                            decode: string -> Option<BackendResponse>, acc: string)
    ensures RelayFrom(pre + [DoneLine] + post1, decode, acc) == RelayFrom(pre + [DoneLine] + post2, decode, acc)
    decreases |pre|
  {
    var l1 := pre + [DoneLine] + post1;
    var l2 := pre + [DoneLine] + post2;
    if pre == [] {
      DoneLineIsDoneData(DoneLine);
      assert l1[0] == l2[0] == DoneLine;
    } else {
      assert l1[0] == l2[0] == pre[0];
      assert l1[1..] == pre[1..] + [DoneLine] + post1;
      assert l2[1..] == pre[1..] + [DoneLine] + post2;
      if StartsWith(pre[0], DataPrefix) && pre[0][|DataPrefix|..] != "[DONE]" {
        match ChunkDelta(decode(pre[0][|DataPrefix|..]))
        case Some(delta) => RelayStopsAtDone(pre[1..], post1, post2, decode, acc + delta);
        case None => RelayStopsAtDone(pre[1..], post1, post2, decode, acc);
      } else if !StartsWith(pre[0], DataPrefix) {
        RelayStopsAtDone(pre[1..], post1, post2, decode, acc);
      }
    }
  }

  /**
   * Two text deltas, a malformed line between them, then `[DONE]`: two
   * chunks and one `done` carrying the joined text.
   */
  lemma RelayExample(decode: string -> Option<BackendResponse>, first: string, junk: string, second: string)
    requires decode(first) == Some(BackendResponse(Some([BackendChoice(Some("Hel"), None)])))
    requires decode(junk) == None
    requires decode(second) == Some(BackendResponse(Some([BackendChoice(Some("lo"), None)])))
    requires first != "[DONE]" && junk != "[DONE]" && second != "[DONE]"
    ensures Relay(["data: " + first, "data: " + junk, "data: " + second, DoneLine], decode)
            == [NewChunk("Hel"), NewChunk("lo"), Done("Hello", EndOfGeneration)]
  {
    var lines := ["data: " + first, "data: " + junk, "data: " + second, DoneLine];
    assert StartsWith("data: " + first, DataPrefix) && ("data: " + first)[6..] == first;
    assert StartsWith("data: " + junk, DataPrefix) && ("data: " + junk)[6..] == junk;
    assert StartsWith("data: " + second, DataPrefix) && ("data: " + second)[6..] == second;
    DoneLineIsDoneData(DoneLine);
    assert ChunkDelta(decode(first)) == Some("Hel");
    assert ChunkDelta(decode(junk)) == None;
    assert ChunkDelta(decode(second)) == Some("lo");
    assert "Hel" + "lo" == "Hello";
    var l4 := [DoneLine];
    var l3 := ["data: " + second, DoneLine];
    var l2 := ["data: " + junk, "data: " + second, DoneLine];
    assert l3[1..] == l4 && l2[1..] == l3 && lines[1..] == l2;
    assert RelayFrom(l4, decode, "Hello") == [Done("Hello", EndOfGeneration)];
    assert RelayFrom(l3, decode, "Hel") == [NewChunk("lo")] + RelayFrom(l4, decode, "Hel" + "lo");
    assert RelayFrom(l2, decode, "Hel") == RelayFrom(l3, decode, "Hel");
    assert "" + "Hel" == "Hel";
    assert RelayFrom(lines, decode, "") == [NewChunk("Hel")] + RelayFrom(l2, decode, "" + "Hel");
    assert [NewChunk("Hel")] + ([NewChunk("lo")] + [Done("Hello", EndOfGeneration)])
           == [NewChunk("Hel"), NewChunk("lo"), Done("Hello", EndOfGeneration)];
  }
}
