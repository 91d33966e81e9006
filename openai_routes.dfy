/**
 * The OpenAI-compatible handlers: the model list, the translation of a
 * completion request into the canonical request, and the translation of the
 * canonical result back into completion envelopes or stream frames.
 */
module OpenAIRoutes {
  import opened Wrappers
  import opened JsonValues
  import opened Text
  import opened Config
  import opened Slut
  import opened Compat
  import opened Auth
  import opened OpenAIAdapter
  import opened ProviderFactory

  // ---------------------------------------------------------------------------
  // GET /models
  // ---------------------------------------------------------------------------

  /**
   * `get_models`: one entry per configured model, in configuration order,
   * owned by the provider the model names; the first unresolvable provider fails the call.
   */
  method GetModels(config: Config) returns (r: Result<OpenAIResponse, LookupError>)
    ensures r.Success? <==> forall i :: 0 <= i < |config.models| ==> config.GetProvider(config.models[i].provider).Success?
    ensures r.Success? ==>
              && r.value.objectTag == "list"
              && |r.value.data| == |config.models|
              && forall i :: 0 <= i < |config.models| ==>
                   r.value.data[i] == NewOpenAIModel(config.models[i].name, config.models[i].provider)
    ensures r.Failure? ==>
              exists i | 0 <= i < |config.models| :: FirstUnresolved(config, i) && r.error == ProviderNotFound(config.models[i].provider)
  {
    var openaiModels: seq<OpenAIModel> := [];
    for i := 0 to |config.models|
      invariant |openaiModels| == i
      invariant forall j :: 0 <= j < i ==> config.GetProvider(config.models[j].provider).Success?
      invariant forall j :: 0 <= j < i ==> openaiModels[j] == NewOpenAIModel(config.models[j].name, config.models[j].provider)
    {
      var model := config.models[i];
      var providerConfig := config.GetProvider(model.provider);
      if providerConfig.Failure? {
        r := Failure(providerConfig.error);
        assert FirstUnresolved(config, i);
        return;
      }
      openaiModels := openaiModels + [NewOpenAIModel(model.name, providerConfig.value.name)];
    }
    return Success(OpenAIResponse("list", openaiModels));
  }

  // ---------------------------------------------------------------------------
  // POST /completions: request side
  // ---------------------------------------------------------------------------

  datatype CompletionError =
    | MissingField(field: string)    // a `KeyError` on the request body
    | UnknownModel(model: Json)
    | UnknownProvider(provider: string)
    | Forbidden(denial: Denial)       // answered with status 403
    | EmptyPromptList                 // an `IndexError` narrowing `[]`
    | UnsupportedProvider(providerType: AvailableProvider)

  /** What the handler hands to the provider once the request is accepted. */
  datatype CompletionPlan = CompletionPlan(
    modelConfig: ModelConfig,
    providerConfig: ProviderConfig,
    request: TextGenerationRequest,
    stream: bool)

  /** Only temperature and top_p carry over; the samplers object exists only when one of them is truthy. */
  function ConvertSamplers(temperature: Json, topP: Json): (r: Option<Samplers>)
    ensures r.Some? <==> Truthy(temperature) || Truthy(topP)
    ensures r.Some? ==> r.value.temperature == temperature && r.value.topP == topP
                        && r.value.minP == JNull && r.value.repetitionPenalty == JNull
  {
    var samplers := NoSamplers();
    var samplers := if temperature != JNull then samplers.(temperature := temperature) else samplers;
    var samplers := if topP != JNull then samplers.(topP := topP) else samplers;
    if Truthy(samplers.temperature) || Truthy(samplers.topP) then Some(samplers) else None
  }

  /** A list of prompts is narrowed to its first element; anything else passes unchanged. */
  function NarrowPrompt(prompt: Json): (r: Result<Json, CompletionError>)
    ensures r.Failure? <==> prompt == JArr([])
    ensures r.Failure? ==> r.error == EmptyPromptList
    ensures prompt.JArr? && prompt.items != [] ==> r == Success(prompt.items[0])
    ensures !prompt.JArr? ==> r == Success(prompt)
  {
    if prompt.JArr? then
      if prompt.items == [] then Failure(EmptyPromptList) else Success(prompt.items[0])
    else Success(prompt)
  }

  /** A falsy `stop` becomes `None`, a string is wrapped in a list, anything else passes through. */
  function ConvertStop(stop: Json): (r: Json)
    ensures !Truthy(stop) ==> r == JNull
    ensures Truthy(stop) && stop.JStr? ==> r == JArr([stop])
    ensures Truthy(stop) && !stop.JStr? ==> r == stop
    ensures Truthy(r) <==> Truthy(stop)
  {
    if Truthy(stop) then
      if stop.JStr? then JArr([stop]) else stop
    else JNull
  }

  /** The decisions of `create_completion`, in the order the handler takes them. */
  function CompletionSpec(config: Config, body: map<string, Json>, perms: Option<Permissions>): Result<CompletionPlan, CompletionError> {
    if "model" !in body then Failure(MissingField("model"))
    else if !body["model"].JStr? || config.GetModel(body["model"].s).Failure? then Failure(UnknownModel(body["model"]))
    else
      var name := body["model"].s;
      var modelConfig := config.GetModel(name).value;
      if config.GetProvider(modelConfig.provider).Failure? then Failure(UnknownProvider(modelConfig.provider))
      else if "prompt" !in body then Failure(MissingField("prompt"))
      else
        var providerConfig := config.GetProvider(modelConfig.provider).value;
        var attrs := Reconciled(InitialAttrs(body["model"], body["prompt"]), body, providerConfig);
        match Authorize(perms, name, modelConfig.provider)
        case Some(denial) => Failure(Forbidden(denial))
        case None =>
          match Canonical(attrs, name)
          case Failure(e) => Failure(e)
          case Success(request) =>
            if !Supports(providerConfig) then Failure(UnsupportedProvider(providerConfig.providerType))
            else Success(CompletionPlan(modelConfig, providerConfig, request, Truthy(attrs["stream"])))
  }

  /** The canonical request built from the reconciled attributes of the completion request. */
  function Canonical(attrs: map<string, Json>, name: string): (r: Result<TextGenerationRequest, CompletionError>)
    requires "prompt" in attrs && "temperature" in attrs && "top_p" in attrs && "stop" in attrs
    ensures r.Failure? <==> attrs["prompt"] == JArr([])
    ensures r.Success? ==>
              && r.value.model == name
              && Success(r.value.prompt) == NarrowPrompt(attrs["prompt"])
              && r.value.samplers == ConvertSamplers(attrs["temperature"], attrs["top_p"])
              && r.value.stopSequences == ConvertStop(attrs["stop"])
  {
    match NarrowPrompt(attrs["prompt"])
    case Failure(e) => Failure(e)
    case Success(prompt) =>
      Success(TextGenerationRequest(prompt, name, ConvertSamplers(attrs["temperature"], attrs["top_p"]), ConvertStop(attrs["stop"])))
  }

  /** The conversion steps of `create_completion`, from the request struct's fields to the canonical request. */
  method ToTextGenerationRequest(completionRequest: OpenAICompletionRequest, name: string)
    returns (r: Result<TextGenerationRequest, CompletionError>)
    ensures r == Canonical(completionRequest.Attrs(), name)
  {
    var samplers := NoSamplers();
    if completionRequest.temperature != JNull {
      samplers := samplers.(temperature := completionRequest.temperature);
    }
    if completionRequest.topP != JNull {
      samplers := samplers.(topP := completionRequest.topP);
    }

    var promptText := completionRequest.prompt;
    if promptText.JArr? {
      if promptText.items == [] {
        return Failure(EmptyPromptList);
      }
      promptText := promptText.items[0];
    }

    var stopSequences := JNull;
    if Truthy(completionRequest.stop) {
      if completionRequest.stop.JStr? {
        stopSequences := JArr([completionRequest.stop]);
      } else {
        stopSequences := completionRequest.stop;
      }
    }

    return Success(TextGenerationRequest(
      promptText,
      name,
      if Truthy(samplers.temperature) || Truthy(samplers.topP) then Some(samplers) else None,
      stopSequences));
  }

  /**
   * `create_completion` up to the provider call: lookups, the reconciled
   * request struct, the permission check, and the canonical request.
   */
  method CreateCompletion(config: Config, body: map<string, Json>, perms: Option<Permissions>)
    returns (r: Result<CompletionPlan, CompletionError>)
    ensures r == CompletionSpec(config, body, perms)
  {
    if "model" !in body {
      return Failure(MissingField("model"));
    }
    var requested := body["model"];
    if !requested.JStr? || config.GetModel(requested.s).Failure? {
      return Failure(UnknownModel(requested));
    }
    var modelConfig := config.GetModel(requested.s).value;
    var providerLookup := config.GetProvider(modelConfig.provider);
    if providerLookup.Failure? {
      return Failure(UnknownProvider(modelConfig.provider));
    }
    var providerConfig := providerLookup.value;
    if "prompt" !in body {
      return Failure(MissingField("prompt"));
    }
    var completionRequest := new OpenAICompletionRequest(requested, body["prompt"], body, providerConfig);
    BodyFieldsSurvive(body, providerConfig);

    if perms.None? {
      return Failure(Forbidden(NoPermissions));
    }
    var modelAllowed := completionRequest.model.JStr? && completionRequest.model.s in perms.value.allowedModels;
    var providerAllowed := modelConfig.provider in perms.value.allowedProviders;
    if !modelAllowed && !providerAllowed {
      return Failure(Forbidden(NeitherAllowed(requested.s, modelConfig.provider)));
    }

    var genRequest := ToTextGenerationRequest(completionRequest, requested.s);
    if genRequest.Failure? {
      return Failure(genRequest.error);
    }

    var provider := CreateProvider(providerConfig);
    if provider.Failure? {
      return Failure(UnsupportedProvider(providerConfig.providerType));
    }
    return Success(CompletionPlan(modelConfig, providerConfig, genRequest.value, Truthy(completionRequest.stream)));
  }

  /** Model and provider lookups come first: an unknown model fails whatever the permissions. */
  lemma UnknownModelIgnoresPermissions(config: Config, body: map<string, Json>, perms1: Option<Permissions>, perms2: Option<Permissions>)
    requires "model" in body && body["model"].JStr?
    requires forall m :: m in config.models ==> m.name != body["model"].s
    ensures CompletionSpec(config, body, perms1) == CompletionSpec(config, body, perms2) == Failure(UnknownModel(body["model"]))
  {
  }

  /**
   * Once model and provider resolve, the request is refused with 403 exactly
   * when no permissions are attached, or when neither the model nor its
   * provider is allowed.
   */
  lemma CompletionForbiddenIff(config: Config, body: map<string, Json>, perms: Option<Permissions>)
    requires "model" in body && "prompt" in body && body["model"].JStr?
    requires config.GetModel(body["model"].s).Success?
    requires config.GetProvider(config.GetModel(body["model"].s).value.provider).Success?
    ensures var provider := config.GetModel(body["model"].s).value.provider;
            CompletionSpec(config, body, perms).Failure? && CompletionSpec(config, body, perms).error.Forbidden?
            <==> perms.None?
                 || (body["model"].s !in perms.value.allowedModels && provider !in perms.value.allowedProviders)
  {
  }

  /** A stop value reaches the backend payload exactly when the client's `stop` was truthy (after reconciliation). */
  lemma StopReachesBackend(model: ModelConfig, prompt: Json, name: string, samplers: Option<Samplers>, stop: Json)
    ensures "stop" in PrepareRequest(model, TextGenerationRequest(prompt, name, samplers, ConvertStop(stop))) <==> Truthy(stop)
  {
  }

  /** Zero-valued temperature and top_p give no samplers object, so the backend sees no sampler keys. */
  lemma FalsySamplersSendNoKeys(model: ModelConfig, prompt: Json, name: string, stop: Json)
    ensures var p := PrepareRequest(model, TextGenerationRequest(prompt, name, ConvertSamplers(JNum(0.0), JNum(0.0)), stop));
            "temperature" !in p && "top_p" !in p && "min_p" !in p && "repetition_penalty" !in p
  {
    assert ConvertSamplers(JNum(0.0), JNum(0.0)) == None;
  }

  // ---------------------------------------------------------------------------
  // POST /completions: response side
  // ---------------------------------------------------------------------------

  /**
   * Token estimates by whitespace splitting; a prompt that is not a string
   * counts the length of its `str()` rendering, given as `render`.
   */
  function Usage(prompt: Json, text: string, render: Json -> string): (u: OpenAICompletionUsage)
    ensures u.completionTokens == |Words(text)|
    ensures prompt.JStr? ==> u.promptTokens == |Words(prompt.s)|
    ensures !prompt.JStr? ==> u.promptTokens == |render(prompt)|
    ensures u.totalTokens == u.promptTokens + u.completionTokens
  {
    var promptTokens := if prompt.JStr? then WordCount(prompt.s) else |render(prompt)|;
    var completionTokens := WordCount(text);
    OpenAICompletionUsage(promptTokens, completionTokens, promptTokens + completionTokens)
  }

  /** `f"cmpl-{hex[:8]}"`: the completion id built from the uuid's hex digits. */
  function CompletionId(hex: string): (id: string)
    ensures StartsWith(id, "cmpl-")
    ensures |id| == 5 + (if |hex| < 8 then |hex| else 8)
    ensures StartsWith(hex, id[5..])
  {
    "cmpl-" + (if |hex| < 8 then hex else hex[..8])
  }

  /**
   * The non-streaming envelope: one choice at index 0 with the text and the
   * stop reason's wire value, named after the requested model.
   */
  function CompletionResponse(request: TextGenerationRequest, response: TextGenerationResponse,
                              hex: string, created: int, render: Json -> string): (r: OpenAICompletionResponse)
    ensures r.id == CompletionId(hex) && r.created == created && r.model == request.model
    ensures |r.choices| == 1
    ensures r.choices[0] == NewCompletionChoice(response.text, 0, response.stopReason.Value())
    ensures r.usage == Usage(request.prompt, response.text, render)
  {
    var choice := NewCompletionChoice(response.text, 0, response.stopReason.Value());
    OpenAICompletionResponse(CompletionId(hex), created, request.model, [choice], Usage(request.prompt, response.text, render))
  }

  /** The finish reason of the envelope determines the stop reason it came from. */
  lemma FinishReasonDeterminesStopReason(a: TextGenerationResponse, b: TextGenerationResponse, request: TextGenerationRequest,
                                         hex: string, created: int, render: Json -> string)
    requires CompletionResponse(request, a, hex, created, render).choices
             == CompletionResponse(request, b, hex, created, render).choices
    ensures a == b
  {
    StopReasonValuesDistinct(a.stopReason, b.stopReason);
    assert NewCompletionChoice(a.text, 0, a.stopReason.Value()) == NewCompletionChoice(b.text, 0, b.stopReason.Value());
  }

  /** Two space-free words joined by a space count as two completion tokens. */
  lemma UsageCountsWords(prompt: Json, render: Json -> string, first: string, second: string)
    requires first != [] && NoSpace(first) && second != [] && NoSpace(second)
    ensures Usage(prompt, first + " " + second, render).completionTokens == 2
  {
    assert first + " " + second == first + [' '] + second;
    WordCountSplitAtSeparator(first, ' ', second);
    OneWord(first);
    OneWord(second);
  }

  // ---------------------------------------------------------------------------
  // POST /completions: stream framing
  // ---------------------------------------------------------------------------

  datatype StreamEnvelope = StreamEnvelope(id: string, objectTag: string, created: int, model: string,
                                           choices: seq<OpenAICompletionChoice>)

  /** The frames of the compat stream: the timestamp line, an envelope, and the closing sentinel. */
  datatype StreamFrame = TimestampLine(created: int) | EnvelopeLine(envelope: StreamEnvelope) | DoneSentinel

  function Envelope(id: string, created: int, model: string, text: string, finishReason: string): StreamEnvelope {
    StreamEnvelope(id, CompletionObject, created, model, [NewCompletionChoice(text, 0, finishReason)])
  }

  /** The frames one chunk produces: none for empty text. */
  function ChunkFrames(text: string, id: string, created: int, model: string): seq<StreamFrame> {
    if text == "" then [] else [TimestampLine(created), EnvelopeLine(Envelope(id, created, model, text, ""))]
  }

  function FramesOf(chunks: seq<string>, id: string, created: int, model: string): seq<StreamFrame> {
    if chunks == [] then []
    else FramesOf(chunks[..|chunks| - 1], id, created, model) + ChunkFrames(chunks[|chunks| - 1], id, created, model)
  }

  /** The whole stream: the chunk frames, a final empty envelope with reason `stop`, and `[DONE]`. */
  function CompatStream(chunks: seq<string>, id: string, created: int, model: string): seq<StreamFrame> {
    FramesOf(chunks, id, created, model) + [EnvelopeLine(Envelope(id, created, model, "", "stop")), DoneSentinel]
  }

  /** `stream_generator`: frames every non-empty chunk, then closes the stream. */
  method StreamCompletion(chunks: seq<string>, hex: string, created: int, model: string) returns (frames: seq<StreamFrame>)
    ensures frames == CompatStream(chunks, CompletionId(hex), created, model)
  {
    var id := CompletionId(hex);
    frames := [];
    for i := 0 to |chunks|
      invariant frames == FramesOf(chunks[..i], id, created, model)
    {
      var chunk := chunks[i];
      assert chunks[..i + 1][..i] == chunks[..i];
      if chunk != "" {
        var envelope := Envelope(id, created, model, chunk, "");
        frames := frames + [TimestampLine(created), EnvelopeLine(envelope)];
      }
    }
    assert chunks[..|chunks|] == chunks;
    frames := frames + [EnvelopeLine(Envelope(id, created, model, "", "stop")), DoneSentinel];
  }

  /** The concatenated choice texts of the envelopes among `frames`. */
  function EnvelopeText(frames: seq<StreamFrame>): string {
    if frames == [] then []
    else
      EnvelopeText(frames[..|frames| - 1])
      + (match frames[|frames| - 1]
         case EnvelopeLine(e) => if e.choices != [] then e.choices[0].text else []
         case _ => [])
  }

  lemma EnvelopeTextAppend(a: seq<StreamFrame>, b: seq<StreamFrame>)
    ensures EnvelopeText(a + b) == EnvelopeText(a) + EnvelopeText(b)
    decreases |b|
  {
    if b == [] {
      assert a + b == a;
    } else {
      assert (a + b)[..|a + b| - 1] == a + b[..|b| - 1];
      EnvelopeTextAppend(a, b[..|b| - 1]);
    }
  }

  /** The streamed text is exactly the concatenation of the chunks, in order. */
  lemma {:induction false} StreamTextIsConcatenation(chunks: seq<string>, id: string, created: int, model: string)
    ensures EnvelopeText(CompatStream(chunks, id, created, model)) == ConcatAll(chunks)
  {
    FramesText(chunks, id, created, model);
    var tail := [EnvelopeLine(Envelope(id, created, model, "", "stop")), DoneSentinel];
    EnvelopeTextAppend(FramesOf(chunks, id, created, model), tail);
    assert tail[..1] == [EnvelopeLine(Envelope(id, created, model, "", "stop"))];
    assert tail[..1][..0] == [];
    assert EnvelopeText(tail[..1]) == [];
    assert EnvelopeText(tail) == [];
  }

  function ConcatAll(chunks: seq<string>): string {
    if chunks == [] then [] else ConcatAll(chunks[..|chunks| - 1]) + chunks[|chunks| - 1]
  }

  lemma ChunkFramesText(text: string, id: string, created: int, model: string)
    ensures EnvelopeText(ChunkFrames(text, id, created, model)) == text
  {
    if text != "" {
      var cf := ChunkFrames(text, id, created, model);
      assert cf[..1] == [TimestampLine(created)];
      assert cf[..1][..0] == [];
      assert EnvelopeText(cf[..1]) == [];
    }
  }

  lemma {:induction false} FramesText(chunks: seq<string>, id: string, created: int, model: string)
    ensures EnvelopeText(FramesOf(chunks, id, created, model)) == ConcatAll(chunks)
    decreases |chunks|
  {
    if chunks != [] {
      var init := chunks[..|chunks| - 1];
      var last := chunks[|chunks| - 1];
      FramesText(init, id, created, model);
      EnvelopeTextAppend(FramesOf(init, id, created, model), ChunkFrames(last, id, created, model));
      ChunkFramesText(last, id, created, model);
    }
  }

  /** Every envelope of the stream shares the one id, creation time and model. */
  lemma {:induction false} StreamEnvelopesShareIdentity(chunks: seq<string>, id: string, created: int, model: string)
    ensures forall f :: f in CompatStream(chunks, id, created, model) && f.EnvelopeLine? ==>
              f.envelope.id == id && f.envelope.created == created && f.envelope.model == model
              && f.envelope.objectTag == CompletionObject
    decreases |chunks|
  {
    FramesShareIdentity(chunks, id, created, model);
  }

  lemma {:induction false} FramesShareIdentity(chunks: seq<string>, id: string, created: int, model: string)
    ensures forall f :: f in FramesOf(chunks, id, created, model) && f.EnvelopeLine? ==>
              f.envelope.id == id && f.envelope.created == created && f.envelope.model == model
              && f.envelope.objectTag == CompletionObject
              && f.envelope.choices != [] && f.envelope.choices[0].text != "" && f.envelope.choices[0].finishReason == ""
    decreases |chunks|
  {
    if chunks != [] {
      FramesShareIdentity(chunks[..|chunks| - 1], id, created, model);
    }
  }

  /** The stream always closes with the empty `stop` envelope followed by `[DONE]`, and carries nothing for empty chunks. */
  lemma StreamCloses(chunks: seq<string>, id: string, created: int, model: string)
    ensures var s := CompatStream(chunks, id, created, model);
            |s| >= 2 && s[|s| - 1] == DoneSentinel
            && s[|s| - 2] == EnvelopeLine(Envelope(id, created, model, "", "stop"))
    ensures (forall i :: 0 <= i < |chunks| ==> chunks[i] == "")
            ==> CompatStream(chunks, id, created, model) == [EnvelopeLine(Envelope(id, created, model, "", "stop")), DoneSentinel]
  {
    if forall i :: 0 <= i < |chunks| ==> chunks[i] == "" {
      EmptyChunksNoFrames(chunks, id, created, model);
    }
  }

  lemma {:induction false} EmptyChunksNoFrames(chunks: seq<string>, id: string, created: int, model: string)
    requires forall i :: 0 <= i < |chunks| ==> chunks[i] == ""
    ensures FramesOf(chunks, id, created, model) == []
    decreases |chunks|
  {
    if chunks != [] {
      EmptyChunksNoFrames(chunks[..|chunks| - 1], id, created, model);
    }
  }

  // ---------------------------------------------------------------------------
  // The two framings agree
  // ---------------------------------------------------------------------------

  /** The texts of the chunk events, in order. */
  function ChunkTexts(events: seq<RelayEvent>): seq<string> {
    if events == [] then []
    else ChunkTexts(events[..|events| - 1]) + (if events[|events| - 1].NewChunk? then [events[|events| - 1].text] else [])
  }

  lemma {:induction false} ChunkTextsConcat(events: seq<RelayEvent>)
    ensures ConcatAll(ChunkTexts(events)) == ChunkText(events)
    decreases |events|
  {
    if events != [] {
      var init := events[..|events| - 1];
      var last := events[|events| - 1];
      ChunkTextsConcat(init);
      assert ChunkText(events) == ChunkText(init) + (if last.NewChunk? then last.text else []);
      if last.NewChunk? {
        var ts := ChunkTexts(init) + [last.text];
        assert ChunkTexts(events) == ts;
        assert ts[..|ts| - 1] == ChunkTexts(init);
        assert ConcatAll(ts) == ConcatAll(ChunkTexts(init)) + last.text;
      } else {
        assert ChunkTexts(events) == ChunkTexts(init) + [];
        assert ChunkTexts(init) + [] == ChunkTexts(init);
      }
    }
  }

  /**
   * Re-framing a finished native stream's chunks as compat envelopes carries
   * exactly the text of its `done` event.
   */
  lemma CompatStreamCarriesDoneText(lines: seq<string>, decode: string -> Option<BackendResponse>,
                                    id: string, created: int, model: string)
    requires EndsWithDone(Relay(lines, decode))
    ensures var events := Relay(lines, decode);
            EnvelopeText(CompatStream(ChunkTexts(events), id, created, model)) == events[|events| - 1].text
  {
    var events := Relay(lines, decode);
    var n := |events| - 1;
    RelayDoneTextIsConcatenation(lines, decode, n);
    StreamTextIsConcatenation(ChunkTexts(events), id, created, model);
    ChunkTextsConcat(events);
    ChunkTextsConcat(events[..n]);
    assert events == events[..n] + [events[n]];
    assert events[..|events| - 1] == events[..n];
    assert ChunkTexts(events) == ChunkTexts(events[..n]);
  }
}
