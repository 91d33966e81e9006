/**
 * The OpenAI-style wire structs, and the completion request whose
 * post-construction pass moves supported fields out of the overflow bag.
 */
module Compat {
  import opened Wrappers
  import opened JsonValues
  import opened Config

  datatype OpenAIModel = OpenAIModel(id: string, ownedBy: string, objectTag: string, created: int)

  /** A model entry with its defaults: object `"model"`, a fixed creation time. */
  function NewOpenAIModel(id: string, ownedBy: string): (m: OpenAIModel)
    ensures m.id == id && m.ownedBy == ownedBy
    ensures m.objectTag == "model" && m.created == 1000166400
  {
    OpenAIModel(id, ownedBy, "model", 1000166400)
  }

  datatype OpenAIResponse = OpenAIResponse(objectTag: string, data: seq<OpenAIModel>)

  datatype OpenAICompletionChoice = OpenAICompletionChoice(text: string, index: int, finishReason: string, logprobs: Json)

  /** A choice with no log-probabilities. */
  function NewCompletionChoice(text: string, index: int, finishReason: string): (c: OpenAICompletionChoice)
    ensures c.text == text && c.index == index && c.finishReason == finishReason && c.logprobs == JNull
  {
    OpenAICompletionChoice(text, index, finishReason, JNull)
  }

  datatype OpenAICompletionUsage = OpenAICompletionUsage(promptTokens: int, completionTokens: int, totalTokens: int)

  /** The object tag every completion envelope carries. */
  const CompletionObject: string := "text_completion"

  datatype OpenAICompletionResponse = OpenAICompletionResponse(
    id: string,
    created: int,
    model: string,
    choices: seq<OpenAICompletionChoice>,
    usage: OpenAICompletionUsage)

  // ---------------------------------------------------------------------------
  // Field reconciliation
  // ---------------------------------------------------------------------------

  /** The request struct's declared fields, in declaration order. */
  const StructFields: seq<string> := [
    "model", "prompt", "other_fields", "provider_config", "max_tokens", "temperature",
    "top_p", "frequency_penalty", "presence_penalty", "stop", "stream"]

  /** The declared fields that hold request values (all but the bag and the provider). */
  const ValueFields: set<string> := {
    "model", "prompt", "max_tokens", "temperature", "top_p", "frequency_penalty",
    "presence_penalty", "stop", "stream"}

  /**
   * Python's `==` between a member of the plain `Enum` `AvailableSampler` and a
   * field name: such a member never compares equal to a `str`.
   */
  predicate SamplerEqualsName(s: AvailableSampler, field: string) {
    false
  }

  /** `field in supported_samplers`, for a list of sampler enum members. */
  predicate InSamplerList(field: string, samplers: seq<AvailableSampler>) {
    exists i | 0 <= i < |samplers| :: SamplerEqualsName(samplers[i], field)
  }

  /** The capability test of the reconciliation pass, over the provider's two lists. */
  predicate Supported(field: string, pc: ProviderConfig) {
    field in pc.supportedParameters || InSamplerList(field, pc.supportedSamplers)
  }

  /** A field moves when it is a declared value field, a key of the bag, and supported. */
  predicate Moves(field: string, bag: map<string, Json>, pc: ProviderConfig) {
    field in ValueFields && field in bag && Supported(field, pc)
  }

  /** The attributes right after construction: model and prompt as given, every other field at its default. */
  function InitialAttrs(model: Json, prompt: Json): (attrs: map<string, Json>)
    ensures attrs.Keys == ValueFields
  {
    map["model" := model, "prompt" := prompt, "max_tokens" := JNull, "temperature" := JNull,
        "top_p" := JNull, "frequency_penalty" := JNull, "presence_penalty" := JNull,
        "stop" := JNull, "stream" := JBool(false)]
  }

  /** The attributes once the fields in `done` have been considered. */
  function AttrsAfter(attrs: map<string, Json>, bag: map<string, Json>, pc: ProviderConfig, done: seq<string>): map<string, Json> {
    map f | f in attrs :: if f in done && Moves(f, bag, pc) then bag[f] else attrs[f]
  }

  /** The bag once the fields in `done` have been considered. */
  function BagAfter(bag: map<string, Json>, pc: ProviderConfig, done: seq<string>): map<string, Json> {
    map k | k in bag && !(k in done && Moves(k, bag, pc)) :: bag[k]
  }

  /** The attributes after the whole pass: each moving field takes the bag's value. */
  function Reconciled(attrs: map<string, Json>, bag: map<string, Json>, pc: ProviderConfig): map<string, Json> {
    map f | f in attrs :: if Moves(f, bag, pc) then bag[f] else attrs[f]
  }

  /** The bag after the whole pass: exactly the keys that did not move. */
  function Remaining(bag: map<string, Json>, pc: ProviderConfig): map<string, Json> {
    map k | k in bag && !Moves(k, bag, pc) :: bag[k]
  }

  /** An iteration that moves `field`. */
  lemma MoveStep(attrs: map<string, Json>, bag: map<string, Json>, pc: ProviderConfig, done: seq<string>, field: string)
    requires attrs.Keys == ValueFields
    requires field in BagAfter(bag, pc, done) && Supported(field, pc) && field in ValueFields
    ensures AttrsAfter(attrs, bag, pc, done + [field])
            == AttrsAfter(attrs, bag, pc, done)[field := BagAfter(bag, pc, done)[field]]
    ensures BagAfter(bag, pc, done + [field]) == BagAfter(bag, pc, done) - {field}
  {
  }

  /** An iteration that leaves everything as it is. */
  lemma SkipStep(attrs: map<string, Json>, bag: map<string, Json>, pc: ProviderConfig, done: seq<string>, field: string)
    requires !(field in BagAfter(bag, pc, done) && Supported(field, pc) && field in ValueFields)
    ensures AttrsAfter(attrs, bag, pc, done + [field]) == AttrsAfter(attrs, bag, pc, done)
    ensures BagAfter(bag, pc, done + [field]) == BagAfter(bag, pc, done)
  {
  }

  lemma AfterAllFields(attrs: map<string, Json>, bag: map<string, Json>, pc: ProviderConfig)
    ensures AttrsAfter(attrs, bag, pc, StructFields) == Reconciled(attrs, bag, pc)
    ensures BagAfter(bag, pc, StructFields) == Remaining(bag, pc)
  {
    assert forall f :: f in ValueFields ==> f in StructFields;
  }

  /**
   * The request as built by `create_completion`. Attributes hold raw JSON
   * values, since construction and `setattr` do not validate what they store.
   * `otherFields` is the overflow bag (the whole request body); `providerConfig`
   * the provider the model resolved to.
   */
  class OpenAICompletionRequest {
    var model: Json
    var prompt: Json
    var otherFields: map<string, Json>
    var providerConfig: ProviderConfig
    var maxTokens: Json
    var temperature: Json
    var topP: Json
    var frequencyPenalty: Json
    var presencePenalty: Json
    var stop: Json
    var stream: Json

    /** The value fields, by their declared names. */
    function Attrs(): (attrs: map<string, Json>)
      reads this
      ensures attrs.Keys == ValueFields
    {
      map["model" := model, "prompt" := prompt, "max_tokens" := maxTokens, "temperature" := temperature,
          "top_p" := topP, "frequency_penalty" := frequencyPenalty, "presence_penalty" := presencePenalty,
          "stop" := stop, "stream" := stream]
    }

    /** Construction followed by the reconciliation pass, as msgspec runs `__post_init__`. */
    constructor (model: Json, prompt: Json, otherFields: map<string, Json>, providerConfig: ProviderConfig)
      ensures Attrs() == Reconciled(InitialAttrs(model, prompt), otherFields, providerConfig)
      ensures this.otherFields == Remaining(otherFields, providerConfig)
      ensures this.providerConfig == providerConfig
    {
      this.model := model;
      this.prompt := prompt;
      this.otherFields := otherFields;
      this.providerConfig := providerConfig;
      this.maxTokens := JNull;
      this.temperature := JNull;
      this.topP := JNull;
      this.frequencyPenalty := JNull;
      this.presencePenalty := JNull;
      this.stop := JNull;
      this.stream := JBool(false);
      new;
      assert Attrs() == InitialAttrs(model, prompt);
      PostInit();
    }

    /** `setattr(self, name, value)` for a value field. */
    method SetAttr(name: string, value: Json)
      requires name in ValueFields
      modifies this
      ensures Attrs() == old(Attrs())[name := value]
      ensures otherFields == old(otherFields) && providerConfig == old(providerConfig)
    {
      if name == "model" { model := value; }
      else if name == "prompt" { prompt := value; }
      else if name == "max_tokens" { maxTokens := value; }
      else if name == "temperature" { temperature := value; }
      else if name == "top_p" { topP := value; }
      else if name == "frequency_penalty" { frequencyPenalty := value; }
      else if name == "presence_penalty" { presencePenalty := value; }
      else if name == "stop" { stop := value; }
      else { stream := value; }
    }

    /**
     * One iteration of `__post_init__`: moves `field` from the bag into its
     * attribute when the bag has it and the provider lists it.
     */
    method ConsiderField(field: string, ghost attrs0: map<string, Json>, ghost bag0: map<string, Json>, ghost done: seq<string>)
      requires attrs0.Keys == ValueFields
      requires Attrs() == AttrsAfter(attrs0, bag0, providerConfig, done)
      requires otherFields == BagAfter(bag0, providerConfig, done)
      modifies this
      ensures providerConfig == old(providerConfig)
      ensures Attrs() == AttrsAfter(attrs0, bag0, providerConfig, done + [field])
      ensures otherFields == BagAfter(bag0, providerConfig, done + [field])
    {
      if field in otherFields && (field in providerConfig.supportedParameters
                                  || InSamplerList(field, providerConfig.supportedSamplers))
         && field in ValueFields {
        MoveStep(attrs0, bag0, providerConfig, done, field);
        SetAttr(field, otherFields[field]);
        otherFields := otherFields - {field};
      } else {
        SkipStep(attrs0, bag0, providerConfig, done, field);
      }
    }

    /**
     * `__post_init__`: for each declared field, in order, that is a key of the
     * bag and named in the provider's lists, the attribute takes the bag's
     * value and the key is deleted from the bag.
     */
    method PostInit()
      modifies this
      ensures Attrs() == Reconciled(old(Attrs()), old(otherFields), old(providerConfig))
      ensures otherFields == Remaining(old(otherFields), old(providerConfig))
      ensures providerConfig == old(providerConfig)
    {
      ghost var attrs0 := Attrs();
      ghost var bag0 := otherFields;
      var i := 0;
      while i < |StructFields|
        invariant 0 <= i <= |StructFields|
        invariant providerConfig == old(providerConfig)
        invariant Attrs() == AttrsAfter(attrs0, bag0, providerConfig, StructFields[..i])
        invariant otherFields == BagAfter(bag0, providerConfig, StructFields[..i])
      {
        var field := StructFields[i];
        assert StructFields[..i + 1] == StructFields[..i] + [field];
        ConsiderField(field, attrs0, bag0, StructFields[..i]);
        i := i + 1;
      }
      assert StructFields[..i] == StructFields;
      AfterAllFields(attrs0, bag0, providerConfig);
    }
  }

  // ---------------------------------------------------------------------------
  // Properties of the pass
  // ---------------------------------------------------------------------------

  /** The sampler list never triggers a move: only `supported_parameters` can. */
  lemma OnlyParametersMove(field: string, bag: map<string, Json>, pc: ProviderConfig)
    ensures Moves(field, bag, pc) <==> field in ValueFields && field in bag && field in pc.supportedParameters
  {
  }

  /** A key leaves the bag exactly when it moves, and a moved field takes the bag's value. */
  lemma MovedExactly(attrs: map<string, Json>, bag: map<string, Json>, pc: ProviderConfig, f: string)
    requires attrs.Keys == ValueFields
    ensures f in bag && f !in Remaining(bag, pc) <==> Moves(f, bag, pc)
    ensures Moves(f, bag, pc) ==> Reconciled(attrs, bag, pc)[f] == bag[f]
    ensures f in attrs && !Moves(f, bag, pc) ==> Reconciled(attrs, bag, pc)[f] == attrs[f]
  {
  }

  /** The bag only shrinks, and every surviving key keeps its value. */
  lemma BagOnlyShrinks(bag: map<string, Json>, pc: ProviderConfig)
    ensures Remaining(bag, pc).Keys <= bag.Keys
    ensures forall k :: k in Remaining(bag, pc) ==> Remaining(bag, pc)[k] == bag[k]
  {
  }

  /** Keys that name no declared value field (such as `x_custom`) always stay, unchanged. */
  lemma ForeignKeysStay(bag: map<string, Json>, pc: ProviderConfig, k: string)
    requires k in bag && k !in ValueFields
    ensures k in Remaining(bag, pc) && Remaining(bag, pc)[k] == bag[k]
  {
  }

  /** A field the provider does not list stays in the bag, and its attribute keeps its default. */
  lemma UnlistedFieldKeepsDefault(model: Json, prompt: Json, bag: map<string, Json>, pc: ProviderConfig, f: string)
    requires f in bag && f in ValueFields && f !in pc.supportedParameters
    ensures f in Remaining(bag, pc) && Remaining(bag, pc)[f] == bag[f]
    ensures Reconciled(InitialAttrs(model, prompt), bag, pc)[f] == InitialAttrs(model, prompt)[f]
  {
  }

  /** A second pass changes nothing: the moved keys are no longer in the bag. */
  lemma {:induction false} ReconcileIdempotent(attrs: map<string, Json>, bag: map<string, Json>, pc: ProviderConfig)
    ensures Reconciled(Reconciled(attrs, bag, pc), Remaining(bag, pc), pc) == Reconciled(attrs, bag, pc)
    ensures Remaining(Remaining(bag, pc), pc) == Remaining(bag, pc)
  {
    var rest := Remaining(bag, pc);
    forall f | f in rest
      ensures !Moves(f, rest, pc)
    {
      assert !Moves(f, bag, pc);
    }
  }

  /** When the request body itself is the bag, `model` and `prompt` end up as the body's values whatever moves. */
  lemma BodyFieldsSurvive(body: map<string, Json>, pc: ProviderConfig)
    requires "model" in body && "prompt" in body
    ensures Reconciled(InitialAttrs(body["model"], body["prompt"]), body, pc)["model"] == body["model"]
    ensures Reconciled(InitialAttrs(body["model"], body["prompt"]), body, pc)["prompt"] == body["prompt"]
  {
  }

  /**
   * A body `{"temperature": 0.7, "x_custom": 1}` against a provider listing
   * `temperature` among its parameters: temperature moves, `x_custom` stays.
   * Listed among its samplers only, nothing moves.
   */
  lemma ReconcileExample(model: Json, prompt: Json, pc: ProviderConfig)
    requires pc.supportedParameters == ["temperature"]
    ensures var bag := map["temperature" := JNum(0.7), "x_custom" := JNum(1.0)];
            Reconciled(InitialAttrs(model, prompt), bag, pc)["temperature"] == JNum(0.7)
            && Remaining(bag, pc) == map["x_custom" := JNum(1.0)]
    ensures var bag := map["temperature" := JNum(0.7), "x_custom" := JNum(1.0)];
            var samplersOnly := pc.(supportedParameters := [], supportedSamplers := [Temperature]);
            Reconciled(InitialAttrs(model, prompt), bag, samplersOnly)["temperature"] == JNull
            && Remaining(bag, samplersOnly) == bag
  {
    var bag := map["temperature" := JNum(0.7), "x_custom" := JNum(1.0)];
    assert "x_custom" !in ValueFields;
    assert Remaining(bag, pc).Keys == {"x_custom"};
  }
}
