/**
 * The canonical, provider-agnostic request and response types, and the model
 * metadata served by the native protocol.
 */
module Slut {
  import opened Wrappers
  import opened JsonValues
  import opened Config

  /** Metadata describing one served model. */
  datatype ModelMetadata = ModelMetadata(
    name: string,
    provider: string,
    supportedParameters: seq<string>,
    supportedSamplers: seq<AvailableSampler>)

  /** Python truthiness of an optional list override: `None` and `[]` are both false. */
  predicate Overrides<T>(o: Option<seq<T>>) {
    o.Some? && o.value != []
  }

  /**
   * `ModelMetadata.from_model_config`: name and provider come from the model; each
   * supported list is the model's override when that is non-empty, else the provider's.
   */
  function FromModelConfig(model: ModelConfig, provider: ProviderConfig): (r: ModelMetadata)
    ensures r.name == model.name && r.provider == model.provider
    ensures Overrides(model.supportedParameters) ==> r.supportedParameters == model.supportedParameters.value
    ensures !Overrides(model.supportedParameters) ==> r.supportedParameters == provider.supportedParameters
    ensures Overrides(model.supportedSamplers) ==> r.supportedSamplers == model.supportedSamplers.value
    ensures !Overrides(model.supportedSamplers) ==> r.supportedSamplers == provider.supportedSamplers
  {
    ModelMetadata(
      model.name,
      model.provider,
      if Overrides(model.supportedParameters) then model.supportedParameters.value else provider.supportedParameters,
      if Overrides(model.supportedSamplers) then model.supportedSamplers.value else provider.supportedSamplers)
  }

  /** Each resulting list is one of the two inputs as a whole, never a merge of them. */
  lemma MetadataListsNeverMerge(model: ModelConfig, provider: ProviderConfig)
    ensures var r := FromModelConfig(model, provider);
            (Some(r.supportedParameters) == model.supportedParameters || r.supportedParameters == provider.supportedParameters)
            && (Some(r.supportedSamplers) == model.supportedSamplers || r.supportedSamplers == provider.supportedSamplers)
  {
  }

  /** An empty override `[]` falls back exactly as an absent one does. */
  lemma EmptyOverrideIsNoOverride(model: ModelConfig, provider: ProviderConfig)
    ensures FromModelConfig(model.(supportedParameters := Some([])), provider)
            == FromModelConfig(model.(supportedParameters := None), provider)
    ensures FromModelConfig(model.(supportedSamplers := Some([])), provider)
            == FromModelConfig(model.(supportedSamplers := None), provider)
  {
  }

  /** The three-way classification of why generation ended. */
  datatype StopReason = EndOfGeneration | MaxTokens | Error {
    /** The wire value of the reason. */
    function Value(): (v: string)
      ensures v != []
    {
      match this
      case EndOfGeneration => "end_of_generation_reached"
      case MaxTokens => "max_tokens_reached"
      case Error => "error"
    }
  }

  /** Distinct reasons have distinct wire values. */
  lemma StopReasonValuesDistinct(a: StopReason, b: StopReason)
    ensures a.Value() == b.Value() <==> a == b
  {
    if a != b {
      assert a.Value()[0] != b.Value()[0] || a.Value()[1] != b.Value()[1];
    }
  }

  /**
   * Canonical sampler settings. Each value is kept exactly as it arrived;
   * `JNull` is the source's `None`, the default of every field.
   */
  datatype Samplers = Samplers(temperature: Json, topP: Json, minP: Json, repetitionPenalty: Json)

  /** `Samplers()`: every field independently absent. */
  function NoSamplers(): (s: Samplers)
    ensures s.temperature == JNull && s.topP == JNull && s.minP == JNull && s.repetitionPenalty == JNull
  {
    Samplers(JNull, JNull, JNull, JNull)
  }

  /**
   * The canonical request. `prompt` is text or a token list and `stopSequences`
   * a list (or `JNull`), held as the raw values the constructor received.
   */
  datatype TextGenerationRequest = TextGenerationRequest(
    prompt: Json,
    model: string,
    samplers: Option<Samplers>,
    stopSequences: Json)

  /** A request with the optional fields at their defaults. */
  function NewTextGenerationRequest(prompt: Json, model: string): (r: TextGenerationRequest)
    ensures r.prompt == prompt && r.model == model
    ensures r.samplers == None && r.stopSequences == JNull
  {
    TextGenerationRequest(prompt, model, None, JNull)
  }

  datatype TextGenerationResponse = TextGenerationResponse(text: string, stopReason: StopReason)
}
