/**
 * A provider instance: the configuration it was built over and the
 * authorization header it sends with every backend call.
 */
module Providers {
  import opened Wrappers
  import opened Text
  import opened JsonValues
  import opened Config
  import opened Slut
  import OpenAIAdapter

  /** The headers of every backend call: one `Authorization: Bearer <key>` header when the key is truthy, none otherwise. */
  function AuthHeaderMap(config: ProviderConfig): (headers: map<string, string>)
    ensures forall k :: k in headers ==> k == "Authorization"
    ensures "Authorization" in headers <==> config.apiKey.Some? && config.apiKey.value != ""
    ensures "Authorization" in headers ==> headers["Authorization"] == "Bearer " + config.apiKey.value
  {
    if config.apiKey.Some? && config.apiKey.value != "" then map["Authorization" := "Bearer " + config.apiKey.value]
    else map[]
  }

  /** The provider for OpenAI-compatible backends (the HTTP client it also holds is not modelled). */
  class OpenAIProvider {
    const config: ProviderConfig

    /** Stores the given configuration unchanged. */
    constructor (config: ProviderConfig)
      ensures this.config == config
    {
      this.config := config;
    }

    /** `_get_auth_headers`: builds the header dict entry by entry. */
    method AuthHeaders() returns (headers: map<string, string>)
      ensures headers == AuthHeaderMap(config)
    {
      headers := map[];
      if config.apiKey.Some? && config.apiKey.value != "" {
        headers := headers["Authorization" := "Bearer " + config.apiKey.value];
      }
    }

    /**
     * `prepare_request`: starts from the backend model id and the prompt, then
     * adds each present sampler and the stop sequences when they are truthy.
     */
    method PrepareRequest(model: ModelConfig, request: TextGenerationRequest) returns (payload: OpenAIAdapter.Payload)
      ensures payload == OpenAIAdapter.PrepareRequest(model, request)
    {
      var base := map["model" := JStr(model.modelId), "prompt" := request.prompt];
      payload := base;
      if request.samplers.Some? {
        var samplers := request.samplers.value;
        if samplers.temperature != JNull {
          payload := payload["temperature" := samplers.temperature];
        }
        if samplers.topP != JNull {
          payload := payload["top_p" := samplers.topP];
        }
        if samplers.minP != JNull {
          payload := payload["min_p" := samplers.minP];
        }
        if samplers.repetitionPenalty != JNull {
          payload := payload["repetition_penalty" := samplers.repetitionPenalty];
        }
      }
      if Truthy(request.stopSequences) {
        payload := payload["stop" := request.stopSequences];
      }
      OpenAIAdapter.PrepareRequestUnique(model, request, payload);
    }
  }

  /** The header a provider sends starts with `Bearer ` and is followed by the key itself. */
  lemma AuthHeaderCarriesKey(key: string)
    ensures StartsWith("Bearer " + key, "Bearer ") && ("Bearer " + key)[7..] == key
  {
    assert ("Bearer " + key)[..7] == "Bearer ";
  }
}
