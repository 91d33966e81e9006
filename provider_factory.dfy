/** Selection of the adapter for a provider configuration, by its type tag alone. */
module ProviderFactory {
  import opened Wrappers
  import opened Config
  import opened Providers

  datatype FactoryError = UnsupportedProviderType(providerType: AvailableProvider)

  /** Whether an adapter exists for the configuration: its type's wire value is `"openai"`. */
  predicate Supports(config: ProviderConfig)
    ensures Supports(config) <==> config.providerType == OpenAICompatible
  {
    config.providerType.Value() == "openai"
  }

  /** Two configurations of the same type are either both supported or both refused. */
  lemma SupportDependsOnlyOnType(a: ProviderConfig, b: ProviderConfig)
    requires a.providerType == b.providerType
    ensures Supports(a) == Supports(b)
  {
  }

  /**
   * `create_provider`: a fresh OpenAI provider over the same configuration for
   * type `openai`, an unsupported-type failure for every other type. No
   * registry is kept, so each call decides anew.
   */
  method CreateProvider(config: ProviderConfig) returns (r: Result<OpenAIProvider, FactoryError>)
    ensures r.Success? <==> config.providerType == OpenAICompatible
    ensures r.Success? ==> fresh(r.value) && r.value.config == config
    ensures r.Failure? ==> r.error == UnsupportedProviderType(config.providerType)
  {
    if config.providerType.Value() == "openai" {
      var provider := new OpenAIProvider(config);
      r := Success(provider);
    } else {
      r := Failure(UnsupportedProviderType(config.providerType));
    }
  }
}
