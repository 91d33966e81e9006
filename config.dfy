/**
 * The already-validated configuration: providers, models and the admin secret,
 * with the two by-name lookups every handler uses.
 */
module Config {
  import opened Wrappers

  /** The closed set of backend kinds a provider may declare. */
  datatype AvailableProvider = OpenAICompatible | AnthropicCompatible | LlamaCpp | KoboldCpp {
    /** The enum's wire value, as written in the configuration file. */
    function Value(): string {
      match this
      case OpenAICompatible => "openai"
      case AnthropicCompatible => "anthropic"
      case LlamaCpp => "llama.cpp"
      case KoboldCpp => "kobold.cpp"
    }
  }

  /** The canonical sampler names. */
  datatype AvailableSampler = Temperature | TopP | MinP | RepetitionPenalty {
    function Value(): string {
      match this
      case Temperature => "temperature"
      case TopP => "top_p"
      case MinP => "min_p"
      case RepetitionPenalty => "repetition_penalty"
    }
  }

  datatype ProviderConfig = ProviderConfig(
    name: string,
    providerType: AvailableProvider,
    baseUrl: string,
    apiKey: Option<string>,
    /** Defaults used when a model gives no override of its own. */
    supportedParameters: seq<string>,
    supportedSamplers: seq<AvailableSampler>)

  datatype ModelConfig = ModelConfig(
    /** The name clients request. */
    name: string,
    /** The identifier sent to the backend. */
    modelId: string,
    /** A provider's `name` (not its type). */
    provider: string,
    supportedParameters: Option<seq<string>>,
    supportedSamplers: Option<seq<AvailableSampler>>)

  datatype ProxyConfig = ProxyConfig(adminKey: string)

  datatype LookupError = ModelNotFound(model: string) | ProviderNotFound(provider: string)

  /** A provider configuration with every optional field left at its default. */
  function NewProviderConfig(name: string, providerType: AvailableProvider, baseUrl: string): (p: ProviderConfig)
    ensures p.name == name && p.providerType == providerType && p.baseUrl == baseUrl
    ensures p.apiKey == None
    ensures p.supportedParameters == [] && p.supportedSamplers == []
  {
    ProviderConfig(name, providerType, baseUrl, None, [], [])
  }

  /** A model configuration with no overrides. */
  function NewModelConfig(name: string, modelId: string, provider: string): (m: ModelConfig)
    ensures m.name == name && m.modelId == modelId && m.provider == provider
    ensures m.supportedParameters == None && m.supportedSamplers == None
  {
    ModelConfig(name, modelId, provider, None, None)
  }

  /**
   * Index of the first entry equal to `name`, scanning from the front as the
   * for-loops of `get_model` and `get_provider` do.
   */
  function FindName(names: seq<string>, name: string): (r: Option<nat>)
    ensures r.Some? ==> r.value < |names| && names[r.value] == name
    ensures r.Some? ==> forall j :: 0 <= j < r.value ==> names[j] != name
    ensures r.None? <==> forall j :: 0 <= j < |names| ==> names[j] != name
  {
    if names == [] then None
    else if names[0] == name then Some(0)
    else
      match FindName(names[1..], name)
      case None => None
      case Some(i) => Some(i + 1)
  }

  datatype Config = Config(proxy: ProxyConfig, providers: seq<ProviderConfig>, models: seq<ModelConfig>) {

    /** `Config.get_model`: the first model whose name matches; fails exactly when none does. */
    function GetModel(name: string): (r: Result<ModelConfig, LookupError>)
      ensures r.Success? ==> r.value.name == name
      ensures r.Success? ==> exists i :: 0 <= i < |models| && models[i] == r.value
                               && forall j :: 0 <= j < i ==> models[j].name != name
      ensures r.Failure? <==> forall m :: m in models ==> m.name != name
      ensures r.Failure? ==> r.error == ModelNotFound(name)
    {
      var names := seq(|models|, i requires 0 <= i < |models| => models[i].name);
      match FindName(names, name)
      case Some(i) =>
        assert forall j :: 0 <= j < i ==> models[j].name != name by {
          forall j | 0 <= j < i ensures models[j].name != name {
            assert names[j] == models[j].name;
          }
        }
        Success(models[i])
      case None =>
        assert forall m :: m in models ==> m.name != name by {
          forall m | m in models ensures m.name != name {
            var j :| 0 <= j < |models| && models[j] == m;
            assert names[j] == m.name;
          }
        }
        Failure(ModelNotFound(name))
    }

    /** `Config.get_provider`: looked up by provider name, never by type; fails exactly when no name matches. */
    function GetProvider(name: string): (r: Result<ProviderConfig, LookupError>)
      ensures r.Success? ==> r.value.name == name
      ensures r.Success? ==> exists i :: 0 <= i < |providers| && providers[i] == r.value
                               && forall j :: 0 <= j < i ==> providers[j].name != name
      ensures r.Failure? <==> forall p :: p in providers ==> p.name != name
      ensures r.Failure? ==> r.error == ProviderNotFound(name)
    {
      var names := seq(|providers|, i requires 0 <= i < |providers| => providers[i].name);
      match FindName(names, name)
      case Some(i) =>
        assert forall j :: 0 <= j < i ==> providers[j].name != name by {
          forall j | 0 <= j < i ensures providers[j].name != name {
            assert names[j] == providers[j].name;
          }
        }
        Success(providers[i])
      case None =>
        assert forall p :: p in providers ==> p.name != name by {
          forall p | p in providers ensures p.name != name {
            var j :| 0 <= j < |providers| && providers[j] == p;
            assert names[j] == p.name;
          }
        }
        Failure(ProviderNotFound(name))
    }
  }

  /** Model `i` is the first whose provider is not configured. */
  predicate FirstUnresolved(c: Config, i: nat) {
    && i < |c.models|
    && (forall j :: 0 <= j < i ==> c.GetProvider(c.models[j].provider).Success?)
    && c.GetProvider(c.models[i].provider).Failure?
  }

  /** With duplicate names, the lookup returns the one listed first. */
  lemma GetModelFirstWins(c: Config, i: nat, j: nat)
    requires i < j < |c.models| && c.models[i].name == c.models[j].name
    requires forall k :: 0 <= k < i ==> c.models[k].name != c.models[i].name
    ensures c.GetModel(c.models[j].name) == Success(c.models[i])
  {
    var name := c.models[j].name;
    var r := c.GetModel(name);
    assert r.Success? by { assert c.models[j] in c.models; }
    var k :| 0 <= k < |c.models| && c.models[k] == r.value
                && forall l :: 0 <= l < k ==> c.models[l].name != name;
    // Both indices carry the name, and each is the first such: they coincide.
    assert c.models[i].name == name && c.models[k].name == name;
  }
}
