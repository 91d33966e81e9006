/** The native model-metadata routes. */
module ModelRoutes {
  import opened Wrappers
  import opened Config
  import opened Slut

  /**
   * `list_models`: the metadata of every configured model, in configuration
   * order; the first model whose provider is not configured fails the call.
   */
  method ListModels(config: Config) returns (r: Result<seq<ModelMetadata>, LookupError>)
    ensures r.Success? <==> forall i :: 0 <= i < |config.models| ==> config.GetProvider(config.models[i].provider).Success?
    ensures r.Success? ==> Lists(config, r.value, |config.models|)
    ensures r.Failure? ==>
              exists i | 0 <= i < |config.models| :: FirstUnresolved(config, i) && r.error == ProviderNotFound(config.models[i].provider)
  {
    var metadatas: seq<ModelMetadata> := [];
    for i := 0 to |config.models|
      invariant Lists(config, metadatas, i)
    {
      var model := config.models[i];
      var provider := config.GetProvider(model.provider);
      if provider.Failure? {
        r := Failure(provider.error);
        assert FirstUnresolved(config, i);
        return;
      }
      metadatas := metadatas + [FromModelConfig(model, provider.value)];
    }
    return Success(metadatas);
  }

  /**
   * `metadatas` holds, for each of the first `n` models, its metadata
   * completed from its provider's configuration, in configuration order.
   */
  predicate Lists(config: Config, metadatas: seq<ModelMetadata>, n: nat) {
    && n <= |config.models|
    && |metadatas| == n
    && forall j :: 0 <= j < n ==>
         && config.GetProvider(config.models[j].provider).Success?
         && metadatas[j] == FromModelConfig(config.models[j], config.GetProvider(config.models[j].provider).value)
  }

  /** `get_model`: the metadata of the named model, or the lookup failure that the handler raises. */
  function GetModelMetadata(config: Config, name: string): (r: Result<ModelMetadata, LookupError>)
    ensures (forall m :: m in config.models ==> m.name != name) <==> r == Failure(ModelNotFound(name))
    ensures config.GetModel(name).Success? && config.GetProvider(config.GetModel(name).value.provider).Failure?
            ==> r == Failure(ProviderNotFound(config.GetModel(name).value.provider))
    ensures r.Success? ==> r.value.name == name
    ensures r.Success? ==>
              && config.GetModel(name).Success?
              && config.GetProvider(config.GetModel(name).value.provider).Success?
              && r.value == FromModelConfig(config.GetModel(name).value, config.GetProvider(config.GetModel(name).value.provider).value)
  {
    match config.GetModel(name)
    case Failure(e) => Failure(e)
    case Success(model) =>
      match config.GetProvider(model.provider)
      case Failure(e) => Failure(e)
      case Success(provider) => Success(FromModelConfig(model, provider))
  }

  /**
   * The single-model route agrees with the list for every model that is the
   * first of its name: the list entry is what the lookup by name returns.
   */
  lemma ListedEntryMatchesLookup(config: Config, i: nat)
    requires i < |config.models|
    requires forall j :: 0 <= j < i ==> config.models[j].name != config.models[i].name
    requires config.GetProvider(config.models[i].provider).Success?
    ensures GetModelMetadata(config, config.models[i].name)
            == Success(FromModelConfig(config.models[i], config.GetProvider(config.models[i].provider).value))
  {
    assert config.models[i] in config.models;
  }
}
