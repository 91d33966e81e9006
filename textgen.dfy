/**
 * The native generation route: lookups, the inclusive permission rule, the
 * choice between the buffered and the streaming reply by the `Accept`
 * header, and the backend call the provider then makes.
 */
module TextGenRoutes {
  import opened Wrappers
  import opened JsonValues
  import opened Text
  import opened Config
  import opened Slut
  import opened Auth
  import opened OpenAIAdapter
  import opened ProviderFactory
  import Providers

  datatype GenerateError =
    | UnknownModel(model: string)
    | UnknownProvider(provider: string)
    | Forbidden(denial: Denial)   // answered with status 403
    | UnsupportedProvider(providerType: AvailableProvider)

  /** The backend call an accepted request leads to. */
  datatype BackendCall = BackendCall(
    modelConfig: ModelConfig,
    providerConfig: ProviderConfig,
    url: string,
    headers: map<string, string>,
    payload: Payload,
    stream: bool)

  const DefaultAccept := "application/json"
  const EventStream := "text/event-stream"

  /** The `Accept` header, `application/json` when the client sent none. */
  function AcceptHeader(accept: Option<string>): (h: string)
    ensures accept.Some? ==> h == accept.value
    ensures accept.None? ==> h == DefaultAccept
  {
    accept.GetOr(DefaultAccept)
  }

  /** Streaming is chosen when `text/event-stream` occurs anywhere in the header. */
  predicate WantsStream(accept: Option<string>) {
    Contains(AcceptHeader(accept), EventStream)
  }

  /** The completion endpoint of the backend. */
  function CompletionsUrl(provider: ProviderConfig): (url: string)
    ensures StartsWith(url, provider.baseUrl)
    ensures url[|provider.baseUrl|..] == "/completions"
  {
    provider.baseUrl + "/completions"
  }

  /** `generate`: model lookup, provider lookup, permissions, adapter selection, then the backend call. */
  function Generate(config: Config, request: TextGenerationRequest, accept: Option<string>,
                    perms: Option<Permissions>): (r: Result<BackendCall, GenerateError>)
    ensures config.GetModel(request.model).Failure? ==> r == Failure(UnknownModel(request.model))
    ensures config.GetModel(request.model).Success? && config.GetProvider(config.GetModel(request.model).value.provider).Failure?
            ==> r == Failure(UnknownProvider(config.GetModel(request.model).value.provider))
    ensures config.GetModel(request.model).Success? && config.GetProvider(config.GetModel(request.model).value.provider).Success?
            && Authorize(perms, request.model, config.GetModel(request.model).value.provider).Some?
            ==> r == Failure(Forbidden(Authorize(perms, request.model, config.GetModel(request.model).value.provider).value))
    ensures config.GetModel(request.model).Success? && config.GetProvider(config.GetModel(request.model).value.provider).Success?
            && Authorize(perms, request.model, config.GetModel(request.model).value.provider).None?
            && !Supports(config.GetProvider(config.GetModel(request.model).value.provider).value)
            ==> r == Failure(UnsupportedProvider(config.GetProvider(config.GetModel(request.model).value.provider).value.providerType))
    ensures r.Success? <==>
              && config.GetModel(request.model).Success?
              && config.GetProvider(config.GetModel(request.model).value.provider).Success?
              && Authorize(perms, request.model, config.GetModel(request.model).value.provider).None?
              && Supports(config.GetProvider(config.GetModel(request.model).value.provider).value)
    ensures r.Success? ==>
              && r.value.modelConfig == config.GetModel(request.model).value
              && r.value.providerConfig == config.GetProvider(r.value.modelConfig.provider).value
              && r.value.stream == WantsStream(accept)
              && r.value.url == CompletionsUrl(r.value.providerConfig)
              && r.value.headers == Providers.AuthHeaderMap(r.value.providerConfig)
              && r.value.payload == BackendPayload(r.value.modelConfig, request, r.value.stream)
    ensures r.Failure? && r.error.Forbidden? ==> Authorize(perms, request.model, config.GetModel(request.model).value.provider) == Some(r.error.denial)
  {
    var stream := WantsStream(accept);
    match config.GetModel(request.model)
    case Failure(_) => Failure(UnknownModel(request.model))
    case Success(modelConfig) =>
      match config.GetProvider(modelConfig.provider)
      case Failure(_) => Failure(UnknownProvider(modelConfig.provider))
      case Success(providerConfig) =>
        match Authorize(perms, request.model, modelConfig.provider)
        case Some(denial) => Failure(Forbidden(denial))
        case None =>
          if !Supports(providerConfig) then Failure(UnsupportedProvider(providerConfig.providerType))
          else Success(BackendCall(modelConfig, providerConfig, CompletionsUrl(providerConfig),
                                   Providers.AuthHeaderMap(providerConfig), BackendPayload(modelConfig, request, stream), stream))
  }

  /**
   * The 403 rule, both ways: for a model and provider that resolve, the
   * answer is `Forbidden` exactly when no permissions are attached or
   * neither the model nor its provider is allowed.
   */
  lemma GenerateForbiddenIff(config: Config, request: TextGenerationRequest, accept: Option<string>,
                             perms: Option<Permissions>)
    requires config.GetModel(request.model).Success?
    requires config.GetProvider(config.GetModel(request.model).value.provider).Success?
    ensures var r := Generate(config, request, accept, perms);
            var provider := config.GetModel(request.model).value.provider;
            (r.Failure? && r.error.Forbidden?)
            <==> (perms.None? || (request.model !in perms.value.allowedModels && provider !in perms.value.allowedProviders))
  {
    var provider := config.GetModel(request.model).value.provider;
    var d := Authorize(perms, request.model, provider);
    assert d.Some? <==> (perms.None? || (request.model !in perms.value.allowedModels && provider !in perms.value.allowedProviders));
  }

  /** Permissions come before adapter selection: a denied request to an unsupported provider is still a 403. */
  lemma DeniedBeforeUnsupported(config: Config, request: TextGenerationRequest, accept: Option<string>)
    requires config.GetModel(request.model).Success?
    requires config.GetProvider(config.GetModel(request.model).value.provider).Success?
    requires !Supports(config.GetProvider(config.GetModel(request.model).value.provider).value)
    ensures Generate(config, request, accept, None) == Failure(Forbidden(NoPermissions))
  {
  }

  /** Without an `Accept` header the reply is buffered JSON. */
  lemma NoAcceptMeansBuffered()
    ensures !WantsStream(None)
  {
    assert AcceptHeader(None) == DefaultAccept;
    assert |DefaultAccept| < |EventStream|;
  }

  /** A header that mentions `text/event-stream` among other types still selects streaming. */
  lemma EventStreamAnywhereStreams(before: string, after: string)
    ensures WantsStream(Some(before + EventStream + after))
  {
    var h := before + EventStream + after;
    assert h[|before|..][..|EventStream|] == EventStream;
    assert OccursAt(h, EventStream, |before|);
  }

  /** Lookups come before permissions: an unknown model fails the same way whatever key was used. */
  lemma UnknownModelIgnoresPermissions(config: Config, request: TextGenerationRequest, accept: Option<string>,
                                       perms1: Option<Permissions>, perms2: Option<Permissions>)
    requires forall m :: m in config.models ==> m.name != request.model
    ensures Generate(config, request, accept, perms1) == Generate(config, request, accept, perms2)
  {
  }

  /** A key that allows only the provider still reaches every model of that provider. */
  lemma ProviderGrantCoversItsModels(config: Config, request: TextGenerationRequest, accept: Option<string>, perms: Permissions)
    requires config.GetModel(request.model).Success?
    requires config.GetModel(request.model).value.provider in perms.allowedProviders
    ensures !(Generate(config, request, accept, Some(perms)).Failure? && Generate(config, request, accept, Some(perms)).error.Forbidden?)
  {
  }

  /** The streaming call differs from the buffered one only in its `"stream": true` flag. */
  lemma StreamingChangesOnlyTheFlag(config: Config, request: TextGenerationRequest, perms: Option<Permissions>)
    requires Generate(config, request, None, perms).Success?
    ensures var buffered := Generate(config, request, None, perms).value;
            var streaming := Generate(config, request, Some(EventStream), perms).value;
            && !buffered.stream && streaming.stream
            && streaming.payload == buffered.payload["stream" := JBool(true)]
  {
    NoAcceptMeansBuffered();
    EventStreamAnywhereStreams("", "");
    assert "" + EventStream + "" == EventStream;
  }
}
