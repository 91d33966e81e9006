# slut-proxy core, modelled in Dafny

slut-proxy is an HTTP proxy in front of text-generation backends. Clients
call either a native API (`/v2/generate`, `/v2/models`) or an
OpenAI-compatible one (`/v1/completions`, `/v1/models`). The proxy:

- checks the caller's bearer key against a table of hashed API keys;
- resolves the requested model and its provider from the configuration;
- allows the call when the key allows the model OR its provider;
- translates the request into a canonical text-generation request;
- hands it to a provider adapter, which builds the backend payload, reads the
  backend's reply, and relays its stream of server-sent events.

That is the design the handlers implement. As the code stands, the app
mounts only `/v2` with the model-metadata routes (`routes/__init__.py:8`,
`routes/slut/__init__.py:8`), and `app.py:25` installs no middleware. So
`/v2/generate`, both `/v1` routes and `/v2/admin` are not registered, and
`AuthMiddleware` never runs. The model covers these handlers and the
middleware as they are defined, not as they are wired.

The model covers:

- the configuration lookups;
- the model-metadata fallback rule;
- the compat request struct and its field-reconciliation pass;
- the OpenAI adapter: payload, reply parsing and the stream relay;
- the provider base class and the factory;
- the authentication middleware;
- the three route modules.

Modules follow the source files:

- `config.dfy`: `models/config.py`
- `slut.dfy`: `models/slut.py`
- `compat.dfy`: `models/compat.py`
- `openai_adapter.dfy`: `providers/openai.py`
- `providers.dfy`: `providers/__init__.py`
- `provider_factory.dfy`: `providers/factory.py`
- `auth.dfy`: `middleware/auth.py`
- `openai_routes.dfy`: `routes/openai.py`
- `textgen.dfy`: `routes/slut/textgen.py`
- `model_routes.dfy`: `routes/slut/models.py`
- `wrappers.dfy`, `json.dfy` and `text.dfy` hold `Option`/`Result`, JSON
  values with Python truthiness, and the string helpers: prefix and
  substring tests, and `str.split()`.

Modelling choices:

- JSON values are the `Json` datatype, and `JNull` stands for Python `None`.
  msgspec does not validate `Struct` attributes on construction or `setattr`,
  so the compat struct's attributes hold raw `Json` values.
- The raised exceptions are `Failure` values of a `Result`: `KeyError`,
  the lookup `Exception`, `IndexError` and the factory's `ValueError`.
- SHA-256, `json.loads`/`json.dumps`, `str()`, the uuid and the clock are
  parameters of the members that use them.
- The backend's stream is a finite sequence of lines.
- State that the source updates in place is a class:
  - `OpenAICompletionRequest`: `__post_init__` moves fields out of the
    `other_fields` dict.
  - `RequestState`: the middleware writes `api_key_permissions`.
  - `OpenAIProvider`: holds the stored config.
  - `AuthMiddleware`: holds the admin key.
- Loops become methods proved against specification functions:
  - `RelayStream` against `Relay`;
  - `PostInit` against `Reconciled` and `Remaining`;
  - `StreamCompletion` against `CompatStream`;
  - `ListModels` and `GetModels` against `FromModelConfig` and the lookups.
- Step-by-step code without a loop is a method proved against a function
  too: `CreateCompletion` against `CompletionSpec`, `ToTextGenerationRequest`
  against `Canonical`, and the provider's `PrepareRequest` and `AuthHeaders`
  against the functions of the same meaning.

Three points where the code behaves differently from what its names and comments suggest; the model follows the code:

- **Sampler reconciliation.** `__post_init__` tests
  `field in provider_config.supported_samplers`. That list holds
  `AvailableSampler` enum members, and a `str` never equals an `Enum`
  member, so only `supported_parameters` can move a field. A provider that
  lists `temperature` only among its samplers does not get `temperature`
  moved: it stays in `other_fields`. `Compat.OnlyParametersMove` and `Compat.ReconcileExample` state the
  behaviour as written.
- **Unknown model.** No route answers an unknown model or provider with a
  4xx reply of its own, `GET /models/{name}` included.
  The code raises a plain exception from `Config.get_model` /
  `get_provider`. The model returns that failure as `ModelNotFound` /
  `ProviderNotFound`, with no status code.
- **Empty `choices` list.** `parse_response` indexes `choices[0]`, so a
  reply with an empty `choices` list raises. The model returns `Failure(NoChoices)` there. An
  unrecognised finish reason still maps to `Error`.

## Model

| member | source | states |
|---|---|---|
| Config.NewProviderConfig | src/slut_proxy/models/config.py:18-27 | a provider config built from name, type and base URL has no API key and empty supported lists |
| Config.NewModelConfig | src/slut_proxy/models/config.py:29-35 | a model config built from name, model id and provider has no overrides (`None`) |
| Config.FindName | src/slut_proxy/models/config.py:49-59 | the index found holds the name and no earlier entry does; nothing is found exactly when no entry is the name |
| Config.Config.GetModel | src/slut_proxy/models/config.py:49-53 | the model returned has the requested name and is the first with it; the lookup fails exactly when no model has the name, with `ModelNotFound(name)` |
| Config.Config.GetProvider | src/slut_proxy/models/config.py:55-59 | lookup by `ProviderConfig.name` (never by type): first match, failing exactly when no provider has the name, with `ProviderNotFound(name)` |
| Config.GetModelFirstWins | src/slut_proxy/models/config.py:50-52 | with duplicate names, a lookup by the later model's name returns the first model of that name |
| Slut.FromModelConfig | src/slut_proxy/models/slut.py:31-37 | name and provider come from the model config; each supported list is the model's override when it is non-empty, else the provider's |
| Slut.MetadataListsNeverMerge | src/slut_proxy/models/slut.py:35-36 | each resulting list is one of the two input lists as a whole |
| Slut.EmptyOverrideIsNoOverride | src/slut_proxy/models/slut.py:35-36 | an empty override `[]` falls back to the provider exactly as `None` does |
| Slut.StopReason.Value | src/slut_proxy/models/slut.py:39-42 | each stop reason has a non-empty wire value |
| Slut.StopReasonValuesDistinct | src/slut_proxy/models/slut.py:39-42 | the three wire values are pairwise distinct: equal values mean equal reasons |
| Slut.NoSamplers | src/slut_proxy/models/slut.py:44-48 | every sampler field defaults to `None` |
| Slut.NewTextGenerationRequest | src/slut_proxy/models/slut.py:50-54 | a request built from prompt and model has no samplers and no stop sequences |
| Compat.NewOpenAIModel | src/slut_proxy/models/compat.py:19-23 | the model entry carries the given id and owner, object `"model"` and creation time 1000166400 |
| Compat.NewCompletionChoice | src/slut_proxy/models/compat.py:31-35 | a choice carries the given text, index and finish reason, with `logprobs` `None` |
| Compat.InitialAttrs | src/slut_proxy/models/compat.py:53-67 | the struct's attributes before reconciliation are exactly the nine value fields |
| Compat.MoveStep | src/slut_proxy/models/compat.py:71-73 | considering a field that is in the bag, supported and a value field sets the attribute to the bag's value and removes the key |
| Compat.SkipStep | src/slut_proxy/models/compat.py:71 | considering any other field changes neither the attributes nor the bag |
| Compat.AfterAllFields | src/slut_proxy/models/compat.py:69-73 | after all declared fields are considered, attributes and bag are the reconciled attributes and the remaining bag |
| Compat.OpenAICompletionRequest.Attrs | src/slut_proxy/models/compat.py:53-67 | the value attributes of the struct are exactly the nine value fields |
| Compat.OpenAICompletionRequest.constructor | src/slut_proxy/models/compat.py:53-73 | construction followed by `__post_init__` leaves the reconciled attributes, the remaining bag and the given provider config |
| Compat.OpenAICompletionRequest.SetAttr | src/slut_proxy/models/compat.py:72 | `setattr` changes the named attribute only, and nothing else |
| Compat.OpenAICompletionRequest.ConsiderField | src/slut_proxy/models/compat.py:71-73 | one iteration of the reconciliation loop advances the state by one declared field |
| Compat.OpenAICompletionRequest.PostInit | src/slut_proxy/models/compat.py:69-73 | the loop over the declared fields leaves the reconciled attributes and the remaining bag, in place |
| Compat.OnlyParametersMove | src/slut_proxy/models/compat.py:70-71 | a field moves exactly when it is a value field, a key of the bag and listed in `supported_parameters`; the sampler list never matches a field name |
| Compat.MovedExactly | src/slut_proxy/models/compat.py:70-73 | a key leaves the bag exactly when its field moves; a moved attribute takes the bag's value, and every other attribute keeps its prior value |
| Compat.BagOnlyShrinks | src/slut_proxy/models/compat.py:73 | the remaining bag's keys are a subset of the original ones, and surviving values are unchanged |
| Compat.ForeignKeysStay | src/slut_proxy/models/compat.py:70 | a bag key that is not a struct field always stays, with its value |
| Compat.UnlistedFieldKeepsDefault | src/slut_proxy/models/compat.py:58-71 | an unlisted field stays in the bag and its attribute keeps its default |
| Compat.ReconcileIdempotent | src/slut_proxy/models/compat.py:69-73 | a second pass over the result changes neither the attributes nor the bag |
| Compat.BodyFieldsSurvive | src/slut_proxy/models/compat.py:54-72 | after reconciliation over the request body, `model` and `prompt` still hold the body's values |
| Compat.ReconcileExample | src/slut_proxy/models/compat.py:69-73 | with `temperature` in `supported_parameters` it moves and `x_custom` stays; listed only among the samplers, nothing moves |
| OpenAIAdapter.SamplerEntries | src/slut_proxy/providers/openai.py:36-44 | the sampler entries are exactly the present samplers under their backend keys, with their values |
| OpenAIAdapter.PrepareRequest | src/slut_proxy/providers/openai.py:26-49 | the payload sets `model` to the backend model id and copies the prompt; a sampler key appears exactly when that sampler is present, with its value; `stop` appears exactly when the stop sequences are truthy, verbatim; `stream` never appears |
| OpenAIAdapter.PrepareRequestUnique | src/slut_proxy/providers/openai.py:26-49 | those properties determine the payload completely |
| Providers.OpenAIProvider.PrepareRequest | src/slut_proxy/providers/openai.py:26-49 | filling the dict step by step yields exactly the payload `PrepareRequest` specifies |
| OpenAIAdapter.BackendPayload | src/slut_proxy/providers/openai.py:82-86 | the streaming path adds `"stream": true` and leaves every other key as prepared; the buffered path sends the prepared payload |
| OpenAIAdapter.StopReasonOf | src/slut_proxy/providers/openai.py:57-63 | `"length"` gives max tokens and `"stop"` gives end of generation; anything else gives error |
| OpenAIAdapter.ParseResponse | src/slut_proxy/providers/openai.py:51-65 | the first choice's text (default `""`) and mapped finish reason (default `"stop"`); a reply without `choices` reads as empty text ending normally; an empty `choices` list fails |
| OpenAIAdapter.EventFrame | src/slut_proxy/providers/openai.py:109-122 | a frame is `event: <name>` and a newline, then `data: ` followed by exactly the dumped payload, then a blank line |
| OpenAIAdapter.ChunkDelta | src/slut_proxy/providers/openai.py:112-117 | a delta is produced only with non-empty text |
| OpenAIAdapter.RelayStream | src/slut_proxy/providers/openai.py:97-124 | the relay loop with its accumulator and `break` emits exactly the events `Relay` specifies |
| OpenAIAdapter.PrependChunkWellFormed | src/slut_proxy/providers/openai.py:114-118 | a chunk emitted before well-formed output keeps the output well formed relative to the accumulator before it |
| OpenAIAdapter.RelayFromWellFormed | src/slut_proxy/providers/openai.py:97-124 | every chunk carries non-empty text; a `done` event only comes last, ends normally, and carries the accumulator followed by every earlier chunk |
| OpenAIAdapter.RelayDoneTextIsConcatenation | src/slut_proxy/providers/openai.py:101-117 | from the start of a stream, the `done` event is the last one and its text is the concatenation of all chunk texts |
| OpenAIAdapter.DoneLineIsDoneData | src/slut_proxy/providers/openai.py:99-101 | a line is the `[DONE]` marker exactly when it is `data: [DONE]` |
| OpenAIAdapter.RelayFromDoneIff | src/slut_proxy/providers/openai.py:99-110 | the events end with `done` exactly when a `data: [DONE]` line occurs, from any accumulator |
| OpenAIAdapter.RelayDoneIff | src/slut_proxy/providers/openai.py:99-110 | the relay ends with `done` exactly when the stream contains `data: [DONE]`; without it, no `done` |
| OpenAIAdapter.RelayIgnoresLine | src/slut_proxy/providers/openai.py:99-124 | a line without the `data: ` prefix, or whose payload is not `[DONE]` and does not decode or has no non-empty delta, can be removed without changing the events |
| OpenAIAdapter.RelayStopsAtDone | src/slut_proxy/providers/openai.py:101-110 | whatever follows `data: [DONE]` has no effect |
| OpenAIAdapter.RelayExample | src/slut_proxy/providers/openai.py:97-124 | the chunks `Hel` and `lo` around an undecodable line give two chunk events and a `done` with `Hello` |
| Providers.OpenAIProvider.constructor | src/slut_proxy/providers/__init__.py:11-12 | the provider stores the given config unchanged |
| Providers.AuthHeaderMap | src/slut_proxy/providers/__init__.py:39-43 | one `Authorization: Bearer <key>` header exactly when the key is truthy, and no other header |
| Providers.OpenAIProvider.AuthHeaders | src/slut_proxy/providers/__init__.py:39-43 | the header dict built from the stored config is exactly `AuthHeaderMap` of it: at most the `Authorization` header, present exactly when the key is truthy |
| Providers.AuthHeaderCarriesKey | src/slut_proxy/providers/__init__.py:42 | the header value starts with `Bearer ` and the key follows it unchanged |
| ProviderFactory.Supports | src/slut_proxy/providers/factory.py:4-8 | an adapter exists exactly for the OpenAI-compatible type |
| ProviderFactory.SupportDependsOnlyOnType | src/slut_proxy/providers/factory.py:5 | two configurations of the same type get the same decision, whatever their name, URL or key |
| ProviderFactory.CreateProvider | src/slut_proxy/providers/factory.py:4-8 | type `openai` yields a fresh provider over the same config; every other type fails with the unsupported-type error |
| Auth.BearerToken | src/slut_proxy/middleware/auth.py:20-26 | a token exists exactly when the header starts with the case-sensitive `Bearer `, and the header is that prefix followed by the token |
| Auth.BearerTokenRoundTrip | src/slut_proxy/middleware/auth.py:20-26 | the token read back from `Bearer ` followed by a key is that key |
| Auth.ActiveRecord | src/slut_proxy/middleware/auth.py:48-52 | a record is found exactly when one is stored under the hash and is active |
| Auth.AdminPathIsNotGeneratePath | src/slut_proxy/middleware/auth.py:18-34 | no path is both an admin path and a generation path |
| Auth.Decide | src/slut_proxy/middleware/auth.py:12-66 | OPTIONS always passes. Admin paths: 401 without a bearer header, 403 for a wrong token, pass for the admin key. Generation paths: 401 without a bearer header; accepted with the record's permissions exactly when an active record matches the token's hash, else 403. Other paths pass, with no permissions |
| Auth.InactiveKeyRefused | src/slut_proxy/middleware/auth.py:48-58 | a deactivated key is refused with 403 even though its hash is stored |
| Auth.LowerCaseBearerRefused | src/slut_proxy/middleware/auth.py:36-40 | a lower-case `bearer ` header is refused with 401 |
| Auth.RequestState.constructor | src/slut_proxy/routes/slut/textgen.py:24 | a request's state starts without permissions |
| Auth.AuthMiddleware.constructor | src/slut_proxy/middleware/auth.py:8-10 | the middleware stores the admin key |
| Auth.AuthMiddleware.Dispatch | src/slut_proxy/middleware/auth.py:12-66 | the decision is `Decide`'s; the request state gets the permissions exactly when the decision attaches them, and is unchanged otherwise |
| Auth.Authorize | src/slut_proxy/routes/slut/textgen.py:24-42 | no permissions give the no-permissions denial; otherwise access is granted exactly when the model or its provider is allowed |
| Auth.ProviderOnlyKey | src/slut_proxy/routes/slut/textgen.py:31-42 | a key allowing only provider `p1` reaches any model of `p1` and is refused for a model of `p2` |
| OpenAIRoutes.GetModels | src/slut_proxy/routes/openai.py:17-34 | one entry per configured model, in order: id is the model's name, owner its provider's name, envelope object `"list"`; fails exactly when some provider does not resolve, naming the first such one |
| OpenAIRoutes.ConvertSamplers | src/slut_proxy/routes/openai.py:68-90 | only temperature and top_p carry over; the samplers object exists exactly when one of them is truthy |
| OpenAIRoutes.NarrowPrompt | src/slut_proxy/routes/openai.py:75-77 | a list prompt becomes its first element; an empty list fails; anything else passes unchanged |
| OpenAIRoutes.ConvertStop | src/slut_proxy/routes/openai.py:80-85 | a falsy stop gives `None`, a string `s` gives `[s]`, anything else passes; the result is truthy exactly when the input is |
| OpenAIRoutes.Canonical | src/slut_proxy/routes/openai.py:67-92 | the canonical request has the requested model name, the narrowed prompt, the converted samplers and stop; it fails exactly for an empty prompt list |
| OpenAIRoutes.ToTextGenerationRequest | src/slut_proxy/routes/openai.py:67-92 | the step-by-step conversion of the struct's fields yields `Canonical` of its attributes |
| OpenAIRoutes.CreateCompletion | src/slut_proxy/routes/openai.py:36-99 | the handler up to the provider call: body fields, lookups, reconciliation, permissions, conversion and adapter selection, in the source's order, yield `CompletionSpec` |
| OpenAIRoutes.UnknownModelIgnoresPermissions | src/slut_proxy/routes/openai.py:41-52 | an unknown model fails at lookup whatever the permissions |
| OpenAIRoutes.CompletionForbiddenIff | src/slut_proxy/routes/openai.py:47-65 | once model and provider resolve, 403 is answered exactly when no permissions are attached or neither the model nor its provider is allowed |
| OpenAIRoutes.StopReachesBackend | src/slut_proxy/routes/openai.py:80-91 | the backend payload carries `stop` exactly when the client's stop value was truthy |
| OpenAIRoutes.FalsySamplersSendNoKeys | src/slut_proxy/routes/openai.py:68-90 | temperature and top_p both `0.0` put no sampler key in the backend payload |
| OpenAIRoutes.Usage | src/slut_proxy/routes/openai.py:113-119 | completion tokens are the number of whitespace-separated words of the text; prompt tokens likewise for a string prompt, else the length of its rendering; the total is their sum |
| OpenAIRoutes.CompletionId | src/slut_proxy/routes/openai.py:123 | the id is `cmpl-` followed by the first eight characters of the uuid's hex digits |
| OpenAIRoutes.CompletionResponse | src/slut_proxy/routes/openai.py:101-130 | exactly one choice: index 0, the response text, finish reason the stop reason's wire value; a `cmpl-` id, the given time and the requested model; usage as above |
| OpenAIRoutes.FinishReasonDeterminesStopReason | src/slut_proxy/routes/openai.py:106-110 | the choice determines the generation result: equal choices come from equal text and stop reason |
| OpenAIRoutes.UsageCountsWords | src/slut_proxy/routes/openai.py:114 | two space-free words joined by a space count as two completion tokens |
| OpenAIRoutes.StreamCompletion | src/slut_proxy/routes/openai.py:132-175 | the frame loop emits exactly `CompatStream` under one `cmpl-` id: two frames per non-empty chunk, then the final `stop` envelope and `[DONE]` |
| OpenAIRoutes.FramesText | src/slut_proxy/routes/openai.py:138-155 | the envelope texts of the chunk frames concatenate to the chunks' concatenation |
| OpenAIRoutes.StreamTextIsConcatenation | src/slut_proxy/routes/openai.py:138-173 | the streamed envelope texts concatenate to exactly the chunks, in order |
| OpenAIRoutes.FramesShareIdentity | src/slut_proxy/routes/openai.py:139-152 | every chunk envelope has the stream's id, time, model and object, and non-empty text with an empty finish reason |
| OpenAIRoutes.StreamEnvelopesShareIdentity | src/slut_proxy/routes/openai.py:134-170 | every envelope of the stream shares one id, creation time and model |
| OpenAIRoutes.StreamCloses | src/slut_proxy/routes/openai.py:157-173 | the stream always ends with the empty `stop` envelope and `[DONE]`; with only empty chunks, that is all it contains |
| OpenAIRoutes.EmptyChunksNoFrames | src/slut_proxy/routes/openai.py:139 | empty chunks produce no frames |
| OpenAIRoutes.CompatStreamCarriesDoneText | src/slut_proxy/routes/openai.py:138-173 | re-framing a finished native stream's chunks as compat envelopes carries exactly the text of its `done` event |
| TextGenRoutes.AcceptHeader | src/slut_proxy/routes/slut/textgen.py:13 | the header as sent, or `application/json` when absent |
| TextGenRoutes.CompletionsUrl | src/slut_proxy/providers/openai.py:72 | the backend URL is the base URL followed by `/completions` |
| TextGenRoutes.Generate | src/slut_proxy/routes/slut/textgen.py:11-47 | unknown model, then unknown provider, then permissions, then adapter selection decide failure in that order: each check's failure is the answer exactly when the earlier checks passed, and a denial is `Forbidden` with `Authorize`'s reason; an accepted request posts `BackendPayload` with the provider's auth headers to the completion URL, streaming exactly when the Accept header asks for it |
| TextGenRoutes.GenerateForbiddenIff | src/slut_proxy/routes/slut/textgen.py:24-42 | once model and provider resolve, 403 is answered exactly when no permissions are attached or neither the model nor its provider is allowed |
| TextGenRoutes.DeniedBeforeUnsupported | src/slut_proxy/routes/slut/textgen.py:24-45 | permissions are checked before the adapter is chosen: a request without permissions to an unsupported provider is refused with 403 |
| TextGenRoutes.NoAcceptMeansBuffered | src/slut_proxy/routes/slut/textgen.py:13-46 | without an Accept header the reply is not streamed |
| TextGenRoutes.EventStreamAnywhereStreams | src/slut_proxy/routes/slut/textgen.py:46 | a header containing `text/event-stream` anywhere selects streaming |
| TextGenRoutes.UnknownModelIgnoresPermissions | src/slut_proxy/routes/slut/textgen.py:20-24 | an unknown model fails the same way whatever the permissions |
| TextGenRoutes.ProviderGrantCoversItsModels | src/slut_proxy/routes/slut/textgen.py:31-42 | a key that allows the model's provider is never refused with 403 |
| TextGenRoutes.StreamingChangesOnlyTheFlag | src/slut_proxy/routes/slut/textgen.py:46-47 | the streaming call differs from the buffered one only by `"stream": true` |
| ModelRoutes.ListModels | src/slut_proxy/routes/slut/models.py:9-13 | one entry per configured model, in order, each `FromModelConfig` of the model and its provider; fails exactly when some provider does not resolve, naming the first such one |
| ModelRoutes.GetModelMetadata | src/slut_proxy/routes/slut/models.py:15-19 | an unknown name fails with `ModelNotFound(name)` and no other failure; an unresolvable provider fails with `ProviderNotFound`; success gives `FromModelConfig` of the looked-up model and its provider |
| ModelRoutes.ListedEntryMatchesLookup | src/slut_proxy/routes/slut/models.py:9-19 | for a model first of its name, the list entry equals what the single-model route returns |
| Text.RunLength | src/slut_proxy/routes/openai.py:113-114 | the length of the leading run without whitespace, ending at whitespace or at the end |
| Text.WordsAreWords | src/slut_proxy/routes/openai.py:113-114 | every word of `str.split()` is non-empty and contains no whitespace |
| Text.FlattenWords | src/slut_proxy/routes/openai.py:113-114 | the words concatenate to the text with all whitespace removed |
| Text.WordsSplitAtSeparator | src/slut_proxy/routes/openai.py:113-114 | splitting at a whitespace character splits the word list there |
| Text.WordCountSplitAtSeparator | src/slut_proxy/routes/openai.py:113-114 | word counts add across a whitespace character |
| Text.OneWord | src/slut_proxy/routes/openai.py:113-114 | a non-empty text without whitespace is one word |

## Left out

- Network I/O is not modelled. This covers the httpx posts and streams,
  `raise_for_status`, `aiter_lines` and closing the client. It also covers
  composing `generate` with `_handle_sync_response`. The relay takes a
  finite sequence of lines. `TextGenRoutes.Generate` ends at the backend
  call it would make.
- Starlette request and response plumbing is not modelled: headers, status
  codes on the wire, `StreamingResponse`, `MsgspecJSONResponse`.
- `json.loads`/`json.dumps`, msgspec encoding, `hashlib.sha256` and `str()`
  are function parameters, left uninterpreted. The decoding of the request
  body into a `TextGenerationRequest` is not modelled: `TextGenRoutes.Generate`
  takes the decoded request as an input value.
- `uuid`, `time.time()` and the stream's timestamp string are parameters.
  The stream frames are structured values, not their exact bytes; the
  Python-repr envelope and the timestamp `data:` line are not modelled.
- Floating-point sampler values are opaque JSON numbers. Only their truthiness
  (zero or non-zero) matters.
- OpenAIAdapter.SamplerEntries: on both routes the model reads "present" as
  "not `None`". The source behaves differently on each route:
  - On the compat route, `samplers` is a `Samplers` struct. The `in` tests
    and subscripts of `prepare_request` fail at run time there.
  - On the native route, `TextGenerationRequest(**body)` leaves `samplers`
    as the body's dict, since msgspec does not convert on `__init__`.
    `temperature` and `top_p` are then copied whenever their key is present,
    so `"temperature": null` reaches the backend as `null`; the model sends
    no key. A present `min_p` or `repetition_penalty` key raises
    `AttributeError`, since those two are read as attributes; the model
    copies them when they are not `None`.
- OpenAIRoutes.StreamCompletion: `_stream_completion` runs `async for` over
  the coroutine `provider.generate(...)` without awaiting it. That fails at
  run time.
  The model takes the intended input, the chunk texts of the native
  stream's `new_chunk` events.
- OpenAIAdapter.ParseResponse: an empty `choices` list is a failure, because
  the code raises `IndexError` there. No other mapping is given, since the
  code states none.
- OpenAIAdapter.ParseResponse: `text` values that are not strings are left
  out; a reply's `choices` is a list of choices read with `text` and
  `finish_reason`. Replies and stream payloads that decode to something
  other than an object are likewise left out.
- Compat.OpenAICompletionRequest.PostInit: the loop also ranges over the two
  non-value fields `other_fields` and `provider_config`. The source moves
  one of them when the body has a key of that name and
  `supported_parameters` lists it. The model's loop considers them but
  never moves them; it moves only value fields.
- Compat.OpenAICompletionRequest.constructor: in the source, `other_fields`
  is the request body dict itself, so the pass also deletes keys from the
  body. The model copies the body into the struct, so that aliasing is not
  captured.
- API-key table operations are not modelled: create, list active, soft
  delete. Only the lookup the middleware makes is modelled, as
  `Auth.ActiveRecord` over a map.
- SQLite migrations, process and app bootstrap, and route registration are
  not part of this model. The app registers only the `/v2` model-metadata
  routes and installs no middleware. `TextGenRoutes.Generate`, the
  `OpenAIRoutes` handlers and `Auth.AuthMiddleware.Dispatch` are modelled
  as if they were mounted and installed.
- The admin handlers are constant-reply stubs and are not part of this model.
- `Config.from_toml` is not modelled: it reads a file and decodes TOML. A
  configuration is a value, so lookups cannot modify it.
