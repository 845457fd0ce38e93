# Inference dispatcher model

A Dafny model of the `Inference` dispatcher of the inference unification
library. The library offers one API for five kinds of AI call: chat
completion, image understanding, transcription, embedding and speech
synthesis. Each call goes to whichever provider serves the named model, and
each model entry names the rate limiter its calls go through.

The model covers:

- **Registry** (`Dispatcher.Inference`, `Dispatcher.New`). There are five
  independent maps from a logical model name to a model entry. An entry holds
  the provider, the logical name, the backend identifier (`providerModel`)
  and a rate limiter. A registry left out at construction is empty. Entries
  for one capability are subset types (`ChatModel`, `VisionModel`, …), so
  every entry's provider offers that capability's operation. This mirrors the
  TypeScript `ChatModel extends Model { provider: ChatProviderInterface }`.
- **Dispatch** (`Dispatcher.Chat`, `See`, `Transcribe`, `Embed`, `Speak`).
  Each operation does the same steps:
  - look the name up in its own map, and fail with `Error("Model not found")`
    when it is absent;
  - apply the capability's defaults with JavaScript truthiness (`""`, `0`,
    an absent field and `false` all count as unset);
  - copy the caller's fields, replacing `model` with the entry's
    `providerModel`;
  - hand the provider call to the entry's limiter and return its outcome.
- **Request shapes and capability contracts** (`Providers`). These cover the
  caller-facing and provider-facing chat and image requests, the
  transcription, embedding and speech requests, and a `Provider` with five
  optional operations. One subset type per capability interface makes that
  interface's own operation mandatory. The results are a generic payload `T`
  for chat and image calls, text for a transcription, a list of numeric
  vectors for an embedding and audio bytes for speech.

Abstractions:

- A provider operation is a function value held by the `Provider`. It may
  return a value or an `Error`, as a rejected promise would.
- `rateLimiter.schedule` is an identity pass-through (`Dispatcher.Schedule`).
  A limiter is an identity token, `RateLimiter(id)`. Entries that share an id
  share one limiter instance.
- The network, timing and the async machinery are left to the provider and
  limiter parameters. The synchronous `throw` becomes a `Failure` result.
- Every operation also returns a call log (`Outcome.calls`). Each entry in
  the log records which limiter received a closure and which request that
  closure sends to the provider. So "the provider is never called" means the
  log is empty, and "called once, through this limiter, with this request"
  is a statement about the log's single entry.
- `chat` writes the defaulted system prompt back into the caller's object.
  So `Chat` also returns the caller's parameters as they are afterwards
  (`ChatOutcome.caller`). The other four operations do not write to their
  argument, so they return no caller parameters.

## Model

| member | source | states |
|---|---|---|
| Dispatcher.New | src/index.ts:63-75 | Each of the five registries is the caller's map when supplied. An omitted registry has no names. |
| Dispatcher.Lookup | src/index.ts:78-82 | A lookup succeeds exactly when the name is a key of that registry, and it yields that key's entry. Otherwise it fails with the "Model not found" error. |
| Dispatcher.ChatSystemPrompt | src/index.ts:85-91 | The chat system prompt is never empty. A non-empty caller prompt is kept verbatim. When the caller's prompt is unset or "", the JSON default is chosen exactly when `json` is true; otherwise the generic default is chosen. |
| Dispatcher.Chat | src/index.ts:77-102 | An unknown name fails with "Model not found", makes no call and leaves the caller's params alone. A known name makes one call through the entry's limiter and returns the provider's result for the request. That request carries the entry's `providerModel` and a non-empty system prompt chosen by the default rule. The caller's params change only in `systemPrompt`, and only when it was unset or "". The request equals those params with `model` swapped and every other field copied. |
| Dispatcher.See | src/index.ts:104-122 | An unknown name fails with no call. A known name makes one call through the entry's limiter and returns the provider's result. The request carries `providerModel` plus three defaults: an unset or "" system prompt becomes "You are a helpful assistant.", an unset or "" prompt becomes "Caption this image", and an unset or 0 `maxTokens` becomes 1500. Values that are set are kept, and every other field is copied. |
| Dispatcher.Transcribe | src/index.ts:124-139 | An unknown name fails with no call. Otherwise the request differs from the caller's params only in `model`, which becomes `providerModel`. One call goes through the entry's limiter and its text result comes back unchanged. |
| Dispatcher.Embed | src/index.ts:141-156 | An unknown name fails with no call. Otherwise the request carries the caller's texts unchanged and `providerModel`. One call goes through the entry's limiter and its vectors come back unchanged. |
| Dispatcher.Speak | src/index.ts:158-173 | An unknown name fails with no call. Otherwise the request keeps every caller field and gets `providerModel`. One call goes through the entry's limiter and its audio comes back unchanged. |
| DispatchLaws.RegistriesAreIndependent | src/index.ts:78 | Each operation's outcome depends only on its own registry. Any two dispatchers that agree on that registry send the same request through the same limiter, and give the same provider answer given the model's deterministic provider. |
| DispatchLaws.ChatOnlyNameUnknownElsewhere | src/index.ts:105-109 | In any dispatcher, a name registered for chat but absent from the other four registries reaches a limiter through `chat`. The same name is "not found" by `see`, `transcribe`, `embed` and `speak`, and none of them calls a limiter, however many other names those registries hold. |
| DispatchLaws.OmittedRegistryAlwaysFails | src/index.ts:70-74 | With a registry omitted at construction, every call of that capability fails with "Model not found" and makes no call. |
| DispatchLaws.ChatWriteBackIsStable | src/index.ts:85-91 | Calling `chat` again with the params the first call left behind sends the same request through the same limiter and writes nothing further. It also gives the same provider answer, given the model's deterministic provider. |
| DispatchLaws.ChatRequestIsNarrowedCaller | src/index.ts:93-97 | The chat request is the post-write-back caller params with `model` swapped, narrowed to the provider-facing shape. |
| DispatchLaws.ImageRequestIsNarrowedCaller | src/index.ts:111-117 | The image request is the caller params with `model` swapped and the three defaults filled in, narrowed to the provider-facing shape. |
| DispatchLaws.SeeDefaultIgnoresJson | src/index.ts:114 | Unlike chat, the image system-prompt default does not depend on `json`. Changing `json` changes only the request's `json` field. |
| DispatchLaws.SharedLimiterIsShared | src/index.ts:99 | Two chat calls go through the same limiter exactly when their entries hold the same limiter instance. |
| DispatchLaws.LimiterSharedAcrossCapabilities | src/index.ts:99-101 | A chat call and an embedding call go through the same limiter exactly when their two entries hold the same limiter instance, across capabilities. |
| DispatchLaws.InterfacesAreIndependent | src/providers/index.ts:63-83 | For any two different capabilities, some provider implements the first and lacks the second. So each interface mandates only its own operation. |
| Providers.ChatForProvider | src/providers/index.ts:26-28 | A caller chat request is a provider chat request exactly when its `systemPrompt` is present. Widening the result back gives the caller request. |
| Providers.ChatShapesRoundTrip | src/providers/index.ts:26-28 | Every provider chat request widens to a caller request with `systemPrompt` present, and narrows back to itself. |
| Providers.ImageForProvider | src/providers/index.ts:30-35 | A caller image request is a provider image request exactly when `prompt`, `systemPrompt` and `maxTokens` are all present. Widening the result back gives the caller request. |
| Providers.ImageShapesRoundTrip | src/providers/index.ts:30-35 | Every provider image request widens to a caller image request and narrows back to itself. |
| Providers.AnyCapabilitySubsetIsRealisable | src/providers/index.ts:48-83 | For every subset of the five capabilities, including the empty one, some provider satisfies exactly that subset. |
| Truthiness.StringOr | src/index.ts:114-115 | JavaScript's logical or of an optional string and a fallback gives the value when it is present and non-empty, and the fallback otherwise. |
| Truthiness.NumberOr | src/index.ts:116 | JavaScript's logical or of an optional number and a fallback gives the value when it is present and non-zero, and the fallback otherwise. |
| Scenarios.TestConfiguration | test/index.test.ts:21-146 | In the test configuration, `gpt3.5` and `gpt4` go through the one OpenAI limiter under their own backend identifiers. So do the `ada` embedding model and the `oai-tts` speech model. `mistral-small` runs on the separate Mistral provider and goes through another limiter. A chat name is unknown to `embed`, and an embedding name is unknown to `chat`. |
| Scenarios.EchoScenario | src/index.ts:85-101 | A stub provider that echoes its system prompt shows the effect of `chat({model: "m", prompt: "hi"})`. The stub gets "You are a helpful assistant." and the backend identifier, and its answer comes back unchanged. The caller keeps the logical name. With `json: true` the stub gets the JSON default. |

## Left out

- Rate limiter internals and `createRateLimiter` (src/index.ts:51-54). The limiter is a third-party library whose purpose is timing and concurrency. Also, `createRateLimiter` computes `1000 / rps` in floating point and passes it under the key `zminTime`, which the library does not read. So no spacing, FIFO or throughput claim is modelled; `schedule` is an identity pass-through.
- The provider adapters (OpenAI, Anthropic, Mistral, Together, Groq, llama.cpp, whisper.cpp, Geppetto). Each is a thin wrapper over network calls. Their own defaults (provider-side model and temperature defaults, the llama.cpp prompt template, whisper newline stripping and its error-to-"" handling) depend on remote responses.
- Provider operations are modelled as functions of the request, so two calls with the same request get the same answer. A network-backed provider does not promise this. The claims of `DispatchLaws.RegistriesAreIndependent` and `DispatchLaws.ChatWriteBackIsStable` about equal answers rest on this; their claims about the request, the limiter and the write-back do not.
- Async and promise semantics. The thrown "Model not found" becomes a `Failure` result. A provider's rejection is the `Failure` its operation returns, and it is passed back unchanged.
- JavaScript plain-object lookup quirks. For example, `chatModels["toString"]` finds a prototype member. A Dafny `map` has only the keys put into it.
- Speech request and `TTSProviderInterface` shapes. Both are imported by src/index.ts but not defined in src/providers/index.ts. The speech request is a `model` plus the caller's other fields, kept uninterpreted in `extra`, and the speech operation is a fifth optional operation of `Provider`.
- Undeclared request fields. The requests are built by object spread, so any field on the caller's object reaches the provider. The model carries these in each request's `extra` map and copies it unchanged. Their values are kept as text, so a numeric or structured value is not distinguished from its textual form. A declared field name that also appears in `extra` is not ruled out; JavaScript has only one field per name.
- Dispatcher.New: each registry is a snapshot taken at construction. The source stores the caller's record object itself (src/index.ts:70-74), so entries the caller later adds, removes or edits in that record change what later calls find. The model does not cover such later changes.
- The generic payload `T` is fixed per dispatcher rather than chosen per call.
- `temperature` is carried as an uninterpreted `real`. `maxTokens` is an `int`, so JavaScript's `NaN`, non-integer and `-0` numbers are not modelled. Of these, `NaN` and `-0` would also be falsy and so replaced by 1500.
- Provider promises that the types do not state are not modelled. One example is that an embedding returns one vector per input text in order. The dispatcher returns whatever the provider returns.
- Scenarios.TestConfiguration: only four of the test configuration's nine chat entries, its embedding entry and one of its two speech entries are reproduced; its image and audio registries are left out. The other entries add more providers and limiters but no new behaviour. Every scenario provider fails each call, since only the routing is of interest.
