/** The `Inference` dispatcher (src/index.ts): five independent registries of
    model entries, one per capability, and one operation per capability that
    looks the caller's logical model name up, applies that capability's
    defaults, rewrites `model` to the backend identifier and hands the provider
    call to the entry's rate limiter.

    Provider operations are the function values a `Provider` carries; the rate
    limiter is an identity pass-through. Every operation also returns the log
    of calls it handed to a limiter, so that "the provider was never called"
    and "it was called once, through this limiter, with this request" are
    statements about the result. */
module Dispatcher {
  import opened Wrappers
  import opened Truthiness
  import opened Providers

  const DefaultSysPrompt: string := "You are a helpful assistant."
  const DefaultJsonSysPrompt: string := "You are a helpful assistant. You only respond in JSON."
  const DefaultImagePrompt: string := "Caption this image"
  const DefaultImageMaxTokens: int := 1500

  /** The only error the dispatcher raises itself. */
  const ModelNotFound: Error := Error("Model not found")

  /** A rate limiter instance. Entries that hold the same `id` share one
      limiter, and with it one throughput budget. */
  datatype RateLimiter = RateLimiter(id: nat)

  /** `rateLimiter.schedule(op)`: admission timing is not modelled, so the
      limiter runs the operation and passes its outcome back unchanged. */
  function Schedule<R>(limiter: RateLimiter, op: () -> Result<R, Error>): Result<R, Error> {
    op()
  }

  /** A registry entry: logical `name`, the provider serving it, the
      identifier the provider's backend expects, and the limiter to go through. */
  datatype Model<T> = Model(
    provider: Provider<T>,
    name: string,
    providerModel: string,
    rateLimiter: RateLimiter)

  type ChatModel<T> = m: Model<T> | Implements(m.provider, ChatCompletion)
    witness Model(FailingProvider({ChatCompletion}), "", "", RateLimiter(0))

  type VisionModel<T> = m: Model<T> | Implements(m.provider, ImageUnderstanding)
    witness Model(FailingProvider({ImageUnderstanding}), "", "", RateLimiter(0))

  type TranscriptionModel<T> = m: Model<T> | Implements(m.provider, Transcription)
    witness Model(FailingProvider({Transcription}), "", "", RateLimiter(0))

  type EmbeddingModel<T> = m: Model<T> | Implements(m.provider, Embedding)
    witness Model(FailingProvider({Embedding}), "", "", RateLimiter(0))

  type SpeechModel<T> = m: Model<T> | Implements(m.provider, SpeechSynthesis)
    witness Model(FailingProvider({SpeechSynthesis}), "", "", RateLimiter(0))

  /** The constructor's argument: each capability's registry may be omitted. */
  datatype Models<T> = Models(
    chatModels: Option<map<string, ChatModel<T>>>,
    visionModels: Option<map<string, VisionModel<T>>>,
    audioModels: Option<map<string, TranscriptionModel<T>>>,
    embeddingModels: Option<map<string, EmbeddingModel<T>>>,
    speakingModels: Option<map<string, SpeechModel<T>>>)

  /** The dispatcher: five registries. Each is the registry as it stood when
      the dispatcher was built; the dispatcher itself offers no way to change it. */
  datatype Inference<T> = Inference(
    chatModels: map<string, ChatModel<T>>,
    visionModels: map<string, VisionModel<T>>,
    audioModels: map<string, TranscriptionModel<T>>,
    embeddingModels: map<string, EmbeddingModel<T>>,
    speakingModels: map<string, SpeechModel<T>>)

  /** `models.x || {}`: a supplied registry is taken as is, an omitted one is empty. */
  function OrEmpty<M>(registry: Option<map<string, M>>): (r: map<string, M>)
    ensures registry.Some? ==> r == registry.value
    ensures registry.None? ==> |r| == 0
  {
    if registry.Some? then registry.value else map[]
  }

  /** `new Inference(models)`. */
  function New<T>(models: Models<T>): (inf: Inference<T>)
    ensures models.chatModels.Some? ==> inf.chatModels == models.chatModels.value
    ensures models.visionModels.Some? ==> inf.visionModels == models.visionModels.value
    ensures models.audioModels.Some? ==> inf.audioModels == models.audioModels.value
    ensures models.embeddingModels.Some? ==> inf.embeddingModels == models.embeddingModels.value
    ensures models.speakingModels.Some? ==> inf.speakingModels == models.speakingModels.value
    ensures models.chatModels.None? ==> inf.chatModels.Keys == {}
    ensures models.visionModels.None? ==> inf.visionModels.Keys == {}
    ensures models.audioModels.None? ==> inf.audioModels.Keys == {}
    ensures models.embeddingModels.None? ==> inf.embeddingModels.Keys == {}
    ensures models.speakingModels.None? ==> inf.speakingModels.Keys == {}
  {
    Inference(
      OrEmpty(models.chatModels),
      OrEmpty(models.visionModels),
      OrEmpty(models.audioModels),
      OrEmpty(models.embeddingModels),
      OrEmpty(models.speakingModels))
  }

  /** `const model = registry[name]; if (!model) throw new Error("Model not found")`. */
  function Lookup<M>(registry: map<string, M>, name: string): (r: Result<M, Error>)
    ensures r.Success? <==> name in registry
    ensures r.Success? ==> r.value == registry[name]
    ensures r.Failure? ==> r.error == ModelNotFound
  {
    if name in registry then Success(registry[name]) else Failure(ModelNotFound)
  }

  /** A provider-facing request, tagged with the operation it is for. */
  datatype Request =
    | ChatRequest(chat: ProviderChatCompletionParams)
    | ImageRequest(image: ProviderUnderstandImageParams)
    | TranscriptionRequest(transcription: GenerateTranscriptionParams)
    | EmbeddingRequest(embedding: GenerateEmbeddingsParams)
    | SpeechRequest(speech: GenerateSpeechParams)

  /** One closure handed to a limiter: which limiter, and what the provider was sent. */
  datatype Call = Call(limiter: RateLimiter, request: Request)

  /** What a dispatcher operation yields: the value returned or the error
      thrown, and the calls it handed to rate limiters. */
  datatype Outcome<R> = Outcome(result: Result<R, Error>, calls: seq<Call>)

  /** `chat` also writes the defaulted system prompt back into the caller's
      object, so it yields the caller's parameters as they are afterwards. */
  datatype ChatOutcome<T> = ChatOutcome(outcome: Outcome<T>, caller: ChatCompletionParams)

  /** The thrown "Model not found": no limiter and no provider is involved. */
  function NotFound<R>(): (o: Outcome<R>)
    ensures o.result.Failure? && o.result.error.message == "Model not found"
    ensures |o.calls| == 0
  {
    Outcome(Failure(ModelNotFound), [])
  }

  /** Schedule `op` on `limiter`, recording that `request` went through it. */
  function Run<R>(limiter: RateLimiter, request: Request,
                  op: () -> Result<R, Error>): (o: Outcome<R>)
    ensures o.result == op()
    ensures o.calls == [Call(limiter, request)]
  {
    Outcome(Schedule(limiter, op), [Call(limiter, request)])
  }

  /** Whether `o` is one call through `limiter` whose provider result is `result`;
      the request sent is then `o.calls[0].request`. */
  ghost predicate SingleCall<R>(o: Outcome<R>, limiter: RateLimiter, result: Result<R, Error>) {
    |o.calls| == 1 && o.calls[0].limiter == limiter && o.result == result
  }

  /** The system prompt a chat call ends up with (src/index.ts:85-91). */
  function ChatSystemPrompt(params: ChatCompletionParams): (s: string)
    ensures s != ""
    ensures StringSet(params.systemPrompt) ==> s == params.systemPrompt.value
    ensures !StringSet(params.systemPrompt) ==> s in {DefaultSysPrompt, DefaultJsonSysPrompt}
    ensures !StringSet(params.systemPrompt) ==>
              (s == DefaultJsonSysPrompt <==> BoolSet(params.json))
  {
    if StringSet(params.systemPrompt) then params.systemPrompt.value
    else if BoolSet(params.json) then DefaultJsonSysPrompt
    else DefaultSysPrompt
  }

  /** `chat(params)`. */
  function Chat<T>(inf: Inference<T>, params: ChatCompletionParams): (out: ChatOutcome<T>)
    ensures params.model !in inf.chatModels ==>
      out.outcome == NotFound() && out.caller == params
    ensures params.model in inf.chatModels ==>
      var entry := inf.chatModels[params.model];
      && |out.outcome.calls| == 1
      && out.outcome.calls[0].request.ChatRequest?
      && var req := out.outcome.calls[0].request.chat;
      && SingleCall(out.outcome, entry.rateLimiter, entry.provider.generateCompletion.value(req))
      && req.model == entry.providerModel
      && req.systemPrompt != ""
      && (StringSet(params.systemPrompt) ==> req.systemPrompt == params.systemPrompt.value)
      && (!StringSet(params.systemPrompt) && BoolSet(params.json) ==>
            req.systemPrompt == DefaultJsonSysPrompt)
      && (!StringSet(params.systemPrompt) && !BoolSet(params.json) ==>
            req.systemPrompt == DefaultSysPrompt)
      && (StringSet(params.systemPrompt) ==> out.caller == params)
      && out.caller == params.(systemPrompt := Some(req.systemPrompt))
      && ChatAsCaller(req) == out.caller.(model := entry.providerModel)
  {
    match Lookup(inf.chatModels, params.model)
    case Failure(e) => ChatOutcome(Outcome(Failure(e), []), params)
    case Success(entry) =>
      var caller := params.(systemPrompt := Some(ChatSystemPrompt(params)));
      var req := ProviderChatCompletionParams(
        entry.providerModel, caller.prompt, caller.systemPrompt.value, caller.stream,
        caller.json, caller.temperature, caller.maxTokens, caller.extra);
      var complete := entry.provider.generateCompletion.value;
      ChatOutcome(Run(entry.rateLimiter, ChatRequest(req), () => complete(req)), caller)
  }

  /** `see(params)`. The caller's parameters are not written to. */
  function See<T>(inf: Inference<T>, params: UnderstandImageParams): (out: Outcome<T>)
    ensures params.model !in inf.visionModels ==> out == NotFound()
    ensures params.model in inf.visionModels ==>
      var entry := inf.visionModels[params.model];
      && |out.calls| == 1
      && out.calls[0].request.ImageRequest?
      && var req := out.calls[0].request.image;
      && SingleCall(out, entry.rateLimiter, entry.provider.understandImage.value(req))
      && req.model == entry.providerModel
      && (StringSet(params.systemPrompt) ==> req.systemPrompt == params.systemPrompt.value)
      && (!StringSet(params.systemPrompt) ==> req.systemPrompt == DefaultSysPrompt)
      && (StringSet(params.prompt) ==> req.prompt == params.prompt.value)
      && (!StringSet(params.prompt) ==> req.prompt == DefaultImagePrompt)
      && (NumberSet(params.maxTokens) ==> req.maxTokens == params.maxTokens.value)
      && (!NumberSet(params.maxTokens) ==> req.maxTokens == DefaultImageMaxTokens)
      && ImageAsCaller(req) == params.(model := entry.providerModel,
                                       systemPrompt := Some(req.systemPrompt),
                                       prompt := Some(req.prompt),
                                       maxTokens := Some(req.maxTokens))
  {
    match Lookup(inf.visionModels, params.model)
    case Failure(e) => Outcome(Failure(e), [])
    case Success(entry) =>
      var req := ProviderUnderstandImageParams(
        params.data, params.mime, entry.providerModel,
        StringOr(params.prompt, DefaultImagePrompt),
        StringOr(params.systemPrompt, DefaultSysPrompt),
        NumberOr(params.maxTokens, DefaultImageMaxTokens),
        params.temperature, params.json, params.stream, params.extra);
      var understand := entry.provider.understandImage.value;
      Run(entry.rateLimiter, ImageRequest(req), () => understand(req))
  }

  /** `transcribe(params)`: no defaults. */
  function Transcribe<T>(inf: Inference<T>, params: GenerateTranscriptionParams)
    : (out: Outcome<string>)
    ensures params.model !in inf.audioModels ==> out == NotFound()
    ensures params.model in inf.audioModels ==>
      var entry := inf.audioModels[params.model];
      && |out.calls| == 1
      && out.calls[0].request.TranscriptionRequest?
      && var req := out.calls[0].request.transcription;
      && SingleCall(out, entry.rateLimiter, entry.provider.generateTranscription.value(req))
      && req.model == entry.providerModel
      && req.file == params.file
      && req.prompt == params.prompt
      && req.extra == params.extra
  {
    match Lookup(inf.audioModels, params.model)
    case Failure(e) => Outcome(Failure(e), [])
    case Success(entry) =>
      var req := params.(model := entry.providerModel);
      var transcribe := entry.provider.generateTranscription.value;
      Run(entry.rateLimiter, TranscriptionRequest(req), () => transcribe(req))
  }

  /** `embed(params)`: no defaults. */
  function Embed<T>(inf: Inference<T>, params: GenerateEmbeddingsParams)
    : (out: Outcome<seq<seq<real>>>)
    ensures params.model !in inf.embeddingModels ==> out == NotFound()
    ensures params.model in inf.embeddingModels ==>
      var entry := inf.embeddingModels[params.model];
      && |out.calls| == 1
      && out.calls[0].request.EmbeddingRequest?
      && var req := out.calls[0].request.embedding;
      && SingleCall(out, entry.rateLimiter, entry.provider.generateEmbeddings.value(req))
      && req.model == entry.providerModel
      && req.texts == params.texts
      && req.extra == params.extra
  {
    match Lookup(inf.embeddingModels, params.model)
    case Failure(e) => Outcome(Failure(e), [])
    case Success(entry) =>
      var req := params.(model := entry.providerModel);
      var embed := entry.provider.generateEmbeddings.value;
      Run(entry.rateLimiter, EmbeddingRequest(req), () => embed(req))
  }

  /** `speak(params)`: no defaults. */
  function Speak<T>(inf: Inference<T>, params: GenerateSpeechParams): (out: Outcome<seq<bv8>>)
    ensures params.model !in inf.speakingModels ==> out == NotFound()
    ensures params.model in inf.speakingModels ==>
      var entry := inf.speakingModels[params.model];
      && |out.calls| == 1
      && out.calls[0].request.SpeechRequest?
      && var req := out.calls[0].request.speech;
      && SingleCall(out, entry.rateLimiter, entry.provider.generateSpeech.value(req))
      && req.model == entry.providerModel
      && req.extra == params.extra
  {
    match Lookup(inf.speakingModels, params.model)
    case Failure(e) => Outcome(Failure(e), [])
    case Success(entry) =>
      var req := params.(model := entry.providerModel);
      var speak := entry.provider.generateSpeech.value;
      Run(entry.rateLimiter, SpeechRequest(req), () => speak(req))
  }
}
