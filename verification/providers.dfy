/** The request shapes and capability contracts of the provider layer
    (src/providers/index.ts): what a caller passes to the dispatcher, what a
    provider receives from it, and which operations a provider offers. */
module Providers {
  import opened Wrappers

  /** A thrown JavaScript `Error`, identified by its message. */
  datatype Error = Error(message: string)

  /** The fields of a request object beyond its declared ones, by name, with
      their values in textual form. The dispatcher copies requests by object
      spread, so such fields reach the provider (a transcription adapter reads
      `temperature` this way) although no declared shape names them. */
  type Extra = map<string, string>

  /** Caller-facing chat parameters: `model` and `prompt` are mandatory,
      everything else is optional. `temperature` is carried, never computed with. */
  datatype ChatCompletionParams = ChatCompletionParams(
    model: string,
    prompt: string,
    systemPrompt: Option<string>,
    stream: Option<bool>,
    json: Option<bool>,
    temperature: Option<real>,
    maxTokens: Option<int>,
    extra: Extra)

  /** Caller-facing image-understanding parameters: the image (`data`, `mime`)
      and `model` are mandatory; prompts and token budget are optional. */
  datatype UnderstandImageParams = UnderstandImageParams(
    data: string,
    mime: string,
    model: string,
    prompt: Option<string>,
    systemPrompt: Option<string>,
    maxTokens: Option<int>,
    temperature: Option<real>,
    json: Option<bool>,
    stream: Option<bool>,
    extra: Extra)

  /** `ChatCompletionParams & { systemPrompt: string }`: the chat request a
      provider receives, whose system prompt is always present. */
  datatype ProviderChatCompletionParams = ProviderChatCompletionParams(
    model: string,
    prompt: string,
    systemPrompt: string,
    stream: Option<bool>,
    json: Option<bool>,
    temperature: Option<real>,
    maxTokens: Option<int>,
    extra: Extra)

  /** `UnderstandImageParams & { systemPrompt, prompt, model, maxTokens }`:
      the image request a provider receives, with those four fields present. */
  datatype ProviderUnderstandImageParams = ProviderUnderstandImageParams(
    data: string,
    mime: string,
    model: string,
    prompt: string,
    systemPrompt: string,
    maxTokens: int,
    temperature: Option<real>,
    json: Option<bool>,
    stream: Option<bool>,
    extra: Extra)

  /** `fs.ReadStream | string`: an open stream (identified by a handle) or a path. */
  datatype AudioSource = ReadStream(handle: nat) | FilePath(path: string)

  datatype GenerateTranscriptionParams = GenerateTranscriptionParams(
    file: AudioSource,
    model: string,
    prompt: Option<string>,
    extra: Extra)

  datatype GenerateEmbeddingsParams = GenerateEmbeddingsParams(
    texts: seq<string>,
    model: string,
    extra: Extra)

  /** Speech parameters: only `model` matters to the dispatcher; every other
      field the caller sets is carried uninterpreted in `extra`. */
  datatype GenerateSpeechParams = GenerateSpeechParams(
    model: string,
    extra: Extra)

  /** A provider-facing chat request is also a valid caller chat request. */
  function ChatAsCaller(p: ProviderChatCompletionParams): ChatCompletionParams {
    ChatCompletionParams(p.model, p.prompt, Some(p.systemPrompt), p.stream, p.json,
                         p.temperature, p.maxTokens, p.extra)
  }

  /** The caller chat request seen as a provider request, which exists exactly
      when the caller set `systemPrompt` (possibly to ""). */
  function ChatForProvider(c: ChatCompletionParams): (r: Option<ProviderChatCompletionParams>)
    ensures r.Some? <==> c.systemPrompt.Some?
    ensures r.Some? ==> ChatAsCaller(r.value) == c
  {
    match c.systemPrompt
    case None => None
    case Some(s) =>
      Some(ProviderChatCompletionParams(c.model, c.prompt, s, c.stream, c.json,
                                        c.temperature, c.maxTokens, c.extra))
  }

  /** Widening a provider chat request and narrowing it back loses nothing. */
  lemma ChatShapesRoundTrip(p: ProviderChatCompletionParams)
    ensures ChatForProvider(ChatAsCaller(p)) == Some(p)
    ensures ChatAsCaller(p).systemPrompt.Some?
  {
  }

  /** A provider-facing image request is also a valid caller image request. */
  function ImageAsCaller(p: ProviderUnderstandImageParams): UnderstandImageParams {
    UnderstandImageParams(p.data, p.mime, p.model, Some(p.prompt), Some(p.systemPrompt),
                          Some(p.maxTokens), p.temperature, p.json, p.stream, p.extra)
  }

  /** The caller image request seen as a provider request, which exists exactly
      when `prompt`, `systemPrompt` and `maxTokens` are all present. */
  function ImageForProvider(c: UnderstandImageParams): (r: Option<ProviderUnderstandImageParams>)
    ensures r.Some? <==> c.prompt.Some? && c.systemPrompt.Some? && c.maxTokens.Some?
    ensures r.Some? ==> ImageAsCaller(r.value) == c
  {
    if c.prompt.Some? && c.systemPrompt.Some? && c.maxTokens.Some? then
      Some(ProviderUnderstandImageParams(c.data, c.mime, c.model, c.prompt.value,
                                         c.systemPrompt.value, c.maxTokens.value,
                                         c.temperature, c.json, c.stream, c.extra))
    else
      None
  }

  /** Widening a provider image request and narrowing it back loses nothing. */
  lemma ImageShapesRoundTrip(p: ProviderUnderstandImageParams)
    ensures ImageForProvider(ImageAsCaller(p)) == Some(p)
  {
  }

  /** The five capability contracts a provider may implement. */
  datatype Capability =
    ChatCompletion | ImageUnderstanding | Transcription | Embedding | SpeechSynthesis

  /** `ProviderInterface`: every operation is optional. `T` is the payload a
      chat or image call yields; a transcription yields text, an embedding one
      numeric vector per input text, speech the bytes of an audio buffer. Each
      operation may fail with an `Error` instead. */
  datatype Provider<T> = Provider(
    generateCompletion: Option<ProviderChatCompletionParams -> Result<T, Error>>,
    generateTranscription: Option<GenerateTranscriptionParams -> Result<string, Error>>,
    generateEmbeddings: Option<GenerateEmbeddingsParams -> Result<seq<seq<real>>, Error>>,
    understandImage: Option<ProviderUnderstandImageParams -> Result<T, Error>>,
    generateSpeech: Option<GenerateSpeechParams -> Result<seq<bv8>, Error>>)

  /** Whether the provider offers the operation of capability `c`. */
  predicate Implements<T>(p: Provider<T>, c: Capability) {
    match c
    case ChatCompletion => p.generateCompletion.Some?
    case ImageUnderstanding => p.understandImage.Some?
    case Transcription => p.generateTranscription.Some?
    case Embedding => p.generateEmbeddings.Some?
    case SpeechSynthesis => p.generateSpeech.Some?
  }

  /** The set of capability contracts the provider satisfies. */
  function CapabilitiesOf<T>(p: Provider<T>): (caps: set<Capability>)
    ensures forall c :: c in caps <==> Implements(p, c)
  {
    set c: Capability | Implements(p, c)
  }

  /** A provider offering exactly the operations named in `caps`, each of
      which fails; it serves as the witness that each interface is inhabited. */
  function FailingProvider<T>(caps: set<Capability>): Provider<T> {
    var e := Error("");
    Provider(
      if ChatCompletion in caps then Some(_ => Failure(e)) else None,
      if Transcription in caps then Some(_ => Failure(e)) else None,
      if Embedding in caps then Some(_ => Failure(e)) else None,
      if ImageUnderstanding in caps then Some(_ => Failure(e)) else None,
      if SpeechSynthesis in caps then Some(_ => Failure(e)) else None)
  }

  /** `ChatProviderInterface`: `generateCompletion` is mandatory. */
  type ChatProvider<T> = p: Provider<T> | Implements(p, ChatCompletion)
    witness FailingProvider({ChatCompletion})

  /** `ImageUnderstandingProviderInterface`: `understandImage` is mandatory. */
  type ImageUnderstandingProvider<T> = p: Provider<T> | Implements(p, ImageUnderstanding)
    witness FailingProvider({ImageUnderstanding})

  /** `TranscriptionProviderInterface`: `generateTranscription` is mandatory. */
  type TranscriptionProvider<T> = p: Provider<T> | Implements(p, Transcription)
    witness FailingProvider({Transcription})

  /** `EmbeddingProviderInterface`: `generateEmbeddings` is mandatory. */
  type EmbeddingProvider<T> = p: Provider<T> | Implements(p, Embedding)
    witness FailingProvider({Embedding})

  /** `TTSProviderInterface`: `generateSpeech` is mandatory. */
  type SpeechProvider<T> = p: Provider<T> | Implements(p, SpeechSynthesis)
    witness FailingProvider({SpeechSynthesis})

  /** Capability interfaces compose freely: for every subset of the five
      contracts, including none at all, some provider satisfies exactly that
      subset, so no provider needs stubs for the operations it lacks. */
  lemma AnyCapabilitySubsetIsRealisable<T>(caps: set<Capability>)
    ensures exists p: Provider<T> :: CapabilitiesOf(p) == caps
  {
    var p: Provider<T> := FailingProvider(caps);
    forall c ensures c in caps <==> Implements(p, c) {
      match c
      case ChatCompletion =>
      case ImageUnderstanding =>
      case Transcription =>
      case Embedding =>
      case SpeechSynthesis =>
    }
    assert CapabilitiesOf(p) == caps;
  }
}
