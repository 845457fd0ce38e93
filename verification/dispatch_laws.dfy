/** Properties that relate several dispatcher calls, or a call to the
    registry it was made against. */
module DispatchLaws {
  import opened Wrappers
  import opened Providers
  import opened Dispatcher

  /** Each operation consults its own registry and no other: replacing every
      other registry changes nothing about any call, so a name registered
      for one capability is unknown to the four others. The outcomes compare
      the provider's answers too, which agree only because a provider
      operation is a function of its request. */
  lemma RegistriesAreIndependent<T>(a: Inference<T>, b: Inference<T>,
                                    chat: ChatCompletionParams, image: UnderstandImageParams,
                                    audio: GenerateTranscriptionParams,
                                    texts: GenerateEmbeddingsParams, speech: GenerateSpeechParams)
    ensures a.chatModels == b.chatModels ==> Chat(a, chat) == Chat(b, chat)
    ensures a.visionModels == b.visionModels ==> See(a, image) == See(b, image)
    ensures a.audioModels == b.audioModels ==> Transcribe(a, audio) == Transcribe(b, audio)
    ensures a.embeddingModels == b.embeddingModels ==> Embed(a, texts) == Embed(b, texts)
    ensures a.speakingModels == b.speakingModels ==> Speak(a, speech) == Speak(b, speech)
  {
  }

  /** A model registered for chat but absent from the other four registries
      is "not found" by every other operation, however populated those
      registries are, and none of them hands anything to a limiter. */
  lemma ChatOnlyNameUnknownElsewhere<T>(inf: Inference<T>, name: string,
                                        image: UnderstandImageParams,
                                        audio: GenerateTranscriptionParams,
                                        texts: GenerateEmbeddingsParams,
                                        speech: GenerateSpeechParams)
    requires name in inf.chatModels
    requires name !in inf.visionModels && name !in inf.audioModels
    requires name !in inf.embeddingModels && name !in inf.speakingModels
    requires image.model == name && audio.model == name
    requires texts.model == name && speech.model == name
    ensures var chat := ChatCompletionParams(name, "", None, None, None, None, None, map[]);
      Chat(inf, chat).outcome.calls != []
    ensures See(inf, image) == NotFound()
    ensures Transcribe(inf, audio) == NotFound()
    ensures Embed(inf, texts) == NotFound()
    ensures Speak(inf, speech) == NotFound()
  {
  }

  /** A registry omitted at construction is empty, so every call of that
      capability fails with "Model not found" and reaches no limiter. */
  lemma OmittedRegistryAlwaysFails<T>(models: Models<T>,
                                      chat: ChatCompletionParams, image: UnderstandImageParams,
                                      audio: GenerateTranscriptionParams,
                                      texts: GenerateEmbeddingsParams, speech: GenerateSpeechParams)
    ensures models.chatModels.None? ==>
      Chat(New(models), chat).outcome == NotFound() && Chat(New(models), chat).caller == chat
    ensures models.visionModels.None? ==> See(New(models), image) == NotFound()
    ensures models.audioModels.None? ==> Transcribe(New(models), audio) == NotFound()
    ensures models.embeddingModels.None? ==> Embed(New(models), texts) == NotFound()
    ensures models.speakingModels.None? ==> Speak(New(models), speech) == NotFound()
  {
  }

  /** The write-back makes a repeated chat call stable: calling `chat` again
      with the caller's parameters as the first call left them sends the very
      same request through the same limiter and writes nothing further. The
      provider's answer is then the same too, because a provider operation is
      a function of its request. */
  lemma ChatWriteBackIsStable<T>(inf: Inference<T>, params: ChatCompletionParams)
    ensures Chat(inf, Chat(inf, params).caller) == Chat(inf, params)
  {
  }

  /** The chat request is the caller's parameters after the write-back, with
      `model` swapped for the backend identifier, narrowed to the
      provider-facing shape (src/providers/index.ts:26-28). */
  lemma ChatRequestIsNarrowedCaller<T>(inf: Inference<T>, params: ChatCompletionParams)
    requires params.model in inf.chatModels
    ensures var out := Chat(inf, params);
      ChatForProvider(out.caller.(model := inf.chatModels[params.model].providerModel))
        == Some(out.outcome.calls[0].request.chat)
  {
  }

  /** The image request is the caller's parameters with `model` swapped and
      the three defaults filled in, narrowed to the provider-facing shape
      (src/providers/index.ts:30-35). */
  lemma ImageRequestIsNarrowedCaller<T>(inf: Inference<T>, params: UnderstandImageParams)
    requires params.model in inf.visionModels
    ensures var req := See(inf, params).calls[0].request.image;
      ImageForProvider(params.(model := inf.visionModels[params.model].providerModel,
                               systemPrompt := Some(req.systemPrompt),
                               prompt := Some(req.prompt),
                               maxTokens := Some(req.maxTokens)))
        == Some(req)
  {
  }

  /** Unlike chat, image understanding ignores `json` when defaulting the
      system prompt: the same request is sent whatever `json` is, apart
      from the `json` field itself. */
  lemma SeeDefaultIgnoresJson<T>(inf: Inference<T>, params: UnderstandImageParams,
                                 json: Option<bool>)
    requires params.model in inf.visionModels
    ensures See(inf, params.(json := json)).calls[0].request.image
         == See(inf, params).calls[0].request.image.(json := json)
  {
  }

  /** Two entries sharing one limiter instance hand their calls to that same
      limiter; entries with distinct limiters never share one. */
  lemma SharedLimiterIsShared<T>(inf: Inference<T>, p: ChatCompletionParams,
                                 q: ChatCompletionParams)
    requires p.model in inf.chatModels && q.model in inf.chatModels
    ensures Chat(inf, p).outcome.calls[0].limiter == Chat(inf, q).outcome.calls[0].limiter
        <==> inf.chatModels[p.model].rateLimiter == inf.chatModels[q.model].rateLimiter
  {
  }

  /** Sharing is by limiter instance, not by capability: a chat entry and an
      embedding entry holding the same limiter hand their calls to that one
      limiter, as one provider account's chat and embedding models do. */
  lemma LimiterSharedAcrossCapabilities<T>(inf: Inference<T>, p: ChatCompletionParams,
                                          q: GenerateEmbeddingsParams)
    requires p.model in inf.chatModels && q.model in inf.embeddingModels
    ensures Chat(inf, p).outcome.calls[0].limiter == Embed(inf, q).calls[0].limiter
        <==> inf.chatModels[p.model].rateLimiter == inf.embeddingModels[q.model].rateLimiter
  {
  }

  /** Every capability interface makes only its own operation mandatory:
      for two different capabilities, some provider has the first and
      lacks the second. */
  lemma InterfacesAreIndependent<T>(c: Capability, d: Capability)
    requires c != d
    ensures exists p: Provider<T> :: Implements(p, c) && !Implements(p, d)
  {
    AnyCapabilitySubsetIsRealisable<T>({c});
    var p: Provider<T> :| CapabilitiesOf(p) == {c};
    assert c in CapabilitiesOf(p) && d !in CapabilitiesOf(p);
  }
}
