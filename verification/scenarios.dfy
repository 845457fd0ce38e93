/** Concrete registries: part of the configuration of test/index.test.ts
    (several entries sharing one provider account and its limiter), and a
    one-model registry whose stub provider echoes the system prompt it
    receives. */
module Scenarios {
  import opened Wrappers
  import opened Providers
  import opened Dispatcher

  /** The OpenAI account: it offers all five operations; its calls all fail. */
  function OpenAi(): (p: Provider<string>)
    ensures forall c :: Implements(p, c)
  {
    FailingProvider({ChatCompletion, Transcription, Embedding, ImageUnderstanding, SpeechSynthesis})
  }

  /** The Mistral account: chat and embeddings only; its calls all fail. */
  function Mistral(): (p: Provider<string>)
    ensures Implements(p, ChatCompletion) && Implements(p, Embedding)
    ensures !Implements(p, SpeechSynthesis) && !Implements(p, ImageUnderstanding)
  {
    FailingProvider({ChatCompletion, Embedding})
  }

  const OpenAiLimiter := RateLimiter(1)
  const MistralLimiter := RateLimiter(2)

  /** Part of the test configuration: four chat models over two accounts,
      the `ada` embedding model and the `oai-tts` speech model, every OpenAI
      entry sharing the one OpenAI limiter. */
  function TestInference(): (inf: Inference<string>)
    ensures inf.chatModels.Keys == {"gpt3.5", "gpt4", "mistral-small", "mistral-large"}
    ensures inf.embeddingModels.Keys == {"ada"}
    ensures inf.speakingModels.Keys == {"oai-tts"}
  {
    New(Models(
      Some(map[
        "gpt3.5" := Model(OpenAi(), "gpt-3.5", "gpt-3.5-turbo-0125", OpenAiLimiter),
        "gpt4" := Model(OpenAi(), "gpt-4", "gpt-4-0125-preview", OpenAiLimiter),
        "mistral-small" :=
          Model(Mistral(), "mistral-small", "mistral-small-latest", MistralLimiter),
        "mistral-large" :=
          Model(Mistral(), "mistral-large", "mistral-large-latest", MistralLimiter)]),
      None,
      None,
      Some(map["ada" := Model(OpenAi(), "ada", "text-embedding-ada-002", OpenAiLimiter)]),
      Some(map["oai-tts" := Model(OpenAi(), "alloy", "tts-1", OpenAiLimiter)])))
  }

  function Hello(model: string): ChatCompletionParams {
    ChatCompletionParams(model, "hello world", None, None, None, None, None, map[])
  }

  /** Two chat models of one account go through the account's one limiter,
      under their own backend identifiers, and so do that account's embedding
      and speech models; a chat name is unknown to `embed` and an embedding
      name unknown to `chat`. */
  lemma TestConfiguration()
    ensures var gpt35 := Chat(TestInference(), Hello("gpt3.5"));
      && gpt35.outcome.calls[0].limiter == OpenAiLimiter
      && gpt35.outcome.calls[0].request.chat.model == "gpt-3.5-turbo-0125"
    ensures var gpt4 := Chat(TestInference(), Hello("gpt4"));
      && gpt4.outcome.calls[0].limiter == OpenAiLimiter
      && gpt4.outcome.calls[0].request.chat.model == "gpt-4-0125-preview"
    ensures Chat(TestInference(), Hello("mistral-small"))
              .outcome.calls[0].limiter == MistralLimiter
    ensures Embed(TestInference(), GenerateEmbeddingsParams(["hi"], "ada", map[]))
              .calls[0].limiter == OpenAiLimiter
    ensures Speak(TestInference(), GenerateSpeechParams("oai-tts", map[]))
              .calls[0].limiter == OpenAiLimiter
    ensures Embed(TestInference(), GenerateEmbeddingsParams(["hi"], "gpt4", map[])) == NotFound()
    ensures Chat(TestInference(), Hello("ada")).outcome == NotFound()
  {
  }

  /** A chat provider that answers with the system prompt it was sent. */
  function EchoProvider(): (p: Provider<string>)
    ensures Implements(p, ChatCompletion)
  {
    var echo := (req: ProviderChatCompletionParams) => Success(req.systemPrompt);
    Provider(Some(echo), None, None, None, None)
  }

  function EchoInference(): (inf: Inference<string>)
    ensures inf.chatModels.Keys == {"m"}
  {
    New(Models(Some(map["m" := Model(EchoProvider(), "m", "backend-m", RateLimiter(0))]),
               None, None, None, None))
  }

  /** `chat({model: "m", prompt: "hi"})` against the echo stub: the stub
      receives the generic default system prompt and the backend identifier,
      and its answer comes back unchanged; with `json: true` it receives the
      JSON default instead. */
  lemma EchoScenario()
    ensures var hi := ChatCompletionParams("m", "hi", None, None, None, None, None, map[]);
      var out := Chat(EchoInference(), hi);
      && out.outcome.result == Success("You are a helpful assistant.")
      && out.outcome.calls[0].request.chat.model == "backend-m"
      && out.caller.systemPrompt == Some("You are a helpful assistant.")
      && out.caller.model == "m"
    ensures var hi := ChatCompletionParams("m", "hi", None, None, Some(true), None, None, map[]);
      Chat(EchoInference(), hi).outcome.result
        == Success("You are a helpful assistant. You only respond in JSON.")
  {
  }
}
