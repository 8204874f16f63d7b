/** The combined OpenAI provider object: key verification, Whisper transcription
    and chat-completion processing. */
module OpenAIProvider {
  import opened Js
  import opened Template
  import opened ResponseParser
  import opened ApiKeyVerifier
  import opened ProviderKit

  /** The members of `config` the provider reads; `""` is an absent member. */
  datatype Config = Config(apiKey: string, transcriptionModel: string, processingModel: string)

  datatype Provider = Provider(apiKey: string, transcriptionModel: string, processingModel: string)

  /** `createOpenAIProvider(config)`: the models default to `whisper-1` and
      `gpt-4o`. */
  function Create(config: Config): (p: Provider)
    ensures p.apiKey == config.apiKey
    ensures p.transcriptionModel == (if config.transcriptionModel == "" then "whisper-1" else config.transcriptionModel)
    ensures p.processingModel == (if config.processingModel == "" then "gpt-4o" else config.processingModel)
  {
    Provider(config.apiKey, Or(config.transcriptionModel, "whisper-1"), Or(config.processingModel, "gpt-4o"))
  }

  /** `verifyApiKey(apiKey)`: the local guards, then the models request, whose
      exceptions become "Network error" when they carry no message. */
  function VerifyApiKey(apiKey: string, reply: Reply<()>): (r: Verdict)
    ensures apiKey == "" ==> r == Invalid("API key is empty")
    ensures apiKey != "" && !StartsWith(apiKey, "sk-") ==> r == Invalid("Invalid API key format")
    ensures r.Valid? <==> KeyGuard(apiKey).None? && reply.Answered?
    ensures KeyGuard(apiKey).None? && reply.Failed? ==> r == Invalid(Or(reply.message, "Network error"))
  {
    match OpenAIModelsCheck(apiKey, reply)
    case Ok(v) => v
    case Err(m) => Invalid(Or(m, "Network error"))
  }

  /** `transcribeAudio(audioBlob, {language})`. */
  function TranscribeAudio(p: Provider, language: string, reply: Reply<string>): (r: Attempt<TranscriptionRequest, string>)
    ensures p.apiKey == "" ==> r == Attempt(None, Err("API key not configured"))
    ensures r.sent.Some? ==> r.sent.value.model == p.transcriptionModel && r.sent.value.fileName == "audio.ogg"
    ensures r.sent.Some? ==> (r.sent.value.language.Some? <==> language != "" && language != "auto")
  {
    OpenAITranscribe(p.apiKey, p.transcriptionModel, language, reply)
  }

  /** `processTranscription(transcription, {promptTemplate, language})`: the
      given template or the OpenAI default, rendered with the transcription and
      the language, which defaults to `auto`. */
  function ProcessTranscription(p: Provider, transcription: string, promptTemplate: string, language: string,
                                reply: Reply<string>): (r: Attempt<ChatRequest, Processed>)
    ensures p.apiKey == "" ==> r == Attempt(None, Err("API key not configured"))
    ensures r.sent.Some? ==> r.sent.value == ChatRequest(p.processingModel,
      Prompt(if promptTemplate == "" then OpenAIProcessing else promptTemplate, transcription,
             if language == "" then "auto" else language))
    ensures r.result.Ok? ==> r.result.value.transcript == transcription
  {
    OpenAIChat(p.apiKey, p.processingModel,
               Prompt(Or(promptTemplate, OpenAIProcessing), transcription, Or(language, "auto")),
               transcription, reply)
  }

  /** A custom template with a single `{{transcription}}` placeholder sends the
      transcription verbatim in that place. */
  lemma CustomTemplateCarriesTranscription(p: Provider, pre: string, post: string, transcription: string,
                                           language: string, reply: Reply<string>)
    requires p.apiKey != "" && NoOpening(pre) && NoPlaceholder(post)
    ensures ProcessTranscription(p, transcription, pre + Placeholder("transcription") + post, language, reply).sent
         == Some(ChatRequest(p.processingModel, pre + transcription + post))
  {
    PromptCarriesTranscription(pre, post, transcription, Or(language, "auto"));
  }
}
