/** The OpenAI processing provider of the provider registry. */
module OpenAIProcessingProvider {
  import opened Js
  import opened Template
  import opened ResponseParser
  import opened ApiKeyVerifier
  import opened ProviderKit

  datatype Provider = Provider(apiKey: string, processingModel: string)

  /** `createOpenAIProcessingProvider({apiKey, processingModel})`. */
  function Create(apiKey: string, processingModel: string): (p: Provider)
    ensures p.apiKey == apiKey
    ensures p.processingModel == (if processingModel == "" then "gpt-4o" else processingModel)
  {
    Provider(apiKey, Or(processingModel, "gpt-4o"))
  }

  /** `verifyApiKey(apiKey)`: the local guards, then the models request; there is
      no `try`, so a network exception rejects the call. */
  function VerifyApiKey(apiKey: string, reply: Reply<()>): (r: Result<Verdict>)
    ensures apiKey == "" ==> r == Ok(Invalid("API key is empty"))
    ensures apiKey != "" && !StartsWith(apiKey, "sk-") ==> r == Ok(Invalid("Invalid API key format"))
    ensures r.Err? <==> KeyGuard(apiKey).None? && reply.Failed?
    ensures r == Ok(Valid) <==> KeyGuard(apiKey).None? && reply.Answered?
  {
    OpenAIModelsCheck(apiKey, reply)
  }

  /** `processTranscription(transcription, {promptTemplate, language})`. */
  function ProcessTranscription(p: Provider, transcription: string, promptTemplate: string, language: string,
                                reply: Reply<string>): (r: Attempt<ChatRequest, Processed>)
    ensures p.apiKey == "" ==> r == Attempt(None, Err("API key not configured"))
    ensures r.sent.Some? ==> r.sent.value == ChatRequest(p.processingModel,
      Prompt(if promptTemplate == "" then OpenAIProcessing else promptTemplate, transcription,
             if language == "" then "auto" else language))
    ensures r.result.Ok? ==> r.result.value.transcript == transcription
  {
    OpenAIChat(p.apiKey, p.processingModel,
               Prompt(Or(promptTemplate, OpenAIProcessing), transcription, Or(language, "auto")),
               transcription, reply)
  }

  lemma CustomTemplateCarriesTranscription(p: Provider, pre: string, post: string, transcription: string,
                                           language: string, reply: Reply<string>)
    requires p.apiKey != "" && NoOpening(pre) && NoPlaceholder(post)
    ensures ProcessTranscription(p, transcription, pre + Placeholder("transcription") + post, language, reply).sent
         == Some(ChatRequest(p.processingModel, pre + transcription + post))
  {
    PromptCarriesTranscription(pre, post, transcription, Or(language, "auto"));
  }
}
