/** The OpenAI transcription provider of the provider registry. */
module OpenAITranscriptionProvider {
  import opened Js
  import opened ApiErrors
  import opened ApiKeyVerifier
  import opened ProviderKit

  datatype Provider = Provider(apiKey: string, transcriptionModel: string)

  /** `createOpenAITranscriptionProvider(config)`. */
  function Create(apiKey: string, transcriptionModel: string): (p: Provider)
    ensures p.apiKey == apiKey
    ensures p.transcriptionModel == (if transcriptionModel == "" then "whisper-1" else transcriptionModel)
  {
    Provider(apiKey, Or(transcriptionModel, "whisper-1"))
  }

  /** `verifyApiKey(apiKey)`: guards, then the models request without a `try`. */
  function VerifyApiKey(apiKey: string, reply: Reply<()>): (r: Result<Verdict>)
    ensures apiKey == "" ==> r == Ok(Invalid("API key is empty"))
    ensures apiKey != "" && !StartsWith(apiKey, "sk-") ==> r == Ok(Invalid("Invalid API key format"))
    ensures r.Err? <==> KeyGuard(apiKey).None? && reply.Failed?
    ensures r == Ok(Valid) <==> KeyGuard(apiKey).None? && reply.Answered?
  {
    OpenAIModelsCheck(apiKey, reply)
  }

  /** `transcribeAudio(audioBlob, options)`: the model is the provider's, or
      `whisper-1` once more. */
  function TranscribeAudio(p: Provider, language: string, reply: Reply<string>): (r: Attempt<TranscriptionRequest, string>)
    ensures p.apiKey == "" ==> r == Attempt(None, Err("API key not configured"))
    ensures p.apiKey != "" ==> r.sent == Some(TranscriptionRequest(Or(p.transcriptionModel, "whisper-1"), "audio.ogg",
                                                                   if language != "" && language != "auto" then Some(language) else None))
    ensures p.apiKey != "" && reply.Refused? ==>
      r.result == Err(ParseOpenAIError(Text(reply.text, reply.parsed), "Transcription failed").message)
  {
    OpenAITranscribe(p.apiKey, Or(p.transcriptionModel, "whisper-1"), language, reply)
  }

  /** A created provider always sends a non-empty model name. */
  lemma ModelNeverEmpty(apiKey: string, transcriptionModel: string, language: string, reply: Reply<string>)
    requires apiKey != ""
    ensures TranscribeAudio(Create(apiKey, transcriptionModel), language, reply).sent.value.model != ""
  {
  }
}
