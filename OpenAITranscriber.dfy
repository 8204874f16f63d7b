/** The function-style OpenAI transcriber. */
module OpenAITranscriber {
  import opened Js
  import opened ApiErrors
  import opened ApiKeyVerifier
  import opened ProviderKit

  datatype Config = Config(apiKey: Option<string>, apiUrl: Option<string>, model: Option<string>)

  datatype Settings = Settings(apiKey: string, apiUrl: string, model: string)

  /** `{...DEFAULT_CONFIG, ...config}`: only `config.model` changes the model. */
  function Merge(config: Config): (s: Settings)
    ensures s.model == (if config.model.Some? then config.model.value else "whisper-1")
    ensures s.apiUrl == (if config.apiUrl.Some? then config.apiUrl.value else "https://api.openai.com")
    ensures s.apiKey == (if config.apiKey.Some? then config.apiKey.value else "")
  {
    Settings(config.apiKey.GetOr(""), config.apiUrl.GetOr("https://api.openai.com"), config.model.GetOr("whisper-1"))
  }

  const FormatMessage: string := "Invalid API key format, should start with sk-"

  /** `verifyOpenAIKey(key)` as written, with `providerType` instead of `provider`. */
  function VerifyKey(key: string, reply: VerifyReply): (r: Verdict)
    ensures key == "" ==> r == Invalid("API key is empty")
    ensures key != "" && !StartsWith(key, "sk-") ==> r == Invalid(FormatMessage)
    ensures r != Valid
  {
    ApiKeyVerifier.VerifyApiKey(key, None, Some(FormatCheck("sk-", FormatMessage)), reply)
  }

  lemma WellFormedKeyRejected(key: string, reply: VerifyReply)
    requires key != "" && StartsWith(key, "sk-")
    ensures VerifyKey(key, reply) == Invalid("Unsupported provider: undefined")
  {
    UnsupportedProvider(key, None, Some(FormatCheck("sk-", FormatMessage)), reply);
  }

  /** The verification with `provider: "openai"`. */
  function VerifyKeyIntended(key: string, reply: VerifyReply): (r: Verdict)
    ensures key == "" ==> r == Invalid("API key is empty")
    ensures key != "" && !StartsWith(key, "sk-") ==> r == Invalid(FormatMessage)
  {
    ApiKeyVerifier.VerifyApiKey(key, Some("openai"), Some(FormatCheck("sk-", FormatMessage)), reply)
  }

  lemma IntendedVerifyJudgedByOpenAI(key: string, reply: VerifyReply)
    requires key != "" && StartsWith(key, "sk-")
    ensures VerifyKeyIntended(key, reply).Valid? <==> reply.ReplyOk?
    ensures reply.ReplyThrew? ==> VerifyKeyIntended(key, reply) == Invalid(Or(reply.message, "Error validating openai API key"))
  {
    DispatchedVerdict(key, "openai", Some(FormatCheck("sk-", FormatMessage)), reply);
  }

  /** `transcribeWithOpenAI(audioBlob, options)`. */
  function Transcribe(s: Settings, language: string, reply: Reply<string>): (r: Attempt<TranscriptionRequest, string>)
    ensures s.apiKey == "" ==> r == Attempt(None, Err("API key not configured"))
    ensures s.apiKey != "" ==> r.sent.Some? && r.sent.value.model == s.model && r.sent.value.fileName == "audio.ogg"
    ensures r.sent.Some? ==> (r.sent.value.language == Some(language) <==> language != "" && language != "auto")
    ensures r.sent.Some? ==> (r.sent.value.language.None? <==> language == "" || language == "auto")
    ensures s.apiKey != "" && reply.Answered? ==> r.result == Ok(reply.value)
    ensures s.apiKey != "" && reply.Refused? ==>
      r.result == Err(ParseOpenAIError(Text(reply.text, reply.parsed), "Transcription failed").message)
  {
    OpenAITranscribe(s.apiKey, s.model, language, reply)
  }
}
