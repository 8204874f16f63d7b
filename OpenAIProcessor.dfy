/** The function-style OpenAI processor: `DEFAULT_CONFIG` overridden by the
    caller's config, key verification through the shared verifier, and
    template-driven processing. */
module OpenAIProcessor {
  import opened Js
  import opened Template
  import opened ApiErrors
  import opened ResponseParser
  import opened ApiKeyVerifier
  import opened ProviderKit

  /** The members of `config`; `None` is an absent member, which the spread does
      not copy, while a present one overrides the default even when empty. */
  datatype Config = Config(apiKey: Option<string>, apiUrl: Option<string>, model: Option<string>)

  datatype Settings = Settings(apiKey: string, apiUrl: string, model: string)

  /** `{...DEFAULT_CONFIG, ...config}`; `apiKey` has no default. */
  function Merge(config: Config): (s: Settings)
    ensures config.apiUrl.None? ==> s.apiUrl == "https://api.openai.com"
    ensures config.model.None? ==> s.model == "gpt-4o"
    ensures config.apiUrl.Some? ==> s.apiUrl == config.apiUrl.value
    ensures config.model.Some? ==> s.model == config.model.value
    ensures s.apiKey == (if config.apiKey.Some? then config.apiKey.value else "")
  {
    Settings(config.apiKey.GetOr(""), config.apiUrl.GetOr("https://api.openai.com"), config.model.GetOr("gpt-4o"))
  }

  const FormatMessage: string := "Invalid API key format, should start with sk-"

  /** `verifyOpenAIKey(key)` as written: the options carry `providerType`, which
      the verifier does not read, so its `provider` is `undefined`. */
  function VerifyKey(key: string, reply: VerifyReply): (r: Verdict)
    ensures key == "" ==> r == Invalid("API key is empty")
    ensures key != "" && !StartsWith(key, "sk-") ==> r == Invalid(FormatMessage)
    ensures r != Valid
  {
    ApiKeyVerifier.VerifyApiKey(key, None, Some(FormatCheck("sk-", FormatMessage)), reply)
  }

  /** A well-formed key is never accepted: whatever the network would say, the
      verdict is "Unsupported provider: undefined". */
  lemma WellFormedKeyRejected(key: string, reply: VerifyReply)
    requires key != "" && StartsWith(key, "sk-")
    ensures VerifyKey(key, reply) == Invalid("Unsupported provider: undefined")
  {
    UnsupportedProvider(key, None, Some(FormatCheck("sk-", FormatMessage)), reply);
  }

  /** The verification the options evidently mean: `provider: "openai"`. */
  function VerifyKeyIntended(key: string, reply: VerifyReply): (r: Verdict)
    ensures key == "" ==> r == Invalid("API key is empty")
    ensures key != "" && !StartsWith(key, "sk-") ==> r == Invalid(FormatMessage)
  {
    ApiKeyVerifier.VerifyApiKey(key, Some("openai"), Some(FormatCheck("sk-", FormatMessage)), reply)
  }

  /** With the provider named, a well-formed key is valid exactly when OpenAI
      accepts it. */
  lemma IntendedVerifyJudgedByOpenAI(key: string, reply: VerifyReply)
    requires key != "" && StartsWith(key, "sk-")
    ensures VerifyKeyIntended(key, reply).Valid? <==> reply.ReplyOk?
    ensures reply.ReplyRejected? ==>
      VerifyKeyIntended(key, reply) == Invalid(ParseOpenAIError(reply.body, "Invalid API key").message)
  {
    DispatchedVerdict(key, "openai", Some(FormatCheck("sk-", FormatMessage)), reply);
  }

  /** `processWithOpenAI(transcription, options)`: the key is the configured one,
      the model `settings.model`, the language defaults to "same as
      transcription". */
  function Process(s: Settings, transcription: string, promptTemplate: string, language: string,
                   reply: Reply<string>): (r: Attempt<ChatRequest, Processed>)
    ensures s.apiKey == "" ==> r == Attempt(None, Err("API key not configured"))
    ensures r.sent.Some? ==> r.sent.value == ChatRequest(s.model,
      Prompt(if promptTemplate == "" then OpenAIProcessing else promptTemplate, transcription,
             if language == "" then "same as transcription" else language))
    ensures s.apiKey != "" && reply.Refused? ==>
      r.result == Err(ParseOpenAIError(Text(reply.text, reply.parsed), "Processing failed").message)
    ensures r.result.Ok? ==> r.result.value.transcript == transcription
  {
    OpenAIChat(s.apiKey, s.model,
               Prompt(Or(promptTemplate, OpenAIProcessing), transcription, Or(language, "same as transcription")),
               transcription, reply)
  }

  /** A `processingModel` in the config does not reach the request. */
  lemma ProcessingModelIgnored(config: Config, transcription: string, promptTemplate: string, language: string,
                               reply: Reply<string>)
    requires config.apiKey.Some? && config.apiKey.value != ""
    ensures Process(Merge(config), transcription, promptTemplate, language, reply).sent.value.model
         == config.model.GetOr("gpt-4o")
  {
  }
}
