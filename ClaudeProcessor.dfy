/** The function-style Claude processor. */
module ClaudeProcessor {
  import opened Js
  import opened Template
  import opened ApiErrors
  import opened ResponseParser
  import opened ApiKeyVerifier
  import opened ProviderKit

  datatype Config = Config(apiKey: Option<string>, apiUrl: Option<string>, model: Option<string>)

  datatype Settings = Settings(apiKey: string, apiUrl: string, model: string)

  /** `{...DEFAULT_CONFIG, ...config}`. */
  function Merge(config: Config): (s: Settings)
    ensures config.apiUrl.None? ==> s.apiUrl == "https://api.anthropic.com"
    ensures config.model.None? ==> s.model == "claude-3-opus-20240229"
    ensures config.apiUrl.Some? ==> s.apiUrl == config.apiUrl.value
    ensures config.model.Some? ==> s.model == config.model.value
    ensures s.apiKey == (if config.apiKey.Some? then config.apiKey.value else "")
  {
    Settings(config.apiKey.GetOr(""), config.apiUrl.GetOr("https://api.anthropic.com"),
             config.model.GetOr("claude-3-opus-20240229"))
  }

  const FormatMessage: string := "Invalid API key format, should start with sk-ant-"

  /** `verifyClaudeKey(key)` as written: `providerType` instead of `provider`. */
  function VerifyKey(key: string, reply: VerifyReply): (r: Verdict)
    ensures key == "" ==> r == Invalid("API key is empty")
    ensures key != "" && !StartsWith(key, "sk-ant-") ==> r == Invalid(FormatMessage)
    ensures r != Valid
  {
    ApiKeyVerifier.VerifyApiKey(key, None, Some(FormatCheck("sk-ant-", FormatMessage)), reply)
  }

  lemma WellFormedKeyRejected(key: string, reply: VerifyReply)
    requires key != "" && StartsWith(key, "sk-ant-")
    ensures VerifyKey(key, reply) == Invalid("Unsupported provider: undefined")
  {
    UnsupportedProvider(key, None, Some(FormatCheck("sk-ant-", FormatMessage)), reply);
  }

  /** The verification with `provider: "claude"`. */
  function VerifyKeyIntended(key: string, reply: VerifyReply): (r: Verdict)
    ensures key == "" ==> r == Invalid("API key is empty")
    ensures key != "" && !StartsWith(key, "sk-ant-") ==> r == Invalid(FormatMessage)
  {
    ApiKeyVerifier.VerifyApiKey(key, Some("claude"), Some(FormatCheck("sk-ant-", FormatMessage)), reply)
  }

  lemma IntendedVerifyJudgedByClaude(key: string, reply: VerifyReply)
    requires key != "" && StartsWith(key, "sk-ant-")
    ensures VerifyKeyIntended(key, reply).Valid? <==> reply.ReplyOk?
    ensures reply.ReplyRejected? ==>
      VerifyKeyIntended(key, reply) == Invalid(ParseClaudeError(reply.body, "Invalid API key").message)
  {
    DispatchedVerdict(key, "claude", Some(FormatCheck("sk-ant-", FormatMessage)), reply);
  }

  /** `options.promptTemplate || defaultTemplates.claude?.processing ||
      defaultTemplates.openai.processing`. */
  function ChooseTemplate(promptTemplate: string): string {
    Or(Or(promptTemplate, ClaudeProcessing), OpenAIProcessing)
  }

  /** The Claude default always exists, so the OpenAI default is never reached. */
  lemma ClaudeDefaultUsed(promptTemplate: string)
    ensures ChooseTemplate(promptTemplate) == (if promptTemplate == "" then ClaudeProcessing else promptTemplate)
  {
    assert |ClaudeProcessing| > 0;
  }

  /** `processWithClaude(transcription, options)`; a non-OK body is read as text
      and parsed with the Claude rules. */
  function Process(s: Settings, transcription: string, promptTemplate: string, language: string,
                   reply: Reply<string>): (r: Attempt<ChatRequest, Processed>)
    ensures s.apiKey == "" ==> r == Attempt(None, Err("API key not configured"))
    ensures s.apiKey != "" ==> r.sent == Some(ChatRequest(s.model,
      Prompt(ChooseTemplate(promptTemplate), transcription, if language == "" then "same as transcription" else language)))
    ensures s.apiKey != "" && reply.Refused? ==>
      r.result == Err(ParseClaudeError(Text(reply.text, reply.parsed), "Processing failed").message)
    ensures s.apiKey != "" && reply.Answered? ==> r.result == Ok(ParseProcessedResponse(reply.value, transcription))
    ensures s.apiKey != "" && reply.Failed? ==> r.result == Err(reply.message)
  {
    if s.apiKey == "" then Attempt(None, Err(NoKeyMessage))
    else
      var request := ChatRequest(s.model,
        Prompt(ChooseTemplate(promptTemplate), transcription, Or(language, "same as transcription")));
      match reply
      case Answered(content) => Attempt(Some(request), Ok(ParseProcessedResponse(content, transcription)))
      case Refused(text, parsed) =>
        Attempt(Some(request), Err(ParseClaudeError(Text(text, parsed), "Processing failed").message))
      case Failed(m) => Attempt(Some(request), Err(m))
  }
}
