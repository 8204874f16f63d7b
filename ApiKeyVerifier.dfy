/** The shared key check: local guards on the key, then a request to the
    provider whose outcome is an input of the model. */
module ApiKeyVerifier {
  import opened Js
  import opened ApiErrors

  /** `{valid: true}` or `{valid: false, error}`. */
  datatype Verdict = Valid | Invalid(error: string)

  /** The settled outcome of the verification request: an OK response, a non-OK
      response with its body, or an exception with its message.  For OpenAI the
      body is the response text and what `JSON.parse` makes of it; for Claude it is
      what `response.json()` produced, and a body that is not JSON is an
      exception. */
  datatype VerifyReply = ReplyOk | ReplyRejected(body: ErrorInput) | ReplyThrew(message: string)

  /** `customValidation`: the `formatCheck` callbacks of every caller test a
      prefix, so a check is the prefix with its message (`""` when absent). */
  datatype FormatCheck = FormatCheck(prefix: string, errorMessage: string)

  /** `verifyOpenAIKey(apiKey, apiUrl)`, given how the request settled. */
  function VerifyOpenAIKey(reply: VerifyReply): (r: Result<Verdict>)
    ensures reply.ReplyOk? ==> r == Ok(Valid)
    ensures reply.ReplyRejected? ==> r == Ok(Invalid(ParseOpenAIError(reply.body, "Invalid API key").message))
    ensures reply.ReplyThrew? ==> r == Err(reply.message)
  {
    match reply
    case ReplyOk => Ok(Valid)
    case ReplyRejected(body) => Ok(Invalid(ParseOpenAIError(body, "Invalid API key").message))
    case ReplyThrew(m) => Err(m)
  }

  /** `verifyClaudeKey(apiKey, apiUrl, model)`. */
  function VerifyClaudeKey(reply: VerifyReply): (r: Result<Verdict>)
    ensures reply.ReplyOk? ==> r == Ok(Valid)
    ensures reply.ReplyRejected? ==> r == Ok(Invalid(ParseClaudeError(reply.body, "Invalid API key").message))
    ensures reply.ReplyThrew? ==> r == Err(reply.message)
  {
    match reply
    case ReplyOk => Ok(Valid)
    case ReplyRejected(body) => Ok(Invalid(ParseClaudeError(body, "Invalid API key").message))
    case ReplyThrew(m) => Err(m)
  }

  /** How a template literal prints an option that may be `undefined`. */
  function Show(v: Option<string>): string {
    match v
    case Some(s) => s
    case None => "undefined"
  }

  /** `verifyApiKey({apiKey, provider, customValidation, ...})`: the empty check,
      then the format check, then the dispatch on `provider`, with every
      exception turned into an invalid verdict. */
  function VerifyApiKey(apiKey: string, provider: Option<string>, check: Option<FormatCheck>, reply: VerifyReply): (r: Verdict)
    ensures apiKey == "" ==> r == Invalid("API key is empty")
    ensures apiKey != "" && check.Some? && !StartsWith(apiKey, check.value.prefix)
            ==> r == Invalid(Or(check.value.errorMessage, "Invalid API key format"))
    ensures r.Valid? ==> apiKey != "" && reply.ReplyOk? && provider in {Some("openai"), Some("claude")}
  {
    if apiKey == "" then Invalid("API key is empty")
    else if check.Some? && !StartsWith(apiKey, check.value.prefix) then
      Invalid(Or(check.value.errorMessage, "Invalid API key format"))
    else
      var outcome :=
        if provider == Some("openai") then VerifyOpenAIKey(reply)
        else if provider == Some("claude") then VerifyClaudeKey(reply)
        else Err("Unsupported provider: " + Show(provider));
      match outcome
      case Ok(v) => v
      case Err(m) => Invalid(Or(m, "Error validating " + Show(provider) + " API key"))
  }

  /** A key that passes the local guards is judged by the provider: valid exactly
      when the request succeeds, otherwise invalid with the provider's parsed
      message, or the exception's message. */
  lemma DispatchedVerdict(apiKey: string, provider: string, check: Option<FormatCheck>, reply: VerifyReply)
    requires apiKey != "" && (check.Some? ==> StartsWith(apiKey, check.value.prefix))
    requires provider == "openai" || provider == "claude"
    ensures var r := VerifyApiKey(apiKey, Some(provider), check, reply);
      (r.Valid? <==> reply.ReplyOk?)
      && (reply.ReplyRejected? && provider == "openai" ==> r == Invalid(ParseOpenAIError(reply.body, "Invalid API key").message))
      && (reply.ReplyRejected? && provider == "claude" ==> r == Invalid(ParseClaudeError(reply.body, "Invalid API key").message))
      && (reply.ReplyThrew? ==> r == Invalid(Or(reply.message, "Error validating " + provider + " API key")))
  {
  }

  /** Any other provider value fails once the local guards pass, whatever the
      network would have said; an absent `provider` prints as `undefined`. */
  lemma UnsupportedProvider(apiKey: string, provider: Option<string>, check: Option<FormatCheck>, reply: VerifyReply)
    requires apiKey != "" && (check.Some? ==> StartsWith(apiKey, check.value.prefix))
    requires provider != Some("openai") && provider != Some("claude")
    ensures VerifyApiKey(apiKey, provider, check, reply) == Invalid("Unsupported provider: " + Show(provider))
  {
  }
}
