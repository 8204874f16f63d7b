/** Turning a provider's HTTP error body into an error with a message, a type and a
    text for the user, and turning a pipeline error into the result shown in the
    chat.  JSON parsing itself is not modelled: an error body is given together
    with what `JSON.parse` makes of it. */
module ApiErrors {
  import opened Js
  import opened ResponseParser

  /** The `error` member of a parsed error body; `""` stands for an absent, `null`
      or empty `type` or `message`. */
  datatype ErrorBody = ErrorBody(errType: string, message: string)

  /** A parsed JSON value, as far as the parsers look at it: `null`, or any other
      value with its truthy `error` member if it has one. */
  datatype Json = JNull | JValue(error: Option<ErrorBody>)

  /** The `errorData` argument: response text together with the outcome of
      `JSON.parse` on it (`None` when it throws), or an already parsed value. */
  datatype ErrorInput = Text(raw: string, parsed: Option<Json>) | Parsed(value: Json)

  datatype ApiError = ApiError(message: string, errType: string, userMessage: string)

  /** The checks a provider plugs into the shared parser. */
  datatype Rules = OpenAIRules | ClaudeRules

  const DefaultMessage: string := "API request failed"
  const GenericUserMessage: string := "There was an error processing your request. Please try again."
  const AuthMessage: string := "Authentication failed. Please check your API key."
  const AuthUserMessage: string := "Your API key appears to be invalid. Please check your settings."
  const InvalidRequestMessage: string := "Invalid request to the API"
  const InvalidRequestUserMessage: string := "There was a problem with the request. Please check your settings."
  const QuotaPhrase: string := "API key has reached its usage limit"

  /** The quota error's message: "Your <provider> API key has reached its usage
      limit. Please check your billing details or use a different API key." */
  function QuotaMessage(providerName: string): string {
    "Your " + providerName + " " + QuotaPhrase + ". Please check your billing details or use a different API key."
  }

  function QuotaUserMessage(providerName: string): string {
    "Your API key has reached its usage limit. Please check your " + providerName
      + " account billing details or update your API key."
  }

  /** The provider named in quota messages: the company, not the model. */
  function ProviderName(rules: Rules): (r: string)
    ensures r == "OpenAI" <==> rules == OpenAIRules
    ensures r == "Anthropic" <==> rules == ClaudeRules
  {
    match rules
    case OpenAIRules => "OpenAI"
    case ClaudeRules => "Anthropic"
  }

  /** `isAuthError`: OpenAI compares the type exactly, Claude looks for words in it. */
  predicate IsAuthError(rules: Rules, errType: string)
    ensures errType == "authentication_error" ==> IsAuthError(rules, errType)
    ensures errType == "" ==> !IsAuthError(rules, errType)
  {
    match rules
    case OpenAIRules => errType == "authentication_error"
    case ClaudeRules => Includes(errType, "authentication") || Includes(errType, "unauthorized")
  }

  /** `isQuotaError`: OpenAI compares the type exactly, Claude also counts rate
      limiting as a quota error. */
  predicate IsQuotaError(rules: Rules, errType: string)
    ensures rules == OpenAIRules ==> (IsQuotaError(rules, errType) <==> errType == "insufficient_quota")
    ensures rules == ClaudeRules && errType == "rate_limit_error" ==> IsQuotaError(rules, errType)
    ensures errType == "" ==> !IsQuotaError(rules, errType)
  {
    match rules
    case OpenAIRules => errType == "insufficient_quota"
    case ClaudeRules => Includes(errType, "quota") || Includes(errType, "rate_limit")
  }

  /** `isInvalidRequest`: only the OpenAI rules supply this check. */
  predicate IsInvalidRequest(rules: Rules, errType: string)
    ensures IsInvalidRequest(rules, errType) ==> rules == OpenAIRules
    ensures IsInvalidRequest(rules, errType) ==> !IsAuthError(rules, errType) && !IsQuotaError(rules, errType)
  {
    rules == OpenAIRules && errType == "invalid_request_error"
  }

  /** Every type the OpenAI rules recognise, the Claude rules recognise as the
      same kind of error. */
  lemma ClaudeRulesCoverOpenAI(errType: string)
    ensures IsAuthError(OpenAIRules, errType) ==> IsAuthError(ClaudeRules, errType)
    ensures IsQuotaError(OpenAIRules, errType) ==> IsQuotaError(ClaudeRules, errType)
  {
    if errType == "insufficient_quota" {
      assert errType == "insufficient_" + "quota";
      IncludesSuffix("insufficient_", "quota", "quota");
    }
  }

  /** `baseErrorParser(errorData, defaultMessage, options)`. */
  function BaseErrorParser(input: ErrorInput, defaultMessage: string, rules: Rules): (r: ApiError)
    ensures r.userMessage in {GenericUserMessage, AuthUserMessage, QuotaUserMessage(ProviderName(rules)),
                              InvalidRequestUserMessage}
    ensures input.Text? && input.parsed.None? ==> r == ApiError(input.raw, "unknown", GenericUserMessage)
    ensures r.message == "" ==> defaultMessage == "" || input == Text("", None)
  {
    var json := match input
      case Text(_, parsed) => parsed
      case Parsed(value) => Some(value);
    match json
    case None =>
      // JSON.parse threw: the text itself becomes the message
      ApiError(input.raw, "unknown", GenericUserMessage)
    case Some(JNull) => ApiError(defaultMessage, "unknown", GenericUserMessage)
    case Some(JValue(None)) => ApiError(defaultMessage, "unknown", GenericUserMessage)
    case Some(JValue(Some(body))) =>
      var errorType := body.errType;
      var errorMessage := Or(body.message, defaultMessage);
      if IsAuthError(rules, errorType) then
        ApiError(AuthMessage, "authentication", AuthUserMessage)
      else if IsQuotaError(rules, errorType) then
        ApiError(QuotaMessage(ProviderName(rules)), "quota_exceeded", QuotaUserMessage(ProviderName(rules)))
      else if IsInvalidRequest(rules, errorType) then
        ApiError(Or(errorMessage, InvalidRequestMessage), "invalid_request", InvalidRequestUserMessage)
      else
        ApiError(errorMessage, Or(errorType, "unknown"), GenericUserMessage)
  }

  /** `parseOpenAIError(errorText, defaultMessage)`. */
  function ParseOpenAIError(input: ErrorInput, defaultMessage: string): (r: ApiError)
    ensures input.Text? && input.parsed.None? ==> r.message == input.raw
  {
    BaseErrorParser(input, defaultMessage, OpenAIRules)
  }

  /** `parseClaudeError(errorData, defaultMessage)`. */
  function ParseClaudeError(input: ErrorInput, defaultMessage: string): (r: ApiError)
    ensures r.userMessage != InvalidRequestUserMessage
  {
    BaseErrorParser(input, defaultMessage, ClaudeRules)
  }

  /** The `error` member the parsers act on, if the input parsed to one. */
  function BodyOf(input: ErrorInput): Option<ErrorBody> {
    match input
    case Text(_, Some(JValue(e))) => e
    case Parsed(JValue(e)) => e
    case _ => None
  }

  /** Without an `error` member the default message is reported, with a generic
      type, whether the body is `null`, lacks the member or is not an object. */
  lemma MissingErrorMember(input: ErrorInput, defaultMessage: string, rules: Rules)
    requires BodyOf(input).None? && !(input.Text? && input.parsed.None?)
    ensures BaseErrorParser(input, defaultMessage, rules) == ApiError(defaultMessage, "unknown", GenericUserMessage)
  {
  }

  /** An authentication error wins over every other classification. */
  lemma AuthClassified(input: ErrorInput, defaultMessage: string, rules: Rules)
    requires BodyOf(input).Some? && IsAuthError(rules, BodyOf(input).value.errType)
    ensures BaseErrorParser(input, defaultMessage, rules) == ApiError(AuthMessage, "authentication", AuthUserMessage)
  {
  }

  /** The quota message names the provider and carries the phrase the result
      formatter looks for. */
  lemma QuotaMessageHasPhrase(providerName: string)
    ensures Includes(QuotaMessage(providerName), QuotaPhrase)
  {
    var tail := ". Please check your billing details or use a different API key.";
    var front := "Your " + providerName + " ";
    assert QuotaMessage(providerName) == front + (QuotaPhrase + tail);
    assert OccursAt(QuotaPhrase, QuotaPhrase, 0);
    IncludesIff(QuotaPhrase, QuotaPhrase);
    IncludesPrefix(QuotaPhrase, tail, QuotaPhrase);
    IncludesSuffix(front, QuotaPhrase + tail, QuotaPhrase);
  }

  /** For OpenAI, an `insufficient_quota` body yields the quota error; for Claude
      any type mentioning `quota` or `rate_limit` does, unless it also reads as an
      authentication error. */
  lemma QuotaClassified(input: ErrorInput, defaultMessage: string, rules: Rules)
    requires BodyOf(input).Some?
    requires var t := BodyOf(input).value.errType; IsQuotaError(rules, t) && !IsAuthError(rules, t)
    ensures var r := BaseErrorParser(input, defaultMessage, rules);
      r.errType == "quota_exceeded" && Includes(r.message, QuotaPhrase)
      && r.userMessage == QuotaUserMessage(ProviderName(rules))
  {
    QuotaMessageHasPhrase(ProviderName(rules));
  }

  /** An error the rules do not single out passes the provider's own message and
      type through, falling back to the default message and to `unknown`. */
  lemma UnclassifiedPassesThrough(input: ErrorInput, defaultMessage: string, rules: Rules)
    requires BodyOf(input).Some?
    requires var t := BodyOf(input).value.errType;
      !IsAuthError(rules, t) && !IsQuotaError(rules, t) && !IsInvalidRequest(rules, t)
    ensures var b := BodyOf(input).value;
      BaseErrorParser(input, defaultMessage, rules)
        == ApiError(Or(b.message, defaultMessage), Or(b.errType, "unknown"), GenericUserMessage)
  {
  }

  // ---------------------------------------------------------------------------
  // The background bundle's own `parseOpenAIError`, written as a `switch`

  /** `parseOpenAIError(errorText, defaultMessage)` as bundled into the background
      script: `null` makes the member access throw, and the catch falls back to the
      text or the default message. */
  function BundledParseOpenAIError(raw: string, parsed: Option<Json>, defaultMessage: string): (r: ApiError)
    ensures parsed.None? || parsed == Some(JNull) ==> r == ApiError(Or(raw, defaultMessage), "unknown", GenericUserMessage)
  {
    match parsed
    case None => ApiError(Or(raw, defaultMessage), "unknown", GenericUserMessage)
    case Some(JNull) => ApiError(Or(raw, defaultMessage), "unknown", GenericUserMessage)
    case Some(JValue(None)) => ApiError(defaultMessage, "unknown", GenericUserMessage)
    case Some(JValue(Some(body))) =>
      if body.errType == "insufficient_quota" then
        ApiError(QuotaMessage("OpenAI"), "quota_exceeded", QuotaUserMessage("OpenAI"))
      else if body.errType == "invalid_request_error" then
        ApiError(Or(body.message, InvalidRequestMessage), "invalid_request", InvalidRequestUserMessage)
      else if body.errType == "authentication_error" then
        ApiError(AuthMessage, "authentication", AuthUserMessage)
      else
        ApiError(Or(body.message, defaultMessage), Or(body.errType, "unknown"), GenericUserMessage)
  }

  /** The bundled parser agrees with the shared one except in three places: a
      `null` body, an empty unparsable text, and an invalid-request error without a
      message, where the shared parser reports the caller's default message and the
      bundled one "Invalid request to the API". */
  lemma BundledAgreesWithShared(raw: string, parsed: Option<Json>, defaultMessage: string)
    requires parsed != Some(JNull)
    requires parsed.None? ==> raw != ""
    requires parsed.Some? && parsed.value.error.Some? && parsed.value.error.value.errType == "invalid_request_error"
             ==> parsed.value.error.value.message != "" || defaultMessage == ""
    ensures BundledParseOpenAIError(raw, parsed, defaultMessage) == ParseOpenAIError(Text(raw, parsed), defaultMessage)
  {
  }

  /** A `null` body: the shared parser reports the default message, the bundled one
      the text `null` itself. */
  lemma BundledNullBodyDiffers(defaultMessage: string)
    ensures ParseOpenAIError(Text("null", Some(JNull)), defaultMessage).message == defaultMessage
    ensures BundledParseOpenAIError("null", Some(JNull), defaultMessage).message == "null"
  {
  }

  // ---------------------------------------------------------------------------
  // `formatTranscriptionError`

  const BillingAdvice: string :=
    "Please update your API key in the extension settings or check your OpenAI account billing details."
  const RetryAdvice: string := "Try again later or check the extension settings."

  /** `formatTranscriptionError(error)`, given the error's message. */
  function FormatTranscriptionError(errorMessage: string): (r: Processed)
    ensures r.transcript == "ERROR: " + errorMessage && r.summary == "" && r.reply == ""
    ensures r.cleaned == (if Includes(errorMessage, QuotaPhrase) then BillingAdvice else RetryAdvice)
  {
    Processed("ERROR: " + errorMessage,
              if Includes(errorMessage, QuotaPhrase) then BillingAdvice else RetryAdvice,
              "", "")
  }

  /** A quota error from either provider, once thrown and formatted, tells the user
      to check their billing details. */
  lemma QuotaErrorAdvisesBilling(input: ErrorInput, defaultMessage: string, rules: Rules)
    requires BodyOf(input).Some?
    requires var t := BodyOf(input).value.errType; IsQuotaError(rules, t) && !IsAuthError(rules, t)
    ensures FormatTranscriptionError(BaseErrorParser(input, defaultMessage, rules).message).cleaned == BillingAdvice
  {
    QuotaClassified(input, defaultMessage, rules);
  }
}
