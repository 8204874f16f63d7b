/** The Claude processing provider of the provider registry: a fixed system
    prompt instead of a template. */
module ClaudeProcessingProvider {
  import opened Js
  import opened ApiErrors
  import opened ResponseParser
  import opened ApiKeyVerifier
  import opened ProviderKit

  datatype Provider = Provider(apiKey: string, model: string)

  /** A messages request: the model, the system prompt and the one user message. */
  datatype MessagesRequest = MessagesRequest(model: string, system: string, user: string)

  /** `createClaudeProcessingProvider({apiKey, processingModel})`. */
  function Create(apiKey: string, processingModel: string): (p: Provider)
    ensures p.apiKey == apiKey
    ensures p.model == (if processingModel == "" then "claude-3-opus-20240229" else processingModel)
  {
    Provider(apiKey, Or(processingModel, "claude-3-opus-20240229"))
  }

  /** What reading `.error` of a `null` body throws. */
  const NullBodyError: string := "Cannot read properties of null (reading 'error')"

  /** `error.error?.message` of a parsed error body, `""` when absent. */
  function ErrorMessageOf(body: Json): string
    requires body.JValue?
  {
    match body.error
    case Some(e) => e.message
    case None => ""
  }

  /** `verifyApiKey(apiKey)`: only the empty check is local; a refused request
      reports the body's error message or "Invalid API key". */
  function VerifyApiKey(apiKey: string, reply: JsonReply<()>): (r: Result<Verdict>)
    ensures apiKey == "" ==> r == Ok(Invalid("API key is empty"))
    ensures r == Ok(Valid) <==> apiKey != "" && reply.JAnswered?
    ensures apiKey != "" && reply.JRefused? && reply.body.JValue? ==>
      r == Ok(Invalid(Or(ErrorMessageOf(reply.body), "Invalid API key")))
  {
    if apiKey == "" then Ok(Invalid("API key is empty"))
    else
      match reply
      case JAnswered(_) => Ok(Valid)
      case JRefused(JNull) => Err(NullBodyError)
      case JRefused(body) => Ok(Invalid(Or(ErrorMessageOf(body), "Invalid API key")))
      case JFailed(m) => Err(m)
  }

  const SystemPromptHead: string := "You are an AI assistant that processes WhatsApp voice message transcriptions. Process the following transcript following these exact instructions:\n\nYour response MUST follow this exact format with FOUR sections separated by '----':\n[original transcript] ---- [grammatically corrected version in the original language - "
  const SystemPromptTail: string := "]\n[English translation if needed] ---- [concise summary in English] ---- [natural reply in the original language]\n\nInstructions for each section:\n1. First section: Copy the original transcript exactly as provided.\n2. Second section: Create a grammatically correct, polished version of the transcript. Remove filler words, false starts, and repetitions. Maintain the original meaning. Then, on the next line, provide the English translation if the original language is not English.\n3. Third section: Write a concise 1-2 sentence summary in English that captures the core message and key information from the transcript.\n4. Fourth section: Suggest a natural, conversational reply that directly addresses the main points or questions from the message. The reply should sound like something a real person would say in a WhatsApp conversation (not formal or robotic).\n\nUse ONLY '----' as separators with no additional text, headers, or explanations."

  /** The system prompt, with `options.language || "auto-detected"` in it. */
  function SystemPrompt(language: string): string {
    SystemPromptHead + Or(language, "auto-detected") + SystemPromptTail
  }

  /** The language named in the system prompt is the option, or "auto-detected". */
  lemma SystemPromptNamesLanguage(language: string)
    ensures Includes(SystemPrompt(language), Or(language, "auto-detected"))
  {
    IncludesMiddle(SystemPromptHead, Or(language, "auto-detected"), SystemPromptTail);
  }

  /** `processTranscription(transcription, {language})`; `options.promptTemplate`
      is not read. */
  function ProcessTranscription(p: Provider, transcription: string, language: string,
                                reply: JsonReply<string>): (r: Attempt<MessagesRequest, Processed>)
    ensures p.apiKey == "" ==> r == Attempt(None, Err("API key not configured"))
    ensures p.apiKey != "" ==> r.sent == Some(MessagesRequest(p.model, SystemPrompt(language), "TRANSCRIPT: " + transcription))
    ensures p.apiKey != "" && reply.JRefused? && reply.body.JValue? ==>
      r.result == Err(Or(ErrorMessageOf(reply.body), "Processing failed"))
    ensures r.result.Ok? ==> reply.JAnswered? && r.result.value == ParseProcessedResponse(reply.value, transcription)
  {
    if p.apiKey == "" then Attempt(None, Err(NoKeyMessage))
    else
      var request := MessagesRequest(p.model, SystemPrompt(language), "TRANSCRIPT: " + transcription);
      match reply
      case JAnswered(content) => Attempt(Some(request), Ok(ParseProcessedResponse(content, transcription)))
      case JRefused(JNull) => Attempt(Some(request), Err(NullBodyError))
      case JRefused(body) => Attempt(Some(request), Err(Or(ErrorMessageOf(body), "Processing failed")))
      case JFailed(m) => Attempt(Some(request), Err(m))
  }
}
