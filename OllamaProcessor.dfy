/** The Ollama processor: a local server, no key, and a repair of the model's
    truncated JSON answer. */
module OllamaProcessor {
  import opened Js
  import opened Template
  import opened ResponseParser
  import opened ApiKeyVerifier
  import opened ProviderKit

  const DefaultUrl: string := "http://localhost:11434"
  const DefaultModel: string := "llama3.2:latest"

  /** `ollamaServerUrl` is `""` when absent or falsy. */
  datatype Config = Config(apiUrl: Option<string>, model: Option<string>, ollamaServerUrl: string)

  datatype Settings = Settings(apiUrl: string, model: string)

  /** The spread merge, then a truthy `ollamaServerUrl` overrides the URL. */
  function Create(config: Config): (s: Settings)
    ensures config.ollamaServerUrl != "" ==> s.apiUrl == config.ollamaServerUrl
    ensures config.ollamaServerUrl == "" ==> s.apiUrl == config.apiUrl.GetOr(DefaultUrl)
    ensures s.model == config.model.GetOr(DefaultModel)
  {
    Settings(Or(config.ollamaServerUrl, config.apiUrl.GetOr(DefaultUrl)), config.model.GetOr(DefaultModel))
  }

  /** How `GET /api/tags` settled: OK with whether `models` is an array, not OK,
      or an exception. */
  datatype TagsReply = TagsOk(modelsIsArray: bool) | TagsNotOk | TagsThrew(message: string)

  function ServerError(message: string, url: string): string {
    "Ollama server error: " + message + ". Make sure Ollama is running at " + url
  }

  /** `verifyOllamaKey()`: every failure is caught and reported with the URL. */
  function Verify(s: Settings, reply: TagsReply): (r: Verdict)
    ensures r.Valid? <==> reply == TagsOk(true)
    ensures reply == TagsNotOk ==> r == Invalid(ServerError("Failed to connect to Ollama server", s.apiUrl))
    ensures reply == TagsOk(false) ==> r == Invalid(ServerError("Unexpected response from Ollama server", s.apiUrl))
    ensures reply.TagsThrew? ==> r == Invalid(ServerError(reply.message, s.apiUrl))
  {
    match reply
    case TagsOk(true) => Valid
    case TagsOk(false) => Invalid(ServerError("Unexpected response from Ollama server", s.apiUrl))
    case TagsNotOk => Invalid(ServerError("Failed to connect to Ollama server", s.apiUrl))
    case TagsThrew(m) => Invalid(ServerError(m, s.apiUrl))
  }

  /** Every failed check tells the user where the server was expected. */
  lemma VerifyFailureNamesUrl(s: Settings, reply: TagsReply)
    requires Verify(s, reply).Invalid?
    ensures EndsWith(Verify(s, reply).error, ". Make sure Ollama is running at " + s.apiUrl)
  {
    var tail := ". Make sure Ollama is running at " + s.apiUrl;
    var m := match reply
      case TagsOk(_) => "Unexpected response from Ollama server"
      case TagsNotOk => "Failed to connect to Ollama server"
      case TagsThrew(msg) => msg;
    assert Verify(s, reply).error == ("Ollama server error: " + m) + tail;
  }

  predicate EndsWith(s: string, t: string) {
    |t| <= |s| && s[|s| - |t|..] == t
  }

  /** `result.response[length - 1] !== "}" ? response + "}" : response`; the
      last character of an empty string is `undefined`, which is not `}`. */
  function Repair(response: string): (r: string)
    ensures r != [] && r[|r| - 1] == '}'
    ensures r == response || r == response + "}"
    ensures r == response <==> response != [] && response[|response| - 1] == '}'
  {
    if response != [] && response[|response| - 1] == '}' then response else response + "}"
  }

  lemma RepairIdempotent(response: string)
    ensures Repair(Repair(response)) == Repair(response)
  {
  }

  /** The generate request: the fixed local URL and model, not the settings. */
  datatype GenerateRequest = GenerateRequest(url: string, model: string, prompt: string)

  /** What reading `.processing` of the missing `defaultTemplates.ollama` throws. */
  const MissingTemplateError: string := "Cannot read properties of undefined (reading 'processing')"

  /** `processWithOllama(transcription, options)`. */
  function Process(s: Settings, transcription: string, promptTemplate: string, language: string,
                   reply: Reply<string>): (r: Attempt<GenerateRequest, Processed>)
    ensures promptTemplate == "" ==> r == Attempt(None, Err(MissingTemplateError))
    ensures promptTemplate != "" ==> r.sent == Some(GenerateRequest(DefaultUrl + "/api/generate", DefaultModel,
      Prompt(promptTemplate, transcription, if language == "" then "same as transcription" else language)))
    ensures promptTemplate != "" && reply.Refused? ==> r.result == Err("Ollama processing failed: " + reply.text)
    ensures promptTemplate != "" && reply.Answered? ==>
      r.result == Ok(ParseProcessedResponse(Repair(reply.value), transcription))
    ensures promptTemplate != "" && reply.Failed? ==> r.result == Err(reply.message)
  {
    if promptTemplate == "" then Attempt(None, Err(MissingTemplateError))
    else
      var request := GenerateRequest(DefaultUrl + "/api/generate", DefaultModel,
        Prompt(promptTemplate, transcription, Or(language, "same as transcription")));
      match reply
      case Answered(response) =>
        Attempt(Some(request), Ok(ParseProcessedResponse(Repair(response), transcription)))
      case Refused(text, _) => Attempt(Some(request), Err("Ollama processing failed: " + text))
      case Failed(m) => Attempt(Some(request), Err(m))
  }

  /** The request does not depend on the settings at all. */
  lemma RequestIgnoresSettings(s1: Settings, s2: Settings, transcription: string, promptTemplate: string,
                               language: string, reply: Reply<string>)
    ensures Process(s1, transcription, promptTemplate, language, reply)
         == Process(s2, transcription, promptTemplate, language, reply)
  {
  }
}
