/** What the provider implementations have in common: how a request settled, the
    requests they build, the optional `language` field, the OpenAI transcription
    and chat calls, and the prompt rendering.  HTTP itself is not modelled; the
    settled outcome of each request is an input. */
module ProviderKit {
  import opened Js
  import opened Template
  import opened ApiErrors
  import opened ResponseParser
  import opened ApiKeyVerifier

  /** How a request whose error body is read with `response.text()` settled: an OK
      response with the member the caller reads from its JSON, a non-OK response
      with its text and what `JSON.parse` makes of it, or an exception. */
  datatype Reply<T> = Answered(value: T) | Refused(text: string, parsed: Option<Json>) | Failed(message: string)

  /** The same for a request whose error body is read with `response.json()`; a
      body that is not JSON makes that call throw, which is a `JFailed`. */
  datatype JsonReply<T> = JAnswered(value: T) | JRefused(body: Json) | JFailed(message: string)

  /** A request that was sent, or none, and how the call ended. */
  datatype Attempt<Req, T> = Attempt(sent: Option<Req>, result: Result<T>)

  /** The multipart transcription request: `model`, the file name, and `language`
      when one is sent. */
  datatype TranscriptionRequest = TranscriptionRequest(model: string, fileName: string, language: Option<string>)

  /** A chat request with a single user message. */
  datatype ChatRequest = ChatRequest(model: string, content: string)

  /** `if (options.language && options.language !== "auto") formData.append(...)`. */
  function LanguageField(language: string): (r: Option<string>)
    ensures r.Some? <==> language != "" && language != "auto"
    ensures r.Some? ==> r.value == language
  {
    if language != "" && language != "auto" then Some(language) else None
  }

  const NoKeyMessage: string := "API key not configured"

  /** The OpenAI transcription call shared by every OpenAI transcriber: no request
      without a key, the file is `audio.ogg`, and a non-OK response is thrown as
      its parsed message with the default "Transcription failed". */
  function OpenAITranscribe(apiKey: string, model: string, language: string, reply: Reply<string>)
    : (r: Attempt<TranscriptionRequest, string>)
    ensures apiKey == "" ==> r == Attempt(None, Err(NoKeyMessage))
    ensures apiKey != "" ==> r.sent == Some(TranscriptionRequest(model, "audio.ogg", LanguageField(language)))
    ensures apiKey != "" && reply.Answered? ==> r.result == Ok(reply.value)
    ensures apiKey != "" && reply.Refused? ==>
      r.result == Err(ParseOpenAIError(Text(reply.text, reply.parsed), "Transcription failed").message)
    ensures apiKey != "" && reply.Failed? ==> r.result == Err(reply.message)
  {
    if apiKey == "" then Attempt(None, Err(NoKeyMessage))
    else
      var request := TranscriptionRequest(model, "audio.ogg", LanguageField(language));
      match reply
      case Answered(text) => Attempt(Some(request), Ok(text))
      case Refused(text, parsed) =>
        Attempt(Some(request), Err(ParseOpenAIError(Text(text, parsed), "Transcription failed").message))
      case Failed(m) => Attempt(Some(request), Err(m))
  }

  /** The variables every template-driven processor renders with. */
  function PromptVariables(transcription: string, language: string): Variables {
    map["transcription" := transcription, "language" := language]
  }

  /** The prompt sent for `template` (already defaulted by the caller). */
  function Prompt(template: string, transcription: string, language: string): string {
    RenderTemplate(template, PromptVariables(transcription, language))
  }

  /** A template holding one `{{transcription}}` placeholder, and no other, sends
      the transcription verbatim in its place, whatever the transcription holds. */
  lemma PromptCarriesTranscription(pre: string, post: string, transcription: string, language: string)
    requires NoOpening(pre) && NoPlaceholder(post)
    ensures Prompt(pre + Placeholder("transcription") + post, transcription, language) == pre + transcription + post
  {
    var key := "transcription";
    var vars := PromptVariables(transcription, language);
    assert key != [] && forall m :: 0 <= m < |key| ==> key[m] != '}';
    assert Trim(key) == key by {
      assert !IsSpace(key[0]) && !IsSpace(key[|key| - 1]);
      TrimNoop(key);
    }
    assert Substitute(key, Placeholder(key), vars) == transcription;
    RenderOnePlaceholder(pre, key, post, vars);
  }

  /** The OpenAI chat-completion call used for processing: no request without a
      key, a non-OK response is thrown as its parsed message with the default
      "Processing failed", and the reply is read with the section parser. */
  function OpenAIChat(apiKey: string, model: string, prompt: string, transcription: string, reply: Reply<string>)
    : (r: Attempt<ChatRequest, Processed>)
    ensures apiKey == "" ==> r == Attempt(None, Err(NoKeyMessage))
    ensures apiKey != "" ==> r.sent == Some(ChatRequest(model, prompt))
    ensures apiKey != "" && reply.Answered? ==> r.result == Ok(ParseProcessedResponse(reply.value, transcription))
    ensures apiKey != "" && reply.Refused? ==>
      r.result == Err(ParseOpenAIError(Text(reply.text, reply.parsed), "Processing failed").message)
    ensures r.result.Ok? ==> r.result.value.transcript == transcription
  {
    if apiKey == "" then Attempt(None, Err(NoKeyMessage))
    else
      var request := ChatRequest(model, prompt);
      match reply
      case Answered(content) => Attempt(Some(request), Ok(ParseProcessedResponse(content, transcription)))
      case Refused(text, parsed) =>
        Attempt(Some(request), Err(ParseOpenAIError(Text(text, parsed), "Processing failed").message))
      case Failed(m) => Attempt(Some(request), Err(m))
  }

  /** The guards the class-style OpenAI providers run before verifying over the
      network: an empty key, then a key without the `sk-` prefix. */
  function KeyGuard(apiKey: string): (r: Option<string>)
    ensures apiKey == "" <==> r == Some("API key is empty")
    ensures r == Some("Invalid API key format") <==> apiKey != "" && !StartsWith(apiKey, "sk-")
    ensures r.None? <==> apiKey != "" && StartsWith(apiKey, "sk-")
  {
    if apiKey == "" then Some("API key is empty")
    else if !StartsWith(apiKey, "sk-") then Some("Invalid API key format")
    else None
  }

  /** The `/v1/models` key check shared by the OpenAI class providers, without a
      `try`: a network exception is passed on. */
  function OpenAIModelsCheck(apiKey: string, reply: Reply<()>): (r: Result<Verdict>)
    ensures KeyGuard(apiKey).Some? ==> r == Ok(Invalid(KeyGuard(apiKey).value))
    ensures r == Ok(Valid) <==> KeyGuard(apiKey).None? && reply.Answered?
    ensures KeyGuard(apiKey).None? && reply.Refused? ==>
      r == Ok(Invalid(ParseOpenAIError(Text(reply.text, reply.parsed), "Invalid API key").message))
    ensures r.Err? <==> KeyGuard(apiKey).None? && reply.Failed?
  {
    match KeyGuard(apiKey)
    case Some(e) => Ok(Invalid(e))
    case None =>
      match reply
      case Answered(_) => Ok(Valid)
      case Refused(text, parsed) => Ok(Invalid(ParseOpenAIError(Text(text, parsed), "Invalid API key").message))
      case Failed(m) => Err(m)
  }
}
