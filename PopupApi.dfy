/** The popup's two OpenAI calls: transcribing a recording and analysing a
    transcription with the configured prompt, as they move the status counter
    and record the last error.  How each request settled is an input. */
module PopupApi {
  import opened Js
  import opened Status
  import opened ResponseParser
  import opened AnalysisParser
  import opened PopupStores
  import opened ProviderKit

  /** How a request whose error body is read with `response.text()` settled: an
      OK response with the member read from its JSON, a non-OK response with its
      text, or an exception. */
  datatype Fetched<T> = Received(value: T) | Rejected(text: string) | Thrown(message: string)

  /** The chat request `analyzeTranscription` sends. */
  datatype AnalysisRequest = AnalysisRequest(model: string, systemPrompt: string, userPrompt: string)

  const AnalysisSystemPrompt: string := "You are an AI assistant that processes voice message transcriptions."

  /** Raising the counter and clearing the error, as both calls do on start. */
  function Started(s: Status): (r: Status)
    ensures r.pending == s.pending + 1 && r.lastError == ""
    ensures r.isApiKeyConfigured == s.isApiKeyConfigured && r.isExtensionEnabled == s.isExtensionEnabled
  {
    s.(pending := s.pending + 1, lastError := "")
  }

  function Finished(s: Status): (r: Status)
    ensures r.pending == s.pending - 1
    ensures r.lastError == s.lastError
    ensures r.isApiKeyConfigured == s.isApiKeyConfigured && r.isExtensionEnabled == s.isExtensionEnabled
  {
    s.(pending := s.pending - 1)
  }

  /** The message a failed transcription request rejects with. */
  function TranscriptionFailure(reply: Fetched<string>): string {
    match reply
    case Rejected(text) => "Transcription failed: " + text
    case Thrown(m) => m
    case Received(_) => ""
  }

  /** What `transcribeAudio` resolves or rejects with, once a key was found. */
  function TranscribeResult(reply: Fetched<string>): (r: Result<string>)
    ensures r.Ok? <==> reply.Received?
    ensures reply.Received? ==> r.value == reply.value
    ensures reply.Rejected? ==> r == Err("Transcription failed: " + reply.text)
    ensures reply.Thrown? ==> r == Err(reply.message)
  {
    if reply.Received? then Ok(reply.value) else Err(TranscriptionFailure(reply))
  }

  /** The status `transcribeAudio` leaves, from the status after the key lookup,
      as written: the counter is lowered only after a successful response. */
  function TranscribeStatus(s: Status, keyFound: bool, reply: Fetched<string>): (r: Status)
    ensures !keyFound ==> r == s
    ensures keyFound && reply.Received? ==> r == s.(lastError := "")
    ensures keyFound && !reply.Received? ==> r == s.(pending := s.pending + 1, lastError := "")
  {
    if !keyFound then s
    else if reply.Received? then Finished(Started(s))
    else Started(s)
  }

  /** `transcribeAudio(audioBlob)`, as written. */
  method TranscribeAudio(stores: Stores, keyResponse: Option<string>, reply: Fetched<string>)
    returns (sent: Option<TranscriptionRequest>, r: Result<string>)
    modifies stores
    ensures var key := KnownKey(old(stores.apiKey), keyResponse);
      && sent == (if key.Some? then Some(TranscriptionRequest(old(stores.transcriptionModel), "audio.ogg", None)) else None)
      && r == (if key.Some? then TranscribeResult(reply) else Err(NoKeyMessage))
      && stores.status == TranscribeStatus(LookupStatus(old(stores.status), old(stores.apiKey), keyResponse), key.Some?, reply)
      && stores.apiKey == key.GetOr(old(stores.apiKey))
    ensures stores.transcriptionModel == old(stores.transcriptionModel) && stores.analysisModel == old(stores.analysisModel)
    ensures stores.settings == old(stores.settings) && stores.persisting == old(stores.persisting)
    ensures old(stores.Persisted()) ==> stores.Persisted()
  {
    var key := stores.GetApiKey(keyResponse);
    var model := stores.transcriptionModel;
    if key.None? {
      return None, Err(NoKeyMessage);
    }
    stores.UpdateStatusStore(Started(stores.status));
    sent := Some(TranscriptionRequest(model, "audio.ogg", None));
    match reply
    case Rejected(text) =>
      r := Err("Transcription failed: " + text);
    case Thrown(m) =>
      r := Err(m);
    case Received(text) =>
      stores.UpdateStatusStore(Finished(stores.status));
      r := Ok(text);
  }

  /** A ready popup whose transcription request fails reads "Transcribing..."
      from then on, with no error shown, although nothing is in progress. */
  lemma FailedTranscriptionStaysPending(s: Status, reply: Fetched<string>)
    requires StatusText(s) == StatusLine("Ready", Success) && s.pending == 0
    requires !reply.Received?
    ensures StatusText(TranscribeStatus(s, true, reply)) == StatusLine("Transcribing...", Pending)
    ensures TranscribeResult(reply).Err?
  {
  }

  /** Each failed request adds one to the counter for good. */
  lemma {:induction false} FailuresAccumulate(s: Status, n: nat, reply: Fetched<string>)
    requires !reply.Received?
    ensures Repeat(s, n, reply).pending == s.pending + n
    ensures n > 0 ==> Repeat(s, n, reply).lastError == ""
  {
    if n > 0 {
      FailuresAccumulate(s, n - 1, reply);
    }
  }

  /** `n` transcriptions in a row with the same outcome, as written. */
  function Repeat(s: Status, n: nat, reply: Fetched<string>): Status {
    if n == 0 then s else TranscribeStatus(Repeat(s, n - 1, reply), true, reply)
  }

  /** The status a transcription leaves when the counter is lowered on every
      path after it was raised, as `analyzeTranscription` does with `finally`;
      a failure records its message. */
  function TranscribeStatusIntended(s: Status, keyFound: bool, reply: Fetched<string>): (r: Status)
    ensures r.pending == s.pending
    ensures r.isApiKeyConfigured == s.isApiKeyConfigured && r.isExtensionEnabled == s.isExtensionEnabled
    ensures keyFound ==> r.lastError == TranscriptionFailure(reply)
    ensures !keyFound ==> r == s
  {
    if !keyFound then s
    else if reply.Received? then Finished(Started(s))
    else Finished(Started(s).(lastError := TranscriptionFailure(reply)))
  }

  /** `transcribeAudio` with the counter lowered on every path. */
  method TranscribeAudioIntended(stores: Stores, keyResponse: Option<string>, reply: Fetched<string>)
    returns (sent: Option<TranscriptionRequest>, r: Result<string>)
    modifies stores
    ensures var key := KnownKey(old(stores.apiKey), keyResponse);
      && sent == (if key.Some? then Some(TranscriptionRequest(old(stores.transcriptionModel), "audio.ogg", None)) else None)
      && r == (if key.Some? then TranscribeResult(reply) else Err(NoKeyMessage))
      && stores.status == TranscribeStatusIntended(LookupStatus(old(stores.status), old(stores.apiKey), keyResponse), key.Some?, reply)
      && stores.apiKey == key.GetOr(old(stores.apiKey))
    ensures stores.transcriptionModel == old(stores.transcriptionModel) && stores.analysisModel == old(stores.analysisModel)
    ensures stores.settings == old(stores.settings) && stores.persisting == old(stores.persisting)
    ensures old(stores.Persisted()) ==> stores.Persisted()
  {
    var key := stores.GetApiKey(keyResponse);
    var model := stores.transcriptionModel;
    if key.None? {
      return None, Err(NoKeyMessage);
    }
    stores.UpdateStatusStore(Started(stores.status));
    sent := Some(TranscriptionRequest(model, "audio.ogg", None));
    match reply {
      case Received(text) =>
        r := Ok(text);
      case _ =>
        r := Err(TranscriptionFailure(reply));
        stores.UpdateStatusStore(stores.status.(lastError := r.message));
    }
    stores.UpdateStatusStore(Finished(stores.status));
  }

  /** With the counter lowered on every path, a ready popup is ready again after
      a successful transcription and shows the error after a failed one; the
      counter never drifts. */
  lemma TranscriptionSettles(s: Status, reply: Fetched<string>)
    requires StatusText(s) == StatusLine("Ready", Success)
    ensures TranscribeStatusIntended(s, true, reply).pending == s.pending
    ensures reply.Received? ==> StatusText(TranscribeStatusIntended(s, true, reply)) == StatusLine("Ready", Success)
    ensures !reply.Received? && TranscriptionFailure(reply) != "" ==>
      StatusText(TranscribeStatusIntended(s, true, reply)) == StatusLine("Error: " + TranscriptionFailure(reply), Error)
  {
  }

  /** The user prompt: the first `TRANSCRIPT` of the template is replaced. */
  function UserPrompt(template: string, transcription: string): (r: string)
    ensures !Includes(template, "TRANSCRIPT") ==> r == template
  {
    ReplaceFirst(template, "TRANSCRIPT", transcription)
  }

  /** A template whose first label follows `pre` is sent with that label alone
      replaced by the expanded transcription; later labels stay. */
  lemma UserPromptReplacesFirstLabel(pre: string, post: string, transcription: string)
    requires !Includes(pre + "TRANSCRIP", "TRANSCRIPT")
    ensures UserPrompt(pre + "TRANSCRIPT" + post, transcription)
         == pre + Substitution(transcription, "TRANSCRIPT", pre, post) + post
  {
    assert "TRANSCRIPT"[..9] == "TRANSCRIP";
    ReplaceFirstEarliest(pre, "TRANSCRIPT", post, transcription);
  }

  /** What `analyzeTranscription` resolves or rejects with, once a key was found. */
  function AnalyzeResult(reply: Fetched<string>, transcription: string): (r: Result<Processed>)
    ensures r.Ok? <==> reply.Received?
    ensures reply.Received? ==> r.value == ParseAnalysisResponse(reply.value, transcription)
    ensures r.Ok? ==> r.value.transcript == transcription
    ensures reply.Rejected? ==> r == Err("Analysis failed: " + reply.text)
    ensures reply.Thrown? ==> r == Err(reply.message)
  {
    match reply
    case Received(content) => Ok(ParseAnalysisResponse(content, transcription))
    case Rejected(text) => Err("Analysis failed: " + text)
    case Thrown(m) => Err(m)
  }

  /** The status `analyzeTranscription` leaves, from the status after the key
      lookup: raised and cleared on start, the error recorded in `catch`, lowered
      in `finally`. */
  function AnalyzeStatus(s: Status, keyFound: bool, reply: Fetched<string>, transcription: string): (r: Status)
    ensures r.pending == s.pending
    ensures r.isApiKeyConfigured == s.isApiKeyConfigured && r.isExtensionEnabled == s.isExtensionEnabled
    ensures keyFound && reply.Received? ==> r.lastError == ""
    ensures keyFound && !reply.Received? ==> r.lastError == AnalyzeResult(reply, transcription).message
    ensures !keyFound ==> r == s
  {
    if !keyFound then s
    else match AnalyzeResult(reply, transcription)
      case Ok(_) => Finished(Started(s))
      case Err(m) => Finished(Started(s).(lastError := m))
  }

  /** `analyzeTranscription(transcription)`. */
  method AnalyzeTranscription(stores: Stores, keyResponse: Option<string>, transcription: string, reply: Fetched<string>)
    returns (sent: Option<AnalysisRequest>, r: Result<Processed>)
    modifies stores
    ensures var key := KnownKey(old(stores.apiKey), keyResponse);
      && sent == (if key.Some? then Some(AnalysisRequest(old(stores.analysisModel), AnalysisSystemPrompt,
                                                          UserPrompt(old(stores.settings.promptTemplate), transcription)))
                  else None)
      && r == (if key.Some? then AnalyzeResult(reply, transcription) else Err(NoKeyMessage))
      && stores.status == AnalyzeStatus(LookupStatus(old(stores.status), old(stores.apiKey), keyResponse), key.Some?, reply, transcription)
      && stores.apiKey == key.GetOr(old(stores.apiKey))
    ensures stores.transcriptionModel == old(stores.transcriptionModel) && stores.analysisModel == old(stores.analysisModel)
    ensures stores.settings == old(stores.settings) && stores.persisting == old(stores.persisting)
    ensures old(stores.Persisted()) ==> stores.Persisted()
  {
    var key := stores.GetApiKey(keyResponse);
    var model := stores.analysisModel;
    var settings := stores.settings;
    if key.None? {
      return None, Err(NoKeyMessage);
    }
    stores.UpdateStatusStore(Started(stores.status));
    var userPrompt := ReplaceFirst(settings.promptTemplate, "TRANSCRIPT", transcription);
    sent := Some(AnalysisRequest(model, AnalysisSystemPrompt, userPrompt));
    r := AnalyzeResult(reply, transcription);
    if r.Err? {
      stores.UpdateStatusStore(stores.status.(lastError := r.message));
    }
    stores.UpdateStatusStore(Finished(stores.status));
  }

  /** The head of the default prompt holds no `T`. */
  lemma DefaultPromptHeadFree()
    ensures 'T' !in DefaultPromptHead
  {
    assert 'T' !in "Based on the voice ";
    assert 'T' !in "message transcript, ";
    assert 'T' !in "generate four outputs:\n";
  }

  /** The default prompt carries the transcription once, in place of the label at
      the start of its second line, with its `$` patterns expanded against that
      label and the template around it, and keeps the rest of the template as it
      is, whatever the transcription holds. */
  lemma DefaultPromptCarriesTranscription(transcription: string)
    ensures UserPrompt(DefaultPromptTemplate, transcription)
         == DefaultPromptHead + Substitution(transcription, "TRANSCRIPT", DefaultPromptHead, DefaultPromptTail) + DefaultPromptTail
  {
    DefaultPromptHeadFree();
    ReplaceFirstAt(DefaultPromptHead, "TRANSCRIPT", DefaultPromptTail, transcription);
  }

  /** A transcription without a dollar sign goes into the default prompt verbatim. */
  lemma PlainTranscriptionVerbatim(transcription: string)
    requires '$' !in transcription
    ensures UserPrompt(DefaultPromptTemplate, transcription) == DefaultPromptHead + transcription + DefaultPromptTail
  {
    DefaultPromptCarriesTranscription(transcription);
    SubstitutionPlain(transcription, "TRANSCRIPT", DefaultPromptHead, DefaultPromptTail);
  }

  /** A doubled dollar sign in an otherwise plain transcription reaches the model
      as one: `costs $$5` is sent as `costs $5`. */
  lemma DoubledDollarCollapses(before: string, after: string)
    requires '$' !in before && '$' !in after
    ensures UserPrompt(DefaultPromptTemplate, before + "$$" + after)
         == DefaultPromptHead + (before + "$" + after) + DefaultPromptTail
  {
    DefaultPromptCarriesTranscription(before + "$$" + after);
    DoubledDollar(before, after, "TRANSCRIPT", DefaultPromptHead, DefaultPromptTail);
  }
}
