/** The transcription service of the content script: which providers the
    settings select, the key check by category with the keys it saves, and the
    pipeline from a voice message to the processed result with its status
    updates.  The settings service is the object it reads and updates; how each
    provider request settles is an input. */
module TranscriptionService {
  import opened Js
  import opened Status
  import opened SettingsKit
  import SV = SettingsService
  import Registry
  import Template
  import opened ResponseParser
  import opened ApiErrors
  import opened ApiKeyVerifier
  import opened ProviderKit
  import OTP = OpenAITranscriptionProvider
  import OPP = OpenAIProcessingProvider
  import CPP = ClaudeProcessingProvider

  /** A stored value where the source uses it as a string. */
  function Shown(v: Value): string {
    match v
    case Str(s) => s
    case Flag(b) => if b then "true" else "false"
    case Null => "null"
  }

  /** A stored value passed as an option that the callee tests for truthiness: a
      falsy one is as absent as `""`. */
  function OptionText(v: Value): (r: string)
    ensures !Truthy(v) ==> r == ""
    ensures v.Str? ==> r == v.s
  {
    if Truthy(v) then Shown(v) else ""
  }

  /** `Object.keys(settings).length > 0 ? settings : getAllSettings()`. */
  function Effective(settings: Record, global: Record): Record {
    if |settings| > 0 then settings else global
  }

  /** The provider type and the key each half of the pipeline uses. */
  function TranscriptionType(s: Record): Value {
    OrV(OrV(Member(s, "transcriptionProviderType"), Member(s, "providerType")), Str("openai"))
  }

  function TranscriptionKey(s: Record): Value {
    OrV(OrV(Member(s, "transcriptionApiKey"), Member(s, "apiKey")), Str(""))
  }

  function ProcessingType(s: Record): Value {
    OrV(OrV(Member(s, "processingProviderType"), Member(s, "providerType")), Str("openai"))
  }

  function ProcessingKey(s: Record): Value {
    OrV(OrV(Member(s, "processingApiKey"), Member(s, "apiKey")), Str(""))
  }

  /** A specific setting wins over the legacy `providerType`/`apiKey`, which wins
      over the default `openai` or `""`. */
  lemma SelectionFallbacks(s: Record)
    ensures Truthy(Member(s, "transcriptionProviderType")) ==> TranscriptionType(s) == s["transcriptionProviderType"]
    ensures !Truthy(Member(s, "transcriptionProviderType")) && Truthy(Member(s, "providerType"))
            ==> TranscriptionType(s) == s["providerType"]
    ensures !Truthy(Member(s, "transcriptionProviderType")) && !Truthy(Member(s, "providerType"))
            ==> TranscriptionType(s) == Str("openai")
    ensures Truthy(Member(s, "processingProviderType")) ==> ProcessingType(s) == s["processingProviderType"]
    ensures !Truthy(Member(s, "processingProviderType")) && Truthy(Member(s, "providerType"))
            ==> ProcessingType(s) == s["providerType"]
    ensures !Truthy(Member(s, "processingProviderType")) && !Truthy(Member(s, "providerType"))
            ==> ProcessingType(s) == Str("openai")
    ensures Truthy(Member(s, "transcriptionApiKey")) ==> TranscriptionKey(s) == s["transcriptionApiKey"]
    ensures !Truthy(Member(s, "transcriptionApiKey")) ==> TranscriptionKey(s) == OrV(Member(s, "apiKey"), Str(""))
    ensures Truthy(Member(s, "processingApiKey")) ==> ProcessingKey(s) == s["processingApiKey"]
    ensures !Truthy(Member(s, "processingApiKey")) ==> ProcessingKey(s) == OrV(Member(s, "apiKey"), Str(""))
  {
  }

  /** The processing providers of the registry. */
  datatype ProcessingProvider = OpenAIProcessor(openai: OPP.Provider) | ClaudeProcessor(claude: CPP.Provider)

  /** `getConfiguredTranscriptionProvider(settings)`. */
  function ConfiguredTranscriptionProvider(settings: Record, global: Record): (r: Result<OTP.Provider>)
    ensures var all := Effective(settings, global);
      && (r.Ok? <==> Shown(TranscriptionType(all)) == "openai")
      && (r.Ok? ==> r.value == OTP.Create(OptionText(TranscriptionKey(all)), OptionText(Member(all, "transcriptionModel"))))
      && (r.Err? ==> r.message == "Unsupported transcription provider type: " + Shown(TranscriptionType(all)))
  {
    var all := Effective(settings, global);
    match Registry.GetTranscriptionProvider(Shown(TranscriptionType(all)))
    case Err(m) => Err(m)
    case Ok(_) => Ok(OTP.Create(OptionText(TranscriptionKey(all)), OptionText(Member(all, "transcriptionModel"))))
  }

  /** `getConfiguredProcessingProvider(settings)`. */
  function ConfiguredProcessingProvider(settings: Record, global: Record): (r: Result<ProcessingProvider>)
    ensures var all := Effective(settings, global);
      var t := Shown(ProcessingType(all));
      var key := OptionText(ProcessingKey(all));
      var model := OptionText(Member(all, "processingModel"));
      && (t == "openai" ==> r == Ok(OpenAIProcessor(OPP.Create(key, model))))
      && (t == "claude" ==> r == Ok(ClaudeProcessor(CPP.Create(key, model))))
      && (t != "openai" && t != "claude" ==> r == Err("Unsupported processing provider type: " + t))
  {
    var all := Effective(settings, global);
    var t := Shown(ProcessingType(all));
    var key := OptionText(ProcessingKey(all));
    var model := OptionText(Member(all, "processingModel"));
    match Registry.GetProcessingProvider(t)
    case Err(m) => Err(m)
    case Ok(_) => if t == "claude" then Ok(ClaudeProcessor(CPP.Create(key, model))) else Ok(OpenAIProcessor(OPP.Create(key, model)))
  }

  /** An empty settings argument selects from the global settings, and a non-empty
      one is used as it is. */
  lemma EmptySettingsUseGlobal(settings: Record, global: Record)
    ensures |settings| == 0 ==> ConfiguredTranscriptionProvider(settings, global) == ConfiguredTranscriptionProvider(global, global)
    ensures |settings| == 0 ==> ConfiguredProcessingProvider(settings, global) == ConfiguredProcessingProvider(global, global)
    ensures |settings| != 0 ==> ConfiguredTranscriptionProvider(settings, global) == ConfiguredTranscriptionProvider(settings, settings)
    ensures |settings| != 0 ==> ConfiguredProcessingProvider(settings, global) == ConfiguredProcessingProvider(settings, settings)
  {
  }

  /** How the verification requests settle: the OpenAI transcription provider's,
      the OpenAI processing provider's and the Claude provider's. */
  datatype VerifyReplies = VerifyReplies(transcription: Reply<()>, openaiProcessing: Reply<()>, claude: JsonReply<()>)

  /** The provider type a key check uses: the argument (`""` for `null`), else
      the category's setting, else the legacy setting, else `openai`; the `both`
      check, like any category other than the two, uses only the legacy setting. */
  function VerifyType(providerType: string, category: string, s: Record): (r: string)
    ensures providerType != "" ==> r == providerType
    ensures providerType == "" && !Truthy(Member(s, "providerType"))
            && (category == "transcription" ==> !Truthy(Member(s, "transcriptionProviderType")))
            && (category == "processing" ==> !Truthy(Member(s, "processingProviderType")))
            ==> r == "openai"
  {
    var given := Str(providerType);
    if category == "transcription" then
      Shown(OrV(OrV(OrV(given, Member(s, "transcriptionProviderType")), Member(s, "providerType")), Str("openai")))
    else if category == "processing" then
      Shown(OrV(OrV(OrV(given, Member(s, "processingProviderType")), Member(s, "providerType")), Str("openai")))
    else
      Shown(OrV(OrV(given, Member(s, "providerType")), Str("openai")))
  }

  /** `processingProvider.verifyApiKey(apiKey)` for a registered processing type. */
  function ProcessingVerify(t: string, apiKey: string, replies: VerifyReplies): Result<Verdict> {
    if t == "claude" then CPP.VerifyApiKey(apiKey, replies.claude) else OPP.VerifyApiKey(apiKey, replies.openaiProcessing)
  }

  /** A thrown error becomes `{valid: false, error: error.message}`. */
  function Caught(r: Result<Verdict>): Verdict {
    match r
    case Ok(v) => v
    case Err(m) => Invalid(m)
  }

  /** The verdict of `verifyApiKey(apiKey, providerType, providerCategory)` and
      the settings it saves, if any. */
  datatype Outcome = Outcome(verdict: Verdict, saved: Option<Record>)

  function SavedWhenValid(v: Verdict, updates: Record): Option<Record> {
    if v.Valid? then Some(updates) else None
  }

  /** The key check as the source sequences it: the providers are looked up
      first, the `both` check stops at an invalid transcription verdict, and only
      a valid verdict saves keys. */
  function VerifyOutcome(apiKey: string, providerType: string, category: string, s: Record, replies: VerifyReplies): (r: Outcome)
    ensures r.saved.Some? ==> r.verdict == Valid
    ensures r.saved.Some? ==> forall k :: k in r.saved.value ==> r.saved.value[k] == Str(apiKey)
  {
    var t := VerifyType(providerType, category, s);
    var key := Str(apiKey);
    if category == "transcription" then
      match Registry.GetTranscriptionProvider(t)
      case Err(m) => Outcome(Invalid(m), None)
      case Ok(_) =>
        var v := Caught(OTP.VerifyApiKey(apiKey, replies.transcription));
        Outcome(v, SavedWhenValid(v, map["transcriptionApiKey" := key]))
    else if category == "processing" then
      match Registry.GetProcessingProvider(t)
      case Err(m) => Outcome(Invalid(m), None)
      case Ok(_) =>
        var v := Caught(ProcessingVerify(t, apiKey, replies));
        Outcome(v, SavedWhenValid(v, map["processingApiKey" := key]))
    else
      match Registry.GetTranscriptionProvider(t)
      case Err(m) => Outcome(Invalid(m), None)
      case Ok(_) =>
        match Registry.GetProcessingProvider(t)
        case Err(m) => Outcome(Invalid(m), None)
        case Ok(_) =>
          match OTP.VerifyApiKey(apiKey, replies.transcription)
          case Err(m) => Outcome(Invalid(m), None)
          case Ok(tv) =>
            if !tv.Valid? then Outcome(tv, None)
            else
              var v := Caught(ProcessingVerify(t, apiKey, replies));
              Outcome(v, SavedWhenValid(v, map["apiKey" := key, "transcriptionApiKey" := key, "processingApiKey" := key]))
  }

  /** Keys are saved exactly when the verdict is valid, and what is saved is the
      checked key under the names of its category: the matching key alone for
      `transcription` or `processing`, all three for `both`. */
  lemma SavedIffValid(apiKey: string, providerType: string, category: string, s: Record, replies: VerifyReplies)
    ensures var o := VerifyOutcome(apiKey, providerType, category, s, replies);
      && (o.saved.Some? <==> o.verdict.Valid?)
      && (o.saved.Some? && category == "transcription" ==> o.saved.value == map["transcriptionApiKey" := Str(apiKey)])
      && (o.saved.Some? && category == "processing" ==> o.saved.value == map["processingApiKey" := Str(apiKey)])
      && (o.saved.Some? && category != "transcription" && category != "processing" ==>
            o.saved.value == map["apiKey" := Str(apiKey), "transcriptionApiKey" := Str(apiKey), "processingApiKey" := Str(apiKey)])
  {
  }

  /** The `both` check returns an invalid transcription verdict as it is, saves
      nothing, and never consults the processing provider. */
  lemma BothStopsAtTranscription(apiKey: string, providerType: string, category: string, s: Record,
                                 replies: VerifyReplies, other: VerifyReplies, e: string)
    requires category != "transcription" && category != "processing"
    requires VerifyType(providerType, category, s) == "openai"
    requires OTP.VerifyApiKey(apiKey, replies.transcription) == Ok(Invalid(e))
    requires other.transcription == replies.transcription
    ensures VerifyOutcome(apiKey, providerType, category, s, replies) == Outcome(Invalid(e), None)
    ensures VerifyOutcome(apiKey, providerType, category, s, other) == Outcome(Invalid(e), None)
  {
  }

  /** Once the transcription key passes, the `both` check reports the processing
      verdict, and saves all three keys exactly when it is valid. */
  lemma BothReportsProcessing(apiKey: string, providerType: string, category: string, s: Record, replies: VerifyReplies)
    requires category != "transcription" && category != "processing"
    requires VerifyType(providerType, category, s) == "openai"
    requires OTP.VerifyApiKey(apiKey, replies.transcription) == Ok(Valid)
    ensures VerifyOutcome(apiKey, providerType, category, s, replies).verdict
         == Caught(OPP.VerifyApiKey(apiKey, replies.openaiProcessing))
  {
  }

  /** A type no registry accepts is an invalid verdict with the registry's message;
      in particular `both` with a legacy `claude` setting always fails, since
      Claude cannot transcribe. */
  lemma UnsupportedTypeIsInvalid(apiKey: string, category: string, s: Record, replies: VerifyReplies)
    requires category != "transcription" && category != "processing"
    requires Member(s, "providerType") == Str("claude")
    ensures VerifyOutcome(apiKey, "", category, s, replies)
         == Outcome(Invalid("Unsupported transcription provider type: claude"), None)
  {
    assert VerifyType("", category, s) == "claude";
    assert "claude" !in Registry.TranscriptionProviders;
    assert Registry.GetTranscriptionProvider("claude") == Err("Unsupported transcription provider type: claude");
  }

  /** A network exception during a check is an invalid verdict carrying the
      exception's message. */
  lemma ExceptionIsInvalid(apiKey: string, s: Record, replies: VerifyReplies, m: string)
    requires StartsWith(apiKey, "sk-") && replies.transcription == Failed(m)
    requires VerifyType("", "transcription", s) == "openai"
    ensures VerifyOutcome(apiKey, "", "transcription", s, replies) == Outcome(Invalid(m), None)
  {
  }

  /** How the pipeline's requests settle: the transcription, the OpenAI processing
      and the Claude processing request. */
  datatype ProcessReplies = ProcessReplies(transcription: Reply<string>, openaiProcessing: Reply<string>, claude: JsonReply<string>)

  /** The template handed to the processing provider: the configured one, else
      the default of the processing (or legacy) provider type, else OpenAI's. */
  function PromptTemplateFor(s: Record): (r: string)
    ensures r != ""
  {
    Or(OptionText(Member(s, "promptTemplate")),
       Template.DefaultProcessing(OptionText(OrV(Member(s, "processingProviderType"), Member(s, "providerType"))))
         .GetOr(Template.OpenAIProcessing))
  }

  /** A configured template wins; without one every stored provider type gets a
      default prompt, the OpenAI one when it has none of its own. */
  lemma TemplatePrecedence(s: Record)
    ensures Truthy(Member(s, "promptTemplate")) && Member(s, "promptTemplate").Str?
            ==> PromptTemplateFor(s) == Member(s, "promptTemplate").s
    ensures !Truthy(Member(s, "promptTemplate")) && Member(s, "processingProviderType") == Str("claude")
            ==> PromptTemplateFor(s) == Template.ClaudeProcessing
    ensures !Truthy(Member(s, "promptTemplate")) && !Truthy(Member(s, "processingProviderType")) && !Truthy(Member(s, "providerType"))
            ==> PromptTemplateFor(s) == Template.OpenAIProcessing
    ensures !Truthy(Member(s, "promptTemplate")) ==> PromptTemplateFor(s) != ""
  {
  }

  /** The pipeline up to the processed result, or the message of the first error:
      the transcription provider, the transcription, the processing provider, the
      processing. */
  function ProcessOutcome(s: Record, replies: ProcessReplies): (r: Result<Processed>)
    ensures ConfiguredTranscriptionProvider(s, s).Err? ==> r == Err(ConfiguredTranscriptionProvider(s, s).message)
    ensures ConfiguredTranscriptionProvider(s, s).Ok? && ConfiguredProcessingProvider(s, s).Err?
            && OTP.TranscribeAudio(ConfiguredTranscriptionProvider(s, s).value, OptionText(Member(s, "language")), replies.transcription).result.Ok?
            ==> r == Err(ConfiguredProcessingProvider(s, s).message)
  {
    var language := OptionText(Member(s, "language"));
    match ConfiguredTranscriptionProvider(s, s)
    case Err(m) => Err(m)
    case Ok(tp) =>
      match OTP.TranscribeAudio(tp, language, replies.transcription).result
      case Err(m) => Err(m)
      case Ok(transcription) =>
        match ConfiguredProcessingProvider(s, s)
        case Err(m) => Err(m)
        case Ok(OpenAIProcessor(pp)) =>
          OPP.ProcessTranscription(pp, transcription, PromptTemplateFor(s), language, replies.openaiProcessing).result
        case Ok(ClaudeProcessor(cp)) =>
          CPP.ProcessTranscription(cp, transcription, language, replies.claude).result
  }

  /** A processed result keeps the transcription as its transcript. */
  lemma SuccessKeepsTranscript(s: Record, replies: ProcessReplies)
    requires ProcessOutcome(s, replies).Ok?
    ensures replies.transcription.Answered?
    ensures ProcessOutcome(s, replies).value.transcript == replies.transcription.value
  {
    var language := OptionText(Member(s, "language"));
    var tp := ConfiguredTranscriptionProvider(s, s).value;
    var attempt := OTP.TranscribeAudio(tp, language, replies.transcription);
    assert attempt.result.Ok?;
    assert tp.apiKey != "";
  }

  /** The message a pipeline result ends with: `null` (`""`) on success, the
      error's message on failure. */
  function LastError(o: Result<Processed>): string {
    match o
    case Ok(_) => ""
    case Err(m) => m
  }

  /** The status after the pipeline: raised once on entry, lowered once on exit
      with the last error. */
  function PipelineStatus(s: Status, o: Result<Processed>): Status {
    UpdateStatus(UpdateStatus(s, PendingOnly(Raise)), StatusUpdate(Lower, Some(LastError(o)), None, None))
  }

  /** The pipeline leaves the pending counter where it was, whatever happens, and
      records the outcome as the last error. */
  lemma PipelineSettles(s: Status, o: Result<Processed>)
    requires s.pending >= 0
    ensures PipelineStatus(s, o) == s.(lastError := LastError(o))
    ensures o.Err? ==> PipelineStatus(s, o).lastError == o.message
  {
  }

  /** What `processVoiceMessage` returns: the processed result, or the formatted
      error, so that a failure never throws. */
  function PipelineResult(o: Result<Processed>): (r: Processed)
    ensures o.Ok? ==> r == o.value
    ensures o.Err? ==> r.transcript == "ERROR: " + o.message && r.summary == "" && r.reply == ""
  {
    match o
    case Ok(p) => p
    case Err(m) => FormatTranscriptionError(m)
  }

  /** `verifyApiKey(apiKey, providerType, providerCategory)` against the settings
      service. */
  method VerifyApiKey(svc: SV.SettingsService, apiKey: string, providerType: string, category: string, replies: VerifyReplies)
    returns (r: Verdict)
    modifies svc
    ensures var o := VerifyOutcome(apiKey, providerType, category, old(svc.settings), replies);
      && r == o.verdict
      && (o.saved.None? ==> svc.settings == old(svc.settings) && svc.status == old(svc.status) && svc.notices == old(svc.notices)
                            && svc.local == old(svc.local) && svc.sync == old(svc.sync) && svc.previous == old(svc.previous))
      && (o.saved.Some? ==> svc.settings == old(svc.settings) + o.saved.value
                            && svc.status == SV.KeyStatus(old(svc.status), svc.settings, o.saved.value)
                            && svc.notices == old(svc.notices) + 1)
    ensures var w := svc.subscribed && MustWrite(old(svc.previous), svc.settings);
      VerifyOutcome(apiKey, providerType, category, old(svc.settings), replies).saved.Some? ==>
        && svc.previous == (if w then svc.settings else old(svc.previous))
        && svc.local == (if w then SV.SavedLocal(old(svc.local), svc.settings) else old(svc.local))
        && svc.sync == (if w then SV.SavedSync(old(svc.sync), svc.settings) else old(svc.sync))
    ensures svc.cache == old(svc.cache) && svc.storedTranscriptions == old(svc.storedTranscriptions)
    ensures svc.subscribed == old(svc.subscribed)
    ensures old(svc.Valid()) ==> svc.Valid()
  {
    var settings := svc.settings;
    var t := VerifyType(providerType, category, settings);
    var key := Str(apiKey);
    if category == "transcription" {
      var provider := Registry.GetTranscriptionProvider(t);
      if provider.Err? {
        return Invalid(provider.message);
      }
      r := Caught(OTP.VerifyApiKey(apiKey, replies.transcription));
      if r.Valid? {
        svc.UpdateSettings(map["transcriptionApiKey" := key]);
      }
    } else if category == "processing" {
      var provider := Registry.GetProcessingProvider(t);
      if provider.Err? {
        return Invalid(provider.message);
      }
      r := Caught(ProcessingVerify(t, apiKey, replies));
      if r.Valid? {
        svc.UpdateSettings(map["processingApiKey" := key]);
      }
    } else {
      var transcriptionProvider := Registry.GetTranscriptionProvider(t);
      if transcriptionProvider.Err? {
        return Invalid(transcriptionProvider.message);
      }
      // Every transcription type is also a processing type, so this lookup
      // succeeds.
      var processingProvider := Registry.GetProcessingProvider(t);
      assert processingProvider.Ok?;
      var transcriptionResult := OTP.VerifyApiKey(apiKey, replies.transcription);
      if transcriptionResult.Err? {
        return Invalid(transcriptionResult.message);
      }
      if !transcriptionResult.value.Valid? {
        return transcriptionResult.value;
      }
      r := Caught(ProcessingVerify(t, apiKey, replies));
      if r.Valid? {
        svc.UpdateSettings(map["apiKey" := key, "transcriptionApiKey" := key, "processingApiKey" := key]);
      }
    }
  }

  /** `processVoiceMessage(audioBlob)` against the settings service: the pending
      counter is raised, the pipeline runs on the current settings, and the
      counter is lowered with the outcome as the last error. */
  method ProcessVoiceMessage(svc: SV.SettingsService, replies: ProcessReplies) returns (r: Processed)
    modifies svc
    ensures var o := ProcessOutcome(old(svc.settings), replies);
      && r == PipelineResult(o)
      && svc.status == PipelineStatus(old(svc.status), o)
    ensures svc.settings == old(svc.settings) && svc.local == old(svc.local) && svc.sync == old(svc.sync)
    ensures svc.notices == old(svc.notices) && svc.previous == old(svc.previous)
    ensures svc.cache == old(svc.cache) && svc.storedTranscriptions == old(svc.storedTranscriptions)
    ensures svc.subscribed == old(svc.subscribed)
    ensures old(svc.Valid()) ==> svc.Valid()
  {
    svc.ApplyStatusUpdate(PendingOnly(Raise));
    var settings := svc.settings;
    var outcome := ProcessOutcome(settings, replies);
    match outcome {
      case Ok(processed) =>
        svc.ApplyStatusUpdate(StatusUpdate(Lower, Some(""), None, None));
        r := processed;
      case Err(m) =>
        svc.ApplyStatusUpdate(StatusUpdate(Lower, Some(m), None, None));
        r := FormatTranscriptionError(m);
    }
  }
}
