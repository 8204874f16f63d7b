# WhatsApp voice-message transcriber: a verified model

This project models the core of a browser extension that transcribes WhatsApp
Web voice messages, and proves properties of that model.

The extension's parts, and the Dafny module for each:

- **Audio capture bridge** (`Hook`). A page-context script wraps
  `URL.createObjectURL`, keeps a registry of audio blobs by object URL, and
  posts a blob's bytes to the window once a media element is pointed at its
  URL. `src/content/hook.js` and its bundled copy `dist/content/hook.js` are
  the same code and are modelled once.
- **Content script** (`Content`). The root `content.js` attaches transcribe
  buttons to message bubbles and queues one request per accepted click. It
  pairs each tagged audio broadcast with the oldest queued request, calls the
  OpenAI transcription endpoint, and caches finished texts by bubble id.
- **Background worker** (`Background`). The bundled worker verifies, stores and
  hands out the API key and routes runtime messages to their handlers.
- **Text code** (`Js`, `ResponseParser`, `AnalysisParser`, `Template`,
  `ApiErrors`). JavaScript string primitives, the `----` section parser, the
  label-based analysis parser, the `{{key}}` template renderer, and the
  provider error classifiers.
- **Providers** (`ProviderKit`, `ApiKeyVerifier`, `Registry`, one module per
  provider file, and `LocalWhisper`):
  - key guards, configuration merges and request rules for OpenAI, Claude and
    Ollama;
  - the provider registries;
  - the local Whisper transcriber, whose WAV serialiser is modelled at byte
    level on an `array`.
- **Settings and status** (`Status`, `SettingsKit`, `SettingsStore`,
  `SettingsService`, `PopupStores`, `PopupApi`, `TranscriptionService`):
  - the pending-counter reducer and the derived status line;
  - key precedence and migration at start-up;
  - change detection in persistence;
  - provider selection, category-based key verification, and the
    transcription pipeline.

External effects are inputs to the model:

- Every network call is a value of a reply datatype: answered, refused with a
  body, or failed with an exception message.
- Storage areas are `map`s, and runtime messages are method arguments.
- `Date.now()` and `Math.random()` become a stamp parameter.
- A DOM scan is a list of (play control, enclosing bubble) pairs.
- Asynchronous steps are separate methods, run in the order their events
  arrive.

Objects the source updates in place are classes: the hook's registry, the
content script, the background worker, and the settings stores. Their methods
state the whole new state and keep an invariant. Pure code is functions and
lemmas.

## Behaviour worth knowing

The model follows the code in each case below.

- A cached entry is the transcription text the popup showed, not a four-part
  result. The content script calls the transcription endpoint itself and never
  runs a processing step (`content.js:149-150`, `content.js:197-223`).
- A click re-shows a cached text before it checks the key. The key check comes
  before the disabled check, so a click on a busy button without a key shows the
  configuration message (`Content.ClickPathOf`).
- A read that fails posts nothing and leaves the registration marked sent
  (`Hook.AudioHook.CompleteRead`). The queued request stays queued until some
  other broadcast arrives.
- `new Audio(x)` with a truthy first argument triggers delivery directly, not
  only through a `src` write (`Hook.AudioHook.OnAudioConstruct`).
- The settings store copies a local-only key nowhere
  (`SettingsStore.LocalOnlyKeyDropped`).
- The settings service keeps "configured" after both keys are cleared
  (`SettingsService.ClearedKeysLeaveFlag`).
- With persistence running, the popup stores keep the in-memory enabled flag
  over the synced one (`PopupStores.StartupEnabled`).
- The bundled error parser differs from the shared one on a `null` body
  (`ApiErrors.BundledNullBodyDiffers`).

## Model

| member | source | states |
|---|---|---|
| Status.UpdateStatus | src/services/settingsService.js:187-210 | a boolean `pendingTranscriptions` moves the counter by one and never below zero, a number replaces it, and `lastError`, `isExtensionEnabled`, `isApiKeyConfigured` replace their fields exactly when present; the same code is in `src/store/settings.js` |
| Status.RaiseThenLower | src/services/settingsService.js:191-198 | a `true` update followed by a `false` update gives back the status it started from, for any non-negative counter |
| Status.PendingBounds | src/store/settings.js:90-97 | under boolean updates only, the counter stays non-negative, at most its start plus the raises and at least its start plus the raises minus the lowers |
| Status.StatusText | src/services/settingsService.js:216-227 | the derived status line: no key is an error, then disabled is the only warning, then a last error reads `Error: <msg>`, then a positive counter is pending, otherwise ready, each case stated as an if-and-only-if; the same code is in `src/store/settings.js` and `src/lib/stores.js` |
| Status.StartAndFinishText | src/services/settingsService.js:216-227 | a ready status reads "Transcribing..." after one raise and "Ready" again after the matching lower |
| PopupStores.StartupKey | src/lib/stores.js:56-76 | start-up settles on a key exactly when the local or the synced one is non-empty; a local key wins, and a synced key is used only without a local one |
| PopupStores.KnownKey | src/lib/stores.js:126-142 | `getApiKey()` answers the in-memory key when there is one; otherwise it answers the background's key exactly when that is non-empty, else `null`; a key it answers is never empty |
| PopupStores.LookupStatus | src/lib/stores.js:132-135 | the lookup marks the status configured only when the background supplied the key, and leaves the counter, the error and the enabled flag as they were |
| PopupStores.KnownKeySticks | src/lib/stores.js:127-141 | once a lookup found a key, a second lookup returns that key whatever the background would answer, and leaves the status unchanged |
| PopupStores.StartupEnabled | src/lib/stores.js:57-92 | without the subscriptions the enabled flag is the synced one when defined; with them running, a local key's status update writes the in-memory flag to storage before the synced flag is read, so the in-memory flag survives |
| PopupStores.Stores.constructor | src/lib/stores.js:3-38 | the stores start at an empty key, `whisper-1`, `gpt-4o`, the default analysis settings and the initial status, without subscriptions |
| PopupStores.Stores.PutStatus | src/lib/stores.js:121-123 | setting the status writes its enabled flag to sync storage while subscribed, and touches nothing else |
| PopupStores.Stores.SetApiKey | src/lib/stores.js:103-107 | setting the key, while subscribed, writes it to both areas and marks the status configured exactly when the key is non-empty; storage keeps mirroring the stores |
| PopupStores.Stores.SetTranscriptionModel | src/lib/stores.js:109-111 | setting the model writes it to sync storage while subscribed, and storage keeps mirroring the stores |
| PopupStores.Stores.SetAnalysisModel | src/lib/stores.js:113-115 | setting the analysis model writes it to sync storage while subscribed, and storage keeps mirroring the stores |
| PopupStores.Stores.SetSettings | src/lib/stores.js:117-119 | setting the analysis settings writes them to sync storage while subscribed, and storage keeps mirroring the stores |
| PopupStores.Stores.UpdateStatusStore | src/lib/stores.js:121-123 | a status update writes the enabled flag while subscribed; one that keeps the key flag keeps storage mirroring the stores |
| PopupStores.Stores.SetupStorePersistence | src/lib/stores.js:102-124 | subscribing runs every subscription once with the current value: afterwards both storage areas hold every store, the key flag says whether there is a key, and the mirror invariant holds |
| PopupStores.Stores.AdoptLocalKey | src/lib/stores.js:56-60 | a truthy local key becomes the key store and marks the status configured; an absent or empty one changes nothing, and without persistence sync storage is unchanged |
| PopupStores.Stores.AdoptSyncedKey | src/lib/stores.js:71-76 | the synced key is taken, marked configured and copied to local storage only when there was no local key and the synced one is truthy; the synced key is rewritten only by a taken key with persistence running, and without persistence sync storage is unchanged |
| PopupStores.Stores.AdoptSyncedMembers | src/lib/stores.js:78-92 | truthy synced models replace their stores, present settings replace the settings, a defined enabled flag replaces the status's, and nothing else moves: the synced key stays, and without persistence sync storage is unchanged |
| PopupStores.Stores.InitializeStores | src/lib/stores.js:54-100 | start-up leaves the key of `StartupKey`, copies it to local storage, marks the status configured when there is one, takes the synced models, settings and (as `StartupEnabled` says) enabled flag, and keeps the counter and the error; without persistence sync storage is unchanged |
| PopupStores.Stores.GetApiKey | src/lib/stores.js:126-142 | the lookup answers `KnownKey`, keeps a supplied key in the store, updates the status as `LookupStatus` says, and keeps storage mirroring the stores |
| PopupApi.Started | src/lib/api.js:17-21 | starting a request raises the counter by one and clears the error, keeping both flags |
| PopupApi.Finished | src/lib/api.js:47-50 | finishing lowers the counter by one and keeps the error and both flags |
| PopupApi.TranscribeResult | src/lib/api.js:41-51 | a transcription resolves exactly when the response was OK, with its `text`; a refusal rejects with `Transcription failed: <body>`, an exception with its own message |
| PopupApi.TranscribeStatus | src/lib/api.js:15-21 | without a key the status is untouched; with one, a success leaves the counter where it was with the error cleared, and any failure leaves it one higher |
| PopupApi.TranscribeAudio | src/lib/api.js:11-52 | `transcribeAudio` looks the key up first, rejects with "API key not configured" without one, otherwise sends the selected model with `audio.ogg` and leaves the status of `TranscribeStatus`; storage keeps mirroring the stores |
| PopupApi.FailedTranscriptionStaysPending | src/lib/api.js:41-50 | a ready popup whose transcription fails reads "Transcribing..." afterwards, with no error shown, and the call rejects |
| PopupApi.FailuresAccumulate | src/lib/api.js:17-21 | `n` failed transcriptions raise the counter by exactly `n` for good, with the error cleared |
| PopupApi.TranscribeStatusIntended | src/lib/api.js:103-111 | with the counter lowered on every path, as `analyzeTranscription` does, a transcription keeps the counter and records the failure message (empty on success) |
| PopupApi.TranscribeAudioIntended | src/lib/api.js:11-52 | the corrected `transcribeAudio`: same key lookup, request and result, with the status of `TranscribeStatusIntended` |
| PopupApi.TranscriptionSettles | src/lib/api.js:103-111 | with the correction, a ready popup is ready again after a success and shows `Error: <msg>` after a failure, and the counter never drifts |
| PopupApi.AnalyzeResult | src/lib/api.js:93-102 | an analysis resolves exactly when the response was OK, with the parsed sections whose transcript is the original transcription; a refusal rejects with `Analysis failed: <body>`, an exception with its message |
| PopupApi.AnalyzeStatus | src/lib/api.js:62-66 | an analysis with a key keeps the counter (raised on start, lowered in `finally`), and ends with no error after a success and with the rejection message after a failure |
| PopupApi.AnalyzeTranscription | src/lib/api.js:55-112 | `analyzeTranscription` looks the key up, rejects without one, otherwise sends the analysis model, the fixed system prompt and the template with its first `TRANSCRIPT` replaced by the transcription with its `$` patterns expanded (`PopupApi.UserPrompt`), resolves or rejects as `AnalyzeResult` and leaves the status of `AnalyzeStatus` |
| PopupApi.UserPrompt | src/lib/api.js:72-75 | a template without `TRANSCRIPT` is sent as it is |
| PopupApi.UserPromptReplacesFirstLabel | src/lib/api.js:72-75 | only the first `TRANSCRIPT` of a template is replaced, by the transcription with its `$` patterns expanded; later labels stay |
| PopupApi.DefaultPromptCarriesTranscription | src/lib/api.js:72-75 | on the default template the user prompt is the template with the expanded transcription in place of the label on its second line; the rest of the template stays whatever the transcription holds |
| PopupApi.PlainTranscriptionVerbatim | src/lib/api.js:72-75 | a transcription without `$` goes into the default prompt verbatim |
| PopupApi.DoubledDollarCollapses | src/lib/api.js:72-75 | a `$$` in an otherwise plain transcription reaches the model as one `$` |
| SettingsKit.OrV | src/store/settings.js:115-117 | `a \|\| b` on stored values: the first when it is truthy, the second otherwise |
| SettingsKit.Get | src/services/storageService.js:4-13 | a storage read gives the stored value of a present key and `null` for an absent one |
| SettingsKit.KeyWrites | src/store/settings.js:182-203 | the subscription saves to both areas exactly the truthy key entries, with their values |
| SettingsKit.PlainEntries | src/store/settings.js:212-220 | the subscription's loop saves to sync exactly the entries that are not keys, with their values |
| SettingsKit.SyncEntries | src/store/settings.js:212-220 | the loop over the object's entries leaves sync storage as it was overridden by every non-key entry; the same code is in `src/services/settingsService.js` |
| SettingsKit.MergeWrittenIff | src/store/settings.js:173-180 | once a snapshot exists, a merged object is written out if and only if the merge changed it; the same code is in `src/services/settingsService.js` |
| SettingsKit.NewValueIsWritten | src/store/settings.js:175-179 | a merge that gives some key a new value is always written out |
| SettingsStore.ReadKey | src/store/settings.js:115-125 | a key is the truthy local value, else whatever sync storage holds (`null` when absent) |
| SettingsStore.Migrated | src/store/settings.js:129-146 | a legacy `providerType` fills each falsy provider type; a legacy key fills each key found in neither area; every other stored member is kept as it is |
| SettingsStore.InitialKeys | src/store/settings.js:148-155 | the settings object's `apiKey` is the legacy key or `""`, and each of the other two keys is its synced value, else the legacy key, else `""` |
| SettingsStore.InitialProviderTypes | src/store/settings.js:129-134 | the transcription provider type is always set: the stored one when truthy, else the legacy `providerType` when that is truthy |
| SettingsStore.LocalOnlyKeyDropped | src/store/settings.js:119-121 | a key found only in local storage is read but never reaches the settings object, which holds `""`, and no key counts as configured |
| SettingsStore.MergeKeepsMirror | src/store/settings.js:172-223 | after any merge into a saved snapshot, whether the subscription writes or not, the snapshot is the merged object and storage holds what saving it writes |
| SettingsStore.SaveIdempotent | src/store/settings.js:182-220 | saving the same object twice leaves both areas as saving it once does |
| SettingsStore.SavedMirrors | src/store/settings.js:182-220 | after a save every non-key setting is in sync storage, every truthy key in both areas, and a falsy key leaves the stored one |
| SettingsStore.SettingsStore.constructor | src/store/settings.js:62-70 | the stores start with an empty settings object, the initial status and an empty cache, not subscribed |
| SettingsStore.SettingsStore.ApplyStatusUpdate | src/store/settings.js:86-109 | `updateStatus` applies the status reducer; an update that leaves the key flag keeps the persistence invariant |
| SettingsStore.SettingsStore.OnSettings | src/store/settings.js:172-223 | the subscription writes exactly when `MustWrite` holds: it takes a snapshot, saves keys and entries, recomputes the key flag from the three keys and sends one `settingsUpdated` notice; otherwise nothing moves |
| SettingsStore.SettingsStore.OnCache | src/store/settings.js:225-234 | a non-empty cache is stored whole under `wa-transcriptions`; an empty one is not |
| SettingsStore.SettingsStore.SetupSettingsPersistence | src/store/settings.js:169-235 | subscribing saves the current object at once, sends one notice, stores a non-empty cache and establishes the persistence invariant |
| SettingsStore.SettingsStore.InitializeSettings | src/store/settings.js:111-113 | as written, start-up rejects at its first step, because the storage service has no `getTranscriptions` |
| SettingsStore.SettingsStore.SetCache | src/store/settings.js:225-234 | setting the cache stores it when subscribed and non-empty |
| SettingsStore.SettingsStore.MigrateStored | src/store/settings.js:129-146 | the in-place migration of the synced object produces `Migrated` |
| SettingsStore.SettingsStore.ReadStartup | src/store/settings.js:115-164 | the reads produce the initial settings object of the defaults, the migrated sync contents and the three keys; enabled unless sync stores `false`; configured when any key was read |
| SettingsStore.SettingsStore.InitializeSettingsIntended | src/store/settings.js:111-167 | start-up with the cache read from its IndexedDB entry: the cache is loaded, the initial object set, the status flags set, the object saved as the snapshot, the stored transcriptions left as they were (the cache stored back is the one read), and the persistence invariant holds |
| SettingsStore.SettingsStore.LoadStartup | src/store/settings.js:111-166 | before persistence starts: the cache is loaded, the settings object is the migrated initial one, the enabled flag is set from sync storage, and storage is not yet written: both areas, the stored transcriptions and the snapshot are unchanged |
| SettingsStore.SettingsStore.UpdateSettings | src/store/settings.js:243-245 | `updateSettings` merges shallowly, then the subscription writes exactly when the merge changed the object, and the persistence invariant is kept |
| SettingsStore.SettingsStore.CacheTranscription | src/store/settings.js:248-253 | caching adds or replaces one entry and, when subscribed, stores the whole cache, keeping the persistence invariant |
| SettingsService.ServiceDefaults | src/services/settingsService.js:21-32 | the defaults are a non-empty object with both keys empty and the provider types of the registry's default processor and transcriber |
| SettingsService.StartupKeyPrefersSync | src/services/settingsService.js:71-84 | because the synced object is the whole sync area, a synced key wins over a local one, a local one is used only when none is synced, else `""`; the key is truthy exactly when either area holds one |
| SettingsService.InitialSettingsFacts | src/services/settingsService.js:86-96 | start-up counts as configured exactly when either key was found in either area, takes every synced non-key setting, and keeps each default the sync area does not override |
| SettingsService.Setting | src/services/settingsService.js:159-161 | `getSetting` answers the stored value of a present member, even a stored `null`, and the default for an absent one |
| SettingsService.SettingAfterMerge | src/services/settingsService.js:159-168 | after a merge a member of the updates reads back as updated and every other member reads as before |
| SettingsService.CarriedKeyConfigures | src/services/settingsService.js:170-176 | an update carrying a non-empty key marks the service configured and changes nothing else of the status |
| SettingsService.ClearedKeysLeaveFlag | src/services/settingsService.js:170-176 | clearing both keys leaves no key, yet the status keeps saying configured, because the flag is recomputed only for a truthy key in the updates |
| SettingsService.ResetFacts | src/services/settingsService.js:183-185 | a reset empties both keys, leaves the status as it is, and keeps every setting the defaults do not name |
| SettingsService.MergeKeepsMirror | src/services/settingsService.js:111-145 | after any merge into a saved snapshot, whether the subscription writes or not, the snapshot is the merged object and storage holds what saving it writes |
| SettingsService.SaveIdempotent | src/services/settingsService.js:123-144 | saving the same object twice leaves both areas as saving it once does |
| SettingsService.SettingsService.constructor | src/services/settingsService.js:53-61 | the service starts with a copy of the defaults, the initial status and an empty cache, not subscribed, with the service invariant |
| SettingsService.SettingsService.ApplyStatusUpdate | src/services/settingsService.js:187-210 | `updateStatus` applies the status reducer and keeps the service invariant |
| SettingsService.SettingsService.OnSettings | src/services/settingsService.js:111-145 | the subscription writes exactly when `MustWrite` holds: it takes a snapshot, saves the truthy keys to both areas and every other entry to sync; otherwise nothing moves |
| SettingsService.SettingsService.OnCache | src/services/settingsService.js:147-156 | a non-empty cache is stored whole under `wa-transcriptions`; an empty one is not |
| SettingsService.SettingsService.SetCache | src/services/settingsService.js:69 | setting the cache stores it when subscribed and non-empty |
| SettingsService.SettingsService.SetupSettingsPersistence | src/services/settingsService.js:108-157 | subscribing saves the current object at once, stores a non-empty cache and establishes the service invariant |
| SettingsService.SettingsService.Initialize | src/services/settingsService.js:63-106 | start-up loads the cache, sets the initial object, marks configured exactly when a key was found and enabled unless sync stores `false`, saves the object as the snapshot, leaves the stored transcriptions as they were, sends one notice, and the invariant holds |
| SettingsService.SettingsService.Adopt | src/services/settingsService.js:86-98 | the object and the status flags are set before the subscription exists, then persistence starts |
| SettingsService.SettingsService.ReadStartup | src/services/settingsService.js:71-96 | the reads produce the defaults overridden by the sync area and the two start-up keys, and the two status flags |
| SettingsService.SettingsService.Notify | src/services/settingsService.js:100-102 | one more `settingsUpdated` message, nothing else |
| SettingsService.SettingsService.GetSetting | src/services/settingsService.js:159-161 | reading a setting answers `Setting` on the current object |
| SettingsService.SettingsService.MergeSettings | src/services/settingsService.js:168 | a shallow merge, after which the subscription writes exactly when the merge changed the object; the invariant is kept |
| SettingsService.SettingsService.UpdateSettings | src/services/settingsService.js:167-181 | `updateSettings` merges, recomputes the key flag only when the updates carry a truthy key, sends one notice, and keeps the invariant |
| SettingsService.SettingsService.RecomputeKeyFlag | src/services/settingsService.js:170-176 | after the merge, the key flag is recomputed from the merged settings exactly when the updates carry a truthy key, and nothing else changes |
| SettingsService.SettingsService.ResetSettings | src/services/settingsService.js:183-185 | a reset merges the defaults, keeps the status and every setting the defaults do not name, writes the snapshot and both areas exactly when subscribed and the merge changed the object (as `UpdateSettings`), and sends one notice |
| SettingsService.SettingsService.CacheTranscription | src/services/settingsService.js:229-234 | caching adds or replaces one entry and, when subscribed, stores the whole cache, keeping the invariant |
| TranscriptionService.OptionText | src/services/transcriptionService.js:27-30 | a stored value handed to a provider as an option is as absent as `""` when falsy, and its own text when it is a string |
| TranscriptionService.SelectionFallbacks | src/services/transcriptionService.js:20-41 | each half's provider type is its specific setting, else the legacy `providerType`, else `openai`; each key is its specific key, else the legacy `apiKey`, else `""`, for the transcription half and the processing half alike |
| TranscriptionService.ConfiguredTranscriptionProvider | src/services/transcriptionService.js:16-31 | a provider is made exactly when the selected type is `openai`, with the selected key and model; any other type fails with the registry's message naming it |
| TranscriptionService.ConfiguredProcessingProvider | src/services/transcriptionService.js:34-47 | `openai` and `claude` make their provider with the selected key and model; any other type fails naming it |
| TranscriptionService.EmptySettingsUseGlobal | src/services/transcriptionService.js:17-18 | an empty settings argument selects from the global settings, a non-empty one is used as it is |
| TranscriptionService.VerifyType | src/services/transcriptionService.js:58-73 | a given provider type is used as it is; with none, and no category or legacy setting to fall back on, the check uses `openai` |
| TranscriptionService.VerifyOutcome | src/services/transcriptionService.js:50-113 | settings are saved only after a valid verdict, and every saved member is the checked key |
| TranscriptionService.SavedIffValid | src/services/transcriptionService.js:75-109 | a checked key is saved if and only if the verdict is valid, under the names of its category: the matching key alone, or all three for `both` |
| TranscriptionService.BothStopsAtTranscription | src/services/transcriptionService.js:93-97 | the `both` check returns an invalid transcription verdict as it is, saves nothing, and its outcome does not depend on the processing provider's reply |
| TranscriptionService.BothReportsProcessing | src/services/transcriptionService.js:99-108 | once the transcription key passes, the `both` check reports the processing provider's verdict |
| TranscriptionService.UnsupportedTypeIsInvalid | src/services/transcriptionService.js:72-112 | `both` with a legacy `claude` provider type is always invalid with the transcription registry's message, since Claude cannot transcribe |
| TranscriptionService.ExceptionIsInvalid | src/services/transcriptionService.js:110-112 | a network exception during a check becomes an invalid verdict carrying the exception's message, and nothing is saved |
| TranscriptionService.PromptTemplateFor | src/services/transcriptionService.js:135-140 | the processing provider is always handed a non-empty template |
| TranscriptionService.TemplatePrecedence | src/services/transcriptionService.js:135-140 | the configured template wins; without one a `claude` processing type gets Claude's default prompt, no type gets OpenAI's, and the template is never empty |
| TranscriptionService.ProcessOutcome | src/services/transcriptionService.js:116-148 | a transcription provider that cannot be made stops the pipeline with its error, and so does a processing provider that cannot be made once the transcription succeeded |
| TranscriptionService.SuccessKeepsTranscript | src/services/transcriptionService.js:119-145 | a processed result exists only after the transcription request answered, and its transcript is that transcription |
| TranscriptionService.PipelineSettles | src/services/transcriptionService.js:117-147 | the pipeline leaves the pending counter where it was whatever happens, and records the error message (or none) as the last error |
| TranscriptionService.PipelineResult | src/services/transcriptionService.js:145-148 | the pipeline never throws: a success returns the processed sections, a failure the formatted error whose transcript is `ERROR: <msg>` |
| TranscriptionService.VerifyApiKey | src/services/transcriptionService.js:50-113 | `verifyApiKey` answers the verdict of `VerifyOutcome` and, exactly when it is valid, merges the saved keys into the settings, updates the key flag, writes the snapshot and both areas exactly when subscribed and the merge changed the object, and sends one notice; otherwise the settings, status, notices, snapshot and both areas are unchanged; the cache, the stored transcriptions and the subscription are never touched |
| TranscriptionService.ProcessVoiceMessage | src/services/transcriptionService.js:116-150 | `processVoiceMessage` returns `PipelineResult` of the pipeline on the current settings and leaves the status of `PipelineStatus`; the settings, both areas, the snapshot, the cache, the stored transcriptions, the subscription and the notices are unchanged |
| Registry.GetTranscriptionProvider | src/api/index.js:15-20 | the transcription lookup succeeds exactly for a key of the registry, and otherwise throws `Unsupported transcription provider type: <type>` |
| Registry.GetProcessingProvider | src/api/index.js:23-28 | the processing lookup succeeds exactly for a key of the registry, and otherwise throws `Unsupported processing provider type: <type>` |
| Registry.SupportedAreAccepted | src/api/index.js:31-48 | every listed type is accepted by its lookup, and the default types are accepted by both registries |
| Registry.ClaudeOnlyProcesses | src/api/index.js:5-12 | `claude` is a processing provider but not a transcription provider |
| Registry.Filter | src/store/settings.js:54-55 | the filter keeps exactly the ids that are in both lists, and never grows the list |
| Registry.Entries | src/store/settings.js:56-59 | each id becomes an entry with the id and its capitalised name, one for one and in order |
| Registry.AvailableProviders | src/store/settings.js:53-60 | every offered provider is in both registries and is named by its capitalised id |
| Registry.AvailableIsOpenAI | src/store/settings.js:53-60 | the only provider offered for both roles is OpenAI, named "Openai" |
| Registry.TranscriberDisplayName | src/services/settingsService.js:34-43 | `localWhisper` is shown as "Local Whisper Server", every other id capitalised |
| Registry.DisplayNamesKeepTail | src/services/settingsService.js:37-40 | two ids other than `localWhisper` that differ past their first letter get different display names |
| Registry.BundledGetProvider | dist/background/background.js:267-280 | the bundle's lookup accepts only `openai` and otherwise throws `Unsupported provider type: <type>` |
| ProviderKit.LanguageField | src/api/providers/transcription/OpenAITranscriptionProvider.js:48-49 | the `language` field is sent exactly when the language is set and not `auto`, and then carries it |
| ProviderKit.OpenAITranscribe | src/api/providers/transcription/OpenAITranscriptionProvider.js:38-70 | no request without a key (rejecting "API key not configured"); otherwise the model, `audio.ogg` and the language field are sent, an OK reply resolves to its text, a refusal rejects with the parsed message defaulting to "Transcription failed", an exception with its own message; the same code is in `src/api/providers/OpenAIProvider.js` |
| ProviderKit.PromptCarriesTranscription | src/api/providers/processing/OpenAIProcessingProvider.js:45-48 | a template with one `{{transcription}}` placeholder and no other sends the transcription verbatim in its place, whatever the transcription holds |
| ProviderKit.OpenAIChat | src/api/providers/processing/OpenAIProcessingProvider.js:39-76 | no request without a key; otherwise the model and the prompt are sent, an OK reply is parsed into sections whose transcript is the original transcription, and a refusal rejects with the parsed message defaulting to "Processing failed"; the same code is in `src/api/providers/OpenAIProvider.js` |
| ProviderKit.KeyGuard | src/api/providers/processing/OpenAIProcessingProvider.js:14-16 | an empty key is "API key is empty", a key without the `sk-` prefix "Invalid API key format", and only a `sk-` key passes |
| ProviderKit.OpenAIModelsCheck | src/api/providers/transcription/OpenAITranscriptionProvider.js:12-36 | after the guards, the key is valid exactly when the models request answered; a refusal is invalid with the parsed message defaulting to "Invalid API key", and an exception propagates |
| ApiKeyVerifier.VerifyOpenAIKey | src/utils/apiKeyVerifier.js:38-57 | an OK models response is valid, a refusal invalid with the parsed OpenAI message defaulting to "Invalid API key", and an exception propagates |
| ApiKeyVerifier.VerifyClaudeKey | src/utils/apiKeyVerifier.js:60-86 | an OK messages response is valid, a refusal invalid with the parsed Claude message, and an exception propagates |
| ApiKeyVerifier.VerifyApiKey | src/utils/apiKeyVerifier.js:12-35 | an empty key is refused first, then a failed format check with its message or "Invalid API key format"; a valid verdict needs a non-empty key, an OK response and a known provider |
| ApiKeyVerifier.DispatchedVerdict | src/utils/apiKeyVerifier.js:24-34 | a key past the guards is valid exactly when the provider's request succeeds; otherwise it carries the provider's parsed message, or the exception's message with the `Error validating` default |
| ApiKeyVerifier.UnsupportedProvider | src/utils/apiKeyVerifier.js:28-33 | any other provider value is invalid with `Unsupported provider: <provider>` whatever the network would say, an absent one printing as `undefined` |
| ApiErrors.ProviderName | src/utils/apiErrors.js:74-90 | the OpenAI rules name "OpenAI" and the Claude rules name "Anthropic", and no other pairing occurs |
| ApiErrors.IsAuthError | src/utils/apiErrors.js:77-98 | the type `authentication_error` is an authentication error under both rules, and an empty type never is |
| ApiErrors.IsQuotaError | src/utils/apiErrors.js:78-101 | under the OpenAI rules exactly `insufficient_quota` is a quota error; the Claude rules also count `rate_limit_error`; an empty type never is |
| ApiErrors.IsInvalidRequest | src/utils/apiErrors.js:79-80 | only the OpenAI rules report an invalid request, and such a type is neither an authentication nor a quota error |
| ApiErrors.ClaudeRulesCoverOpenAI | src/utils/apiErrors.js:77-101 | every type the OpenAI rules classify as an authentication or a quota error, the Claude rules classify the same way |
| ApiErrors.BaseErrorParser | src/utils/apiErrors.js:2-66 | the user message is always one of the four fixed texts; unparsable text becomes the message itself with type `unknown`; an empty message arises only from an empty default or an empty unparsable text |
| ApiErrors.ParseOpenAIError | src/utils/apiErrors.js:69-82 | OpenAI's parser reports unparsable text as the message itself |
| ApiErrors.ParseClaudeError | src/utils/apiErrors.js:85-103 | Claude's parser never classifies an error as an invalid request, since it has no such check |
| ApiErrors.MissingErrorMember | src/utils/apiErrors.js:11-18 | a parsed body that is `null` or has no `error` member reports the default message with type `unknown` |
| ApiErrors.AuthClassified | src/utils/apiErrors.js:23-30 | an authentication error wins over every other classification, with the fixed message and user message |
| ApiErrors.QuotaMessageHasPhrase | src/utils/apiErrors.js:34 | the quota message carries the phrase "API key has reached its usage limit" whatever the provider name |
| ApiErrors.QuotaClassified | src/utils/apiErrors.js:32-38 | a quota type that is not also an authentication type yields `quota_exceeded`, a message with the usage-limit phrase and the provider's user message |
| ApiErrors.UnclassifiedPassesThrough | src/utils/apiErrors.js:52-57 | an error the rules do not single out passes through its own message and type, falling back to the default message and `unknown` |
| ApiErrors.BundledParseOpenAIError | dist/background/background.js:55-107 | the bundled parser reports the text, else the default, when the text does not parse or parses to `null` |
| ApiErrors.BundledAgreesWithShared | dist/background/background.js:55-107 | the bundled parser agrees with the shared OpenAI parser on every body except a `null` body, an empty unparsable text and an invalid-request error without a message |
| ApiErrors.BundledNullBodyDiffers | dist/background/background.js:58-59 | on the body `null` the shared parser reports the default message and the bundled one the text `null` |
| ApiErrors.FormatTranscriptionError | src/utils/apiErrors.js:106-117 | the formatted error's transcript is `ERROR: <msg>`, its summary and reply are empty, and its cleaned text is the billing advice exactly when the message carries the usage-limit phrase |
| ApiErrors.QuotaErrorAdvisesBilling | src/utils/apiErrors.js:111-113 | a quota error from either provider, once formatted, advises checking the billing details |
| Template.RunEnd | src/utils/template.js:3 | the `[^}]+` run of the placeholder pattern ends at the first `}` at or after its start, or at the end of the text |
| Template.FirstMatch | src/utils/template.js:3 | the global pattern resumes at the leftmost match at or after the previous one's end: a match there, none before it, and none at all when it reports none |
| Template.RenderFrom | src/utils/template.js:3-6 | with no variables every match is replaced by itself, so the text from the resume point is returned as it is |
| Template.RenderTemplate | src/utils/template.js:2-7 | rendering with the default empty `variables` returns the template unchanged |
| Template.RenderNoPlaceholder | src/utils/template.js:2-7 | a template with no placeholder renders to itself, whatever the variables |
| Template.Placeholder | src/utils/template.js:3 | a placeholder is `{{`, the key, then `}}` |
| Template.FirstMatchIsPlaceholder | src/utils/template.js:3 | in text with nothing that can open a match before it, the first match is the placeholder |
| Template.RenderOnePlaceholder | src/utils/template.js:2-7 | a template with one placeholder renders to the text before it, the value of the trimmed key (or the placeholder itself when the key is undefined), then the text after it untouched; the value is not expanded again |
| Template.DefaultProcessing | src/utils/template.js:9-41 | a default processing prompt exists exactly for `openai` and `claude` |
| ResponseParser.Sections | src/utils/responseParser.js:11 | one trimmed section per piece of the `----` split, in order |
| ResponseParser.ParseProcessedResponse | src/utils/responseParser.js:2-40 | the transcript is always the original transcription, and the summary and the reply are never empty; the same code is in `src/api/providers/processing/OpenAIProcessingProvider.js` |
| ResponseParser.ParseTooFewSections | src/utils/responseParser.js:13-19 | with fewer than four pieces the whole reply, trimmed, is the cleaned text, with the fixed "not in the expected format" summary and the retry reply |
| ResponseParser.ParseSections | src/utils/responseParser.js:21-31 | with four or more pieces, pieces 1 to 3 trimmed are the fields, an empty summary or reply gets its fixed fallback, an empty cleaned text stays empty, and other pieces are ignored |
| ResponseParser.SectionTextIsClean | src/utils/responseParser.js:11 | a non-empty trimmed piece without `----` that does not end in `-` cannot run into the separator after it |
| ResponseParser.ParseRoundTrip | src/utils/responseParser.js:11-23 | four clean sections joined with `----` parse back to sections 1 to 3, with the original transcription as the transcript |
| Js.Or | src/utils/apiKeyVerifier.js:20 | `a \|\| b` on strings: `a` when it is non-empty, else `b` |
| Js.IndexOfFrom | content.js:83 | the search finds the leftmost occurrence at or after its start or reports that there is none |
| Js.IncludesIff | src/utils/apiErrors.js:111 | `includes` holds exactly when the text occurs somewhere |
| Js.Split | src/utils/responseParser.js:11 | a split yields at least one piece |
| Js.SplitCons | src/utils/responseParser.js:11 | a piece that cannot run into the separator, then the separator, splits off as the first piece |
| Js.SplitJoin | src/utils/responseParser.js:11 | splitting pieces joined with a separator they cannot interfere with gives back the pieces |
| Js.TrimStart | src/utils/responseParser.js:11 | trimming the start removes exactly the leading whitespace and keeps a suffix |
| Js.TrimEnd | src/utils/responseParser.js:11 | trimming the end removes exactly the trailing whitespace and keeps a prefix |
| Js.TrimEnds | src/utils/responseParser.js:11 | a trimmed string starts and ends with a non-space |
| Js.TrimIdempotent | src/utils/responseParser.js:11 | trimming twice is trimming once |
| Js.Capitalize | src/store/settings.js:40 | capitalising keeps the length and the tail and upper-cases the first letter |
| Js.SubstitutionPatterns | src/lib/api.js:72-75 | in a string replacement `$$` gives `$`, `$&` the match, `` $` `` the text before it and `$'` the text after it, while `$1` and a lone `$` stay as written |
| Js.SubstitutionPlain | src/lib/api.js:72-75 | a replacement without `$` is inserted verbatim |
| Js.SubstitutionPlainPrefix | src/lib/api.js:72-75 | text without `$` at the head of a replacement is kept as written before the rest is expanded |
| Js.DoubledDollar | src/lib/api.js:72-75 | a `$$` between plain texts becomes one `$` |
| Js.ReplaceFirst | src/lib/api.js:72-75 | a `replace` with a string pattern that does not occur leaves the text as it is |
| Js.ReplaceFirstAt | src/lib/api.js:72-75 | when the text before an occurrence lacks the pattern's first character, that occurrence is replaced by the expanded value and the text after it is kept, further occurrences included |
| Js.ReplaceFirstEarliest | src/lib/api.js:72-75 | the occurrence replaced is the earliest one: an occurrence with none before it is replaced by the expanded value, and the rest is kept |
| Js.ReplaceFirstPlain | src/lib/api.js:72-75 | a value without `$` replaces the occurrence verbatim |
| OpenAIProvider.Create | src/api/providers/OpenAIProvider.js:6-12 | the provider keeps the configured key, and each model is the configured one or its default, `whisper-1` and `gpt-4o` |
| OpenAIProvider.VerifyApiKey | src/api/providers/OpenAIProvider.js:14-42 | an empty key and a key without `sk-` are refused locally; past the guards the key is valid exactly when the models request answered, and an exception is invalid with its message or "Network error" |
| OpenAIProvider.TranscribeAudio | src/api/providers/OpenAIProvider.js:44-76 | no request without a key; otherwise the provider's model and `audio.ogg` are sent, with a language exactly when it is set and not `auto` |
| OpenAIProvider.ProcessTranscription | src/api/providers/OpenAIProvider.js:78-115 | no request without a key; otherwise the given template, else the default OpenAI prompt, is rendered with the transcription and the language (default `auto`) and sent with the processing model; a result keeps the transcription as transcript |
| OpenAIProvider.CustomTemplateCarriesTranscription | src/api/providers/OpenAIProvider.js:78-87 | a custom template with one `{{transcription}}` placeholder sends the transcription verbatim in that place |
| OpenAIProcessingProvider.Create | src/api/providers/processing/OpenAIProcessingProvider.js:6-11 | the provider keeps the key, and the model is the configured one or `gpt-4o` |
| OpenAIProcessingProvider.VerifyApiKey | src/api/providers/processing/OpenAIProcessingProvider.js:13-37 | the local guards first; past them the key is valid exactly when the models request answered, and, without a `try`, an exception rejects the call |
| OpenAIProcessingProvider.ProcessTranscription | src/api/providers/processing/OpenAIProcessingProvider.js:39-76 | no request without a key; otherwise the template or the OpenAI default is rendered with the transcription and the language (default `auto`) and sent with the model; a result keeps the transcription as transcript |
| OpenAIProcessingProvider.CustomTemplateCarriesTranscription | src/api/providers/processing/OpenAIProcessingProvider.js:42-48 | a custom template with one `{{transcription}}` placeholder sends the transcription verbatim in that place |
| OpenAITranscriptionProvider.Create | src/api/providers/transcription/OpenAITranscriptionProvider.js:5-10 | the provider keeps the key, and the model is the configured one or `whisper-1` |
| OpenAITranscriptionProvider.VerifyApiKey | src/api/providers/transcription/OpenAITranscriptionProvider.js:12-36 | the local guards first; past them the key is valid exactly when the models request answered, and an exception rejects the call |
| OpenAITranscriptionProvider.TranscribeAudio | src/api/providers/transcription/OpenAITranscriptionProvider.js:38-70 | no request without a key; otherwise the model (or `whisper-1`), `audio.ogg` and the language field are sent, and a refusal rejects with the parsed message defaulting to "Transcription failed" |
| OpenAITranscriptionProvider.ModelNeverEmpty | src/api/providers/transcription/OpenAITranscriptionProvider.js:5-42 | a created provider always sends a non-empty model name |
| ClaudeProcessingProvider.Create | src/api/providers/processing/ClaudeProcessingProvider.js:4-9 | the provider keeps the key, and the model is the configured one or `claude-3-opus-20240229` |
| ClaudeProcessingProvider.VerifyApiKey | src/api/providers/processing/ClaudeProcessingProvider.js:11-38 | only the empty key is refused locally; the key is valid exactly when the messages request answered, and a refusal is invalid with the body's error message or "Invalid API key" |
| ClaudeProcessingProvider.SystemPromptNamesLanguage | src/api/providers/processing/ClaudeProcessingProvider.js:43-56 | `SystemPrompt` is the fixed head, the language, then the fixed tail: the system prompt names the language option, or "auto-detected" when there is none |
| ClaudeProcessingProvider.ProcessTranscription | src/api/providers/processing/ClaudeProcessingProvider.js:40-87 | no request without a key; otherwise the model, the fixed system prompt and `TRANSCRIPT: <transcription>` are sent, a refusal rejects with the body's message or "Processing failed", and a result is the section parse of the answer |
| OpenAIProcessor.Merge | src/api/providers/processing/openai.js:7-14 | an absent member takes its default (`https://api.openai.com`, `gpt-4o`), a present one overrides it, and an absent key is empty |
| OpenAIProcessor.VerifyKey | src/api/providers/processing/openai.js:16-26 | the empty and `sk-` guards give their messages, and no key is ever valid |
| OpenAIProcessor.WellFormedKeyRejected | src/api/providers/processing/openai.js:17-19 | a well-formed key gets "Unsupported provider: undefined" whatever the server would say |
| OpenAIProcessor.VerifyKeyIntended | src/api/providers/processing/openai.js:16-26 | with `provider: "openai"` the same local guards apply |
| OpenAIProcessor.IntendedVerifyJudgedByOpenAI | src/api/providers/processing/openai.js:16-26 | with the provider named, a well-formed key is valid exactly when OpenAI accepts it, and a refusal gives the parsed OpenAI error |
| OpenAIProcessor.Process | src/api/providers/processing/openai.js:28-64 | no request without a key; the request carries the model and the template (or the OpenAI default) rendered with the transcription and the language (default "same as transcription"); a refusal gives the parsed message defaulting to "Processing failed"; a result keeps the transcription |
| OpenAIProcessor.ProcessingModelIgnored | src/api/providers/processing/openai.js:13-45 | the model sent is `config.model` or `gpt-4o`; no other member changes it |
| ClaudeProcessor.Merge | src/api/providers/processing/claude.js:7-14 | an absent member takes its default (`https://api.anthropic.com`, `claude-3-opus-20240229`), a present one overrides it |
| ClaudeProcessor.VerifyKey | src/api/providers/processing/claude.js:16-27 | the empty and `sk-ant-` guards give their messages, and no key is ever valid |
| ClaudeProcessor.WellFormedKeyRejected | src/api/providers/processing/claude.js:17-19 | a well-formed key gets "Unsupported provider: undefined" |
| ClaudeProcessor.VerifyKeyIntended | src/api/providers/processing/claude.js:16-27 | with `provider: "claude"` the same local guards apply |
| ClaudeProcessor.IntendedVerifyJudgedByClaude | src/api/providers/processing/claude.js:16-27 | with the provider named, a well-formed key is valid exactly when Claude accepts it, and a refusal gives the parsed Claude error |
| ClaudeProcessor.ClaudeDefaultUsed | src/api/providers/processing/claude.js:32-35 | the template is the given one, else the Claude default; the OpenAI fallback is never reached |
| ClaudeProcessor.Process | src/api/providers/processing/claude.js:29-71 | no request without a key; otherwise the model and the rendered prompt are sent; a refusal gives the parsed Claude message defaulting to "Processing failed", an answer its section parse, an exception its message |
| OllamaProcessor.Create | src/api/providers/processing/ollama.js:5-13 | a non-empty `ollamaServerUrl` is the URL, else the configured URL or `http://localhost:11434`; the model is the configured one or `llama3.2:latest` |
| OllamaProcessor.Verify | src/api/providers/processing/ollama.js:15-33 | valid exactly when the tags request answered with a `models` array; each failure is reported as "Ollama server error: ..." with its own message |
| OllamaProcessor.VerifyFailureNamesUrl | src/api/providers/processing/ollama.js:28-31 | every failed check ends by naming the server URL |
| OllamaProcessor.Repair | src/api/providers/processing/ollama.js:64-67 | the repaired answer ends in `}`, and it is the answer itself exactly when that already ended in `}` |
| OllamaProcessor.RepairIdempotent | src/api/providers/processing/ollama.js:64-67 | a repaired answer needs no second repair |
| OllamaProcessor.Process | src/api/providers/processing/ollama.js:35-73 | without a template, reading the missing Ollama default throws before any request; otherwise the fixed URL and model carry the rendered prompt, a refusal gives "Ollama processing failed: " and the body text, and an answer is repaired and then parsed |
| OllamaProcessor.RequestIgnoresSettings | src/api/providers/processing/ollama.js:45-51 | the outcome does not depend on the configured URL or model |
| OpenAITranscriber.Merge | src/api/providers/transcription/openai.js:5-12 | an absent member takes its default (`https://api.openai.com`, `whisper-1`), a present one overrides it |
| OpenAITranscriber.VerifyKey | src/api/providers/transcription/openai.js:14-24 | the empty and `sk-` guards give their messages, and no key is ever valid |
| OpenAITranscriber.WellFormedKeyRejected | src/api/providers/transcription/openai.js:15-17 | a well-formed key gets "Unsupported provider: undefined" |
| OpenAITranscriber.VerifyKeyIntended | src/api/providers/transcription/openai.js:14-24 | with `provider: "openai"` the same local guards apply |
| OpenAITranscriber.IntendedVerifyJudgedByOpenAI | src/api/providers/transcription/openai.js:14-24 | with the provider named, a well-formed key is valid exactly when OpenAI accepts it, and an exception is invalid with its message |
| OpenAITranscriber.Transcribe | src/api/providers/transcription/openai.js:26-55 | no request without a key; otherwise the model and `audio.ogg` are sent, with a language exactly when it is set and not `auto`; an answer is its text and a refusal the parsed message defaulting to "Transcription failed" |
| LocalWhisper.Overwrite | src/api/providers/transcription/local-whisper.js:62-63 | a write of `bs` at `offset` keeps the buffer's length and puts `bs` at bytes `offset..offset+|bs|` |
| LocalWhisper.OverwriteElsewhere | src/api/providers/transcription/local-whisper.js:62-63 | a write leaves every byte outside its range as it was |
| LocalWhisper.OverwriteWhole | src/api/providers/transcription/local-whisper.js:62-63 | a write from offset 0 that covers the whole buffer replaces it, which is how the zero-filled `ArrayBuffer` ends up holding exactly the file |
| LocalWhisper.OverwriteAdjacent | src/api/providers/transcription/local-whisper.js:65-77 | two writes side by side equal one write of both, which is how the header's field writes compose |
| LocalWhisper.LE16Value | src/api/providers/transcription/local-whisper.js:70-87 | the two bytes of a 16-bit little-endian write read back to the value modulo 2^16 (two's complement for a negative sample) |
| LocalWhisper.LE32Value | src/api/providers/transcription/local-whisper.js:66-77 | the four bytes of a 32-bit little-endian write read back to the value modulo 2^32 |
| LocalWhisper.Latin1 | src/api/providers/transcription/local-whisper.js:95-99 | one byte per character, each the character's code modulo 256 |
| LocalWhisper.WavLength | src/api/providers/transcription/local-whisper.js:61-62 | the file is 44 header bytes plus `numSamples × numChannels × 2` data bytes |
| LocalWhisper.HeaderLayout | src/api/providers/transcription/local-whisper.js:65-77 | each header field (`RIFF`, size, `WAVE`, `fmt `, 16, PCM format 1, channels, rate, byte rate, block align, 16 bits, `data`, data length) sits at its fixed offset |
| LocalWhisper.Header | src/api/providers/transcription/local-whisper.js:65-77 | the header is exactly 44 bytes: the RIFF chunk, the format chunk and the head of the data chunk |
| LocalWhisper.RiffChunk | src/api/providers/transcription/local-whisper.js:65-67 | the RIFF chunk head is 12 bytes: `RIFF`, the remaining length `36 + dataLength`, `WAVE` |
| LocalWhisper.FormatChunk | src/api/providers/transcription/local-whisper.js:68-75 | the format chunk is 24 bytes: `fmt `, 16, format 1, channels, rate, byte rate, block align, 16 bits |
| LocalWhisper.DataChunkHead | src/api/providers/transcription/local-whisper.js:76-77 | the data chunk head is 8 bytes: `data` and the data length |
| LocalWhisper.FrameSample | src/api/providers/transcription/local-whisper.js:81-89 | within a frame, channel `k`'s sample is at bytes `2k..2k+2` |
| LocalWhisper.FramesSample | src/api/providers/transcription/local-whisper.js:80-90 | within the data, sample `i` of channel `c` is at `2·(i·numChannels + c)` |
| LocalWhisper.WavSample | src/api/providers/transcription/local-whisper.js:79-90 | the file holds sample `i` of channel `c` little-endian at `44 + 2·(i·numChannels + c)` |
| LocalWhisper.FramesMono | src/api/providers/transcription/local-whisper.js:80 | the data written so far grows with the frame count |
| LocalWhisper.SetUint16 | src/api/providers/transcription/local-whisper.js:70 | the buffer afterwards is the old one with the 16-bit little-endian bytes at the offset |
| LocalWhisper.SetInt16 | src/api/providers/transcription/local-whisper.js:87 | a signed sample is written as its 16-bit two's complement, low byte first |
| LocalWhisper.SetUint32 | src/api/providers/transcription/local-whisper.js:66 | the buffer afterwards is the old one with the 32-bit little-endian bytes at the offset |
| LocalWhisper.WriteString | src/api/providers/transcription/local-whisper.js:95-99 | the buffer afterwards is the old one with the string's bytes from the offset on |
| LocalWhisper.WriteHeader | src/api/providers/transcription/local-whisper.js:65-77 | the first 44 bytes become the header, in file order, and nothing else changes |
| LocalWhisper.WriteRiffChunk | src/api/providers/transcription/local-whisper.js:65-67 | bytes 0-11 become the RIFF chunk head and nothing else changes |
| LocalWhisper.WriteFormatChunk | src/api/providers/transcription/local-whisper.js:68-75 | bytes 12-35 become the format chunk, field by field, and nothing else changes |
| LocalWhisper.WriteDataChunkHead | src/api/providers/transcription/local-whisper.js:76-77 | bytes 36-43 become the data chunk head and nothing else changes |
| LocalWhisper.WriteFrame | src/api/providers/transcription/local-whisper.js:81-89 | one frame's samples are appended channel by channel and the offset advances by two bytes per channel |
| LocalWhisper.WriteSample | src/api/providers/transcription/local-whisper.js:87-88 | a sample written right after what has been written so far extends it by the sample's two little-endian bytes |
| LocalWhisper.WriteChannel | src/api/providers/transcription/local-whisper.js:81-88 | one pass of the inner loop writes channel `c` of frame `i` and extends what has been written by that sample |
| LocalWhisper.FramePrefixStep | src/api/providers/transcription/local-whisper.js:81-89 | one more channel extends frame `i`'s bytes by that channel's sample |
| LocalWhisper.FramesStep | src/api/providers/transcription/local-whisper.js:80-90 | one more frame extends the data by that frame's `2 × numChannels` bytes |
| LocalWhisper.WriteFrames | src/api/providers/transcription/local-whisper.js:79-90 | after the header, every frame is written in order |
| LocalWhisper.AudioBufferToWav | src/api/providers/transcription/local-whisper.js:52-93 | a new buffer holding exactly the canonical WAV file of the decoded audio |
| LocalWhisper.ConvertToWav | src/api/providers/transcription/local-whisper.js:7-50 | a WAV blob passes through; without audio support or on any failure the original blob goes as `ogg`; otherwise the WAV serialisation goes as `wav`; the extension is `wav` exactly when the blob is WAV |
| LocalWhisper.ApiUrlDefault | src/api/providers/transcription/local-whisper.js:102 | a configured URL is used as it is, and `http://localhost:9000` without one |
| LocalWhisper.VerifyServer | src/api/providers/transcription/local-whisper.js:104-122 | valid exactly when the health check answered OK; a bad status and an exception give their own messages |
| LocalWhisper.Transcribe | src/api/providers/transcription/local-whisper.js:124-156 | the file goes to `<apiUrl>/inference` as `audio.<extension>` with its type and a language exactly when one is set and not `auto`; an answer is its text; every failure is wrapped with the transcriber's prefix |
| LocalWhisper.TranscribeErrorsPrefixed | src/api/providers/transcription/local-whisper.js:151-155 | every failure message starts with "Error with Local Whisper transcription: " |
| Hook.Message | src/content/hook.js:27-34 | the posted message carries the bridge's fixed `source` and `type` tags with the record's mime and the blob's bytes |
| Hook.Registered | src/content/hook.js:6-18 | an audio blob's URL gets a fresh unsent record of its blob and type; a non-audio blob leaves the registry as it was; no other URL changes |
| Hook.AfterSend | src/content/hook.js:20-24 | the URL's record, if any, ends up marked sent with its blob and mime; an unregistered or already sent URL changes nothing; no other record changes |
| Hook.StartedReads | src/content/hook.js:21-26 | exactly one read is started, of the record's blob, when the URL is registered and unsent, and none otherwise |
| Hook.SecondSendIsNoop | src/content/hook.js:22-24 | `maybeSend` of a URL already sent changes nothing and starts nothing |
| Hook.ReRegistrationResets | src/content/hook.js:9-15 | registering a URL again makes it sendable with the new blob |
| Hook.AppendFresh | src/content/hook.js:24-26 | adding a registration that is nowhere yet keeps every registration at most once |
| Hook.RemoveKeepsOnce | src/content/hook.js:26-36 | taking a settled read out keeps every registration at most once |
| Hook.RegisterKeeps | src/content/hook.js:9-15 | a registration keeps the registry, the reads and the messages coherent |
| Hook.SendKeeps | src/content/hook.js:21-26 | starting the read of a sendable URL keeps the state coherent |
| Hook.DropReadKeeps | src/content/hook.js:26 | a read that settles without posting keeps the state coherent |
| Hook.PostKeeps | src/content/hook.js:27-35 | posting the bytes of a registration with no read, no message and no unsent record keeps the state coherent |
| Hook.SettleKeeps | src/content/hook.js:26-36 | settling any read in flight, posting or not, keeps the state coherent |
| Hook.MediaElement.constructor | src/content/hook.js:60 | the element's `src` is the one given |
| Hook.AudioHook.constructor | src/content/hook.js:2 | an empty registry, no reads and no messages, in a coherent state |
| Hook.AudioHook.OnCreate | src/content/hook.js:6-18 | returns the URL the original produced and registers an audio blob under it; reads and messages are unchanged; coherence is kept |
| Hook.AudioHook.MaybeSend | src/content/hook.js:20-37 | the registry becomes `AfterSend` of the URL and the reads gain `StartedReads`; nothing is posted yet; coherence is kept |
| Hook.AudioHook.CompleteRead | src/content/hook.js:26-36 | the settled read leaves the list; its mime and bytes are posted exactly when it resolved; the registry is unchanged |
| Hook.AudioHook.OnSrcWrite | src/content/hook.js:50-53 | `maybeSend` of the new value, then the element's `src` is that value |
| Hook.AudioHook.OnAudioConstruct | src/content/hook.js:57-65 | a new element whose `src` is the first argument, and `maybeSend` of that argument exactly when it is non-empty |
| Hook.AtMostOnePostPerRegistration | src/content/hook.js:20-37 | in every reachable state, each registration's bytes are posted at most once, and every message is tagged and carries an `audio/` mime |
| Content.NewId | content.js:158-162 | a bubble's new id is non-empty and starts with `bubble-` |
| Content.PopupFor | content.js:48-139 | the popup shows the text; it offers the configuration help exactly when the text mentions the missing key, and a copy button exactly when it does not and has no warning sign |
| Content.CacheAfter | content.js:149-150 | a popup caches its text under the bubble id exactly when there is an id and the text is non-empty without the warning sign; otherwise the cache is unchanged |
| Content.CacheAfterKeepsClean | content.js:149-173 | every cached entry keeps an id and a clean text, and re-showing a cached text leaves the cache as it is |
| Content.NoKeyTextNotCached | content.js:180-183 | the missing-key message is never cached and always shows the configuration help without a copy button |
| Content.TranscriptionRequest | content.js:207-219 | the request goes to the OpenAI transcription URL with the bearer key, `whisper-1`, and the audio as `voice.ogg` of the message's mime |
| Content.TranscribeOutcome | content.js:197-223 | no stored key is "API key not configured"; an OK response is its `text`, a refusal its body text, a network failure its message |
| Content.ClickPathOf | content.js:166-195 | a click re-shows a cached transcription of a done button, else reports the missing key, else is ignored on a disabled button, else queues; exactly one of the four applies |
| Content.HookMessagesAccepted | content.js:262-268 | every message the page hook posts passes the listener's filter |
| Content.Button.constructor | content.js:33-46 | a new button is enabled; a done one shows the check mark and keeps the bubble id, otherwise it shows "Transcribe" |
| Content.Bubble.constructor | content.js:238 | the bubble has the given id and buttons |
| Content.Bubble.EnsureId | content.js:158-164 | a bubble without an id gets `NewId`; one with an id keeps it; its buttons are untouched |
| Content.PlayControl.constructor | content.js:193-194 | a play control that has not been clicked |
| Content.ScannedBubbles | content.js:235-238 | every bubble the scan reaches is the enclosing bubble of one of the play controls found |
| Content.ScannedMembers | content.js:235-238 | the enclosing bubble of every play control found is among the bubbles the scan reaches |
| Content.ScannedStep | content.js:235-238 | scanning one more control adds exactly that control's bubble, if it has one, to those reached |
| Content.Wiring | content.js:237-256 | the bubbles given a click listener, in scan order, are all bubbles that had no transcribe button before the scan |
| Content.WiringScanned | content.js:237-256 | every bubble given a listener is one the scan reaches |
| Content.WiringDistinct | content.js:239-257 | no bubble is given two listeners: once its button is appended, a later control inside it is skipped |
| Content.WiringCovers | content.js:239-256 | every bubble the scan reaches that had no transcribe button is given a listener |
| Content.WiringFirst | content.js:237-256 | the listener of each bubble clicks the play control of the first control found inside that bubble, which no earlier control reached |
| Content.ContentScript.constructor | content.js:11-155 | an empty queue, no transcriptions in progress, an empty cache, no popups and no buttons |
| Content.ContentScript.ShowPopup | content.js:48-151 | one more popup for the text, and the cache becomes `CacheAfter`; the cache stays clean |
| Content.ContentScript.HandleClick | content.js:157-195 | the bubble gets its id; then per `ClickPathOf`: the cached text is re-shown, or the missing-key popup is shown, or nothing happens, or the button is disabled with the hourglass, the request queued and the play control clicked twice; every queued request keeps its own disabled button |
| Content.ContentScript.Respond | content.js:164-195 | the four paths of a click once the bubble has its id, as in `HandleClick` |
| Content.ContentScript.ShowCached | content.js:166-175 | the cached text is shown again and the cache is unchanged |
| Content.ContentScript.ShowNoKey | content.js:178-185 | the missing-key message is shown for no bubble and nothing is cached |
| Content.ContentScript.Enqueue | content.js:187-191 | the button is disabled and shows the hourglass, and the request joins the end of the queue |
| Content.ContentScript.OnMessage | content.js:261-274 | a tagged broadcast from this window takes the oldest queued request and starts transcribing it with the broadcast's audio; anything else, or an empty queue, changes nothing |
| Content.ContentScript.Settle | content.js:273-282 | the transcription leaves the list; a text is shown and cached and its button becomes done with the bubble id; any failure shows the warning on the button; the button is enabled again either way |
| Content.ContentScript.Dequeue | content.js:271-273 | the settled request leaves the list, and no other outstanding request holds its button |
| Content.ContentScript.Finish | content.js:275-282 | the `then`, `catch` and `finally` of a settled transcription, as in `Settle` |
| Content.ContentScript.SettleKeepsQueue | content.js:271-282 | removing one outstanding request leaves the others in order, each with a button other than its own |
| Content.ContentScript.AddButtons | content.js:234-259 | after a scan, a bubble that already had a button is untouched, and every other scanned bubble has an id and exactly one new button, done exactly when its id is cached; the listeners are the old ones followed by one per such bubble in `Wiring` order, each with that bubble's new button and the play control of the first control inside it, and no others |
| Content.ContentScript.WireBubbles | content.js:235-258 | the loop of the scan against a picture of the bubbles taken before it: the same outcome as `AddButtons`, with each bubble's old buttons and id read from the picture |
| Content.ContentScript.AddButton | content.js:237-258 | one scanned control: skipped without a bubble or when the bubble has a button; otherwise the bubble gets its id and one new button wired to this control |
| Background.BundledVerifyKey | dist/background/background.js:119-147 | the local guards first; past them the key is valid exactly when the models request answered; a refusal gives the bundled parser's message defaulting to "Invalid API key", an exception its message or "Network error" |
| Background.VerifyVerdict | dist/background/background.js:452-464 | a provider type other than OpenAI is "Unsupported provider type: ..."; an empty type or `openai` gives the bundled OpenAI verdict |
| Background.ValidKeyHasPrefix | dist/background/background.js:452-464 | only a non-empty `sk-` key the server accepted is ever valid |
| Background.StoredApiKey | dist/background/background.js:475-481 | the local key, else the synced key, else none; a key handed out is never empty |
| Background.SavedKeyIsRead | dist/background/background.js:458-481 | a key saved to both areas is the key read back, whatever was stored before |
| Background.HandlerFor | dist/background/background.js:444-493 | each of the five actions has its own handler and no other name has one |
| Background.BackgroundWorker.constructor | dist/background/background.js:444 | the worker starts from the given storage areas with nothing opened or notified |
| Background.BackgroundWorker.Startup | dist/background/background.js:515-518 | a non-empty synced key is copied into the local area; otherwise nothing changes |
| Background.BackgroundWorker.OnInstalled | dist/background/background.js:511-513 | the options page is opened exactly on a fresh install |
| Background.BackgroundWorker.VerifyApiKeyHandler | dist/background/background.js:452-464 | the verdict is `VerifyVerdict`, and the key is saved to both areas exactly when it is valid |
| Background.BackgroundWorker.GetApiKeyHandler | dist/background/background.js:475-481 | returns `StoredApiKey` of the current areas |
| Background.BackgroundWorker.OnMessage | dist/background/background.js:495-509 | a message without a known action is refused and changes nothing; otherwise the handler's effect and response, each handler changing only its own state |
| Background.VerifiedKeyIsHandedOut | dist/background/background.js:452-481 | after a successful verification the worker hands out exactly that key |
| AnalysisParser.FindLabel | src/lib/api.js:123-127 | the first case-insensitive occurrence of the label at or after the start, and no occurrence before it; none when there is none |
| AnalysisParser.LookaheadEnd | src/lib/api.js:124-127 | the lazy capture stops at the first stop label after its start, or at the end when there is none |
| AnalysisParser.SkipSpace | src/lib/api.js:124-127 | `\s*` skips exactly the whitespace run |
| AnalysisParser.AfterLabel | src/lib/api.js:124-127 | the capture starts past the label, an optional colon and whitespace |
| AnalysisParser.Field | src/lib/api.js:123-131 | a captured field is trimmed, and empty when its label does not occur |
| AnalysisParser.Cleaned | src/lib/api.js:123-129 | the cleaned text is trimmed, and empty without a `CLEANED` label |
| AnalysisParser.Summary | src/lib/api.js:126-130 | the summary is trimmed, and empty without a `SUMMARY` label |
| AnalysisParser.Reply | src/lib/api.js:127-131 | the reply is trimmed, and empty without a `REPLY` label |
| AnalysisParser.NumberMarkEnd | src/lib/api.js:134 | a `\d+\.\s+` separator found at a position ends after it |
| AnalysisParser.SplitFrom | src/lib/api.js:134 | the numbered split always yields at least one piece |
| AnalysisParser.ParseAnalysisResponse | src/lib/api.js:115-143 | the transcript is always the original transcription; when any label gives text the three fields are the trimmed captures; otherwise a numbered list of at least five pieces gives pieces 2, 3 and 4 trimmed, and anything else leaves the fields empty |
| AnalysisParser.CleanedOf | src/lib/api.js:123-129 | in the `CLEANED: …\nSUMMARY: …\nREPLY: …` layout the cleaned text is read back exactly |
| AnalysisParser.SummaryOf | src/lib/api.js:126-130 | in that layout the summary is read back exactly |
| AnalysisParser.ReplyOf | src/lib/api.js:127-131 | in that layout the reply is read back exactly |
| AnalysisParser.LabelledRoundTrip | src/lib/api.js:115-143 | three trimmed, non-empty sections that do not mention the later labels, written in the labelled layout, parse back to those sections with the original transcript |
| AnalysisParser.SplitSkip | src/lib/api.js:134 | no piece ends inside a stretch without digits |
| AnalysisParser.SplitItem | src/lib/api.js:134 | a digit-free piece followed by a one-digit list number, a dot and a space is the first piece of the split, and the rest of the text splits on its own |
| AnalysisParser.NumberedPieces | src/lib/api.js:134 | `pre + "1. " + t + "2. " + c + "3. " + m + "4. " + r` with digit-free pieces, the last four trimmed and non-empty, splits into exactly `[pre, t, c, m, r]` |
| AnalysisParser.NumberedRoundTrip | src/lib/api.js:115-143 | an answer with none of the three labels, in that numbered layout, parses back to `c`, `m` and `r` with the original transcript |

## Left out

- Network, `FormData`, `File` and JSON decoding are not modelled. Each call's outcome is an input.
- `chrome.storage`, `chrome.runtime` and `chrome.tabs` are not modelled: storage is maps, and messages are arguments.
- Storage failures, the storage `try`/`catch` blocks and `chrome.runtime.lastError` are not modelled.
- IndexedDB (`dist/background/background.js:282-352`) and `src/services/storageService.js` are not modelled. Their reads are the stored-value parameters.
- Svelte store subscription and notification are not modelled. "Persistence has started" is a flag, and each store write calls the subscriber's handler directly.
- `SettingsService.SettingsService.Initialize`, `SettingsStore.SettingsStore.InitializeSettings` and `SettingsStore.SettingsStore.InitializeSettingsIntended`: these require that persistence has not started. A second initialisation registers a second subscriber, and the model does not represent one.
- The imports at `src/services/settingsService.js:1-6` are names `src/api/index.js` does not export. As written, the module fails to load, and so does `src/services/transcriptionService.js`, which imports it. `SettingsService` and `TranscriptionService` model the code as if the imports resolved. The default provider ids the imports would give are constructor parameters.
- The contents of the `settingsUpdated` message, the `debounce` timer and `notifyWhatsappTabs` (`dist/background/background.js:398-441`) are not modelled. The worker counts notification requests.
- The 100 ms second play click is not modelled: a play control counts clicks and scheduled clicks.
- DOM work is not modelled: popup construction, styles, the clipboard, `closest`/`querySelectorAll` and the `MutationObserver`. A popup is a `Popup` value, and a scan is a list of controls.
- `has_api_key`, `check_api_key`'s flag and the `storage.onChanged` listener (`content.js:12-22`, `content.js:226-231`) are not modelled: the flag is written but never read. The stored key is passed to each click.
- The content script's `transcribe` resolving to a value that is not a string is `Ok(None)`. `show_transcription_popup` then throws on `.includes`, so the button shows the warning.
- The monkey-patching mechanics in the hook are not modelled: `Proxy`, `Object.defineProperty`, descriptor lookup and the delegated getter. The patched entry points are methods.
- In the hook, a `src` value that is not a string is not modelled.
- Cross-context interleaving is not modelled. Events arrive as a sequential trace, and FIFO pairing of broadcasts with clicks is the premise of the model.
- The floating-point clamp and scaling at `src/api/providers/transcription/local-whisper.js:82-86` and `AudioContext` decoding are not modelled. Samples enter `LocalWhisper.AudioBufferToWav` as `int16` values, and decoding is an outcome parameter.
- Console warnings and `audioContext.close()` in `convertToWav` are not modelled.
- The bundled OpenAI provider's `transcribeAudio` and `processTranscription` in `dist/background/background.js` are not modelled. Only its key check, error parser, section parser, template renderer and registry are.
- In the background listener, names inherited from `Object.prototype` (`messageHandlers["toString"]`) and a handler that rejects are not modelled.
- `Js.ReplaceFirst`: its contract states only the no-occurrence case. The replacement of the first occurrence is proved by `Js.ReplaceFirstAt` and `Js.ReplaceFirstEarliest`. Replacement patterns that need capture groups (`$1`, `$<name>`) do not arise, because the pattern is a plain string.
- `Registry.GetTranscriptionProvider`: a type that names an `Object.prototype` property (`constructor`, `toString`, …) is refused as unsupported. The source's lookup at `src/api/index.js:16` finds the inherited property, calls it as a factory, and fails later or returns a value that is not a provider. `TranscriptionService.ConfiguredTranscriptionProvider` and `TranscriptionService.VerifyOutcome` inherit this.
- `Registry.GetProcessingProvider`: the same for `src/api/index.js:24`. `TranscriptionService.ConfiguredProcessingProvider` and `TranscriptionService.VerifyOutcome` inherit it.
- `Registry.BundledGetProvider`: the same for `dist/background/background.js:275`.
- `SettingsService.Setting` and `SettingsService.SettingsService.GetSetting`: a key that names an `Object.prototype` property and is not a setting (`toString`, `constructor`, `hasOwnProperty`, …) answers the default. The source's `get(settings)[key] !== undefined` at `src/services/settingsService.js:160` finds the inherited member, so `getSetting` returns that function (for `__proto__`, `Object.prototype` itself) instead of `defaultValue`. Setting values are modelled as JSON-like data, which has no function values.
- `Background.VerifyVerdict`: a provider type that names an `Object.prototype` property is answered "Unsupported provider type: <type>". In the source, the lookup at `dist/background/background.js:275` finds the inherited function, so the test at :277 passes. For `constructor`, `Object(config)` gives back `{}`. The catch at :461-463 then answers invalid with the message "provider.verifyApiKey is not a function". For other inherited names the result depends on the name and on the engine. `Background.BackgroundWorker.VerifyApiKeyHandler` and `Background.BackgroundWorker.OnMessage` inherit this. In both the source and the model the verdict is invalid and the key is not saved; only the message differs.
- `Template.Substitute`: a trimmed key that names an `Object.prototype` property and is not a variable is kept as the placeholder. The source's `variables[trimmedKey]` at `src/utils/template.js:5` finds the inherited property and inserts its string form.
- `Template.RenderOnePlaceholder`: its undefined-key case holds for keys that are not `Object.prototype` names, as `Template.Substitute` says.
- `Template.RenderFrom` and `Template.RenderTemplate`: "no variables renders the template unchanged" holds for templates whose keys are not `Object.prototype` names, as `Template.Substitute` says.
- `processVoiceMessage` in `src/lib/api.js:146-150` is not modelled. It only chains `transcribeAudio` and `analyzeTranscription`, which are modelled.
- `getSettings` and `getAllSettings` in the settings modules are not modelled: they return the current settings object.
- `src/content/content.js` is not modelled. It is the 32-line mount that reloads the page on a settings change.
- The abstract provider stubs are not modelled (`BaseProvider.js`, `BaseProcessingProvider.js`, `BaseTranscriptionProvider.js`, `processing/base.js`, `transcription/base.js`). They only throw "must be implemented", so every provider is a module of functions instead.
- The UI entry points (`src/pages`, `src/options`, `src/popup`), `src/background/background.js` and the build configuration are not modelled.

## Findings

| source | as written | input that shows it | evidently intended | confidence | as-written member | corrected member |
|---|---|---|---|---|---|---|
| src/api/providers/processing/openai.js:17-19 | passes `providerType: "openai"` to a verifier that reads `provider` | the key `sk-abc` rejected as "Unsupported provider: undefined" | `provider: "openai"` | not executed | OpenAIProcessor.WellFormedKeyRejected | OpenAIProcessor.IntendedVerifyJudgedByOpenAI |
| src/api/providers/processing/claude.js:17-19 | passes `providerType: "claude"` | the key `sk-ant-abc` rejected as "Unsupported provider: undefined" | `provider: "claude"` | not executed | ClaudeProcessor.WellFormedKeyRejected | ClaudeProcessor.IntendedVerifyJudgedByClaude |
| src/api/providers/transcription/openai.js:15-17 | passes `providerType: "openai"` | the key `sk-abc` rejected as "Unsupported provider: undefined" | `provider: "openai"` | not executed | OpenAITranscriber.WellFormedKeyRejected | OpenAITranscriber.IntendedVerifyJudgedByOpenAI |
| src/lib/api.js:41-50 | the pending counter is lowered only on the success path | a refused transcription request: the counter stays one higher | lowered once whatever the outcome, as `analyzeTranscription` does in `finally` | not executed | PopupApi.FailedTranscriptionStaysPending | PopupApi.TranscriptionSettles |
| src/store/settings.js:111-113 | calls `storageService.getTranscriptions`, which `storageService.js` does not define | any start-up: the call throws before any setting is read | read the stored transcriptions and continue | not executed | SettingsStore.SettingsStore.InitializeSettings | SettingsStore.SettingsStore.InitializeSettingsIntended |
