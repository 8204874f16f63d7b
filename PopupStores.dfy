/** The popup's stores: the OpenAI key, the selected models, the analysis
    settings and the extension status, with the start-up read from browser
    storage, the subscriptions that write the stores back, and the key lookup
    that falls back to the background script.  The two storage areas are fields
    of the model, and each storage call takes effect in the order it is issued;
    what the background script answers is an input. */
module PopupStores {
  import opened Js
  import opened Status

  /** The `transcriptionSettings` store. */
  datatype AnalysisSettings = AnalysisSettings(
    generateCleaned: bool,
    generateSummary: bool,
    generateReply: bool,
    language: string,
    promptTemplate: string)

  const DefaultPromptHead: string := "Based on the voice " + "message transcript, " + "generate four outputs:\n"

  const DefaultPromptTail: string :=
    ": The exact transcript\n"
    + "CLEANED: A grammatically corrected, filler-word-free version\n"
    + "SUMMARY: A concise summary in 1-2 sentences\n"
    + "REPLY: A natural, helpful suggested reply to this message"

  /** The default analysis prompt: its second line is a `TRANSCRIPT` label. */
  const DefaultPromptTemplate: string := DefaultPromptHead + "TRANSCRIPT" + DefaultPromptTail

  const DefaultSettings: AnalysisSettings := AnalysisSettings(true, true, true, "auto", DefaultPromptTemplate)

  /** The popup's members of `chrome.storage.sync`; `None` is an absent member. */
  datatype SyncArea = SyncArea(
    apiKey: Option<string>,
    transcriptionModel: Option<string>,
    analysisModel: Option<string>,
    settings: Option<AnalysisSettings>,
    isExtensionEnabled: Option<bool>)

  /** A stored string tested for truthiness: present and not empty. */
  predicate Truthy(v: Option<string>) {
    v.Some? && v.value != ""
  }

  /** A stored string where it is read as a string (`""` when absent). */
  function KeyOf(v: Option<string>): string {
    if v.Some? then v.value else ""
  }

  /** The key start-up settles on: the local one, else the synced one, else none. */
  function StartupKey(localKey: string, syncKey: string): (r: Option<string>)
    ensures r.Some? <==> localKey != "" || syncKey != ""
    ensures r.Some? ==> r.value != ""
    ensures localKey != "" ==> r == Some(localKey)
    ensures localKey == "" && syncKey != "" ==> r == Some(syncKey)
  {
    if localKey != "" then Some(localKey)
    else if syncKey != "" then Some(syncKey)
    else None
  }

  /** The key `getApiKey()` resolves to: the one in memory, else the background's
      answer when it carries a key, else `null`. */
  function KnownKey(apiKey: string, response: Option<string>): (r: Option<string>)
    ensures apiKey != "" ==> r == Some(apiKey)
    ensures apiKey == "" ==> (r.Some? <==> response.Some? && response.value != "")
    ensures apiKey == "" && r.Some? ==> r == response
    ensures r.Some? ==> r.value != ""
  {
    if apiKey != "" then Some(apiKey)
    else if response.Some? && response.value != "" then response
    else None
  }

  /** The status after `getApiKey()` updated it: marked configured when the
      background supplied the key. */
  function LookupStatus(s: Status, apiKey: string, response: Option<string>): (r: Status)
    ensures r.pending == s.pending && r.lastError == s.lastError && r.isExtensionEnabled == s.isExtensionEnabled
    ensures r.isApiKeyConfigured == (s.isApiKeyConfigured || (apiKey == "" && KnownKey(apiKey, response).Some?))
  {
    if apiKey == "" && KnownKey(apiKey, response).Some? then s.(isApiKeyConfigured := true) else s
  }

  /** A key once known is served from memory: a second lookup returns it whatever
      the background would answer, and changes nothing. */
  lemma KnownKeySticks(apiKey: string, first: Option<string>, second: Option<string>, s: Status)
    requires KnownKey(apiKey, first).Some?
    ensures var k := KnownKey(apiKey, first).value;
      KnownKey(k, second) == Some(k) && LookupStatus(s, k, second) == s
  {
  }

  /** The `isExtensionEnabled` start-up settles on.  With the subscriptions
      already running, a local key updates the status before the synced members
      are read, and that update writes the in-memory flag over the synced one. */
  function StartupEnabled(persisting: bool, localKey: Option<string>, synced: Option<bool>, current: bool): (r: bool)
    ensures !persisting ==> r == synced.GetOr(current)
    ensures persisting && Truthy(localKey) ==> r == current
  {
    if persisting && Truthy(localKey) then current else synced.GetOr(current)
  }

  class Stores {
    var apiKey: string
    var transcriptionModel: string
    var analysisModel: string
    var settings: AnalysisSettings
    var status: Status
    /** `openai_api_key` in `chrome.storage.local`, and the synced members. */
    var localApiKey: Option<string>
    var sync: SyncArea
    /** Whether `setupStorePersistence()` has subscribed to the stores. */
    var persisting: bool

    /** While the subscriptions run, storage mirrors the stores and the status
        says a key is configured exactly when there is one. */
    predicate Persisted()
      reads this
    {
      persisting ==>
        localApiKey == Some(apiKey) && sync.apiKey == Some(apiKey)
        && sync.transcriptionModel == Some(transcriptionModel)
        && sync.analysisModel == Some(analysisModel)
        && sync.settings == Some(settings)
        && sync.isExtensionEnabled == Some(status.isExtensionEnabled)
        && status.isApiKeyConfigured == (apiKey != "")
    }

    /** The stores with their initial values, over the given storage contents. */
    constructor (localApiKey: Option<string>, sync: SyncArea)
      ensures this.apiKey == "" && transcriptionModel == "whisper-1" && analysisModel == "gpt-4o"
      ensures settings == DefaultSettings && status == InitialStatus
      ensures this.localApiKey == localApiKey && this.sync == sync && !persisting
      ensures Persisted()
    {
      apiKey := "";
      transcriptionModel := "whisper-1";
      analysisModel := "gpt-4o";
      settings := DefaultSettings;
      status := InitialStatus;
      this.localApiKey := localApiKey;
      this.sync := sync;
      persisting := false;
    }

    /** `extensionStatus.set`: the status subscription stores the flag. */
    method PutStatus(s: Status)
      modifies this
      ensures status == s
      ensures sync == if persisting then old(sync).(isExtensionEnabled := Some(s.isExtensionEnabled)) else old(sync)
      ensures apiKey == old(apiKey) && transcriptionModel == old(transcriptionModel) && analysisModel == old(analysisModel)
      ensures settings == old(settings) && localApiKey == old(localApiKey) && persisting == old(persisting)
    {
      status := s;
      if persisting {
        sync := sync.(isExtensionEnabled := Some(s.isExtensionEnabled));
      }
    }

    /** `apiKey.set(value)`: the key subscription writes the key to both areas and
        records in the status whether there is one. */
    method SetApiKey(value: string)
      modifies this
      ensures apiKey == value
      ensures persisting ==>
        localApiKey == Some(value) && sync == old(sync).(apiKey := Some(value), isExtensionEnabled := Some(status.isExtensionEnabled))
        && status == old(status).(isApiKeyConfigured := value != "")
      ensures !persisting ==> localApiKey == old(localApiKey) && sync == old(sync) && status == old(status)
      ensures transcriptionModel == old(transcriptionModel) && analysisModel == old(analysisModel)
      ensures settings == old(settings) && persisting == old(persisting)
      ensures old(Persisted()) ==> Persisted()
    {
      apiKey := value;
      if persisting {
        sync := sync.(apiKey := Some(value));
        localApiKey := Some(value);
        PutStatus(status.(isApiKeyConfigured := value != ""));
      }
    }

    /** `selectedTranscriptionModel.set(value)` and its subscription. */
    method SetTranscriptionModel(value: string)
      modifies this
      ensures transcriptionModel == value
      ensures sync == if persisting then old(sync).(transcriptionModel := Some(value)) else old(sync)
      ensures apiKey == old(apiKey) && analysisModel == old(analysisModel) && settings == old(settings)
      ensures status == old(status) && localApiKey == old(localApiKey) && persisting == old(persisting)
      ensures old(Persisted()) ==> Persisted()
    {
      transcriptionModel := value;
      if persisting {
        sync := sync.(transcriptionModel := Some(value));
      }
    }

    /** `selectedAnalysisModel.set(value)` and its subscription. */
    method SetAnalysisModel(value: string)
      modifies this
      ensures analysisModel == value
      ensures sync == if persisting then old(sync).(analysisModel := Some(value)) else old(sync)
      ensures apiKey == old(apiKey) && transcriptionModel == old(transcriptionModel) && settings == old(settings)
      ensures status == old(status) && localApiKey == old(localApiKey) && persisting == old(persisting)
      ensures old(Persisted()) ==> Persisted()
    {
      analysisModel := value;
      if persisting {
        sync := sync.(analysisModel := Some(value));
      }
    }

    /** `transcriptionSettings.set(value)` and its subscription. */
    method SetSettings(value: AnalysisSettings)
      modifies this
      ensures settings == value
      ensures sync == if persisting then old(sync).(settings := Some(value)) else old(sync)
      ensures apiKey == old(apiKey) && transcriptionModel == old(transcriptionModel) && analysisModel == old(analysisModel)
      ensures status == old(status) && localApiKey == old(localApiKey) && persisting == old(persisting)
      ensures old(Persisted()) ==> Persisted()
    {
      settings := value;
      if persisting {
        sync := sync.(settings := Some(value));
      }
    }

    /** `extensionStatus.update(f)`; an update that leaves the key flag as it is
        keeps the storage mirroring the stores. */
    method UpdateStatusStore(s: Status)
      modifies this
      ensures status == s
      ensures sync == if persisting then old(sync).(isExtensionEnabled := Some(s.isExtensionEnabled)) else old(sync)
      ensures apiKey == old(apiKey) && transcriptionModel == old(transcriptionModel) && analysisModel == old(analysisModel)
      ensures settings == old(settings) && localApiKey == old(localApiKey) && persisting == old(persisting)
      ensures old(Persisted()) && s.isApiKeyConfigured == old(status.isApiKeyConfigured) ==> Persisted()
    {
      PutStatus(s);
    }

    /** `setupStorePersistence()`: each subscription runs once at once with the
        current value, so every store is written out, and from then on every set
        is. */
    method SetupStorePersistence()
      modifies this
      ensures persisting && Persisted()
      ensures localApiKey == Some(apiKey)
      ensures sync == SyncArea(Some(apiKey), Some(transcriptionModel), Some(analysisModel), Some(settings), Some(status.isExtensionEnabled))
      ensures status == old(status).(isApiKeyConfigured := old(apiKey) != "")
      ensures apiKey == old(apiKey) && transcriptionModel == old(transcriptionModel) && analysisModel == old(analysisModel)
      ensures settings == old(settings)
    {
      sync := sync.(apiKey := Some(apiKey));
      localApiKey := Some(apiKey);
      status := status.(isApiKeyConfigured := apiKey != "");
      sync := sync.(transcriptionModel := Some(transcriptionModel));
      sync := sync.(analysisModel := Some(analysisModel));
      sync := sync.(settings := Some(settings));
      sync := sync.(isExtensionEnabled := Some(status.isExtensionEnabled));
      persisting := true;
    }

    /** The `chrome.storage.local.get` callback of `initializeStores()`: a
        local key is taken. */
    method AdoptLocalKey(localKey: Option<string>)
      modifies this
      ensures apiKey == (if Truthy(localKey) then localKey.value else old(apiKey))
      ensures status == (if Truthy(localKey) then old(status).(isApiKeyConfigured := true) else old(status))
      ensures localApiKey == (if Truthy(localKey) && persisting then localKey else old(localApiKey))
      ensures sync.apiKey == (if Truthy(localKey) && persisting then localKey else old(sync.apiKey))
      ensures !persisting ==> sync == old(sync)
      ensures sync.transcriptionModel == old(sync.transcriptionModel) && sync.analysisModel == old(sync.analysisModel)
      ensures sync.settings == old(sync.settings)
      ensures sync.isExtensionEnabled == (if Truthy(localKey) && persisting then Some(status.isExtensionEnabled) else old(sync.isExtensionEnabled))
      ensures transcriptionModel == old(transcriptionModel) && analysisModel == old(analysisModel)
      ensures settings == old(settings) && persisting == old(persisting)
      ensures old(Persisted()) ==> Persisted()
    {
      if Truthy(localKey) {
        SetApiKey(localKey.value);
        UpdateStatusStore(status.(isApiKeyConfigured := true));
      }
    }

    /** The key part of the `chrome.storage.sync.get` callback: the synced key is
        taken, and copied into local storage, only when there was no local one. */
    method AdoptSyncedKey(localKey: Option<string>, result: SyncArea)
      modifies this
      ensures var taken := !Truthy(localKey) && Truthy(result.apiKey);
        apiKey == (if taken then result.apiKey.value else old(apiKey))
        && status == (if taken then old(status).(isApiKeyConfigured := true) else old(status))
        && localApiKey == (if taken then result.apiKey else old(localApiKey))
        && sync.apiKey == (if taken && persisting then result.apiKey else old(sync.apiKey))
        && sync.isExtensionEnabled == (if taken && persisting then Some(status.isExtensionEnabled) else old(sync.isExtensionEnabled))
      ensures sync.transcriptionModel == old(sync.transcriptionModel) && sync.analysisModel == old(sync.analysisModel)
      ensures sync.settings == old(sync.settings)
      ensures !persisting ==> sync == old(sync)
      ensures transcriptionModel == old(transcriptionModel) && analysisModel == old(analysisModel)
      ensures settings == old(settings) && persisting == old(persisting)
      ensures old(Persisted()) ==> Persisted()
    {
      if !Truthy(localKey) && Truthy(result.apiKey) {
        SetApiKey(result.apiKey.value);
        UpdateStatusStore(status.(isApiKeyConfigured := true));
        localApiKey := result.apiKey;
      }
    }

    /** The rest of the `chrome.storage.sync.get` callback: present models and
        settings replace their stores, a defined enabled flag replaces the
        status's. */
    method AdoptSyncedMembers(result: SyncArea)
      modifies this
      ensures transcriptionModel == (if Truthy(result.transcriptionModel) then result.transcriptionModel.value else old(transcriptionModel))
      ensures analysisModel == (if Truthy(result.analysisModel) then result.analysisModel.value else old(analysisModel))
      ensures settings == result.settings.GetOr(old(settings))
      ensures status == old(status).(isExtensionEnabled := result.isExtensionEnabled.GetOr(old(status.isExtensionEnabled)))
      ensures apiKey == old(apiKey) && localApiKey == old(localApiKey) && persisting == old(persisting)
      ensures sync.apiKey == old(sync.apiKey)
      ensures !persisting ==> sync == old(sync)
      ensures old(Persisted()) ==> Persisted()
    {
      if Truthy(result.transcriptionModel) {
        SetTranscriptionModel(result.transcriptionModel.value);
      }
      if Truthy(result.analysisModel) {
        SetAnalysisModel(result.analysisModel.value);
      }
      if result.settings.Some? {
        SetSettings(result.settings.value);
      }
      if result.isExtensionEnabled.Some? {
        UpdateStatusStore(status.(isExtensionEnabled := result.isExtensionEnabled.value));
      }
    }

    /** `initializeStores()`: the local key is read first and wins; the synced key
        is taken only without a local one, and is then copied into local storage;
        the synced models and settings replace their stores when present, and
        the enabled flag when it is defined. */
    method InitializeStores()
      modifies this
      ensures var k := StartupKey(KeyOf(old(localApiKey)), KeyOf(old(sync.apiKey)));
        apiKey == k.GetOr(old(apiKey))
        && localApiKey == (if k.Some? then k else old(localApiKey))
        && status.isApiKeyConfigured == (old(status.isApiKeyConfigured) || k.Some?)
      ensures status.isExtensionEnabled
        == StartupEnabled(persisting, old(localApiKey), old(sync.isExtensionEnabled), old(status.isExtensionEnabled))
      ensures status.pending == old(status.pending) && status.lastError == old(status.lastError)
      ensures transcriptionModel == (if Truthy(old(sync.transcriptionModel)) then old(sync.transcriptionModel.value) else old(transcriptionModel))
      ensures analysisModel == (if Truthy(old(sync.analysisModel)) then old(sync.analysisModel.value) else old(analysisModel))
      ensures settings == old(sync.settings).GetOr(old(settings))
      ensures persisting == old(persisting)
      ensures !persisting ==> sync == old(sync)
      ensures old(Persisted()) ==> Persisted()
    {
      var localKey := localApiKey;
      AdoptLocalKey(localKey);
      var result := sync;
      AdoptSyncedKey(localKey, result);
      AdoptSyncedMembers(result);
    }

    /** `getApiKey()`, given what the background script answers to `getApiKey`
        when it is asked (`None` for no response). */
    method GetApiKey(response: Option<string>) returns (r: Option<string>)
      modifies this
      ensures r == KnownKey(old(apiKey), response)
      ensures apiKey == r.GetOr(old(apiKey))
      ensures status == LookupStatus(old(status), old(apiKey), response)
      ensures transcriptionModel == old(transcriptionModel) && analysisModel == old(analysisModel)
      ensures settings == old(settings) && persisting == old(persisting)
      ensures !persisting ==> localApiKey == old(localApiKey) && sync == old(sync)
      ensures old(Persisted()) ==> Persisted()
    {
      var key := apiKey;
      if key == "" {
        if response.Some? && response.value != "" {
          SetApiKey(response.value);
          UpdateStatusStore(status.(isApiKeyConfigured := true));
          r := response;
        } else {
          r := None;
        }
        return;
      }
      r := Some(key);
    }
  }
}
