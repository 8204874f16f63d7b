/** The settings store of the options pages: one settings object, the status
    record and the transcription cache, the start-up that migrates legacy
    settings, and the persistence that writes changed settings back.  The two
    `chrome.storage` areas and the IndexedDB entry `wa-transcriptions` are fields
    of the model; asynchronous steps run in the order they are issued. */
module SettingsStore {
  import opened Js
  import opened Status
  import opened SettingsKit

  /** The keys the subscription saves to both areas and keeps out of its sync
      loop. */
  const StoreKeyNames: set<string> := {"apiKey", "transcriptionApiKey", "processingApiKey"}

  /** `DEFAULT_SETTINGS`; both default provider types are `openai`. */
  const StoreDefaults: Record := map[
    "providerType" := Str("openai"),
    "apiKey" := Str(""),
    "processingProviderType" := Str("openai"),
    "transcriptionProviderType" := Str("openai"),
    "processingApiKey" := Str(""),
    "transcriptionApiKey" := Str(""),
    "promptTemplate" := Str(""),
    "language" := Str("auto"),
    "processingModel" := Str("gpt-4o"),
    "transcriptionModel" := Str("whisper-1"),
    "isExtensionEnabled" := Flag(true)]

  /** A key read from local storage, else from sync storage. */
  function ReadKey(local: Record, sync: Record, name: string): (r: Value)
    ensures Truthy(Get(local, name)) ==> r == local[name]
    ensures !Truthy(Get(local, name)) ==> r == Get(sync, name)
  {
    OrV(Get(local, name), Get(sync, name))
  }

  const MigratedNames: set<string> := {"transcriptionProviderType", "processingProviderType", "transcriptionApiKey", "processingApiKey"}

  /** The legacy migration of the stored settings: a legacy `providerType` fills
      each missing provider type, and a legacy key each key that was found
      nowhere. */
  function Migrated(stored: Record, legacy: Value, transcriptionKey: Value, processingKey: Value): (r: Record)
    ensures var p := Member(stored, "providerType");
      && Member(r, "transcriptionProviderType")
         == (if Truthy(p) && !Truthy(Member(stored, "transcriptionProviderType")) then p else Member(stored, "transcriptionProviderType"))
      && Member(r, "processingProviderType")
         == (if Truthy(p) && !Truthy(Member(stored, "processingProviderType")) then p else Member(stored, "processingProviderType"))
    ensures Member(r, "transcriptionApiKey")
      == (if Truthy(legacy) && !Truthy(transcriptionKey) then legacy else Member(stored, "transcriptionApiKey"))
    ensures Member(r, "processingApiKey")
      == (if Truthy(legacy) && !Truthy(processingKey) then legacy else Member(stored, "processingApiKey"))
    ensures Member(r, "isExtensionEnabled") == Member(stored, "isExtensionEnabled")
    ensures forall k :: k in stored ==> k in r
    ensures forall k :: (k in r && k !in MigratedNames) ==> k in stored && r[k] == stored[k]
  {
    var p := Member(stored, "providerType");
    var s1 := if Truthy(p) && !Truthy(Member(stored, "transcriptionProviderType")) then stored["transcriptionProviderType" := p] else stored;
    var s2 := if Truthy(p) && !Truthy(Member(s1, "processingProviderType")) then s1["processingProviderType" := p] else s1;
    var s3 := if Truthy(legacy) && !Truthy(transcriptionKey) then s2["transcriptionApiKey" := legacy] else s2;
    if Truthy(legacy) && !Truthy(processingKey) then s3["processingApiKey" := legacy] else s3
  }

  /** The legacy key: `apiKey` from local storage, else from sync storage. */
  function LegacyKey(local: Record, sync: Record): Value {
    ReadKey(local, sync, "apiKey")
  }

  /** The object `initializeSettings()` sets: the defaults, overridden by the
      migrated sync contents, overridden by the three final keys. */
  function InitialSettings(local: Record, sync: Record): Record {
    var legacy := LegacyKey(local, sync);
    SettingsObject(Migrated(sync, legacy, ReadKey(local, sync, "transcriptionApiKey"), ReadKey(local, sync, "processingApiKey")), legacy)
  }

  /** `InitialSettings` spelt out: the settings object built from the migrated
      synced settings and the legacy key. */
  lemma InitialSettingsIs(local: Record, sync: Record)
    ensures InitialSettings(local, sync)
         == SettingsObject(Migrated(sync, LegacyKey(local, sync), ReadKey(local, sync, "transcriptionApiKey"),
                                    ReadKey(local, sync, "processingApiKey")), LegacyKey(local, sync))
  {
  }

  /** The object literal `settings.set` receives: the defaults, the migrated
      stored settings, then the three keys, each falling back to the legacy key
      and then to "". */
  function SettingsObject(stored: Record, legacy: Value): (r: Record)
    ensures "apiKey" in r && r["apiKey"] == OrV(legacy, Str(""))
  {
    StoreDefaults + stored + map[
      "apiKey" := OrV(legacy, Str("")),
      "transcriptionApiKey" := OrV(OrV(Member(stored, "transcriptionApiKey"), legacy), Str("")),
      "processingApiKey" := OrV(OrV(Member(stored, "processingApiKey"), legacy), Str(""))]
  }

  /** Whether any of the three keys of a settings object is set. */
  predicate AnyKey(s: Record) {
    Truthy(Member(s, "transcriptionApiKey")) || Truthy(Member(s, "processingApiKey")) || Truthy(Member(s, "apiKey"))
  }

  /** `storedSettings.isExtensionEnabled !== false`. */
  predicate StoredEnabled(sync: Record) {
    Member(sync, "isExtensionEnabled") != Flag(false)
  }

  /** The final keys are the synced value, else the legacy key, else `""`, and a
      legacy provider type fills a missing transcription provider type. */
  lemma InitialKeys(local: Record, sync: Record)
    ensures var s := InitialSettings(local, sync);
      var legacy := LegacyKey(local, sync);
      && s["apiKey"] == OrV(legacy, Str(""))
      && s["transcriptionApiKey"] == OrV(OrV(Get(sync, "transcriptionApiKey"), legacy), Str(""))
      && s["processingApiKey"] == OrV(OrV(Get(sync, "processingApiKey"), legacy), Str(""))
  {
    var legacy := LegacyKey(local, sync);
    var tk := ReadKey(local, sync, "transcriptionApiKey");
    var pk := ReadKey(local, sync, "processingApiKey");
    var stored := Migrated(sync, legacy, tk, pk);
    var keys := map[
      "apiKey" := OrV(legacy, Str("")),
      "transcriptionApiKey" := OrV(OrV(Member(stored, "transcriptionApiKey"), legacy), Str("")),
      "processingApiKey" := OrV(OrV(Member(stored, "processingApiKey"), legacy), Str(""))];
    assert InitialSettings(local, sync) == StoreDefaults + stored + keys;
    assert "apiKey" in keys && "transcriptionApiKey" in keys && "processingApiKey" in keys;
    assert !Truthy(tk) ==> !Truthy(Get(sync, "transcriptionApiKey"));
    assert !Truthy(pk) ==> !Truthy(Get(sync, "processingApiKey"));
  }

  /** A legacy `providerType` fills a missing provider type, and a stored one is
      kept. */
  lemma InitialProviderTypes(local: Record, sync: Record)
    ensures var s := InitialSettings(local, sync);
      var p := Member(sync, "providerType");
      var t := Member(sync, "transcriptionProviderType");
      && "transcriptionProviderType" in s
      && (Truthy(p) && !Truthy(t) ==> s["transcriptionProviderType"] == p)
      && (Truthy(t) ==> s["transcriptionProviderType"] == t)
  {
    var legacy := LegacyKey(local, sync);
    var stored := Migrated(sync, legacy, ReadKey(local, sync, "transcriptionApiKey"), ReadKey(local, sync, "processingApiKey"));
    assert "transcriptionProviderType" in StoreDefaults;
    var p := Member(sync, "providerType");
    var t := Member(sync, "transcriptionProviderType");
    if (Truthy(p) && !Truthy(t)) || Truthy(t) {
      assert "transcriptionProviderType" in stored;
    }
  }

  /** A key kept only in local storage is read at start-up but does not reach the
      settings object: without a synced or legacy key the settings hold `""`, and
      no key counts as configured. */
  lemma LocalOnlyKeyDropped(local: Record, sync: Record)
    requires Truthy(Get(local, "transcriptionApiKey"))
    requires !Truthy(Get(sync, "transcriptionApiKey")) && !Truthy(Get(sync, "processingApiKey"))
    requires !Truthy(LegacyKey(local, sync)) && !Truthy(Get(local, "processingApiKey"))
    ensures Truthy(ReadKey(local, sync, "transcriptionApiKey"))
    ensures InitialSettings(local, sync)["transcriptionApiKey"] == Str("")
    ensures !AnyKey(InitialSettings(local, sync))
  {
    InitialKeys(local, sync);
  }

  /** What the subscription leaves in local storage and in sync storage after it
      writes `current`. */
  function SavedLocal(local: Record, current: Record): Record {
    local + KeyWrites(current, StoreKeyNames)
  }

  function SavedSync(sync: Record, current: Record): Record {
    sync + KeyWrites(current, StoreKeyNames) + PlainEntries(current, StoreKeyNames)
  }

  /** A merge into a saved snapshot leaves the subscription's snapshot equal to
      the merged object and the storage holding what saving it writes, whether
      the subscription writes or not. */
  lemma MergeKeepsMirror(previous: Record, updates: Record, local: Record, sync: Record)
    requires SavedLocal(local, previous) == local && SavedSync(sync, previous) == sync
    ensures var current := previous + updates;
      var w := MustWrite(previous, current);
      var local' := if w then SavedLocal(local, current) else local;
      var sync' := if w then SavedSync(sync, current) else sync;
      && (if w then current else previous) == current
      && SavedLocal(local', current) == local' && SavedSync(sync', current) == sync'
  {
    var current := previous + updates;
    if MustWrite(previous, current) {
      SaveIdempotent(local, sync, current);
    } else if |previous| != 0 {
      MergeWrittenIff(previous, updates);
    } else {
      assert current == updates;
      assert |current| == 0;
      assert current == previous;
    }
  }

  /** Saving the same object twice leaves what saving it once does. */
  lemma SaveIdempotent(local: Record, sync: Record, current: Record)
    ensures SavedLocal(SavedLocal(local, current), current) == SavedLocal(local, current)
    ensures SavedSync(SavedSync(sync, current), current) == SavedSync(sync, current)
  {
    assert SavedSync(SavedSync(sync, current), current) == SavedSync(sync, current);
  }

  /** After a save the storage holds every non-key setting in sync storage and
      every non-empty key in both areas; an empty key leaves what was stored. */
  lemma SavedMirrors(local: Record, sync: Record, current: Record)
    ensures forall k :: k in current && k !in StoreKeyNames ==> SavedSync(sync, current)[k] == current[k]
    ensures forall k :: k in StoreKeyNames && k in current && Truthy(current[k]) ==>
      SavedLocal(local, current)[k] == current[k] && SavedSync(sync, current)[k] == current[k]
    ensures forall k :: k in StoreKeyNames && !(k in current && Truthy(current[k])) ==>
      Member(SavedLocal(local, current), k) == Member(local, k) && Member(SavedSync(sync, current), k) == Member(sync, k)
  {
  }

  class SettingsStore {
    var settings: Record
    var status: Status
    var cache: Record
    /** The two `chrome.storage` areas and the IndexedDB entry `wa-transcriptions`. */
    var local: Record
    var sync: Record
    var storedTranscriptions: Option<Record>
    /** The subscription's snapshot, and whether it has been set up. */
    var previous: Record
    var subscribed: bool
    /** How many `settingsUpdated` messages were sent. */
    var notices: nat

    /** While the subscription runs, its snapshot is the settings object, the
        storage holds what it saved, the key flag follows the keys, and a
        non-empty cache is stored. */
    predicate Persisted()
      reads this
    {
      subscribed ==>
        previous == settings
        && SavedLocal(local, settings) == local && SavedSync(sync, settings) == sync
        && status.isApiKeyConfigured == AnyKey(settings)
        && (|cache| != 0 ==> storedTranscriptions == Some(cache))
    }

    /** The stores before `initializeSettings()`, over the given storage. */
    constructor (local: Record, sync: Record, storedTranscriptions: Option<Record>)
      ensures settings == map[] && status == InitialStatus && cache == map[]
      ensures this.local == local && this.sync == sync && this.storedTranscriptions == storedTranscriptions
      ensures previous == map[] && !subscribed && notices == 0
      ensures Persisted()
    {
      settings := map[];
      status := InitialStatus;
      cache := map[];
      this.local := local;
      this.sync := sync;
      this.storedTranscriptions := storedTranscriptions;
      previous := map[];
      subscribed := false;
      notices := 0;
    }

    /** `updateStatus(updates)`. */
    method ApplyStatusUpdate(u: StatusUpdate)
      modifies this
      ensures status == UpdateStatus(old(status), u)
      ensures settings == old(settings) && cache == old(cache) && local == old(local) && sync == old(sync)
      ensures storedTranscriptions == old(storedTranscriptions) && previous == old(previous)
      ensures subscribed == old(subscribed) && notices == old(notices)
      ensures old(Persisted()) && u.isApiKeyConfigured.None? ==> Persisted()
    {
      status := UpdateStatus(status, u);
    }

    /** The settings subscription: nothing for an empty object or one equal to
        the snapshot; otherwise a new snapshot, the non-empty keys to both areas,
        the key flag recomputed, every other entry to sync, and a
        `settingsUpdated` message. */
    method OnSettings()
      modifies this
      ensures var w := MustWrite(old(previous), old(settings));
        && previous == (if w then settings else old(previous))
        && local == (if w then SavedLocal(old(local), settings) else old(local))
        && sync == (if w then SavedSync(old(sync), settings) else old(sync))
        && status == (if w then old(status).(isApiKeyConfigured := AnyKey(settings)) else old(status))
        && notices == (if w then old(notices) + 1 else old(notices))
      ensures settings == old(settings) && cache == old(cache) && storedTranscriptions == old(storedTranscriptions)
      ensures subscribed == old(subscribed)
    {
      var current := settings;
      if |current| == 0 {
        return;
      }
      if !Changed(previous, current) && |previous| != 0 {
        return;
      }
      previous := current;
      local := local + KeyWrites(current, StoreKeyNames);
      sync := sync + KeyWrites(current, StoreKeyNames);
      ApplyStatusUpdate(StatusUpdate(Keep, None, None, Some(AnyKey(current))));
      sync := SyncEntries(sync, current, StoreKeyNames);
      notices := notices + 1;
    }

    /** The cache subscription: a non-empty cache is stored as a whole. */
    method OnCache()
      modifies this
      ensures storedTranscriptions == if |cache| != 0 then Some(cache) else old(storedTranscriptions)
      ensures settings == old(settings) && status == old(status) && cache == old(cache)
      ensures local == old(local) && sync == old(sync) && previous == old(previous)
      ensures subscribed == old(subscribed) && notices == old(notices)
    {
      if |cache| != 0 {
        storedTranscriptions := Some(cache);
      }
    }

    /** `setupSettingsPersistence()`: an empty snapshot, then both subscriptions
        run at once with the current values. */
    method SetupSettingsPersistence()
      requires |settings| != 0
      modifies this
      ensures subscribed && previous == settings
      ensures local == SavedLocal(old(local), settings) && sync == SavedSync(old(sync), settings)
      ensures status == old(status).(isApiKeyConfigured := AnyKey(settings))
      ensures storedTranscriptions == if |cache| != 0 then Some(cache) else old(storedTranscriptions)
      ensures notices == old(notices) + 1
      ensures settings == old(settings) && cache == old(cache)
      ensures Persisted()
    {
      previous := map[];
      subscribed := true;
      assert MustWrite(previous, settings);
      OnSettings();
      OnCache();
      SaveIdempotent(old(local), old(sync), settings);
    }

    /** `initializeSettings()`, as written: its first step calls
        `storageService.getTranscriptions()`, which the storage service does not
        define, so it rejects with a `TypeError` before anything is read or set. */
    method InitializeSettings() returns (r: Result<()>)
      ensures r == Err("storageService.getTranscriptions is not a function")
    {
      r := Err("storageService.getTranscriptions is not a function");
    }

    /** `transcriptionCache.set(...)` and the cache subscription. */
    method SetCache(value: Record)
      modifies this
      ensures cache == value
      ensures storedTranscriptions == if subscribed && |value| != 0 then Some(value) else old(storedTranscriptions)
      ensures settings == old(settings) && status == old(status) && local == old(local) && sync == old(sync)
      ensures previous == old(previous) && subscribed == old(subscribed) && notices == old(notices)
    {
      cache := value;
      if subscribed {
        OnCache();
      }
    }

    /** The in-place migration of the object read from sync storage. */
    static method MigrateStored(sync: Record, legacyApiKey: Value, transcriptionApiKey: Value, processingApiKey: Value)
      returns (stored: Record)
      ensures stored == Migrated(sync, legacyApiKey, transcriptionApiKey, processingApiKey)
    {
      ghost var p := Member(sync, "providerType");
      stored := sync;
      if Truthy(Member(stored, "providerType")) && !Truthy(Member(stored, "transcriptionProviderType")) {
        stored := stored["transcriptionProviderType" := stored["providerType"]];
      }
      ghost var s1 := stored;
      assert s1 == if Truthy(p) && !Truthy(Member(sync, "transcriptionProviderType")) then sync["transcriptionProviderType" := p] else sync;
      assert Member(stored, "providerType") == p;
      if Truthy(Member(stored, "providerType")) && !Truthy(Member(stored, "processingProviderType")) {
        stored := stored["processingProviderType" := stored["providerType"]];
      }
      assert stored == if Truthy(p) && !Truthy(Member(s1, "processingProviderType")) then s1["processingProviderType" := p] else s1;
      if Truthy(legacyApiKey) && !Truthy(transcriptionApiKey) {
        stored := stored["transcriptionApiKey" := legacyApiKey];
      }
      if Truthy(legacyApiKey) && !Truthy(processingApiKey) {
        stored := stored["processingApiKey" := legacyApiKey];
      }
    }

    /** The reads and the migration of `initializeSettings()`: the object it sets,
        and the two status flags it sets. */
    static method ReadStartup(local: Record, sync: Record) returns (initial: Record, enabled: bool, configured: bool)
      ensures initial == InitialSettings(local, sync) && |initial| != 0
      ensures enabled == StoredEnabled(sync)
      ensures configured == (Truthy(LegacyKey(local, sync)) || Truthy(ReadKey(local, sync, "transcriptionApiKey"))
                             || Truthy(ReadKey(local, sync, "processingApiKey")))
    {
      var legacyApiKey := LegacyKey(local, sync);
      var transcriptionApiKey := ReadKey(local, sync, "transcriptionApiKey");
      var processingApiKey := ReadKey(local, sync, "processingApiKey");
      var stored := MigrateStored(sync, legacyApiKey, transcriptionApiKey, processingApiKey);
      initial := SettingsObject(stored, legacyApiKey);
      InitialSettingsIs(local, sync);
      HasMember(initial, "apiKey");
      enabled := Member(stored, "isExtensionEnabled") != Flag(false);
      configured := Truthy(transcriptionApiKey) || Truthy(processingApiKey) || Truthy(legacyApiKey);
    }

    /** `initializeSettings()` with the stored transcriptions read from their
        IndexedDB entry: the cache is loaded, the keys and the synced settings
        are read and migrated, the settings object and the status are set, and
        persistence starts. */
    method InitializeSettingsIntended()
      requires !subscribed
      modifies this
      ensures settings == InitialSettings(old(local), old(sync))
      ensures cache == old(storedTranscriptions).GetOr(map[])
      ensures status == old(status).(isApiKeyConfigured := AnyKey(settings), isExtensionEnabled := StoredEnabled(old(sync)))
      ensures local == SavedLocal(old(local), settings) && sync == SavedSync(old(sync), settings)
      ensures subscribed && notices == old(notices) + 1 && previous == settings
      ensures storedTranscriptions == old(storedTranscriptions)
      ensures Persisted()
    {
      LoadStartup();
      SetupSettingsPersistence();
    }

    /** The part of `initializeSettings()` before persistence starts: the cache
        is loaded, the settings object is set and so are the two status flags. */
    method LoadStartup()
      requires !subscribed
      modifies this
      ensures settings == InitialSettings(old(local), old(sync)) && |settings| != 0
      ensures cache == old(storedTranscriptions).GetOr(map[])
      ensures status == old(status).(isApiKeyConfigured := Truthy(LegacyKey(old(local), old(sync)))
                                       || Truthy(ReadKey(old(local), old(sync), "transcriptionApiKey"))
                                       || Truthy(ReadKey(old(local), old(sync), "processingApiKey")),
                                     isExtensionEnabled := StoredEnabled(old(sync)))
      ensures local == old(local) && sync == old(sync) && notices == old(notices) && !subscribed
      ensures storedTranscriptions == old(storedTranscriptions) && previous == old(previous)
    {
      SetCache(storedTranscriptions.GetOr(map[]));
      var initial, enabled, configured := ReadStartup(local, sync);
      settings := initial;
      ApplyStatusUpdate(StatusUpdate(Keep, None, Some(enabled), Some(configured)));
    }

    /** `updateSettings(updates)`: a shallow merge, then the subscription. */
    method UpdateSettings(updates: Record)
      modifies this
      ensures settings == old(settings) + updates
      ensures var w := subscribed && MustWrite(old(previous), settings);
        && previous == (if w then settings else old(previous))
        && local == (if w then SavedLocal(old(local), settings) else old(local))
        && sync == (if w then SavedSync(old(sync), settings) else old(sync))
        && status == (if w then old(status).(isApiKeyConfigured := AnyKey(settings)) else old(status))
        && notices == (if w then old(notices) + 1 else old(notices))
      ensures cache == old(cache) && storedTranscriptions == old(storedTranscriptions) && subscribed == old(subscribed)
      ensures old(Persisted()) ==> Persisted()
    {
      if subscribed && Persisted() {
        MergeKeepsMirror(settings, updates, local, sync);
      }
      settings := settings + updates;
      if subscribed {
        OnSettings();
      }
    }

    /** `cacheTranscription(id, data)`. */
    method CacheTranscription(id: string, data: Value)
      modifies this
      ensures cache == old(cache)[id := data]
      ensures storedTranscriptions == if subscribed then Some(cache) else old(storedTranscriptions)
      ensures settings == old(settings) && status == old(status) && local == old(local) && sync == old(sync)
      ensures previous == old(previous) && subscribed == old(subscribed) && notices == old(notices)
      ensures old(Persisted()) ==> Persisted()
    {
      assert id in cache[id := data];
      SetCache(cache[id := data]);
    }
  }
}
