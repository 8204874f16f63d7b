/** The settings service used by the content script: one settings object, the
    status record and the transcription cache, the start-up that reads the keys
    from both storage areas, and the persistence that writes changed settings
    back.  The two `chrome.storage` areas and the IndexedDB entry
    `wa-transcriptions` are fields of the model; asynchronous steps run in the
    order they are issued.  The default provider ids come from helpers of the
    provider registry and are parameters here. */
module SettingsService {
  import opened Js
  import opened Status
  import opened SettingsKit

  /** The keys the subscription saves to both areas and keeps out of its sync
      loop. */
  const ServiceKeyNames: set<string> := {"transcriptionApiKey", "processingApiKey"}

  /** `DEFAULT_SETTINGS`, given the default processor and transcriber ids. */
  function ServiceDefaults(defaultProcessor: string, defaultTranscriber: string): (r: Record)
    ensures |r| != 0
    ensures Member(r, "transcriptionApiKey") == Str("") && Member(r, "processingApiKey") == Str("")
    ensures Member(r, "processingProviderType") == Str(defaultProcessor)
    ensures Member(r, "transcriptionProviderType") == Str(defaultTranscriber)
  {
    map[
      "language" := Str("auto"),
      "promptTemplate" := Str(""),
      "processingApiKey" := Str(""),
      "transcriptionApiKey" := Str(""),
      "isExtensionEnabled" := Flag(true),
      "processingModel" := Str("gpt-4o"),
      "transcriptionModel" := Str("whisper-1"),
      "localWhisperUrl" := Str("http://localhost:9000"),
      "processingProviderType" := Str(defaultProcessor),
      "transcriptionProviderType" := Str(defaultTranscriber)]
  }

  /** A key at start-up: the member of the synced object, else the local value,
      else the synced value, else `""`. */
  function StartupKey(stored: Record, local: Record, sync: Record, name: string): Value {
    OrV(OrV(OrV(Member(stored, name), Get(local, name)), Get(sync, name)), Str(""))
  }

  /** Since the synced object is the whole sync area, a synced key wins over a
      local one, a local one is used only when no key is synced, and the third
      read adds nothing. */
  lemma StartupKeyPrefersSync(local: Record, sync: Record, name: string)
    ensures Truthy(Get(sync, name)) ==> StartupKey(sync, local, sync, name) == sync[name]
    ensures !Truthy(Get(sync, name)) && Truthy(Get(local, name)) ==> StartupKey(sync, local, sync, name) == local[name]
    ensures !Truthy(Get(sync, name)) && !Truthy(Get(local, name)) ==> StartupKey(sync, local, sync, name) == Str("")
    ensures Truthy(StartupKey(sync, local, sync, name)) <==> Truthy(Get(sync, name)) || Truthy(Get(local, name))
  {
  }

  /** The object `initialize()` sets: the defaults, overridden by the synced
      object, overridden by the two keys. */
  function InitialSettings(defaults: Record, local: Record, sync: Record): Record {
    defaults + sync + map[
      "transcriptionApiKey" := StartupKey(sync, local, sync, "transcriptionApiKey"),
      "processingApiKey" := StartupKey(sync, local, sync, "processingApiKey")]
  }

  /** Whether either key of a settings object is set. */
  predicate Configured(s: Record) {
    Truthy(Member(s, "transcriptionApiKey")) || Truthy(Member(s, "processingApiKey"))
  }

  /** Whether an update object carries a non-empty key. */
  predicate CarriesKey(updates: Record) {
    Truthy(Member(updates, "transcriptionApiKey")) || Truthy(Member(updates, "processingApiKey"))
  }

  /** At start-up the service counts as configured exactly when a key was found in
      either area, and every synced setting other than the keys is taken over. */
  lemma InitialSettingsFacts(defaults: Record, local: Record, sync: Record)
    ensures var s := InitialSettings(defaults, local, sync);
      && (Configured(s) <==> Truthy(Get(sync, "transcriptionApiKey")) || Truthy(Get(local, "transcriptionApiKey"))
                              || Truthy(Get(sync, "processingApiKey")) || Truthy(Get(local, "processingApiKey")))
      && (forall k :: k in sync && k !in ServiceKeyNames ==> s[k] == sync[k])
      && (forall k :: k in defaults && k !in sync && k !in ServiceKeyNames ==> s[k] == defaults[k])
  {
    StartupKeyPrefersSync(local, sync, "transcriptionApiKey");
    StartupKeyPrefersSync(local, sync, "processingApiKey");
  }

  /** `getSetting(key, defaultValue)`: the stored value unless the member is
      absent; a stored `null` is returned as it is. */
  function Setting(s: Record, key: string, defaultValue: Value): (r: Value)
    ensures key in s ==> r == s[key]
    ensures key !in s ==> r == defaultValue
  {
    if key in s then s[key] else defaultValue
  }

  /** Reading after a merge: a member of the updates is read back, any other
      member is read as before. */
  lemma SettingAfterMerge(s: Record, updates: Record, key: string, defaultValue: Value)
    ensures key in updates ==> Setting(s + updates, key, defaultValue) == updates[key]
    ensures key !in updates ==> Setting(s + updates, key, defaultValue) == Setting(s, key, defaultValue)
  {
  }

  /** The status after `updateSettings(updates)` has merged into `merged`: the key
      flag is recomputed only when the updates carry a non-empty key. */
  function KeyStatus(s: Status, merged: Record, updates: Record): Status {
    if CarriesKey(updates) then s.(isApiKeyConfigured := Configured(merged)) else s
  }

  /** An update carrying a non-empty key marks the service configured and
      changes nothing else of the status. */
  lemma CarriedKeyConfigures(s: Status, current: Record, updates: Record)
    requires CarriesKey(updates)
    ensures KeyStatus(s, current + updates, updates) == s.(isApiKeyConfigured := true)
  {
    if Truthy(Member(updates, "transcriptionApiKey")) {
      assert Member(current + updates, "transcriptionApiKey") == updates["transcriptionApiKey"];
    } else {
      assert Member(current + updates, "processingApiKey") == updates["processingApiKey"];
    }
  }

  /** Clearing both keys does not recompute the flag: the status still says
      configured although no key is left. */
  lemma ClearedKeysLeaveFlag(s: Status, current: Record)
    ensures var updates := map["transcriptionApiKey" := Str(""), "processingApiKey" := Str("")];
      && !Configured(current + updates)
      && KeyStatus(s, current + updates, updates) == s
  {
    var updates := map["transcriptionApiKey" := Str(""), "processingApiKey" := Str("")];
    assert Member(current + updates, "transcriptionApiKey") == Str("");
    assert Member(current + updates, "processingApiKey") == Str("");
    assert Member(updates, "transcriptionApiKey") == Str("");
    assert Member(updates, "processingApiKey") == Str("");
  }

  /** A reset merges the defaults: the keys are emptied, the status is left as it
      is, and settings the defaults do not name survive. */
  lemma ResetFacts(s: Status, current: Record, defaultProcessor: string, defaultTranscriber: string)
    ensures var d := ServiceDefaults(defaultProcessor, defaultTranscriber);
      && KeyStatus(s, current + d, d) == s
      && (current + d)["transcriptionApiKey"] == Str("") && (current + d)["processingApiKey"] == Str("")
      && (forall k :: k in current && k !in d ==> (current + d)[k] == current[k])
  {
  }

  /** What the subscription leaves in local storage and in sync storage after it
      writes `current`. */
  function SavedLocal(local: Record, current: Record): Record {
    local + KeyWrites(current, ServiceKeyNames)
  }

  function SavedSync(sync: Record, current: Record): Record {
    sync + KeyWrites(current, ServiceKeyNames) + PlainEntries(current, ServiceKeyNames)
  }

  /** A merge into a saved snapshot leaves the subscription's snapshot equal to
      the merged object and the storage holding what saving it writes, whether
      the subscription writes or not. */
  lemma MergeKeepsMirror(previous: Record, updates: Record, local: Record, sync: Record)
    requires SavedLocal(local, previous) == local && SavedSync(sync, previous) == sync
    ensures var current := previous + updates;
      var w := MustWrite(previous, current);
      var local' := if w then SavedLocal(local, current) else local;
      var sync' := if w then SavedSync(sync, current) else sync;
      && (if w then current else previous) == current
      && SavedLocal(local', current) == local' && SavedSync(sync', current) == sync'
  {
    var current := previous + updates;
    if MustWrite(previous, current) {
      SaveIdempotent(local, sync, current);
    } else if |previous| != 0 {
      MergeWrittenIff(previous, updates);
    } else {
      assert current == updates;
      assert |current| == 0;
      assert current == previous;
    }
  }

  /** Saving the same object twice leaves what saving it once does. */
  lemma SaveIdempotent(local: Record, sync: Record, current: Record)
    ensures SavedLocal(SavedLocal(local, current), current) == SavedLocal(local, current)
    ensures SavedSync(SavedSync(sync, current), current) == SavedSync(sync, current)
  {
    assert SavedSync(SavedSync(sync, current), current) == SavedSync(sync, current);
  }

  class SettingsService {
    /** `DEFAULT_SETTINGS`. */
    const defaults: Record
    var settings: Record
    var status: Status
    var cache: Record
    /** The two `chrome.storage` areas and the IndexedDB entry `wa-transcriptions`. */
    var local: Record
    var sync: Record
    var storedTranscriptions: Option<Record>
    /** The subscription's snapshot, and whether it has been set up. */
    var previous: Record
    var subscribed: bool
    /** How many `settingsUpdated` messages were sent. */
    var notices: nat

    /** The defaults carry no key, the settings object is never empty, and while
        the subscription runs its snapshot is the settings object, the storage
        holds what it saved and a non-empty cache is stored. */
    predicate Valid()
      reads this
    {
      !CarriesKey(defaults) && |settings| != 0
      && (subscribed ==>
            previous == settings
            && SavedLocal(local, settings) == local && SavedSync(sync, settings) == sync
            && (|cache| != 0 ==> storedTranscriptions == Some(cache)))
    }

    /** The stores before `initialize()`: a copy of the defaults, the initial
        status and an empty cache. */
    constructor (local: Record, sync: Record, storedTranscriptions: Option<Record>,
                 defaultProcessor: string, defaultTranscriber: string)
      ensures defaults == ServiceDefaults(defaultProcessor, defaultTranscriber)
      ensures settings == defaults && status == InitialStatus && cache == map[]
      ensures this.local == local && this.sync == sync && this.storedTranscriptions == storedTranscriptions
      ensures previous == map[] && !subscribed && notices == 0
      ensures Valid()
    {
      defaults := ServiceDefaults(defaultProcessor, defaultTranscriber);
      settings := ServiceDefaults(defaultProcessor, defaultTranscriber);
      status := InitialStatus;
      cache := map[];
      this.local := local;
      this.sync := sync;
      this.storedTranscriptions := storedTranscriptions;
      previous := map[];
      subscribed := false;
      notices := 0;
    }

    /** `updateStatus(updates)`. */
    method ApplyStatusUpdate(u: StatusUpdate)
      modifies this
      ensures status == UpdateStatus(old(status), u)
      ensures settings == old(settings) && cache == old(cache) && local == old(local) && sync == old(sync)
      ensures storedTranscriptions == old(storedTranscriptions) && previous == old(previous)
      ensures subscribed == old(subscribed) && notices == old(notices)
      ensures old(Valid()) ==> Valid()
    {
      status := UpdateStatus(status, u);
    }

    /** The settings subscription: nothing for an empty object or one equal to
        the snapshot; otherwise a new snapshot, the non-empty keys to both areas
        and every other entry to sync. */
    method OnSettings()
      modifies this
      ensures var w := MustWrite(old(previous), old(settings));
        && previous == (if w then settings else old(previous))
        && local == (if w then SavedLocal(old(local), settings) else old(local))
        && sync == (if w then SavedSync(old(sync), settings) else old(sync))
      ensures settings == old(settings) && status == old(status) && cache == old(cache)
      ensures storedTranscriptions == old(storedTranscriptions)
      ensures subscribed == old(subscribed) && notices == old(notices)
    {
      var current := settings;
      if |current| == 0 {
        return;
      }
      if !Changed(previous, current) && |previous| != 0 {
        return;
      }
      previous := current;
      local := local + KeyWrites(current, ServiceKeyNames);
      sync := sync + KeyWrites(current, ServiceKeyNames);
      sync := SyncEntries(sync, current, ServiceKeyNames);
    }

    /** The cache subscription: a non-empty cache is stored as a whole. */
    method OnCache()
      modifies this
      ensures storedTranscriptions == if |cache| != 0 then Some(cache) else old(storedTranscriptions)
      ensures settings == old(settings) && status == old(status) && cache == old(cache)
      ensures local == old(local) && sync == old(sync) && previous == old(previous)
      ensures subscribed == old(subscribed) && notices == old(notices)
    {
      if |cache| != 0 {
        storedTranscriptions := Some(cache);
      }
    }

    /** `transcriptionCache.set(value)` and, once set up, the cache subscription. */
    method SetCache(value: Record)
      modifies this
      ensures cache == value
      ensures storedTranscriptions == if subscribed && |value| != 0 then Some(value) else old(storedTranscriptions)
      ensures settings == old(settings) && status == old(status) && local == old(local) && sync == old(sync)
      ensures previous == old(previous) && subscribed == old(subscribed) && notices == old(notices)
    {
      cache := value;
      if subscribed {
        OnCache();
      }
    }

    /** `setupSettingsPersistence()`: an empty snapshot, then both subscriptions
        run at once with the current values. */
    method SetupSettingsPersistence()
      requires !CarriesKey(defaults) && |settings| != 0
      modifies this
      ensures subscribed && previous == settings
      ensures local == SavedLocal(old(local), settings) && sync == SavedSync(old(sync), settings)
      ensures storedTranscriptions == if |cache| != 0 then Some(cache) else old(storedTranscriptions)
      ensures settings == old(settings) && status == old(status) && cache == old(cache) && notices == old(notices)
      ensures Valid()
    {
      previous := map[];
      subscribed := true;
      assert MustWrite(previous, settings);
      OnSettings();
      OnCache();
      SaveIdempotent(old(local), old(sync), settings);
    }

    /** `initialize()`: the cache is loaded from IndexedDB, the keys are read from
        both areas, the settings object and the status are set, persistence
        starts and a `settingsUpdated` message is sent. */
    method Initialize()
      requires Valid() && !subscribed
      modifies this
      ensures settings == InitialSettings(defaults, old(local), old(sync))
      ensures cache == old(storedTranscriptions).GetOr(map[])
      ensures status == old(status).(isApiKeyConfigured := Configured(settings), isExtensionEnabled := Member(old(sync), "isExtensionEnabled") != Flag(false))
      ensures local == SavedLocal(old(local), settings) && sync == SavedSync(old(sync), settings)
      ensures subscribed && notices == old(notices) + 1 && previous == settings
      ensures storedTranscriptions == old(storedTranscriptions)
      ensures Valid()
    {
      // No subscription exists yet, so neither store change writes anything.
      SetCache(storedTranscriptions.GetOr(map[]));
      // The loaded cache is what is stored, so storing it again changes nothing.
      ghost var stored := storedTranscriptions;
      assert |cache| != 0 ==> stored == Some(cache);
      var initial, enabled, configured := ReadStartup(defaults, local, sync);
      Adopt(initial, enabled, configured);
      assert storedTranscriptions == stored;
      Notify();
    }

    /** The second half of `initialize()`: the settings object and the status are
        set before any subscription exists, then persistence starts. */
    method Adopt(initial: Record, enabled: bool, configured: bool)
      requires !CarriesKey(defaults) && !subscribed && |initial| != 0
      modifies this
      ensures settings == initial
      ensures status == old(status).(isApiKeyConfigured := configured, isExtensionEnabled := enabled)
      ensures local == SavedLocal(old(local), initial) && sync == SavedSync(old(sync), initial)
      ensures storedTranscriptions == if |cache| != 0 then Some(cache) else old(storedTranscriptions)
      ensures cache == old(cache) && subscribed && notices == old(notices)
      ensures Valid()
    {
      settings := initial;
      status := UpdateStatus(status, StatusUpdate(Keep, None, Some(enabled), Some(configured)));
      SetupSettingsPersistence();
    }

    /** The reads of `initialize()`: the object it sets, and the two status flags
        it sets. */
    static method ReadStartup(defaults: Record, local: Record, sync: Record) returns (initial: Record, enabled: bool, configured: bool)
      ensures initial == InitialSettings(defaults, local, sync) && |initial| != 0
      ensures enabled == (Member(sync, "isExtensionEnabled") != Flag(false))
      ensures configured == Configured(initial)
    {
      var storedSettings := sync;
      var transcriptionApiKey := OrV(OrV(OrV(Member(storedSettings, "transcriptionApiKey"), Get(local, "transcriptionApiKey")), Get(sync, "transcriptionApiKey")), Str(""));
      var processingApiKey := OrV(OrV(OrV(Member(storedSettings, "processingApiKey"), Get(local, "processingApiKey")), Get(sync, "processingApiKey")), Str(""));
      assert transcriptionApiKey == StartupKey(sync, local, sync, "transcriptionApiKey");
      assert processingApiKey == StartupKey(sync, local, sync, "processingApiKey");
      var keys := map["transcriptionApiKey" := transcriptionApiKey, "processingApiKey" := processingApiKey];
      initial := defaults + storedSettings + keys;
      assert "processingApiKey" in keys && "transcriptionApiKey" in keys;
      assert initial["transcriptionApiKey"] == transcriptionApiKey && initial["processingApiKey"] == processingApiKey;
      enabled := Member(storedSettings, "isExtensionEnabled") != Flag(false);
      configured := Truthy(transcriptionApiKey) || Truthy(processingApiKey);
    }

    /** The `settingsUpdated` message. */
    method Notify()
      modifies this
      ensures notices == old(notices) + 1
      ensures settings == old(settings) && status == old(status) && cache == old(cache) && local == old(local)
      ensures sync == old(sync) && storedTranscriptions == old(storedTranscriptions) && previous == old(previous)
      ensures subscribed == old(subscribed)
      ensures old(Valid()) ==> Valid()
    {
      notices := notices + 1;
    }

    /** `getSetting(key, defaultValue)`. */
    function GetSetting(key: string, defaultValue: Value): (r: Value)
      reads this
      ensures r == Setting(settings, key, defaultValue)
    {
      if key in settings then settings[key] else defaultValue
    }

    /** `settings.update((s) => ({...s, ...updates}))`: a shallow merge, then the
        subscription. */
    method MergeSettings(updates: Record)
      modifies this
      ensures settings == old(settings) + updates
      ensures var w := subscribed && MustWrite(old(previous), settings);
        && previous == (if w then settings else old(previous))
        && local == (if w then SavedLocal(old(local), settings) else old(local))
        && sync == (if w then SavedSync(old(sync), settings) else old(sync))
      ensures status == old(status) && cache == old(cache) && storedTranscriptions == old(storedTranscriptions)
      ensures subscribed == old(subscribed) && notices == old(notices)
      ensures old(Valid()) ==> Valid()
    {
      if Valid() {
        assert |settings + updates| != 0 by {
          var k :| k in settings;
          assert k in settings + updates;
        }
        if subscribed {
          MergeKeepsMirror(settings, updates, local, sync);
        }
      }
      settings := settings + updates;
      if subscribed {
        OnSettings();
      }
    }

    /** `updateSettings(updates)`: the merge, the key flag recomputed when the
        updates carry a non-empty key, and a `settingsUpdated` message. */
    method UpdateSettings(updates: Record)
      modifies this
      ensures settings == old(settings) + updates
      ensures status == KeyStatus(old(status), settings, updates)
      ensures var w := subscribed && MustWrite(old(previous), settings);
        && previous == (if w then settings else old(previous))
        && local == (if w then SavedLocal(old(local), settings) else old(local))
        && sync == (if w then SavedSync(old(sync), settings) else old(sync))
      ensures cache == old(cache) && storedTranscriptions == old(storedTranscriptions) && subscribed == old(subscribed)
      ensures notices == old(notices) + 1
      ensures old(Valid()) ==> Valid()
    {
      MergeSettings(updates);
      RecomputeKeyFlag(updates);
      Notify();
    }

    /** The step of `updateSettings(updates)` after the merge: the key flag is
        recomputed from the settings when the updates carry a non-empty key. */
    method RecomputeKeyFlag(updates: Record)
      modifies this
      ensures status == KeyStatus(old(status), settings, updates)
      ensures settings == old(settings) && cache == old(cache) && local == old(local) && sync == old(sync)
      ensures storedTranscriptions == old(storedTranscriptions) && previous == old(previous)
      ensures subscribed == old(subscribed) && notices == old(notices)
      ensures old(Valid()) ==> Valid()
    {
      if Truthy(Member(updates, "transcriptionApiKey")) || Truthy(Member(updates, "processingApiKey")) {
        var current := settings;
        var isApiKeyConfigured := Truthy(Member(current, "transcriptionApiKey")) || Truthy(Member(current, "processingApiKey"));
        ApplyStatusUpdate(StatusUpdate(Keep, None, None, Some(isApiKeyConfigured)));
      }
    }

    /** `resetSettings()`: the defaults merged over the settings. */
    method ResetSettings()
      requires Valid()
      modifies this
      ensures settings == old(settings) + defaults
      ensures status == old(status)
      ensures forall k :: k in old(settings) && k !in defaults ==> settings[k] == old(settings)[k]
      ensures var w := subscribed && MustWrite(old(previous), settings);
        && previous == (if w then settings else old(previous))
        && local == (if w then SavedLocal(old(local), settings) else old(local))
        && sync == (if w then SavedSync(old(sync), settings) else old(sync))
      ensures cache == old(cache) && storedTranscriptions == old(storedTranscriptions) && subscribed == old(subscribed)
      ensures notices == old(notices) + 1
      ensures Valid()
    {
      UpdateSettings(defaults);
    }

    /** `cacheTranscription(id, data)`. */
    method CacheTranscription(id: string, data: Value)
      modifies this
      ensures cache == old(cache)[id := data]
      ensures storedTranscriptions == if subscribed then Some(cache) else old(storedTranscriptions)
      ensures settings == old(settings) && status == old(status) && local == old(local) && sync == old(sync)
      ensures previous == old(previous) && subscribed == old(subscribed) && notices == old(notices)
      ensures old(Valid()) ==> Valid()
    {
      assert id in cache[id := data];
      SetCache(cache[id := data]);
    }
  }
}
