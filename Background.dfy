/** The bundled background worker: its OpenAI key check, the message handlers
    that verify, save and read the API key, the listener that routes messages to
    them, and the start-up copy of the synced key.  Storage areas are maps from
    key to stored string; the verification request's outcome is a parameter. */
module Background {
  import opened Js
  import opened ApiErrors
  import opened ApiKeyVerifier
  import opened ProviderKit
  import Registry

  const ApiKeyName := "apiKey"

  /** The bundled OpenAI provider's `verifyApiKey(apiKey)`: the empty and `sk-`
      guards, the models request, the bundled error parser on a refusal and
      "Network error" for an exception without a message. */
  function BundledVerifyKey(apiKey: string, reply: Reply<()>): (r: Verdict)
    ensures KeyGuard(apiKey).Some? ==> r == Invalid(KeyGuard(apiKey).value)
    ensures r.Valid? <==> KeyGuard(apiKey).None? && reply.Answered?
    ensures KeyGuard(apiKey).None? && reply.Refused? ==>
      r == Invalid(BundledParseOpenAIError(reply.text, reply.parsed, "Invalid API key").message)
    ensures KeyGuard(apiKey).None? && reply.Failed? ==> r == Invalid(Or(reply.message, "Network error"))
  {
    match KeyGuard(apiKey)
    case Some(e) => Invalid(e)
    case None =>
      match reply
      case Answered(_) => Valid
      case Refused(text, parsed) => Invalid(BundledParseOpenAIError(text, parsed, "Invalid API key").message)
      case Failed(m) => Invalid(Or(m, "Network error"))
  }

  /** `messageHandlers.verifyApiKey(message)` without its storage write: the
      provider named by `providerType` (OpenAI when absent) checks the key, and a
      thrown error becomes an invalid verdict with its message. */
  function VerifyVerdict(providerType: string, apiKey: string, reply: Reply<()>): (r: Verdict)
    ensures providerType != "" && providerType != "openai" ==>
      r == Invalid("Unsupported provider type: " + providerType)
    ensures providerType == "" || providerType == "openai" ==> r == BundledVerifyKey(apiKey, reply)
  {
    match Registry.BundledGetProvider(Or(providerType, "openai"))
    case Err(m) => Invalid(m)
    case Ok(_) => BundledVerifyKey(apiKey, reply)
  }

  /** A valid verdict is only given to a key with the `sk-` prefix. */
  lemma ValidKeyHasPrefix(providerType: string, apiKey: string, reply: Reply<()>)
    requires VerifyVerdict(providerType, apiKey, reply).Valid?
    ensures apiKey != "" && StartsWith(apiKey, "sk-") && reply.Answered?
  {
  }

  /** `messageHandlers.getApiKey()`: the local key, else the synced one, else `null`. */
  function StoredApiKey(local: map<string, string>, sync: map<string, string>): (r: Option<string>)
    ensures ApiKeyName in local && local[ApiKeyName] != "" ==> r == Some(local[ApiKeyName])
    ensures !(ApiKeyName in local && local[ApiKeyName] != "") && ApiKeyName in sync && sync[ApiKeyName] != "" ==>
      r == Some(sync[ApiKeyName])
    ensures r.None? <==> !(ApiKeyName in local && local[ApiKeyName] != "") && !(ApiKeyName in sync && sync[ApiKeyName] != "")
    ensures r.Some? ==> r.value != ""
  {
    var fromLocal := if ApiKeyName in local then local[ApiKeyName] else "";
    var fromSync := if ApiKeyName in sync then sync[ApiKeyName] else "";
    var key := Or(fromLocal, fromSync);
    if key == "" then None else Some(key)
  }

  /** A key saved to both areas is the key read back, whatever was stored before. */
  lemma SavedKeyIsRead(local: map<string, string>, sync: map<string, string>, key: string)
    requires key != ""
    ensures StoredApiKey(local[ApiKeyName := key], sync[ApiKeyName := key]) == Some(key)
  {
  }

  /** The actions the listener knows. */
  datatype Action = OpenOptionsPage | VerifyApiKey | CheckStorage | GetApiKey | SettingsUpdated

  /** `messageHandlers[action]`: one of the five own handlers, or none. */
  function HandlerFor(action: string): (r: Option<Action>)
    ensures r == Some(OpenOptionsPage) <==> action == "openOptionsPage"
    ensures r == Some(VerifyApiKey) <==> action == "verifyApiKey"
    ensures r == Some(CheckStorage) <==> action == "checkStorage"
    ensures r == Some(GetApiKey) <==> action == "getApiKey"
    ensures r == Some(SettingsUpdated) <==> action == "settingsUpdated"
  {
    if action == "openOptionsPage" then Some(OpenOptionsPage)
    else if action == "verifyApiKey" then Some(VerifyApiKey)
    else if action == "checkStorage" then Some(CheckStorage)
    else if action == "getApiKey" then Some(GetApiKey)
    else if action == "settingsUpdated" then Some(SettingsUpdated)
    else None
  }

  /** The members of a runtime message the handlers read ("" when absent). */
  datatype Message = Message(action: string, providerType: string, apiKey: string)

  /** What a handler resolves to. */
  datatype Response =
    | Success
    | Verified(verdict: Verdict)
    | Storage(syncStorage: map<string, string>, localStorage: map<string, string>)
    | ApiKey(apiKey: Option<string>)

  class BackgroundWorker {
    var local: map<string, string>
    var sync: map<string, string>
    var optionsOpened: nat
    var notifyRequests: nat

    constructor (local: map<string, string>, sync: map<string, string>)
      ensures this.local == local && this.sync == sync && optionsOpened == 0 && notifyRequests == 0
    {
      this.local := local;
      this.sync := sync;
      optionsOpened := 0;
      notifyRequests := 0;
    }

    /** The start-up step: a truthy synced key is copied to the local area. */
    method Startup()
      modifies this`local
      ensures local == if ApiKeyName in sync && sync[ApiKeyName] != "" then old(local)[ApiKeyName := sync[ApiKeyName]] else old(local)
    {
      if ApiKeyName in sync && sync[ApiKeyName] != "" {
        local := local[ApiKeyName := sync[ApiKeyName]];
      }
    }

    /** `onInstalled`: a fresh install opens the options page. */
    method OnInstalled(reason: string)
      modifies this`optionsOpened
      ensures optionsOpened == old(optionsOpened) + (if reason == "install" then 1 else 0)
    {
      if reason == "install" {
        optionsOpened := optionsOpened + 1;
      }
    }

    /** `messageHandlers.verifyApiKey(message)`: the verdict, with the key saved
        to both areas exactly when it is valid. */
    method VerifyApiKeyHandler(providerType: string, apiKey: string, reply: Reply<()>) returns (r: Verdict)
      modifies this`local, this`sync
      ensures r == VerifyVerdict(providerType, apiKey, reply)
      ensures local == if r.Valid? then old(local)[ApiKeyName := apiKey] else old(local)
      ensures sync == if r.Valid? then old(sync)[ApiKeyName := apiKey] else old(sync)
    {
      r := VerifyVerdict(providerType, apiKey, reply);
      if r.Valid? {
        local := local[ApiKeyName := apiKey];
        sync := sync[ApiKeyName := apiKey];
      }
    }

    /** `messageHandlers.getApiKey()`. */
    method GetApiKeyHandler() returns (r: Option<string>)
      ensures r == StoredApiKey(local, sync)
    {
      var fromLocal := if ApiKeyName in local then local[ApiKeyName] else "";
      var fromSync := if ApiKeyName in sync then sync[ApiKeyName] else "";
      if fromLocal != "" {
        r := Some(fromLocal);
      } else if fromSync != "" {
        r := Some(fromSync);
      } else {
        r := None;
      }
    }

    /** The runtime `onMessage` listener: a message without an action, or with
        an action no handler has, is refused (`false`, no response); otherwise
        the handler runs and its result is the response. */
    method OnMessage(message: Option<Message>, reply: Reply<()>) returns (handled: bool, response: Option<Response>)
      modifies this
      ensures handled <==> message.Some? && HandlerFor(message.value.action).Some?
      ensures response.Some? <==> handled
      ensures !handled ==>
        local == old(local) && sync == old(sync) && optionsOpened == old(optionsOpened) && notifyRequests == old(notifyRequests)
      ensures handled ==> match HandlerFor(message.value.action).value
        case OpenOptionsPage =>
          && response == Some(Success) && optionsOpened == old(optionsOpened) + 1
          && local == old(local) && sync == old(sync) && notifyRequests == old(notifyRequests)
        case VerifyApiKey =>
          var v := VerifyVerdict(message.value.providerType, message.value.apiKey, reply);
          && response == Some(Verified(v))
          && local == (if v.Valid? then old(local)[ApiKeyName := message.value.apiKey] else old(local))
          && sync == (if v.Valid? then old(sync)[ApiKeyName := message.value.apiKey] else old(sync))
          && optionsOpened == old(optionsOpened) && notifyRequests == old(notifyRequests)
        case CheckStorage =>
          && response == Some(Storage(old(sync), old(local)))
          && local == old(local) && sync == old(sync)
          && optionsOpened == old(optionsOpened) && notifyRequests == old(notifyRequests)
        case GetApiKey =>
          && response == Some(ApiKey(StoredApiKey(old(local), old(sync))))
          && local == old(local) && sync == old(sync)
          && optionsOpened == old(optionsOpened) && notifyRequests == old(notifyRequests)
        case SettingsUpdated =>
          && response == Some(Success) && notifyRequests == old(notifyRequests) + 1
          && local == old(local) && sync == old(sync) && optionsOpened == old(optionsOpened)
    {
      if message.None? || message.value.action == "" {
        return false, None;
      }
      var handler := HandlerFor(message.value.action);
      if handler.None? {
        return false, None;
      }
      handled := true;
      match handler.value {
        case OpenOptionsPage =>
          optionsOpened := optionsOpened + 1;
          response := Some(Success);
        case VerifyApiKey =>
          var v := VerifyApiKeyHandler(message.value.providerType, message.value.apiKey, reply);
          response := Some(Verified(v));
        case CheckStorage =>
          response := Some(Storage(sync, local));
        case GetApiKey =>
          var k := GetApiKeyHandler();
          response := Some(ApiKey(k));
        case SettingsUpdated =>
          notifyRequests := notifyRequests + 1;
          response := Some(Success);
      }
    }
  }

  /** After a successful verification the worker hands out exactly that key. */
  lemma VerifiedKeyIsHandedOut(local: map<string, string>, sync: map<string, string>,
                               providerType: string, apiKey: string, reply: Reply<()>)
    requires VerifyVerdict(providerType, apiKey, reply).Valid?
    ensures StoredApiKey(local[ApiKeyName := apiKey], sync[ApiKeyName := apiKey]) == Some(apiKey)
  {
    ValidKeyHasPrefix(providerType, apiKey, reply);
    SavedKeyIsRead(local, sync, apiKey);
  }
}
