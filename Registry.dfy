/** The provider registries: which provider types exist for transcription and for
    processing, the lookups that reject any other type, and the lists and display
    names the settings screens are built from. */
module Registry {
  import opened Js

  /** The keys of `TRANSCRIPTION_PROVIDERS`, in declaration order. */
  const TranscriptionProviders: seq<string> := ["openai"]

  /** The keys of `PROCESSING_PROVIDERS`, in declaration order. */
  const ProcessingProviders: seq<string> := ["openai", "claude"]

  /** `getTranscriptionProvider(type)`: the factory chosen for `type`, named by its
      key, or the error it throws. */
  function GetTranscriptionProvider(providerType: string): (r: Result<string>)
    ensures r.Ok? <==> providerType in TranscriptionProviders
    ensures r.Ok? ==> r.value == providerType
    ensures r.Err? ==> r.message == "Unsupported transcription provider type: " + providerType
  {
    if providerType in TranscriptionProviders then Ok(providerType)
    else Err("Unsupported transcription provider type: " + providerType)
  }

  /** `getProcessingProvider(type)`. */
  function GetProcessingProvider(providerType: string): (r: Result<string>)
    ensures r.Ok? <==> providerType in ProcessingProviders
    ensures r.Ok? ==> r.value == providerType
    ensures r.Err? ==> r.message == "Unsupported processing provider type: " + providerType
  {
    if providerType in ProcessingProviders then Ok(providerType)
    else Err("Unsupported processing provider type: " + providerType)
  }

  /** `getSupportedTranscriptionProviders()` and `getSupportedProcessingProviders()`:
      the registry keys. */
  function SupportedTranscriptionProviders(): seq<string> { TranscriptionProviders }

  function SupportedProcessingProviders(): seq<string> { ProcessingProviders }

  const DefaultTranscriptionProviderType: string := "openai"
  const DefaultProcessingProviderType: string := "openai"

  /** Every supported type is accepted by its lookup, and the defaults are
      supported by both registries. */
  lemma SupportedAreAccepted()
    ensures forall t :: t in SupportedTranscriptionProviders() ==> GetTranscriptionProvider(t).Ok?
    ensures forall t :: t in SupportedProcessingProviders() ==> GetProcessingProvider(t).Ok?
    ensures GetTranscriptionProvider(DefaultTranscriptionProviderType).Ok?
    ensures GetProcessingProvider(DefaultProcessingProviderType).Ok?
    ensures GetProcessingProvider(DefaultTranscriptionProviderType).Ok?
  {
  }

  /** `claude` can process but cannot transcribe. */
  lemma ClaudeOnlyProcesses()
    ensures GetProcessingProvider("claude").Ok?
    ensures GetTranscriptionProvider("claude") == Err("Unsupported transcription provider type: claude")
  {
  }

  /** A provider entry of the settings screen. */
  datatype ProviderEntry = ProviderEntry(id: string, name: string)

  /** `ids.filter((id) => others.includes(id))`. */
  function Filter(ids: seq<string>, others: seq<string>): (r: seq<string>)
    ensures forall x :: x in r <==> x in ids && x in others
    ensures |r| <= |ids|
  {
    if ids == [] then []
    else if ids[0] in others then [ids[0]] + Filter(ids[1..], others)
    else Filter(ids[1..], others)
  }

  /** `.map((id) => ({id, name: id.charAt(0).toUpperCase() + id.slice(1)}))`. */
  function Entries(ids: seq<string>): (r: seq<ProviderEntry>)
    ensures |r| == |ids|
    ensures forall k :: 0 <= k < |ids| ==> r[k] == ProviderEntry(ids[k], Capitalize(ids[k]))
  {
    if ids == [] then [] else [ProviderEntry(ids[0], Capitalize(ids[0]))] + Entries(ids[1..])
  }

  /** `availableProviders`: the providers that can both transcribe and process. */
  function AvailableProviders(): (r: seq<ProviderEntry>)
    ensures forall k :: 0 <= k < |r| ==> r[k].id in TranscriptionProviders && r[k].id in ProcessingProviders
    ensures forall k :: 0 <= k < |r| ==> r[k].name == Capitalize(r[k].id)
  {
    Entries(Filter(SupportedTranscriptionProviders(), SupportedProcessingProviders()))
  }

  /** Only OpenAI is offered for both roles. */
  lemma AvailableIsOpenAI()
    ensures AvailableProviders() == [ProviderEntry("openai", "Openai")]
  {
    assert Filter(["openai"], ["openai", "claude"]) == ["openai"];
    assert Capitalize("openai") == "Openai";
  }

  /** The settings service's display name of a transcriber. */
  function TranscriberDisplayName(id: string): (r: string)
    ensures id == "localWhisper" ==> r == "Local Whisper Server"
    ensures id != "localWhisper" ==> r == Capitalize(id)
  {
    if id == "localWhisper" then "Local Whisper Server" else Capitalize(id)
  }

  /** The display name keeps every other id apart from its case: two different ids
      that differ past the first letter get different names. */
  lemma DisplayNamesKeepTail(a: string, b: string)
    requires a != "localWhisper" && b != "localWhisper"
    requires a != [] && b != [] && a[1..] != b[1..]
    ensures TranscriberDisplayName(a) != TranscriberDisplayName(b)
  {
    assert TranscriberDisplayName(a)[1..] == a[1..];
    assert TranscriberDisplayName(b)[1..] == b[1..];
  }

  /** The background bundle's `getProvider(type)`: only OpenAI exists there. */
  function BundledGetProvider(providerType: string): (r: Result<string>)
    ensures r.Ok? <==> providerType == "openai"
    ensures r.Err? ==> r.message == "Unsupported provider type: " + providerType
  {
    if providerType == "openai" then Ok("openai")
    else Err("Unsupported provider type: " + providerType)
  }
}
