/** The extension status record, the reducer that applies a partial update to it,
    and the status line derived from it.  The settings store and the settings
    service carry the same reducer and the same five-level status text, and the
    legacy stores the same status text. */
module Status {
  import opened Js

  /** `lastError` is `""` when it is `null`; every use of it is a truthiness test or
      a concatenation. */
  datatype Status = Status(isApiKeyConfigured: bool, isExtensionEnabled: bool, pending: int, lastError: string)

  /** The initial status of every store. */
  const InitialStatus: Status := Status(false, true, 0, "")

  /** The `pendingTranscriptions` member of an update: absent, `true`, `false` or a
      number. */
  datatype PendingUpdate = Keep | Raise | Lower | SetTo(n: int)

  /** An update object; `None` is a member that is absent (`undefined`), and
      `Some("")` a `lastError` explicitly set to `null`. */
  datatype StatusUpdate = StatusUpdate(
    pending: PendingUpdate,
    lastError: Option<string>,
    isExtensionEnabled: Option<bool>,
    isApiKeyConfigured: Option<bool>)

  function PendingOnly(p: PendingUpdate): StatusUpdate {
    StatusUpdate(p, None, None, None)
  }

  /** `updateStatus(updates)`: a boolean moves the counter by one, never below
      zero, a number replaces it, and each other member replaces its field only
      when it is present. */
  function UpdateStatus(s: Status, u: StatusUpdate): (r: Status)
    ensures u.pending == Keep ==> r.pending == s.pending
    ensures u.pending == Raise ==> r.pending == (if s.pending + 1 < 0 then 0 else s.pending + 1)
    ensures u.pending == Lower ==> r.pending == (if s.pending - 1 < 0 then 0 else s.pending - 1)
    ensures u.pending.SetTo? ==> r.pending == u.pending.n
    ensures r.lastError == u.lastError.GetOr(s.lastError)
    ensures r.isExtensionEnabled == u.isExtensionEnabled.GetOr(s.isExtensionEnabled)
    ensures r.isApiKeyConfigured == u.isApiKeyConfigured.GetOr(s.isApiKeyConfigured)
  {
    var pending := match u.pending
      case Keep => s.pending
      case Raise => Clamp(s.pending + 1)
      case Lower => Clamp(s.pending - 1)
      case SetTo(n) => n;
    Status(u.isApiKeyConfigured.GetOr(s.isApiKeyConfigured),
           u.isExtensionEnabled.GetOr(s.isExtensionEnabled),
           pending,
           u.lastError.GetOr(s.lastError))
  }

  function Clamp(n: int): (r: int)
    ensures r >= 0 && (n >= 0 ==> r == n)
  {
    if n < 0 then 0 else n
  }

  /** Raising and then lowering the counter gives the status back. */
  lemma RaiseThenLower(s: Status)
    requires s.pending >= 0
    ensures UpdateStatus(UpdateStatus(s, PendingOnly(Raise)), PendingOnly(Lower)) == s
  {
  }

  /** Applying a sequence of updates in order. */
  function ApplyAll(s: Status, us: seq<StatusUpdate>): Status
    decreases |us|
  {
    if us == [] then s else ApplyAll(UpdateStatus(s, us[0]), us[1..])
  }

  /** Updates that only move the counter by booleans. */
  predicate NoNumericPending(us: seq<StatusUpdate>) {
    forall k :: 0 <= k < |us| ==> !us[k].pending.SetTo?
  }

  function Count(us: seq<StatusUpdate>, p: PendingUpdate): (r: nat)
    ensures r <= |us|
  {
    if us == [] then 0 else (if us[0].pending == p then 1 else 0) + Count(us[1..], p)
  }

  /** Under boolean updates the counter never goes negative, never exceeds its
      start plus the raises, and stays at least its start plus the raises minus
      the lowers. */
  lemma {:induction false} PendingBounds(s: Status, us: seq<StatusUpdate>)
    requires s.pending >= 0 && NoNumericPending(us)
    ensures var r := ApplyAll(s, us);
      r.pending >= 0
      && r.pending <= s.pending + Count(us, Raise)
      && r.pending >= s.pending + Count(us, Raise) - Count(us, Lower)
    decreases |us|
  {
    if us != [] {
      var t := UpdateStatus(s, us[0]);
      assert NoNumericPending(us[1..]) by {
        forall k | 0 <= k < |us[1..]| ensures !us[1..][k].pending.SetTo? {
          assert us[1..][k] == us[k + 1];
        }
      }
      PendingBounds(t, us[1..]);
    }
  }

  datatype StatusKind = Error | Warning | Pending | Success

  datatype StatusLine = StatusLine(text: string, kind: StatusKind)

  /** The derived status text, first match wins: no key, disabled, a last error, a
      transcription in progress, otherwise ready. */
  function StatusText(s: Status): (r: StatusLine)
    ensures !s.isApiKeyConfigured ==> r == StatusLine("API key not configured", Error)
    ensures r.kind == Warning <==> s.isApiKeyConfigured && !s.isExtensionEnabled
    ensures r.kind == Warning ==> r.text == "Extension disabled"
    ensures (r.kind == Error && s.isApiKeyConfigured) <==> (s.isApiKeyConfigured && s.isExtensionEnabled && s.lastError != "")
    ensures r.kind == Error && s.isApiKeyConfigured ==> r.text == "Error: " + s.lastError
    ensures r.kind == Pending <==> s.isApiKeyConfigured && s.isExtensionEnabled && s.lastError == "" && s.pending > 0
    ensures r.kind == Success <==> s.isApiKeyConfigured && s.isExtensionEnabled && s.lastError == "" && s.pending <= 0
  {
    if !s.isApiKeyConfigured then StatusLine("API key not configured", Error)
    else if !s.isExtensionEnabled then StatusLine("Extension disabled", Warning)
    else if s.lastError != "" then StatusLine("Error: " + s.lastError, Error)
    else if s.pending > 0 then StatusLine("Transcribing...", Pending)
    else StatusLine("Ready", Success)
  }

  /** A configured, enabled, error-free status reads "Transcribing..." once a
      transcription starts and "Ready" again once it ends. */
  lemma StartAndFinishText(s: Status)
    requires StatusText(s).kind == Success && s.pending == 0
    ensures StatusText(UpdateStatus(s, PendingOnly(Raise))) == StatusLine("Transcribing...", Pending)
    ensures StatusText(UpdateStatus(UpdateStatus(s, PendingOnly(Raise)), PendingOnly(Lower))) == StatusLine("Ready", Success)
  {
  }
}
