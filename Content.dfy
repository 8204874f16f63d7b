/** The extension-side half of the capture bridge, the WhatsApp content script:
    transcribe buttons attached to voice-message bubbles, the click state
    machine that queues a request and plays the message, the window-message
    listener that pairs each captured audio broadcast with the oldest queued
    request, and the cache of finished transcriptions.  The stored API key,
    the transcription reply, the id stamp (`Date.now()` and `Math.random()`)
    and the result of a DOM scan are parameters; asynchronous steps are
    separate methods run in the order the events arrive. */
module Content {
  import opened Js
  import Hook

  const Hourglass := "⏳"
  const Check := "✓"
  const Warning := "⚠️"
  const TranscribeLabel := "Transcribe"
  const KeyNotConfigured := "API key not configured"
  const NoKeyText := Warning + " " + KeyNotConfigured + ". Please set your OpenAI API key in the extension settings."
  const WhisperModel := "whisper-1"
  const TranscriptionsUrl := "https://api.openai.com/v1/audio/transcriptions"

  /** The `transcriptionId` a bubble is given: `bubble-` and a stamp. */
  function NewId(stamp: string): (r: string)
    ensures r != "" && StartsWith(r, "bubble-")
  {
    "bubble-" + stamp
  }

  /** What a popup offers: the configuration help and button for an API key
      message, otherwise the text with a copy button unless it is a warning. */
  datatype Popup = Popup(text: string, configureHelp: bool, copyButton: bool)

  function PopupFor(text: string): (r: Popup)
    ensures r.text == text
    ensures r.configureHelp <==> Includes(text, KeyNotConfigured)
    ensures r.copyButton <==> !r.configureHelp && !Includes(text, Warning)
  {
    var configure := Includes(text, KeyNotConfigured);
    Popup(text, configure, !configure && !Includes(text, Warning))
  }

  /** A text the cache accepts: non-empty and without the warning sign. */
  predicate Cacheable(text: string) {
    text != "" && !Includes(text, Warning)
  }

  /** The cache after a popup shows `text` for `bubbleId` ("" for `null`). */
  function CacheAfter(cache: map<string, string>, bubbleId: string, text: string): (r: map<string, string>)
    ensures cache.Keys <= r.Keys
    ensures bubbleId != "" && Cacheable(text) ==> r == cache[bubbleId := text]
    ensures !(bubbleId != "" && Cacheable(text)) ==> r == cache
  {
    if bubbleId != "" && Cacheable(text) then cache[bubbleId := text] else cache
  }

  /** Every cached entry has a bubble id and a cacheable text. */
  predicate CacheClean(cache: map<string, string>) {
    forall id :: id in cache ==> id != "" && Cacheable(cache[id])
  }

  /** Showing any popup keeps the cache clean, and re-showing a cached text
      leaves it as it is. */
  lemma CacheAfterKeepsClean(cache: map<string, string>, bubbleId: string, text: string)
    requires CacheClean(cache)
    ensures CacheClean(CacheAfter(cache, bubbleId, text))
    ensures bubbleId in cache && text == cache[bubbleId] ==> CacheAfter(cache, bubbleId, text) == cache
  {
  }

  /** The configuration message is never cached, whatever the bubble. */
  lemma NoKeyTextNotCached(cache: map<string, string>, bubbleId: string)
    ensures CacheAfter(cache, bubbleId, NoKeyText) == cache
    ensures PopupFor(NoKeyText).configureHelp && !PopupFor(NoKeyText).copyButton
  {
    var post := ". Please set your OpenAI API key in the extension settings.";
    IncludedBetween("", Warning, " " + KeyNotConfigured + post, NoKeyText);
    IncludedBetween(Warning + " ", KeyNotConfigured, post, NoKeyText);
  }

  /** `s`, built as `pre + sub + post`, includes `sub`. */
  lemma IncludedBetween(pre: string, sub: string, post: string, s: string)
    requires s == pre + sub + post
    ensures Includes(s, sub)
  {
    IncludesMiddle(pre, sub, post);
  }

  /** The multipart request `transcribe` sends. */
  datatype Request = Request(url: string, authorization: string, model: string,
                             fileName: string, fileType: string, data: seq<byte>)

  function TranscriptionRequest(key: string, mime: string, data: seq<byte>): (r: Request)
    ensures r.url == TranscriptionsUrl && r.authorization == "Bearer " + key
    ensures r.model == WhisperModel && r.fileName == "voice.ogg" && r.fileType == mime && r.data == data
  {
    Request(TranscriptionsUrl, "Bearer " + key, WhisperModel, "voice.ogg", mime, data)
  }

  /** How the fetch ended: a response (its `ok`, its body as text, and the
      `text` member of its JSON, when that is a string), or a network error. */
  datatype FetchReply = Responded(ok: bool, body: string, text: Option<string>) | Unreachable(message: string)

  /** `transcribe({data, mime})`: the key guard, then the response mapping.
      `Ok(None)` is a resolved value that is not a string. */
  function TranscribeOutcome(storedKey: string, reply: FetchReply): (r: Result<Option<string>>)
    ensures storedKey == "" ==> r == Err(KeyNotConfigured)
    ensures storedKey != "" && reply.Responded? && reply.ok ==> r == Ok(reply.text)
    ensures storedKey != "" && reply.Responded? && !reply.ok ==> r == Err(reply.body)
    ensures storedKey != "" && reply.Unreachable? ==> r == Err(reply.message)
  {
    if storedKey == "" then Err(KeyNotConfigured)
    else match reply
      case Responded(ok, body, text) => if ok then Ok(text) else Err(body)
      case Unreachable(message) => Err(message)
  }

  /** What a click does, in the order the handler tests it. */
  datatype ClickPath = Reshow | NoKey | Ignored | Enqueued

  function ClickPathOf(transcribed: bool, cached: bool, storedKey: string, disabled: bool): (r: ClickPath)
    ensures r == Reshow <==> transcribed && cached
    ensures r == NoKey <==> !(transcribed && cached) && storedKey == ""
    ensures r == Ignored <==> !(transcribed && cached) && storedKey != "" && disabled
    ensures r == Enqueued <==> !(transcribed && cached) && storedKey != "" && !disabled
  {
    if transcribed && cached then Reshow
    else if storedKey == "" then NoKey
    else if disabled then Ignored
    else Enqueued
  }

  /** Whether the window listener takes a message: from this window, with the
      bridge's `source` and `type`. */
  predicate Accepted(sameWindow: bool, data: Option<Hook.Msg>) {
    sameWindow && data.Some? && data.value.source == Hook.Source && data.value.msgType == Hook.AudioType
  }

  /** Everything the page-side hook posts is accepted. */
  lemma HookMessagesAccepted(mime: string, data: seq<byte>)
    ensures Accepted(true, Some(Hook.Message(mime, data)))
  {
  }

  class Button {
    var disabled: bool
    var text: string
    var transcribed: bool
    var bubbleId: string

    /** `create_transcribe_button(is_transcribed, bubble_id)`. */
    constructor (isTranscribed: bool, bubbleId: string)
      ensures !disabled && transcribed == isTranscribed
      ensures text == if isTranscribed then Check else TranscribeLabel
      ensures this.bubbleId == if isTranscribed then bubbleId else ""
    {
      disabled := false;
      transcribed := isTranscribed;
      if isTranscribed {
        text := Check;
        this.bubbleId := bubbleId;
      } else {
        text := TranscribeLabel;
        this.bubbleId := "";
      }
    }
  }

  /** A message bubble: its `dataset.transcriptionId` ("" when absent) and the
      transcribe buttons inside it. */
  class Bubble {
    var transcriptionId: string
    var buttons: seq<Button>

    constructor (transcriptionId: string, buttons: seq<Button>)
      ensures this.transcriptionId == transcriptionId && this.buttons == buttons
    {
      this.transcriptionId := transcriptionId;
      this.buttons := buttons;
    }

    /** Give the bubble an id unless it has one. */
    method EnsureId(stamp: string)
      modifies this
      ensures transcriptionId == if old(transcriptionId) == "" then NewId(stamp) else old(transcriptionId)
      ensures transcriptionId != "" && buttons == old(buttons)
    {
      if transcriptionId == "" {
        transcriptionId := NewId(stamp);
      }
    }
  }

  /** A play control; `scheduled` counts the clicks its 100 ms timers will make. */
  class PlayControl {
    var clicks: nat
    var scheduled: nat

    constructor ()
      ensures clicks == 0 && scheduled == 0
    {
      clicks := 0;
      scheduled := 0;
    }
  }

  /** A queued request: the bubble, its button and the bubble's id. */
  datatype Entry = Entry(bubble: Bubble, btn: Button, bubbleId: string)

  /** A dequeued request whose transcription has not settled. */
  datatype Job = Job(entry: Entry, mime: string, data: seq<byte>)

  /** A scanned play control and the bubble enclosing it, if any. */
  datatype Control = Control(play: PlayControl, bubble: Option<Bubble>)

  /** A click listener attached to a button. */
  datatype Listener = Listener(btn: Button, bubble: Bubble, play: PlayControl)

  /** The bubbles of a scan. */
  function ScannedBubbles(controls: seq<Control>): (r: set<Bubble>)
    decreases |controls|
    ensures forall b :: b in r ==> exists k :: 0 <= k < |controls| && controls[k].bubble == Some(b)
  {
    if controls == [] then {}
    else
      var n := |controls| - 1;
      ScannedBubbles(controls[..n]) + if controls[n].bubble.Some? then {controls[n].bubble.value} else {}
  }

  /** Every bubble enclosing a control of the scan is one of its bubbles. */
  lemma {:induction false} ScannedMembers(controls: seq<Control>)
    ensures forall k :: 0 <= k < |controls| && controls[k].bubble.Some? ==> controls[k].bubble.value in ScannedBubbles(controls)
    decreases |controls|
  {
    if controls != [] {
      var n := |controls| - 1;
      ScannedMembers(controls[..n]);
      forall k | 0 <= k < n && controls[k].bubble.Some? ensures controls[k].bubble.value in ScannedBubbles(controls) {
        assert controls[..n][k] == controls[k];
      }
    }
  }

  /** A sequence of length one is its only element. */
  lemma Singleton<T>(s: seq<T>)
    requires |s| == 1
    ensures s == [s[0]]
  {
  }

  /** Scanning one more control adds exactly that control's bubble, if any, to
      the bubbles seen. */
  lemma ScannedStep(controls: seq<Control>, i: nat)
    requires i < |controls|
    ensures ScannedBubbles(controls[..i + 1])
      == ScannedBubbles(controls[..i]) + if controls[i].bubble.Some? then {controls[i].bubble.value} else {}
  {
    assert controls[..i + 1][..i] == controls[..i];
    assert controls[..i + 1][i] == controls[i];
  }

  /** The bubbles a scan wires, in scan order: each bubble of `bare` (those with
      no transcribe button before the scan) once, with the play control of the
      first control inside it. */
  function Wiring(controls: seq<Control>, bare: set<Bubble>): (r: seq<(Bubble, PlayControl)>)
    decreases |controls|
    ensures forall k :: 0 <= k < |r| ==> r[k].0 in bare
  {
    if controls == [] then []
    else
      var n := |controls| - 1;
      var c := controls[n];
      Wiring(controls[..n], bare)
        + if c.bubble.Some? && c.bubble.value in bare && c.bubble.value !in ScannedBubbles(controls[..n]) then [(c.bubble.value, c.play)] else []
  }

  /** Every wired bubble is one the scan reached. */
  lemma {:induction false} WiringScanned(controls: seq<Control>, bare: set<Bubble>)
    ensures forall k :: 0 <= k < |Wiring(controls, bare)| ==> Wiring(controls, bare)[k].0 in ScannedBubbles(controls)
    decreases |controls|
  {
    if controls != [] {
      var n := |controls| - 1;
      var w0 := Wiring(controls[..n], bare);
      var w := Wiring(controls, bare);
      WiringScanned(controls[..n], bare);
      ScannedStep(controls, n);
      assert controls[..n + 1] == controls;
      assert ScannedBubbles(controls[..n]) <= ScannedBubbles(controls);
      var c := controls[n];
      if c.bubble.Some? && c.bubble.value in bare && c.bubble.value !in ScannedBubbles(controls[..n]) {
        assert w == w0 + [(c.bubble.value, c.play)];
      } else {
        assert w == w0;
      }
    }
  }

  /** Listener `l` is the click wiring of `pair`: the bubble's one button, the
      bubble, and the play control. */
  predicate Wired(l: Listener, pair: (Bubble, PlayControl))
    reads pair.0
  {
    l.bubble == pair.0 && l.play == pair.1 && pair.0.buttons == [l.btn]
  }

  /** `ls` is `before` followed by one listener per pair of `w`, each wiring
      its pair. */
  predicate Appended(ls: seq<Listener>, before: seq<Listener>, w: seq<(Bubble, PlayControl)>)
    reads set k | 0 <= k < |w| :: w[k].0
  {
    && |ls| == |before| + |w| && ls[..|before|] == before
    && forall k :: 0 <= k < |w| ==> Wired(ls[|before| + k], w[k])
  }

  /** The scan wires no bubble twice. */
  lemma {:induction false} WiringDistinct(controls: seq<Control>, bare: set<Bubble>)
    ensures forall k, l :: 0 <= k < l < |Wiring(controls, bare)| ==> Wiring(controls, bare)[k].0 != Wiring(controls, bare)[l].0
    decreases |controls|
  {
    if controls != [] {
      var n := |controls| - 1;
      var w0 := Wiring(controls[..n], bare);
      WiringDistinct(controls[..n], bare);
      WiringScanned(controls[..n], bare);
      forall k, l | 0 <= k < l < |Wiring(controls, bare)| ensures Wiring(controls, bare)[k].0 != Wiring(controls, bare)[l].0 {
        assert Wiring(controls, bare)[k] == w0[k];
        if l < |w0| {
          assert Wiring(controls, bare)[l] == w0[l];
        }
      }
    }
  }

  /** Every bubble of `s` is wired by some pair of `w`. */
  predicate Covers(w: seq<(Bubble, PlayControl)>, s: set<Bubble>) {
    forall b :: b in s ==> exists k :: 0 <= k < |w| && w[k].0 == b
  }

  /** The scan wires every bare bubble it reaches. */
  lemma {:induction false} WiringCovers(controls: seq<Control>, bare: set<Bubble>)
    ensures Covers(Wiring(controls, bare), bare * ScannedBubbles(controls))
    decreases |controls|
  {
    if controls != [] {
      var n := |controls| - 1;
      var c := controls[n];
      var w0 := Wiring(controls[..n], bare);
      var w := Wiring(controls, bare);
      WiringCovers(controls[..n], bare);
      assert Covers(w0, bare * ScannedBubbles(controls[..n]));
      ScannedStep(controls, n);
      assert controls[..n + 1] == controls;
      forall b | b in bare * ScannedBubbles(controls) ensures exists k :: 0 <= k < |w| && w[k].0 == b {
        if b in ScannedBubbles(controls[..n]) {
          assert b in bare * ScannedBubbles(controls[..n]);
          var k :| 0 <= k < |w0| && w0[k].0 == b;
          assert w[k] == w0[k];
        } else {
          assert c.bubble == Some(b) && w == w0 + [(b, c.play)];
          assert w[|w0|].0 == b;
        }
      }
      assert Covers(w, bare * ScannedBubbles(controls));
    }
  }

  /** Each pair of `w` comes from a control of `controls` that is the first
      one inside its bubble. */
  predicate FromFirst(controls: seq<Control>, w: seq<(Bubble, PlayControl)>) {
    forall k :: 0 <= k < |w| ==>
      exists j :: 0 <= j < |controls| && controls[j] == Control(w[k].1, Some(w[k].0)) && w[k].0 !in ScannedBubbles(controls[..j])
  }

  /** Each pair of the scan comes from the first control inside its bubble. */
  lemma {:induction false} WiringFirst(controls: seq<Control>, bare: set<Bubble>)
    ensures FromFirst(controls, Wiring(controls, bare))
    decreases |controls|
  {
    if controls != [] {
      var n := |controls| - 1;
      var init := controls[..n];
      var w0 := Wiring(init, bare);
      var w := Wiring(controls, bare);
      WiringFirst(init, bare);
      assert FromFirst(init, w0);
      forall k | 0 <= k < |w|
        ensures exists j :: 0 <= j < |controls| && controls[j] == Control(w[k].1, Some(w[k].0)) && w[k].0 !in ScannedBubbles(controls[..j])
      {
        if k < |w0| {
          assert w[k] == w0[k];
          var j :| 0 <= j < |init| && init[j] == Control(w0[k].1, Some(w0[k].0)) && w0[k].0 !in ScannedBubbles(init[..j]);
          assert controls[j] == init[j] && controls[..j] == init[..j];
        } else {
          var c := controls[n];
          assert c.bubble.Some? && c.bubble.value !in ScannedBubbles(init) && w[k] == (c.bubble.value, c.play);
          assert controls[..n] == init && controls[n] == Control(w[k].1, Some(w[k].0));
        }
      }
      assert FromFirst(controls, w);
    }
  }

  /** The buttons of the outstanding requests. */
  function OutstandingButtons(pending: seq<Entry>, jobs: seq<Job>): set<Button> {
    (set k | 0 <= k < |pending| :: pending[k].btn) + (set k | 0 <= k < |jobs| :: jobs[k].entry.btn)
  }

  class ContentScript {
    var pending: seq<Entry>
    var jobs: seq<Job>
    var cache: map<string, string>
    var popups: seq<Popup>
    var listeners: seq<Listener>

    /** The cache is clean, and every outstanding request has its own button,
        which stays disabled showing the hourglass until the request settles. */
    ghost predicate Valid()
      reads this, OutstandingButtons(pending, jobs)
    {
      CacheClean(cache) && QueueValid()
    }

    /** Every outstanding request, queued or being transcribed, has its own
        button, disabled and showing the hourglass. */
    ghost predicate QueueValid()
      reads this`pending, this`jobs, OutstandingButtons(pending, jobs)
    {
      && (forall k :: 0 <= k < |pending| ==> pending[k].btn.disabled && pending[k].btn.text == Hourglass)
      && (forall k :: 0 <= k < |jobs| ==> jobs[k].entry.btn.disabled && jobs[k].entry.btn.text == Hourglass)
      && (forall k, l :: 0 <= k < l < |pending| ==> pending[k].btn != pending[l].btn)
      && (forall k, l :: 0 <= k < l < |jobs| ==> jobs[k].entry.btn != jobs[l].entry.btn)
      && (forall k, l :: 0 <= k < |pending| && 0 <= l < |jobs| ==> pending[k].btn != jobs[l].entry.btn)
    }

    constructor ()
      ensures Valid()
      ensures pending == [] && jobs == [] && cache == map[] && popups == [] && listeners == []
    {
      pending := [];
      jobs := [];
      cache := map[];
      popups := [];
      listeners := [];
    }

    /** `show_transcription_popup(text, bubbleId)`, with "" for a `null` id. */
    method ShowPopup(text: string, bubbleId: string)
      requires CacheClean(cache)
      modifies this`popups, this`cache
      ensures CacheClean(cache)
      ensures popups == old(popups) + [PopupFor(text)]
      ensures cache == CacheAfter(old(cache), bubbleId, text)
    {
      CacheAfterKeepsClean(cache, bubbleId, text);
      popups := popups + [PopupFor(text)];
      if bubbleId != "" && Cacheable(text) {
        cache := cache[bubbleId := text];
      }
    }

    /** `handle_click(bubble, play, btn)`, where `storedKey` is the synced
        `openai_api_key` ("" when absent) and `stamp` the id stamp. */
    method HandleClick(bubble: Bubble, play: PlayControl, btn: Button, storedKey: string, stamp: string)
      requires Valid()
      modifies this`pending, this`popups, this`cache, bubble, btn, play
      ensures Valid()
      ensures bubble.transcriptionId == if old(bubble.transcriptionId) == "" then NewId(stamp) else old(bubble.transcriptionId)
      ensures bubble.buttons == old(bubble.buttons) && jobs == old(jobs)
      ensures var id := bubble.transcriptionId;
        match ClickPathOf(old(btn.transcribed), id in old(cache), storedKey, old(btn.disabled))
        case Reshow =>
          && popups == old(popups) + [PopupFor(old(cache)[id])] && cache == old(cache)
          && pending == old(pending) && unchanged(btn, play)
        case NoKey =>
          && popups == old(popups) + [PopupFor(NoKeyText)] && cache == old(cache)
          && pending == old(pending) && unchanged(btn, play)
        case Ignored =>
          && popups == old(popups) && cache == old(cache) && pending == old(pending) && unchanged(btn, play)
        case Enqueued =>
          && popups == old(popups) && cache == old(cache)
          && pending == old(pending) + [Entry(bubble, btn, id)]
          && btn.disabled && btn.text == Hourglass
          && btn.transcribed == old(btn.transcribed) && btn.bubbleId == old(btn.bubbleId)
          && play.clicks == old(play.clicks) + 1 && play.scheduled == old(play.scheduled) + 1
    {
      bubble.EnsureId(stamp);
      Respond(bubble, play, btn, storedKey, bubble.transcriptionId);
    }

    /** The rest of `handle_click` once the bubble has its id `id`. */
    method Respond(bubble: Bubble, play: PlayControl, btn: Button, storedKey: string, id: string)
      requires Valid()
      modifies this`pending, this`popups, this`cache, btn, play
      ensures Valid() && jobs == old(jobs)
      ensures match ClickPathOf(old(btn.transcribed), id in old(cache), storedKey, old(btn.disabled))
        case Reshow =>
          && popups == old(popups) + [PopupFor(old(cache)[id])] && cache == old(cache)
          && pending == old(pending) && unchanged(btn, play)
        case NoKey =>
          && popups == old(popups) + [PopupFor(NoKeyText)] && cache == old(cache)
          && pending == old(pending) && unchanged(btn, play)
        case Ignored =>
          && popups == old(popups) && cache == old(cache) && pending == old(pending) && unchanged(btn, play)
        case Enqueued =>
          && popups == old(popups) && cache == old(cache)
          && pending == old(pending) + [Entry(bubble, btn, id)]
          && btn.disabled && btn.text == Hourglass
          && btn.transcribed == old(btn.transcribed) && btn.bubbleId == old(btn.bubbleId)
          && play.clicks == old(play.clicks) + 1 && play.scheduled == old(play.scheduled) + 1
    {
      match ClickPathOf(btn.transcribed, id in cache, storedKey, btn.disabled) {
        case Reshow =>
          ShowCached(id);
        case NoKey =>
          ShowNoKey();
        case Ignored =>
        case Enqueued =>
          Enqueue(bubble, btn, id);
          play.clicks := play.clicks + 1;
          play.scheduled := play.scheduled + 1;
      }
    }

    /** Show the cached text for `id` again; the cache stays as it is. */
    method ShowCached(id: string)
      requires Valid() && id in cache
      modifies this`popups, this`cache
      ensures Valid() && popups == old(popups) + [PopupFor(old(cache)[id])] && cache == old(cache)
    {
      CacheAfterKeepsClean(cache, id, cache[id]);
      ShowPopup(cache[id], id);
    }

    /** Show the configuration message for no bubble; nothing is cached. */
    method ShowNoKey()
      requires Valid()
      modifies this`popups, this`cache
      ensures Valid() && popups == old(popups) + [PopupFor(NoKeyText)] && cache == old(cache)
    {
      NoKeyTextNotCached(cache, "");
      ShowPopup(NoKeyText, "");
    }

    /** Disable an enabled button, show the hourglass and queue its request. */
    method Enqueue(bubble: Bubble, btn: Button, id: string)
      requires Valid() && !btn.disabled
      modifies this`pending, btn
      ensures Valid()
      ensures pending == old(pending) + [Entry(bubble, btn, id)]
      ensures btn.disabled && btn.text == Hourglass
      ensures btn.transcribed == old(btn.transcribed) && btn.bubbleId == old(btn.bubbleId)
    {
      btn.disabled := true;
      btn.text := Hourglass;
      pending := pending + [Entry(bubble, btn, id)];
    }

    /** The window `message` listener: a tagged broadcast takes the oldest
        queued request and starts its transcription; anything else, or a
        broadcast with nothing queued, is dropped. */
    method OnMessage(sameWindow: bool, data: Option<Hook.Msg>)
      requires Valid()
      modifies this`pending, this`jobs
      ensures Valid()
      ensures if Accepted(sameWindow, data) && |old(pending)| != 0
        then pending == old(pending[1..]) && jobs == old(jobs) + [Job(old(pending[0]), data.value.mime, data.value.data)]
        else pending == old(pending) && jobs == old(jobs)
    {
      if !sameWindow || data.None? || data.value.source != Hook.Source || data.value.msgType != Hook.AudioType {
        return;
      }
      if |pending| == 0 {
        return;
      }
      var entry := pending[0];
      pending := pending[1..];
      jobs := jobs + [Job(entry, data.value.mime, data.value.data)];
    }

    /** The transcription of `jobs[i]` settles, with `storedKey` read by
        `transcribe` and `reply` the result of its request: on a string, the
        popup shows (and caches) it and the button is marked done; otherwise the
        button shows the warning.  The button is enabled again either way. */
    method Settle(i: nat, storedKey: string, reply: FetchReply)
      requires Valid() && i < |jobs|
      modifies this`jobs, this`popups, this`cache, jobs[i].entry.btn
      ensures Valid()
      ensures jobs == old(jobs[..i] + jobs[i + 1..]) && pending == old(pending)
      ensures var e := old(jobs[i].entry);
        && !e.btn.disabled
        && match TranscribeOutcome(storedKey, reply)
          case Ok(Some(text)) =>
            && popups == old(popups) + [PopupFor(text)] && cache == CacheAfter(old(cache), e.bubbleId, text)
            && e.btn.text == Check && e.btn.transcribed
            && e.btn.bubbleId == (if e.bubbleId != "" then e.bubbleId else old(e.btn.bubbleId))
          case _ =>
            && popups == old(popups) && cache == old(cache)
            && e.btn.text == Warning && e.btn.transcribed == old(e.btn.transcribed) && e.btn.bubbleId == old(e.btn.bubbleId)
    {
      var e := Dequeue(i);
      Finish(e, TranscribeOutcome(storedKey, reply));
    }

    /** Take `jobs[i]` off the outstanding requests. */
    method Dequeue(i: nat) returns (e: Entry)
      requires Valid() && i < |jobs|
      modifies this`jobs
      ensures Valid() && e.btn !in OutstandingButtons(pending, jobs)
      ensures e == old(jobs[i].entry) && jobs == old(jobs[..i] + jobs[i + 1..])
    {
      e := jobs[i].entry;
      SettleKeepsQueue(i);
      jobs := jobs[..i] + jobs[i + 1..];
    }

    /** The `then`/`catch`/`finally` of a settled transcription for `e`, whose
        button no outstanding request holds. */
    method Finish(e: Entry, outcome: Result<Option<string>>)
      requires Valid() && e.btn !in OutstandingButtons(pending, jobs)
      modifies this`popups, this`cache, e.btn
      ensures Valid()
      ensures !e.btn.disabled
      ensures match outcome
        case Ok(Some(text)) =>
          && popups == old(popups) + [PopupFor(text)] && cache == CacheAfter(old(cache), e.bubbleId, text)
          && e.btn.text == Check && e.btn.transcribed
          && e.btn.bubbleId == (if e.bubbleId != "" then e.bubbleId else old(e.btn.bubbleId))
        case _ =>
          && popups == old(popups) && cache == old(cache)
          && e.btn.text == Warning && e.btn.transcribed == old(e.btn.transcribed) && e.btn.bubbleId == old(e.btn.bubbleId)
    {
      if outcome.Ok? && outcome.value.Some? {
        ShowPopup(outcome.value.value, e.bubbleId);
        e.btn.text := Check;
        e.btn.transcribed := true;
        if e.bubbleId != "" {
          e.btn.bubbleId := e.bubbleId;
        }
      } else {
        e.btn.text := Warning;
      }
      e.btn.disabled := false;
    }

    /** Removing `jobs[i]` leaves the other outstanding requests with buttons
        other than its own. */
    lemma SettleKeepsQueue(i: nat)
      requires Valid() && i < |jobs|
      ensures var rest := jobs[..i] + jobs[i + 1..];
        && (forall k :: 0 <= k < |rest| ==> rest[k].entry.btn != jobs[i].entry.btn)
        && (forall k :: 0 <= k < |pending| ==> pending[k].btn != jobs[i].entry.btn)
        && (forall k :: 0 <= k < |rest| ==> rest[k] == if k < i then jobs[k] else jobs[k + 1])
    {
      var rest := jobs[..i] + jobs[i + 1..];
      forall k | 0 <= k < |rest|
        ensures rest[k] == if k < i then jobs[k] else jobs[k + 1]
      {
      }
    }

    /** `add_buttons` over one scan: each control inside a bubble that has no
        transcribe button yet gives that bubble an id (if it has none) and one
        new button, done exactly when the cache holds the id. */
    method AddButtons(controls: seq<Control>, stamps: seq<string>)
      requires Valid() && |stamps| == |controls|
      modifies this`listeners, ScannedBubbles(controls)
      ensures Valid()
      ensures pending == old(pending) && jobs == old(jobs) && cache == old(cache) && popups == old(popups)
      ensures forall b :: b in ScannedBubbles(controls) ==>
        if |old(b.buttons)| != 0 then b.buttons == old(b.buttons) && b.transcriptionId == old(b.transcriptionId)
        else Attached(b, old(b.transcriptionId), cache) && fresh(b.buttons[0])
      ensures Appended(listeners, old(listeners), Wiring(controls, old(BareBubbles(controls))))
    {
      ghost var bare := BareBubbles(controls);
      ghost var was: map<Bubble, seq<Button>> := map b | b in ScannedBubbles(controls) :: b.buttons;
      ghost var ids: map<Bubble, string> := map b | b in ScannedBubbles(controls) :: b.transcriptionId;
      ScanStarts(controls, bare, was, ids, listeners);
      WireBubbles(controls, stamps, bare, was, ids);
      assert bare == old(BareBubbles(controls));
      forall b | b in ScannedBubbles(controls)
        ensures if |old(b.buttons)| != 0 then b.buttons == old(b.buttons) && b.transcriptionId == old(b.transcriptionId)
          else Attached(b, old(b.transcriptionId), cache) && fresh(b.buttons[0])
      {
        assert b in bare <==> |was[b]| == 0;
      }
    }

    /** The loop of `AddButtons`, against the picture `was`, `ids` of the
        scanned bubbles before it: each that had a button is as it was, each
        bare one holds a new button, and one listener per bare bubble is
        appended in wiring order. */
    method WireBubbles(controls: seq<Control>, stamps: seq<string>, ghost bare: set<Bubble>,
                       ghost was: map<Bubble, seq<Button>>, ghost ids: map<Bubble, string>)
      requires Valid() && |stamps| == |controls|
      requires Mirrors(ScannedBubbles(controls), was, ids)
      requires ScanState(controls, 0, bare, {}, map[], was, ids, was, ids, listeners, listeners)
      modifies this`listeners, ScannedBubbles(controls)
      ensures Valid()
      ensures pending == old(pending) && jobs == old(jobs) && cache == old(cache) && popups == old(popups)
      ensures forall b :: b in ScannedBubbles(controls) && b !in bare ==>
        b in was && b in ids && b.buttons == was[b] && b.transcriptionId == ids[b]
      ensures forall b :: b in ScannedBubbles(controls) && b in bare ==>
        b in ids && Attached(b, ids[b], cache) && fresh(b.buttons[0])
      ensures Appended(listeners, old(listeners), Wiring(controls, bare))
    {
      ghost var seen, given, bts, tids := ScanControls(controls, stamps, bare, was, ids);
      ScanDone(controls, bare, seen, given, was, ids, bts, tids, old(listeners), listeners, cache);
      forall b | b in ScannedBubbles(controls) && b in bare ensures fresh(b.buttons[0]) {
        assert b in given && b.buttons == [given[b]];
      }
    }

    /** The loop of `WireBubbles`: `ScanControl` on each control in turn,
        from the scan state before the first to the one after the last. */
    method ScanControls(controls: seq<Control>, stamps: seq<string>, ghost bare: set<Bubble>,
                        ghost was: map<Bubble, seq<Button>>, ghost ids: map<Bubble, string>)
      returns (ghost seen: set<Bubble>, ghost given: map<Bubble, Button>, ghost bts: map<Bubble, seq<Button>>,
               ghost tids: map<Bubble, string>)
      requires Valid() && |stamps| == |controls|
      requires Mirrors(ScannedBubbles(controls), was, ids)
      requires ScanState(controls, 0, bare, {}, map[], was, ids, was, ids, listeners, listeners)
      modifies this`listeners, ScannedBubbles(controls)
      ensures Valid()
      ensures pending == old(pending) && jobs == old(jobs) && cache == old(cache) && popups == old(popups)
      ensures Mirrors(ScannedBubbles(controls), bts, tids)
      ensures ScanState(controls, |controls|, bare, seen, given, was, ids, bts, tids, old(listeners), listeners)
      ensures forall b :: b in given ==> fresh(given[b])
      ensures Ready(given, tids, cache)
    {
      bts, tids := was, ids;
      seen, given := {}, map[];
      ghost var before := listeners;
      ScannedMembers(controls);
      var i := 0;
      while i < |controls|
        invariant 0 <= i <= |controls|
        invariant Valid()
        invariant pending == old(pending) && jobs == old(jobs) && cache == old(cache) && popups == old(popups)
        invariant Mirrors(ScannedBubbles(controls), bts, tids)
        invariant ScanState(controls, i, bare, seen, given, was, ids, bts, tids, before, listeners)
        invariant forall b :: b in given ==> fresh(given[b])
        invariant Ready(given, tids, cache)
      {
        seen, given, bts, tids := ScanControl(controls, i, stamps[i], bare, seen, given, was, ids, bts, tids, before);
        assert ScanState(controls, i + 1, bare, seen, given, was, ids, bts, tids, before, listeners);
        i := i + 1;
        assert ScanState(controls, i, bare, seen, given, was, ids, bts, tids, before, listeners);
      }
    }

    /** The scan state before the first control. */
    static lemma ScanStarts(controls: seq<Control>, bare: set<Bubble>, was: map<Bubble, seq<Button>>, ids: map<Bubble, string>,
                            before: seq<Listener>)
      requires bare == BareBubbles(controls)
      requires was == map b | b in ScannedBubbles(controls) :: b.buttons
      requires ids == map b | b in ScannedBubbles(controls) :: b.transcriptionId
      ensures Mirrors(ScannedBubbles(controls), was, ids)
      ensures ScanState(controls, 0, bare, {}, map[], was, ids, was, ids, before, before)
    {
      assert controls[..0] == [];
    }

    /** What the scan state says once every control has been reached: each
        bubble that had a button is as it was, and each bare one holds the
        button it was given, with its listener in wiring order. */
    static lemma ScanDone(controls: seq<Control>, bare: set<Bubble>, seen: set<Bubble>, given: map<Bubble, Button>,
                          was: map<Bubble, seq<Button>>, ids: map<Bubble, string>, bts: map<Bubble, seq<Button>>,
                          tids: map<Bubble, string>, before: seq<Listener>, ls: seq<Listener>, cache: map<string, string>)
      requires Mirrors(ScannedBubbles(controls), bts, tids)
      requires ScanState(controls, |controls|, bare, seen, given, was, ids, bts, tids, before, ls)
      requires Ready(given, tids, cache)
      ensures forall b :: b in ScannedBubbles(controls) && b !in bare ==>
        b in was && b in ids && b.buttons == was[b] && b.transcriptionId == ids[b]
      ensures forall b :: b in ScannedBubbles(controls) && b in bare ==>
        b in given && b in ids && b.buttons == [given[b]] && Attached(b, ids[b], cache)
      ensures Appended(ls, before, Wiring(controls, bare))
    {
      assert controls[..|controls|] == controls;
      forall b | b in ScannedBubbles(controls) && b !in bare
        ensures b in was && b in ids && b.buttons == was[b] && b.transcriptionId == ids[b]
      {
        assert MirrorsAt(b, bts, tids);
      }
      forall b | b in ScannedBubbles(controls) && b in bare
        ensures b in given && b in ids && b.buttons == [given[b]] && Attached(b, ids[b], cache)
      {
        assert MirrorsAt(b, bts, tids) && ReadyAt(b, given, tids, cache);
      }
      var w := Wiring(controls, bare);
      forall k | 0 <= k < |w| ensures Wired(ls[|before| + k], w[k]) {
        assert w[k].0 in given && MirrorsAt(w[k].0, bts, tids);
      }
    }

    /** `bts` and `tids` hold the current buttons and id of every bubble of `s`. */
    static ghost predicate Mirrors(s: set<Bubble>, bts: map<Bubble, seq<Button>>, tids: map<Bubble, string>)
      reads s
    {
      forall b {:trigger MirrorsAt(b, bts, tids)} :: b in s ==> MirrorsAt(b, bts, tids)
    }

    /** Mirroring holds on any part of `s`, and at each of its bubbles. */
    static lemma MirrorsSplit(s: set<Bubble>, bts: map<Bubble, seq<Button>>, tids: map<Bubble, string>, b: Bubble)
      requires Mirrors(s, bts, tids)
      ensures Mirrors(s - {b}, bts, tids) && (b in s ==> MirrorsAt(b, bts, tids))
    {
    }

    /** Changing the entry of a bubble outside `s` keeps `s` mirrored. */
    static lemma MirrorsUpdate(s: set<Bubble>, bts: map<Bubble, seq<Button>>, tids: map<Bubble, string>, b: Bubble,
                               v: seq<Button>, t: string)
      requires b !in s && Mirrors(s, bts, tids)
      ensures Mirrors(s, bts[b := v], tids[b := t])
    {
      forall x | x in s ensures MirrorsAt(x, bts[b := v], tids[b := t]) {
        assert MirrorsAt(x, bts, tids);
      }
    }

    /** `s` is mirrored when all of it but `b` is, and `b` is. */
    static lemma MirrorsJoin(s: set<Bubble>, bts: map<Bubble, seq<Button>>, tids: map<Bubble, string>, b: Bubble)
      requires Mirrors(s - {b}, bts, tids) && MirrorsAt(b, bts, tids)
      ensures Mirrors(s, bts, tids)
    {
      forall x | x in s ensures MirrorsAt(x, bts, tids) {
        if x != b {
          assert x in s - {b};
        }
      }
    }

    static ghost predicate MirrorsAt(b: Bubble, bts: map<Bubble, seq<Button>>, tids: map<Bubble, string>)
      reads b
    {
      b in bts && b in tids && b.buttons == bts[b] && b.transcriptionId == tids[b]
    }

    /** Every button given so far is as `create_transcribe_button` made it
        for its bubble's id. */
    static ghost predicate Ready(given: map<Bubble, Button>, tids: map<Bubble, string>, cache: map<string, string>)
      reads given.Values
    {
      forall b {:trigger ReadyAt(b, given, tids, cache)} :: b in given ==> ReadyAt(b, given, tids, cache)
    }

    /** Giving a bubble not given before a new button keeps the buttons ready. */
    static lemma ReadyAdd(given: map<Bubble, Button>, tids: map<Bubble, string>, cache: map<string, string>, b: Bubble,
                          nb: Button, t: string)
      requires Ready(given, tids, cache) && b !in given && NewButton(nb, t in cache, t)
      ensures Ready(given[b := nb], tids[b := t], cache)
    {
      var g, ts := given[b := nb], tids[b := t];
      forall x | x in g ensures ReadyAt(x, g, ts, cache) {
        if x != b {
          assert ReadyAt(x, given, tids, cache);
        }
      }
    }

    /** Bubble `b` has been given a button, which is ready. */
    static ghost predicate ReadyAt(b: Bubble, given: map<Bubble, Button>, tids: map<Bubble, string>, cache: map<string, string>)
      reads if b in given then {given[b]} else {}
    {
      b in given && b in tids && NewButton(given[b], tids[b] in cache, tids[b])
    }

    /** The state of `AddButtons` after its first `i` controls, with `was` and
        `ids` the scanned bubbles' buttons and ids when the scan began, `bts`
        and `tids` their buttons and ids now, `given` the button each wired
        bubble received, and `ls` the listeners now. */
    static ghost predicate ScanState(controls: seq<Control>, i: nat, bare: set<Bubble>, seen: set<Bubble>, given: map<Bubble, Button>,
                                     was: map<Bubble, seq<Button>>, ids: map<Bubble, string>, bts: map<Bubble, seq<Button>>,
                                     tids: map<Bubble, string>, before: seq<Listener>, ls: seq<Listener>)
    {
      && ScanSeen(controls, i, bare, seen, given)
      && ScanMaps(controls, bare, seen, given, was, ids, bts, tids)
      && ScanLinks(controls, i, bare, given, before, ls)
    }

    /** `seen` holds the bubbles of the first `i` controls, and the bare ones
        among them are those given a button. */
    static ghost predicate ScanSeen(controls: seq<Control>, i: nat, bare: set<Bubble>, seen: set<Bubble>, given: map<Bubble, Button>)
    {
      && i <= |controls|
      && bare <= ScannedBubbles(controls)
      && seen == ScannedBubbles(controls[..i])
      && given.Keys == bare * seen
    }

    /** A bubble that had a button keeps its buttons and id, a bare one not
        reached yet is still bare, and a wired one holds its given button and
        an id, the one it had if it had one. */
    static ghost predicate ScanMaps(controls: seq<Control>, bare: set<Bubble>, seen: set<Bubble>, given: map<Bubble, Button>,
                                    was: map<Bubble, seq<Button>>, ids: map<Bubble, string>, bts: map<Bubble, seq<Button>>,
                                    tids: map<Bubble, string>)
    {
      && (forall b :: b in ScannedBubbles(controls) && b !in bare ==>
            b in was && b in ids && b in bts && b in tids && bts[b] == was[b] && |was[b]| != 0 && tids[b] == ids[b])
      && (forall b :: b in ScannedBubbles(controls) && b in bare && b !in seen ==>
            b in ids && b in bts && b in tids && bts[b] == [] && tids[b] == ids[b])
      && (forall b :: b in given ==>
            b in ids && b in bts && b in tids && bts[b] == [given[b]] &&
            tids[b] != "" && (ids[b] != "" ==> tids[b] == ids[b]))
    }

    /** `ls` is `before` followed by one listener per pair the first `i`
        controls wire, holding the button given to that pair's bubble. */
    static ghost predicate ScanLinks(controls: seq<Control>, i: nat, bare: set<Bubble>, given: map<Bubble, Button>,
                                     before: seq<Listener>, ls: seq<Listener>)
    {
      && i <= |controls|
      && var w := Wiring(controls[..i], bare);
         && |ls| == |before| + |w| && ls[..|before|] == before
         && forall k :: 0 <= k < |w| ==> w[k].0 in given && ls[|before| + k] == Listener(given[w[k].0], w[k].0, w[k].1)
    }

    /** A scanned bubble has no button during the scan exactly when it is bare
        and not reached yet. */
    static lemma ScanBare(controls: seq<Control>, bare: set<Bubble>, seen: set<Bubble>, given: map<Bubble, Button>,
                          was: map<Bubble, seq<Button>>, ids: map<Bubble, string>, bts: map<Bubble, seq<Button>>,
                          tids: map<Bubble, string>, b: Bubble)
      requires ScanMaps(controls, bare, seen, given, was, ids, bts, tids)
      requires given.Keys == bare * seen
      requires b in ScannedBubbles(controls)
      ensures b in bts && b in tids && (|bts[b]| == 0 <==> b in bare && b !in seen)
      ensures given.Keys <= tids.Keys
    {
    }

    /** The scan state after control `i` when it reaches a bare bubble for the
        first time: the bubble holds `nb` and has id `t`, and one listener is
        appended. */
    static lemma ScanWires(controls: seq<Control>, i: nat, bare: set<Bubble>, seen: set<Bubble>, given: map<Bubble, Button>,
                           was: map<Bubble, seq<Button>>, ids: map<Bubble, string>, bts: map<Bubble, seq<Button>>,
                           tids: map<Bubble, string>, before: seq<Listener>, ls: seq<Listener>, nb: Button, t: string)
      requires i < |controls| && controls[i].bubble.Some?
      requires var b := controls[i].bubble.value; b in bare && b !in seen
      requires ScanState(controls, i, bare, seen, given, was, ids, bts, tids, before, ls)
      requires t != "" && (tids[controls[i].bubble.value] != "" ==> t == tids[controls[i].bubble.value])
      ensures var c := controls[i]; var b := c.bubble.value;
        ScanState(controls, i + 1, bare, seen + {b}, given[b := nb], was, ids, bts[b := [nb]], tids[b := t], before,
                  ls + [Listener(nb, b, c.play)])
    {
      var c := controls[i]; var b := c.bubble.value;
      ScannedStep(controls, i);
      assert ScanSeen(controls, i + 1, bare, seen + {b}, given[b := nb]);
      MapsWire(controls, bare, seen, given, was, ids, bts, tids, b, nb, t);
      LinksWire(controls, i, bare, seen, given, before, ls, nb);
    }

    /** The maps after a bare bubble, reached for the first time, is given
        `nb` and id `t`. */
    static lemma MapsWire(controls: seq<Control>, bare: set<Bubble>, seen: set<Bubble>, given: map<Bubble, Button>,
                          was: map<Bubble, seq<Button>>, ids: map<Bubble, string>, bts: map<Bubble, seq<Button>>,
                          tids: map<Bubble, string>, b: Bubble, nb: Button, t: string)
      requires b in bare && b !in seen && bare <= ScannedBubbles(controls) && given.Keys == bare * seen
      requires ScanMaps(controls, bare, seen, given, was, ids, bts, tids)
      requires t != "" && (tids[b] != "" ==> t == tids[b])
      ensures ScanMaps(controls, bare, seen + {b}, given[b := nb], was, ids, bts[b := [nb]], tids[b := t])
    {
    }

    /** The listeners after control `i` wires a bare bubble reached for the
        first time with `nb`. */
    static lemma LinksWire(controls: seq<Control>, i: nat, bare: set<Bubble>, seen: set<Bubble>, given: map<Bubble, Button>,
                           before: seq<Listener>, ls: seq<Listener>, nb: Button)
      requires i < |controls| && controls[i].bubble.Some?
      requires var b := controls[i].bubble.value; b in bare && b !in seen
      requires ScanSeen(controls, i, bare, seen, given) && ScanLinks(controls, i, bare, given, before, ls)
      ensures var c := controls[i]; var b := c.bubble.value;
        ScanLinks(controls, i + 1, bare, given[b := nb], before, ls + [Listener(nb, b, c.play)])
    {
      WiringStep(controls, i, bare);
      WiringScanned(controls[..i], bare);
      var w := Wiring(controls[..i], bare);
      forall k | 0 <= k < |w| ensures w[k].0 in seen {
      }
    }

    /** The scan state after control `i` when it changes nothing. */
    static lemma ScanSkips(controls: seq<Control>, i: nat, bare: set<Bubble>, seen: set<Bubble>, given: map<Bubble, Button>,
                           was: map<Bubble, seq<Button>>, ids: map<Bubble, string>, bts: map<Bubble, seq<Button>>,
                           tids: map<Bubble, string>, before: seq<Listener>, ls: seq<Listener>)
      requires i < |controls|
      requires controls[i].bubble.Some? ==> var b := controls[i].bubble.value; b !in bare || b in seen
      requires ScanState(controls, i, bare, seen, given, was, ids, bts, tids, before, ls)
      ensures var c := controls[i];
        ScanState(controls, i + 1, bare, seen + if c.bubble.Some? then {c.bubble.value} else {}, given, was, ids, bts, tids, before, ls)
    {
      ScannedStep(controls, i);
      WiringStep(controls, i, bare);
    }

    /** One control of `AddButtons`' scan: `AddButton`, and the scan state it
        moves to. */
    method ScanControl(controls: seq<Control>, i: nat, stamp: string, ghost bare: set<Bubble>, ghost seen: set<Bubble>,
                       ghost given: map<Bubble, Button>, ghost was: map<Bubble, seq<Button>>, ghost ids: map<Bubble, string>,
                       ghost bts: map<Bubble, seq<Button>>, ghost tids: map<Bubble, string>, ghost before: seq<Listener>)
      returns (ghost seen': set<Bubble>, ghost given': map<Bubble, Button>, ghost bts': map<Bubble, seq<Button>>,
               ghost tids': map<Bubble, string>)
      requires Valid() && i < |controls|
      requires Mirrors(ScannedBubbles(controls), bts, tids)
      requires ScanState(controls, i, bare, seen, given, was, ids, bts, tids, before, listeners)
      requires Ready(given, tids, cache)
      modifies this`listeners, if controls[i].bubble.Some? then {controls[i].bubble.value} else {}
      ensures Valid()
      ensures pending == old(pending) && jobs == old(jobs) && cache == old(cache) && popups == old(popups)
      ensures Mirrors(ScannedBubbles(controls), bts', tids')
      ensures ScanState(controls, i + 1, bare, seen', given', was, ids, bts', tids', before, listeners)
      ensures forall b :: b in given' ==> (b in given && given'[b] == given[b]) || fresh(given'[b])
      ensures Ready(given', tids', cache)
    {
      ScannedMembers(controls);
      var c := controls[i];
      if c.bubble.Some? {
        ScanBare(controls, bare, seen, given, was, ids, bts, tids, c.bubble.value);
        assert MirrorsAt(c.bubble.value, bts, tids);
      }
      if c.bubble.Some? && |c.bubble.value.buttons| == 0 {
        seen', given', bts', tids' := ScanFresh(controls, i, stamp, bare, seen, given, was, ids, bts, tids, before);
      } else {
        seen' := ScanKept(controls, i, stamp, bare, seen, given, was, ids, bts, tids, before);
        given', bts', tids' := given, bts, tids;
      }
    }

    /** `ScanControl` on the first control inside a bare bubble: the bubble
        gets its button, and the scan records it. */
    method ScanFresh(controls: seq<Control>, i: nat, stamp: string, ghost bare: set<Bubble>, ghost seen: set<Bubble>,
                     ghost given: map<Bubble, Button>, ghost was: map<Bubble, seq<Button>>, ghost ids: map<Bubble, string>,
                     ghost bts: map<Bubble, seq<Button>>, ghost tids: map<Bubble, string>, ghost before: seq<Listener>)
      returns (ghost seen': set<Bubble>, ghost given': map<Bubble, Button>, ghost bts': map<Bubble, seq<Button>>,
               ghost tids': map<Bubble, string>)
      requires Valid() && i < |controls|
      requires controls[i].bubble.Some? && controls[i].bubble.value in bare && controls[i].bubble.value !in seen
      requires Mirrors(ScannedBubbles(controls), bts, tids)
      requires ScanState(controls, i, bare, seen, given, was, ids, bts, tids, before, listeners)
      requires Ready(given, tids, cache)
      modifies this`listeners, {controls[i].bubble.value}
      ensures Valid()
      ensures pending == old(pending) && jobs == old(jobs) && cache == old(cache) && popups == old(popups)
      ensures Mirrors(ScannedBubbles(controls), bts', tids')
      ensures ScanState(controls, i + 1, bare, seen', given', was, ids, bts', tids', before, listeners)
      ensures forall b :: b in given' ==> (b in given && given'[b] == given[b]) || fresh(given'[b])
      ensures Ready(given', tids', cache)
    {
      ScannedMembers(controls);
      var c := controls[i];
      var b := c.bubble.value;
      ghost var scanned := ScannedBubbles(controls);
      ScanBare(controls, bare, seen, given, was, ids, bts, tids, b);
      MirrorsSplit(scanned, bts, tids, b);
      AddButton(c, stamp, given.Values, scanned - {b});
      ghost var nb, t := b.buttons[0], b.transcriptionId;
      seen', given', bts', tids' := seen + {b}, given[b := nb], bts[b := [nb]], tids[b := t];
      ScanWires(controls, i, bare, seen, given, was, ids, bts, tids, before, old(listeners), nb, t);
      assert Mirrors(scanned - {b}, bts, tids);
      MirrorsUpdate(scanned - {b}, bts, tids, b, [nb], t);
      Singleton(b.buttons);
      MirrorsJoin(scanned, bts', tids', b);
      assert b !in given && Ready(given, tids, cache);
      ReadyAdd(given, tids, cache, b, nb, t);
    }

    /** `ScanControl` on any other control: nothing changes but the bubbles
        reached. */
    method ScanKept(controls: seq<Control>, i: nat, stamp: string, ghost bare: set<Bubble>, ghost seen: set<Bubble>,
                    ghost given: map<Bubble, Button>, ghost was: map<Bubble, seq<Button>>, ghost ids: map<Bubble, string>,
                    ghost bts: map<Bubble, seq<Button>>, ghost tids: map<Bubble, string>, ghost before: seq<Listener>)
      returns (ghost seen': set<Bubble>)
      requires Valid() && i < |controls|
      requires controls[i].bubble.Some? ==> controls[i].bubble.value !in bare || controls[i].bubble.value in seen
      requires Mirrors(ScannedBubbles(controls), bts, tids)
      requires ScanState(controls, i, bare, seen, given, was, ids, bts, tids, before, listeners)
      requires Ready(given, tids, cache)
      modifies this`listeners, if controls[i].bubble.Some? then {controls[i].bubble.value} else {}
      ensures Valid()
      ensures pending == old(pending) && jobs == old(jobs) && cache == old(cache) && popups == old(popups)
      ensures Mirrors(ScannedBubbles(controls), bts, tids)
      ensures ScanState(controls, i + 1, bare, seen', given, was, ids, bts, tids, before, listeners)
      ensures Ready(given, tids, cache)
    {
      ScannedMembers(controls);
      var c := controls[i];
      if c.bubble.Some? {
        ScanBare(controls, bare, seen, given, was, ids, bts, tids, c.bubble.value);
        assert MirrorsAt(c.bubble.value, bts, tids);
      }
      AddButton(c, stamp, given.Values, {});
      seen' := seen + if c.bubble.Some? then {c.bubble.value} else {};
      ScanSkips(controls, i, bare, seen, given, was, ids, bts, tids, before, listeners);
      forall x | x in ScannedBubbles(controls) ensures MirrorsAt(x, bts, tids) {
        assert old(MirrorsAt(x, bts, tids));
        if Some(x) != c.bubble {
          assert x !in (if c.bubble.Some? then {c.bubble.value} else {});
        }
      }
    }

    /** The scanned bubbles that have no button yet. */
    static ghost function BareBubbles(controls: seq<Control>): set<Bubble>
      reads ScannedBubbles(controls)
    {
      set b | b in ScannedBubbles(controls) && |b.buttons| == 0
    }

    /** One step of the scan appends the pair of the control just reached, if
        its bubble is bare and not reached before. */
    static lemma WiringStep(controls: seq<Control>, i: nat, bare: set<Bubble>)
      requires i < |controls|
      ensures var c := controls[i];
        Wiring(controls[..i + 1], bare) == Wiring(controls[..i], bare)
          + if c.bubble.Some? && c.bubble.value in bare && c.bubble.value !in ScannedBubbles(controls[..i]) then [(c.bubble.value, c.play)] else []
    {
      assert controls[..i + 1][..i] == controls[..i];
      assert controls[..i + 1][i] == controls[i];
    }

    /** One control of the scan: skipped without a bubble or when the bubble
        already holds a transcribe button; otherwise the bubble gets its id and
        a button wired to this control. */
    method AddButton(c: Control, stamp: string, ghost kept: set<Button>, ghost others: set<Bubble>)
      requires Valid() && (c.bubble.Some? ==> c.bubble.value !in others)
      modifies this`listeners, if c.bubble.Some? then {c.bubble.value} else {}
      ensures Valid() && unchanged(kept) && unchanged(others)
      ensures pending == old(pending) && jobs == old(jobs) && cache == old(cache) && popups == old(popups)
      ensures c.bubble.None? ==> listeners == old(listeners)
      ensures c.bubble.Some? ==> var b := c.bubble.value;
        if |old(b.buttons)| != 0 then
          && b.buttons == old(b.buttons) && b.transcriptionId == old(b.transcriptionId) && listeners == old(listeners)
        else
          && Attached(b, old(b.transcriptionId), cache) && fresh(b.buttons[0])
          && listeners == old(listeners) + [Listener(b.buttons[0], b, c.play)]
    {
      if c.bubble.None? || |c.bubble.value.buttons| != 0 {
        return;
      }
      var bubble := c.bubble.value;
      bubble.EnsureId(stamp);
      var id := bubble.transcriptionId;
      var btn := new Button(id in cache, id);
      listeners := listeners + [Listener(btn, bubble, c.play)];
      bubble.buttons := bubble.buttons + [btn];
    }
  }

  /** What `create_transcribe_button(cached, id)` returns: enabled, and marked
      done with the bubble's id exactly when its text is cached. */
  predicate NewButton(btn: Button, cached: bool, id: string)
    reads btn
  {
    && !btn.disabled && btn.transcribed == cached
    && btn.text == (if cached then Check else TranscribeLabel)
    && btn.bubbleId == (if cached then id else "")
  }

  /** A bubble that had no button after `add_buttons`: it keeps an id it had,
      has an id, and holds one new button that is done exactly when its id is
      cached. */
  predicate Attached(b: Bubble, oldId: string, cache: map<string, string>)
    reads b, if |b.buttons| == 1 then {b.buttons[0]} else {}
  {
    && |b.buttons| == 1
    && (oldId != "" ==> b.transcriptionId == oldId) && b.transcriptionId != ""
    && NewButton(b.buttons[0], b.transcriptionId in cache, b.transcriptionId)
  }
}
