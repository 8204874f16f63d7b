/** The page-side half of the audio capture bridge: the script that wraps
    `URL.createObjectURL`, keeps a registry of the audio blobs the page turns
    into object URLs, and posts a blob's bytes to the window once a media
    element is pointed at its URL.  The patched entry points (the wrapped
    `createObjectURL`, the `src` setter, the `Audio` constructor) are methods of
    one class; the asynchronous `arrayBuffer()` read is a list of reads in
    flight that `CompleteRead` settles one at a time, in any order. */
module Hook {
  import opened Js

  type Url = string

  /** The registry's entry for an object URL: the blob, its `type`, and whether
      its bytes have been sent. */
  datatype Rec = Rec(blob: Blob, mime: string, sent: bool)

  /** A `rec.blob.arrayBuffer()` read that has been started and has not settled:
      the record's mime and the blob. */
  datatype Read = Read(mime: string, blob: Blob)

  /** The message `window.postMessage` sends: `source`, `type`, `mime`, `data`. */
  datatype Msg = Msg(source: string, msgType: string, mime: string, data: seq<byte>)

  const Source := "WA_TRANSCRIBER"
  const AudioType := "WA_AUDIO"

  /** The message carrying one blob's bytes. */
  function Message(mime: string, data: seq<byte>): (r: Msg)
    ensures r.source == Source && r.msgType == AudioType
    ensures r.mime == mime && r.data == data
  {
    Msg(Source, AudioType, mime, data)
  }

  /** `blob?.type?.startsWith("audio/")`; a value without a `type` has an empty one. */
  predicate IsAudio(blob: Blob) {
    StartsWith(blob.mimeType, "audio/")
  }

  /** The registry after the wrapped `createObjectURL` has produced `url` for `blob`. */
  function Registered(m: map<Url, Rec>, url: Url, blob: Blob): (r: map<Url, Rec>)
    ensures IsAudio(blob) ==> url in r && r[url] == Rec(blob, blob.mimeType, false)
    ensures !IsAudio(blob) ==> r == m
    ensures forall u :: u != url ==> (u in r <==> u in m)
    ensures forall u :: u in r && u != url ==> r[u] == m[u]
  {
    if IsAudio(blob) then m[url := Rec(blob, blob.mimeType, false)] else m
  }

  /** Whether `maybeSend(url)` starts a read: the URL is registered and unsent. */
  predicate Sendable(m: map<Url, Rec>, url: Url) {
    url in m && !m[url].sent
  }

  /** The registry after `maybeSend(url)`: the record, if sendable, is marked sent. */
  function AfterSend(m: map<Url, Rec>, url: Url): (r: map<Url, Rec>)
    ensures r.Keys == m.Keys
    ensures url in r ==> r[url].sent && r[url].blob == m[url].blob && r[url].mime == m[url].mime
    ensures forall u :: u in r && u != url ==> r[u] == m[u]
    ensures !Sendable(m, url) ==> r == m
  {
    if Sendable(m, url) then m[url := m[url].(sent := true)] else m
  }

  /** The reads `maybeSend(url)` starts: one for a sendable URL, none otherwise. */
  function StartedReads(m: map<Url, Rec>, url: Url): (r: seq<Read>)
    ensures |r| <= 1
    ensures |r| == 1 <==> Sendable(m, url)
    ensures Sendable(m, url) ==> r == [Read(m[url].mime, m[url].blob)]
  {
    if Sendable(m, url) then [Read(m[url].mime, m[url].blob)] else []
  }

  /** A second `maybeSend` of the same URL starts nothing and changes nothing. */
  lemma SecondSendIsNoop(m: map<Url, Rec>, url: Url)
    ensures AfterSend(AfterSend(m, url), url) == AfterSend(m, url)
    ensures StartedReads(AfterSend(m, url), url) == []
  {
  }

  /** Registering a URL again replaces its record with an unsent one, so the new
      blob can be sent even if the old one was. */
  lemma ReRegistrationResets(m: map<Url, Rec>, url: Url, blob: Blob)
    requires IsAudio(blob)
    ensures Sendable(Registered(m, url, blob), url)
    ensures StartedReads(Registered(m, url, blob), url) == [Read(blob.mimeType, blob)]
  {
  }

  /** `s` holds every value at most once. */
  ghost predicate AtMostOnce(s: seq<nat>) {
    forall id :: multiset(s)[id] <= 1
  }

  /** Adding a value that occurs nowhere keeps every value at most once. */
  lemma AppendFresh(a: seq<nat>, b: seq<nat>, id: nat)
    requires AtMostOnce(a + b) && id !in a && id !in b
    ensures AtMostOnce((a + [id]) + b) && AtMostOnce(a + (b + [id]))
  {
    var ms := multiset(a + b);
    assert multiset((a + [id]) + b) == ms + multiset{id};
    assert multiset(a + (b + [id])) == ms + multiset{id};
    assert ms[id] == 0;
  }

  /** Taking the `i`-th value out of `a` keeps every value at most once; what is
      left of `a` came from `a`, without the value taken out. */
  lemma RemoveKeepsOnce(a: seq<nat>, b: seq<nat>, i: nat)
    requires AtMostOnce(a + b) && i < |a|
    ensures var rest := a[..i] + a[i + 1..];
      && AtMostOnce(rest + b) && a[i] !in rest && a[i] !in b
      && (forall k :: 0 <= k < |rest| ==> rest[k] == if k < i then a[k] else a[k + 1])
  {
    var rest := a[..i] + a[i + 1..];
    assert a == a[..i] + [a[i]] + a[i + 1..];
    var ms := multiset(rest + b);
    assert multiset(a + b) == ms + multiset{a[i]};
    assert multiset(a + b)[a[i]] <= 1;
    forall x
      ensures ms[x] <= 1
    {
      assert ms[x] <= multiset(a + b)[x];
    }
  }

  /** Every record, read and message belongs to an audio registration; the
      registration of an unsent record has neither a read nor a message; and no
      registration has more than one read or message among them. */
  ghost predicate Coherent(m: map<Url, Rec>, flight: seq<Read>, posted: seq<Msg>,
                           history: seq<Blob>, regOf: map<Url, nat>, flightIds: seq<nat>, postedIds: seq<nat>)
  {
    && m.Keys == regOf.Keys
    && |flightIds| == |flight| && |postedIds| == |posted|
    && (forall id :: 0 <= id < |history| ==> IsAudio(history[id]))
    && (forall u :: u in regOf ==> regOf[u] < |history|)
    && (forall u, v :: u in regOf && v in regOf && u != v ==> regOf[u] != regOf[v])
    && (forall u :: u in m ==> m[u].blob == history[regOf[u]] && m[u].mime == m[u].blob.mimeType)
    && (forall i :: 0 <= i < |flightIds| ==>
          flightIds[i] < |history| && flight[i] == Read(history[flightIds[i]].mimeType, history[flightIds[i]]))
    && (forall i :: 0 <= i < |postedIds| ==>
          postedIds[i] < |history| && posted[i] == Message(history[postedIds[i]].mimeType, history[postedIds[i]].bytes))
    && (forall u :: u in m && !m[u].sent ==> regOf[u] !in flightIds && regOf[u] !in postedIds)
    && AtMostOnce(flightIds + postedIds)
  }

  /** A registration takes the next number and keeps the state coherent. */
  lemma RegisterKeeps(m: map<Url, Rec>, flight: seq<Read>, posted: seq<Msg>, history: seq<Blob>,
                      regOf: map<Url, nat>, flightIds: seq<nat>, postedIds: seq<nat>, url: Url, blob: Blob)
    requires Coherent(m, flight, posted, history, regOf, flightIds, postedIds) && IsAudio(blob)
    ensures Coherent(m[url := Rec(blob, blob.mimeType, false)], flight, posted, history + [blob],
                     regOf[url := |history|], flightIds, postedIds)
  {
  }

  /** Starting the read of a sendable URL keeps the state coherent. */
  lemma SendKeeps(m: map<Url, Rec>, flight: seq<Read>, posted: seq<Msg>, history: seq<Blob>,
                  regOf: map<Url, nat>, flightIds: seq<nat>, postedIds: seq<nat>, url: Url)
    requires Coherent(m, flight, posted, history, regOf, flightIds, postedIds) && Sendable(m, url)
    ensures Coherent(m[url := m[url].(sent := true)], flight + [Read(m[url].mime, m[url].blob)], posted,
                     history, regOf, flightIds + [regOf[url]], postedIds)
  {
    AppendFresh(flightIds, postedIds, regOf[url]);
  }

  /** Dropping the `i`-th read keeps the state coherent. */
  lemma DropReadKeeps(m: map<Url, Rec>, flight: seq<Read>, posted: seq<Msg>, history: seq<Blob>,
                      regOf: map<Url, nat>, flightIds: seq<nat>, postedIds: seq<nat>, i: nat)
    requires Coherent(m, flight, posted, history, regOf, flightIds, postedIds) && i < |flight|
    ensures Coherent(m, flight[..i] + flight[i + 1..], posted, history, regOf, flightIds[..i] + flightIds[i + 1..], postedIds)
  {
    RemoveKeepsOnce(flightIds, postedIds, i);
    var flight' := flight[..i] + flight[i + 1..];
    assert forall k :: 0 <= k < |flight'| ==> flight'[k] == if k < i then flight[k] else flight[k + 1];
  }

  /** Posting the bytes of a registration that has no read, no message and no
      unsent record keeps the state coherent. */
  lemma PostKeeps(m: map<Url, Rec>, flight: seq<Read>, posted: seq<Msg>, history: seq<Blob>,
                  regOf: map<Url, nat>, flightIds: seq<nat>, postedIds: seq<nat>, id: nat)
    requires Coherent(m, flight, posted, history, regOf, flightIds, postedIds)
    requires id < |history| && id !in flightIds && id !in postedIds
    requires forall u :: u in m && !m[u].sent ==> regOf[u] != id
    ensures Coherent(m, flight, posted + [Message(history[id].mimeType, history[id].bytes)], history, regOf,
                     flightIds, postedIds + [id])
  {
    AppendFresh(flightIds, postedIds, id);
  }

  /** Settling the `i`-th read, posting its bytes or not, keeps the state coherent. */
  lemma SettleKeeps(m: map<Url, Rec>, flight: seq<Read>, posted: seq<Msg>, history: seq<Blob>,
                    regOf: map<Url, nat>, flightIds: seq<nat>, postedIds: seq<nat>, i: nat, resolved: bool)
    requires Coherent(m, flight, posted, history, regOf, flightIds, postedIds) && i < |flight|
    ensures var r := flight[i];
      Coherent(m, flight[..i] + flight[i + 1..],
               if resolved then posted + [Message(r.mime, r.blob.bytes)] else posted,
               history, regOf, flightIds[..i] + flightIds[i + 1..],
               if resolved then postedIds + [flightIds[i]] else postedIds)
  {
    var id := flightIds[i];
    RemoveKeepsOnce(flightIds, postedIds, i);
    DropReadKeeps(m, flight, posted, history, regOf, flightIds, postedIds, i);
    if resolved {
      assert forall u :: u in m && !m[u].sent ==> regOf[u] != id;
      PostKeeps(m, flight[..i] + flight[i + 1..], posted, history, regOf, flightIds[..i] + flightIds[i + 1..], postedIds, id);
    }
  }

  /** A media element; only its `src` is modelled. */
  class MediaElement {
    var src: string

    constructor (src: string)
      ensures this.src == src
    {
      this.src := src;
    }
  }

  /** The state of the page script: the registry, the reads in flight and the
      messages posted so far.  The ghost fields number every registration
      (`history[id]` is the blob of registration `id`) and name the registration
      each read and each posted message belongs to. */
  class AudioHook {
    var audioMap: map<Url, Rec>
    var inFlight: seq<Read>
    var outbox: seq<Msg>
    ghost var history: seq<Blob>
    ghost var regOf: map<Url, nat>
    ghost var flightIds: seq<nat>
    ghost var postedIds: seq<nat>

    /** The registry, the reads in flight and the posted messages agree with
        the registrations recorded so far. */
    ghost predicate Valid()
      reads this
    {
      Coherent(audioMap, inFlight, outbox, history, regOf, flightIds, postedIds)
    }

    constructor ()
      ensures Valid()
      ensures audioMap == map[] && inFlight == [] && outbox == []
    {
      audioMap := map[];
      inFlight := [];
      outbox := [];
      history := [];
      regOf := map[];
      flightIds := [];
      postedIds := [];
    }

    /** The wrapped `URL.createObjectURL(blob)`, where `created` is the URL the
        original produced: it registers an audio blob and returns `created`. */
    method OnCreate(blob: Blob, created: Url) returns (url: Url)
      requires Valid()
      modifies this
      ensures Valid()
      ensures url == created
      ensures audioMap == Registered(old(audioMap), created, blob)
      ensures inFlight == old(inFlight) && outbox == old(outbox)
    {
      if IsAudio(blob) {
        RegisterKeeps(audioMap, inFlight, outbox, history, regOf, flightIds, postedIds, created, blob);
        audioMap := audioMap[created := Rec(blob, blob.mimeType, false)];
        regOf := regOf[created := |history|];
        history := history + [blob];
      }
      url := created;
    }

    /** `maybeSend(url)`: for a registered, unsent URL, mark it sent and start
        reading its blob; otherwise do nothing. */
    method MaybeSend(url: Url)
      requires Valid()
      modifies this
      ensures Valid()
      ensures audioMap == AfterSend(old(audioMap), url)
      ensures inFlight == old(inFlight) + StartedReads(old(audioMap), url)
      ensures outbox == old(outbox)
    {
      if url !in audioMap || audioMap[url].sent {
        return;
      }
      var rec := audioMap[url];
      ghost var id := regOf[url];
      SendKeeps(audioMap, inFlight, outbox, history, regOf, flightIds, postedIds, url);
      audioMap := audioMap[url := rec.(sent := true)];
      inFlight := inFlight + [Read(rec.mime, rec.blob)];
      flightIds := flightIds + [id];
    }

    /** The read `inFlight[i]` settles: its bytes are posted when it resolves, and
        nothing is posted when it rejects. */
    method CompleteRead(i: nat, resolved: bool)
      requires Valid() && i < |inFlight|
      modifies this
      ensures Valid()
      ensures inFlight == old(inFlight[..i] + inFlight[i + 1..])
      ensures outbox == if resolved then old(outbox) + [Message(old(inFlight[i]).mime, old(inFlight[i]).blob.bytes)] else old(outbox)
      ensures audioMap == old(audioMap)
    {
      var r := inFlight[i];
      ghost var id := flightIds[i];
      ghost var rest := flightIds[..i] + flightIds[i + 1..];
      SettleKeeps(audioMap, inFlight, outbox, history, regOf, flightIds, postedIds, i, resolved);
      inFlight := inFlight[..i] + inFlight[i + 1..];
      flightIds := rest;
      if resolved {
        outbox := outbox + [Message(r.mime, r.blob.bytes)];
        postedIds := postedIds + [id];
      }
    }

    /** The patched `src` setter: `maybeSend(v)`, then the original setter. */
    method OnSrcWrite(element: MediaElement, v: Url)
      requires Valid()
      modifies this, element
      ensures Valid()
      ensures element.src == v
      ensures audioMap == AfterSend(old(audioMap), v)
      ensures inFlight == old(inFlight) + StartedReads(old(audioMap), v)
      ensures outbox == old(outbox)
    {
      MaybeSend(v);
      element.src := v;
    }

    /** The `Audio` constructor behind the proxy: the native element (whose `src`
        is the first argument, if any), and `maybeSend` of a truthy first argument. */
    method OnAudioConstruct(arg: Option<Url>) returns (audio: MediaElement)
      requires Valid()
      modifies this
      ensures Valid()
      ensures fresh(audio) && audio.src == arg.GetOr("")
      ensures var sent := arg.Some? && arg.value != "";
        && audioMap == (if sent then AfterSend(old(audioMap), arg.value) else old(audioMap))
        && inFlight == old(inFlight) + (if sent then StartedReads(old(audioMap), arg.value) else [])
      ensures outbox == old(outbox)
    {
      audio := new MediaElement(arg.GetOr(""));
      if arg.Some? && arg.value != "" {
        MaybeSend(arg.value);
      }
    }
  }

  /** Each registration is posted at most once, and every posted message carries
      an audio blob's mime and bytes under the bridge's fixed tags. */
  lemma AtMostOnePostPerRegistration(h: AudioHook)
    requires h.Valid()
    ensures forall id :: multiset(h.postedIds)[id] <= 1
    ensures forall i :: 0 <= i < |h.outbox| ==>
      h.outbox[i].source == Source && h.outbox[i].msgType == AudioType && StartsWith(h.outbox[i].mime, "audio/")
  {
    forall id
      ensures multiset(h.postedIds)[id] <= 1
    {
      assert multiset(h.flightIds + h.postedIds)[id] == multiset(h.flightIds)[id] + multiset(h.postedIds)[id];
    }
    forall i | 0 <= i < |h.outbox|
      ensures StartsWith(h.outbox[i].mime, "audio/")
    {
      assert IsAudio(h.history[h.postedIds[i]]);
    }
  }
}
