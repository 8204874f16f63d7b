/** The local Whisper transcriber: the WAV serialiser that turns decoded audio
    into a canonical 44-byte-header PCM file, the conversion fallbacks around it,
    the server check and the transcription call with its error wrapping. */
module LocalWhisper {
  import opened Js
  import opened ApiKeyVerifier
  import opened ProviderKit

  /** A sample after clamping and scaling, as `setInt16` receives it. */
  newtype int16 = x: int | -0x8000 <= x < 0x8000

  // ---------------------------------------------------------------------------
  // Byte-level specification

  /** `s` with `bs` written over it from `offset` on. */
  function Overwrite(s: seq<byte>, offset: nat, bs: seq<byte>): (r: seq<byte>)
    requires offset + |bs| <= |s|
    ensures |r| == |s| && r[offset..offset + |bs|] == bs
  {
    s[..offset] + bs + s[offset + |bs|..]
  }

  /** A write that covers the whole buffer replaces it. */
  lemma OverwriteWhole(s: seq<byte>, bs: seq<byte>)
    requires |bs| == |s|
    ensures Overwrite(s, 0, bs) == bs
  {
    assert s[|bs|..] == [];
  }

  /** A write leaves every byte outside its range as it was. */
  lemma OverwriteElsewhere(s: seq<byte>, offset: nat, bs: seq<byte>, j: nat)
    requires offset + |bs| <= |s| && j < |s| && !(offset <= j < offset + |bs|)
    ensures Overwrite(s, offset, bs)[j] == s[j]
  {
    if j >= offset + |bs| {
      assert Overwrite(s, offset, bs)[j] == s[offset + |bs|..][j - offset - |bs|];
    }
  }

  /** Two writes side by side are one write of both. */
  lemma OverwriteAdjacent(s: seq<byte>, offset: nat, bs: seq<byte>, cs: seq<byte>)
    requires offset + |bs| + |cs| <= |s|
    ensures Overwrite(Overwrite(s, offset, bs), offset + |bs|, cs) == Overwrite(s, offset, bs + cs)
  {
  }

  /** `setUint16(offset, v, true)`: `v` modulo 2^16, low byte first. */
  function LE16(v: int): (r: seq<byte>)
    ensures |r| == 2
  {
    var u := v % 0x1_0000;
    [(u % 0x100) as byte, (u / 0x100) as byte]
  }

  /** `setUint32(offset, v, true)`: `v` modulo 2^32, low byte first. */
  function LE32(v: int): (r: seq<byte>)
    ensures |r| == 4
  {
    var u := v % 0x1_0000_0000;
    LE16(u % 0x1_0000) + LE16(u / 0x1_0000)
  }

  /** Little-endian encodings read back to the value modulo their width. */
  lemma LE16Value(v: int)
    ensures var b := LE16(v); b[0] as int + 0x100 * b[1] as int == v % 0x1_0000
  {
  }

  lemma LE32Value(v: int)
    ensures var b := LE32(v);
      b[0] as int + 0x100 * b[1] as int + 0x1_0000 * b[2] as int + 0x100_0000 * b[3] as int == v % 0x1_0000_0000
  {
    var u := v % 0x1_0000_0000;
    LE16Value(u % 0x1_0000);
    LE16Value(u / 0x1_0000);
  }

  /** `setUint8(offset, s.charCodeAt(i))`: the code unit modulo 2^8. */
  function CharByte(c: char): byte {
    ((c as int) % 0x100) as byte
  }

  function Latin1(s: string): (r: seq<byte>)
    ensures |r| == |s|
    ensures forall k :: 0 <= k < |s| ==> r[k] == CharByte(s[k])
  {
    seq(|s|, k requires 0 <= k < |s| => CharByte(s[k]))
  }

  /** `numSamples × numChannels × bytesPerSample`. */
  function DataLength(numChannels: nat, numSamples: nat): nat {
    numSamples * numChannels * 2
  }

  /** The RIFF chunk descriptor: `RIFF`, the size of the rest of the file, `WAVE`. */
  function RiffChunk(dataLength: nat): (r: seq<byte>)
    ensures |r| == 12
  {
    Latin1("RIFF") + LE32(36 + dataLength) + Latin1("WAVE")
  }

  /** The `fmt ` sub-chunk: its size 16, PCM format 1, the channel count, the
      sample rate, the byte rate, the block alignment and 16 bits per sample. */
  function FormatChunk(numChannels: nat, sampleRate: nat): (r: seq<byte>)
    ensures |r| == 24
  {
    Latin1("fmt ") + LE32(16) + LE16(1) + LE16(numChannels) + LE32(sampleRate)
      + LE32(sampleRate * (numChannels * 2)) + LE16(numChannels * 2) + LE16(16)
  }

  /** The head of the `data` sub-chunk: `data` and the data length. */
  function DataChunkHead(dataLength: nat): (r: seq<byte>)
    ensures |r| == 8
  {
    Latin1("data") + LE32(dataLength)
  }

  /** The 44-byte header, chunk by chunk in file order. */
  function Header(numChannels: nat, sampleRate: nat, dataLength: nat): (r: seq<byte>)
    ensures |r| == 44
  {
    RiffChunk(dataLength) + FormatChunk(numChannels, sampleRate) + DataChunkHead(dataLength)
  }

  /** A decoded audio buffer: `channelData[c][i]` is sample `i` of channel `c`. */
  datatype AudioBuffer = AudioBuffer(numberOfChannels: nat, sampleRate: nat, length: nat, channelData: seq<seq<int16>>)

  /** What an `AudioBuffer` guarantees: one array per channel, each `length` long. */
  predicate WellFormed(b: AudioBuffer) {
    |b.channelData| == b.numberOfChannels
    && forall c :: 0 <= c < |b.channelData| ==> |b.channelData[c]| == b.length
  }

  /** The first `c` samples of frame `i`, channel by channel. */
  function FramePrefix(b: AudioBuffer, i: nat, c: nat): (r: seq<byte>)
    requires WellFormed(b) && i < b.length && c <= b.numberOfChannels
    ensures |r| == 2 * c
  {
    if c == 0 then [] else FramePrefix(b, i, c - 1) + LE16(b.channelData[c - 1][i] as int)
  }

  /** The first `n` frames, frame-major. */
  function Frames(b: AudioBuffer, n: nat): (r: seq<byte>)
    requires WellFormed(b) && n <= b.length
    ensures |r| == 2 * (n * b.numberOfChannels)
  {
    if n == 0 then [] else Frames(b, n - 1) + FramePrefix(b, n - 1, b.numberOfChannels)
  }

  /** The whole file `audioBufferToWav` produces. */
  function Wav(b: AudioBuffer): seq<byte>
    requires WellFormed(b)
  {
    Header(b.numberOfChannels, b.sampleRate, DataLength(b.numberOfChannels, b.length)) + Frames(b, b.length)
  }

  lemma WavLength(b: AudioBuffer)
    requires WellFormed(b)
    ensures |Wav(b)| == 44 + DataLength(b.numberOfChannels, b.length)
  {
  }

  /** The header fields sit at their fixed offsets. */
  lemma HeaderLayout(numChannels: nat, sampleRate: nat, dataLength: nat)
    ensures var h := Header(numChannels, sampleRate, dataLength);
      |h| == 44
      && h[0..4] == Latin1("RIFF") && h[4..8] == LE32(36 + dataLength)
      && h[8..12] == Latin1("WAVE") && h[12..16] == Latin1("fmt ")
      && h[16..20] == LE32(16) && h[20..22] == LE16(1)
      && h[22..24] == LE16(numChannels) && h[24..28] == LE32(sampleRate)
      && h[28..32] == LE32(sampleRate * (numChannels * 2)) && h[32..34] == LE16(numChannels * 2)
      && h[34..36] == LE16(16) && h[36..40] == Latin1("data") && h[40..44] == LE32(dataLength)
  {
  }

  /** Sample `c` of frame `i` sits at `2c` within the frame. */
  lemma {:induction false} FrameSample(b: AudioBuffer, i: nat, c: nat, k: nat)
    requires WellFormed(b) && i < b.length && k < c <= b.numberOfChannels
    ensures FramePrefix(b, i, c)[2 * k..2 * k + 2] == LE16(b.channelData[k][i] as int)
  {
    if k < c - 1 {
      FrameSample(b, i, c - 1, k);
      assert FramePrefix(b, i, c)[2 * k..2 * k + 2] == FramePrefix(b, i, c - 1)[2 * k..2 * k + 2];
    }
  }

  /** Two bytes inside the front part of a concatenation are read from it. */
  lemma PairInFront(a: seq<byte>, b: seq<byte>, j: nat)
    requires j + 2 <= |a|
    ensures j + 2 <= |a + b| && (a + b)[j..j + 2] == a[j..j + 2]
  {
  }

  /** Two bytes inside the back part of a concatenation are read from it. */
  lemma PairInBack(a: seq<byte>, b: seq<byte>, j: nat)
    requires |a| <= j && j + 2 <= |a| + |b|
    ensures (a + b)[j..j + 2] == b[j - |a|..j - |a| + 2]
  {
  }

  /** Sample `i` of channel `c` sits at `2·(i·numChannels + c)` within the data. */
  lemma {:induction false} FramesSample(b: AudioBuffer, n: nat, i: nat, c: nat)
    requires WellFormed(b) && n <= b.length && i < n && c < b.numberOfChannels
    ensures var j := 2 * (i * b.numberOfChannels + c);
      j + 2 <= |Frames(b, n)| && Frames(b, n)[j..j + 2] == LE16(b.channelData[c][i] as int)
  {
    var nc := b.numberOfChannels;
    var j := 2 * (i * nc + c);
    var front := Frames(b, n - 1);
    var last := FramePrefix(b, n - 1, nc);
    assert Frames(b, n) == front + last;
    if i < n - 1 {
      FramesSample(b, n - 1, i, c);
      PairInFront(front, last, j);
    } else {
      assert |front| == 2 * (i * nc);
      FrameSample(b, i, nc, c);
      PairInBack(front, last, j);
    }
  }

  /** Two bytes of the data are read at 44 more in the file. */
  lemma PairAfterHeader(h: seq<byte>, f: seq<byte>, j: nat)
    requires |h| == 44 && j + 2 <= |f|
    ensures 44 + j + 2 <= |h + f| && (h + f)[44 + j..44 + j + 2] == f[j..j + 2]
  {
    PairInBack(h, f, 44 + j);
  }

  /** The file holds sample `i` of channel `c` little-endian at
      `44 + 2·(i·numChannels + c)`. */
  lemma WavSample(b: AudioBuffer, i: nat, c: nat)
    requires WellFormed(b) && i < b.length && c < b.numberOfChannels
    ensures var j := 44 + 2 * (i * b.numberOfChannels + c);
      j + 2 <= |Wav(b)| && Wav(b)[j..j + 2] == LE16(b.channelData[c][i] as int)
  {
    var h := Header(b.numberOfChannels, b.sampleRate, DataLength(b.numberOfChannels, b.length));
    var f := Frames(b, b.length);
    var j := 2 * (i * b.numberOfChannels + c);
    FramesSample(b, b.length, i, c);
    PairAfterHeader(h, f, j);
  }

  lemma {:induction false} FramesMono(b: AudioBuffer, i: nat, n: nat)
    requires WellFormed(b) && i <= n <= b.length
    ensures |Frames(b, i)| <= |Frames(b, n)|
    decreases n
  {
    if i < n {
      FramesMono(b, i, n - 1);
    }
  }

  // ---------------------------------------------------------------------------
  // The DataView writes

  method SetUint16(view: array<byte>, offset: nat, value: int)
    requires offset + 2 <= view.Length
    modifies view
    ensures view[..] == Overwrite(old(view[..]), offset, LE16(value))
  {
    var bs := LE16(value);
    view[offset] := bs[0];
    view[offset + 1] := bs[1];
  }

  /** `setInt16`: a negative sample is written in two's complement. */
  method SetInt16(view: array<byte>, offset: nat, value: int16)
    requires offset + 2 <= view.Length
    modifies view
    ensures view[..] == Overwrite(old(view[..]), offset, LE16(value as int))
  {
    SetUint16(view, offset, value as int);
  }

  method SetUint32(view: array<byte>, offset: nat, value: int)
    requires offset + 4 <= view.Length
    modifies view
    ensures view[..] == Overwrite(old(view[..]), offset, LE32(value))
  {
    var bs := LE32(value);
    view[offset] := bs[0];
    view[offset + 1] := bs[1];
    view[offset + 2] := bs[2];
    view[offset + 3] := bs[3];
  }

  /** `writeString(dataView, offset, string)`: one byte per character at
      consecutive offsets. */
  method WriteString(view: array<byte>, offset: nat, s: string)
    requires offset + |s| <= view.Length
    modifies view
    ensures view[..] == Overwrite(old(view[..]), offset, Latin1(s))
  {
    ghost var before := view[..];
    for i := 0 to |s|
      invariant view[..] == Overwrite(before, offset, Latin1(s[..i]))
    {
      assert Latin1(s[..i + 1]) == Latin1(s[..i]) + [CharByte(s[i])];
      OverwriteAdjacent(before, offset, Latin1(s[..i]), [CharByte(s[i])]);
      view[offset + i] := CharByte(s[i]);
      assert view[..] == Overwrite(Overwrite(before, offset, Latin1(s[..i])), offset + i, [CharByte(s[i])]);
    }
    assert s[..|s|] == s;
  }

  /** Writes bytes 0-11 of the header. */
  method WriteRiffChunk(view: array<byte>, dataLength: nat)
    requires 12 <= view.Length
    modifies view
    ensures view[..] == Overwrite(old(view[..]), 0, RiffChunk(dataLength))
  {
    ghost var z := view[..];
    WriteString(view, 0, "RIFF");
    ghost var w := Latin1("RIFF");
    SetUint32(view, 4, 36 + dataLength);
    OverwriteAdjacent(z, 0, w, LE32(36 + dataLength)); w := w + LE32(36 + dataLength);
    WriteString(view, 8, "WAVE");
    OverwriteAdjacent(z, 0, w, Latin1("WAVE"));
  }

  /** Writes bytes 12-35 of the header. */
  method WriteFormatChunk(view: array<byte>, numChannels: nat, sampleRate: nat)
    requires 36 <= view.Length
    modifies view
    ensures view[..] == Overwrite(old(view[..]), 12, FormatChunk(numChannels, sampleRate))
  {
    ghost var z := view[..];
    var blockAlign := numChannels * 2;
    WriteString(view, 12, "fmt ");
    ghost var w := Latin1("fmt ");
    SetUint32(view, 16, 16);
    OverwriteAdjacent(z, 12, w, LE32(16)); w := w + LE32(16);
    SetUint16(view, 20, 1);
    OverwriteAdjacent(z, 12, w, LE16(1)); w := w + LE16(1);
    SetUint16(view, 22, numChannels);
    OverwriteAdjacent(z, 12, w, LE16(numChannels)); w := w + LE16(numChannels);
    SetUint32(view, 24, sampleRate);
    OverwriteAdjacent(z, 12, w, LE32(sampleRate)); w := w + LE32(sampleRate);
    SetUint32(view, 28, sampleRate * blockAlign);
    OverwriteAdjacent(z, 12, w, LE32(sampleRate * blockAlign)); w := w + LE32(sampleRate * blockAlign);
    SetUint16(view, 32, blockAlign);
    OverwriteAdjacent(z, 12, w, LE16(blockAlign)); w := w + LE16(blockAlign);
    SetUint16(view, 34, 16);
    OverwriteAdjacent(z, 12, w, LE16(16));
  }

  /** Writes bytes 36-43 of the header. */
  method WriteDataChunkHead(view: array<byte>, dataLength: nat)
    requires 44 <= view.Length
    modifies view
    ensures view[..] == Overwrite(old(view[..]), 36, DataChunkHead(dataLength))
  {
    ghost var z := view[..];
    WriteString(view, 36, "data");
    SetUint32(view, 40, dataLength);
    OverwriteAdjacent(z, 36, Latin1("data"), LE32(dataLength));
  }

  /** Writes the header fields in the order `audioBufferToWav` does. */
  method WriteHeader(view: array<byte>, numChannels: nat, sampleRate: nat, dataLength: nat)
    requires 44 <= view.Length
    modifies view
    ensures view[..] == Overwrite(old(view[..]), 0, Header(numChannels, sampleRate, dataLength))
  {
    ghost var z := view[..];
    WriteRiffChunk(view, dataLength);
    WriteFormatChunk(view, numChannels, sampleRate);
    OverwriteAdjacent(z, 0, RiffChunk(dataLength), FormatChunk(numChannels, sampleRate));
    WriteDataChunkHead(view, dataLength);
    OverwriteAdjacent(z, 0, RiffChunk(dataLength) + FormatChunk(numChannels, sampleRate), DataChunkHead(dataLength));
  }

  /** One more channel of frame `i` extends what has been written by its sample. */
  lemma FramePrefixStep(b: AudioBuffer, i: nat, c: nat, w: seq<byte>)
    requires WellFormed(b) && i < b.length && c < b.numberOfChannels
    ensures w + FramePrefix(b, i, c + 1) == (w + FramePrefix(b, i, c)) + LE16(b.channelData[c][i] as int)
  {
  }

  /** `setInt16` at the end of what has been written over `z` extends it by the sample. */
  method WriteSample(view: array<byte>, offset: nat, sample: int16, ghost z: seq<byte>, ghost done: seq<byte>)
    requires offset == |done| && |done| + 2 <= |z|
    requires view[..] == Overwrite(z, 0, done)
    modifies view
    ensures view[..] == Overwrite(z, 0, done + LE16(sample as int))
  {
    OverwriteAdjacent(z, 0, done, LE16(sample as int));
    SetInt16(view, offset, sample);
  }

  /** One step of the inner loop: channel `c` of frame `i`, at `offset`. */
  method WriteChannel(view: array<byte>, b: AudioBuffer, i: nat, c: nat, offset: nat, ghost z: seq<byte>, ghost w: seq<byte>)
    requires WellFormed(b) && i < b.length && c < b.numberOfChannels
    requires offset == |w| + 2 * c && |w| + 2 * b.numberOfChannels <= |z|
    requires view[..] == Overwrite(z, 0, w + FramePrefix(b, i, c))
    modifies view
    ensures view[..] == Overwrite(z, 0, w + FramePrefix(b, i, c + 1))
  {
    var sample := b.channelData[c][i];
    WriteSample(view, offset, sample, z, w + FramePrefix(b, i, c));
    FramePrefixStep(b, i, c, w);
  }

  /** The inner loop of `audioBufferToWav`: frame `i`, channel by channel, from
      `offset` on, where `w` has already been written over `z`. */
  method WriteFrame(view: array<byte>, b: AudioBuffer, i: nat, offset: nat, ghost z: seq<byte>, ghost w: seq<byte>)
    returns (next: nat)
    requires WellFormed(b) && i < b.length
    requires offset == |w| && |w| + 2 * b.numberOfChannels <= |z|
    requires view[..] == Overwrite(z, 0, w)
    modifies view
    ensures next == offset + 2 * b.numberOfChannels
    ensures view[..] == Overwrite(z, 0, w + FramePrefix(b, i, b.numberOfChannels))
  {
    next := offset;
    assert w + FramePrefix(b, i, 0) == w;
    for channel := 0 to b.numberOfChannels
      invariant next == offset + 2 * channel
      invariant view[..] == Overwrite(z, 0, w + FramePrefix(b, i, channel))
    {
      WriteChannel(view, b, i, channel, next, z, w);
      next := next + 2;
    }
  }

  /** One more frame extends what has been written by that frame's samples. */
  lemma FramesStep(b: AudioBuffer, i: nat, h: seq<byte>)
    requires WellFormed(b) && i < b.length
    ensures h + Frames(b, i + 1) == (h + Frames(b, i)) + FramePrefix(b, i, b.numberOfChannels)
    ensures |Frames(b, i + 1)| == |Frames(b, i)| + 2 * b.numberOfChannels
  {
  }

  /** The outer loop of `audioBufferToWav`: every frame, after the header `h`. */
  method WriteFrames(view: array<byte>, b: AudioBuffer, ghost z: seq<byte>, ghost h: seq<byte>)
    requires WellFormed(b)
    requires |h| == 44 && |z| == view.Length == |h| + |Frames(b, b.length)|
    requires view[..] == Overwrite(z, 0, h)
    modifies view
    ensures view[..] == Overwrite(z, 0, h + Frames(b, b.length))
  {
    var offset := 44;
    assert h + Frames(b, 0) == h;
    for i := 0 to b.length
      invariant offset == |h| + |Frames(b, i)| <= |z|
      invariant view[..] == Overwrite(z, 0, h + Frames(b, i))
    {
      FramesMono(b, i + 1, b.length);
      FramesStep(b, i, h);
      offset := WriteFrame(view, b, i, offset, z, h + Frames(b, i));
    }
  }

  /** `audioBufferToWav(buffer)`: a zero-filled buffer of `44 + dataLength` bytes,
      the header, then every sample little-endian, frame by frame. */
  method AudioBufferToWav(b: AudioBuffer) returns (view: array<byte>)
    requires WellFormed(b)
    ensures fresh(view)
    ensures view[..] == Wav(b)
  {
    var numChannels := b.numberOfChannels;
    var dataLength := b.length * numChannels * 2;
    view := new byte[44 + dataLength](_ => 0);
    ghost var z := view[..];
    WriteHeader(view, numChannels, b.sampleRate, dataLength);
    ghost var h := Header(numChannels, b.sampleRate, dataLength);
    WriteFrames(view, b, z, h);
    OverwriteWhole(z, h + Frames(b, b.length));
  }

  // ---------------------------------------------------------------------------
  // Conversion with fallbacks

  datatype Converted = Converted(blob: Blob, extension: string)

  /** How decoding the blob ended: decoded audio, a decoding error, a read error,
      or an error while setting up the audio context. */
  datatype Decoding = Decoded(buffer: AudioBuffer) | DecodeFailed | ReadFailed | SetupFailed

  /** `convertToWav(audioBlob)`: a WAV blob passes through; without an
      `AudioContext`, or when any step fails, the original blob is sent as
      `ogg`. */
  method ConvertToWav(blob: Blob, conversionSupported: bool, decoding: Decoding) returns (r: Converted)
    requires decoding.Decoded? ==> WellFormed(decoding.buffer)
    ensures blob.mimeType == "audio/wav" ==> r == Converted(blob, "wav")
    ensures blob.mimeType != "audio/wav" && (!conversionSupported || !decoding.Decoded?) ==> r == Converted(blob, "ogg")
    ensures blob.mimeType != "audio/wav" && conversionSupported && decoding.Decoded? ==>
      r == Converted(Blob("audio/wav", Wav(decoding.buffer)), "wav")
    ensures r.extension == "wav" <==> r.blob.mimeType == "audio/wav"
  {
    if blob.mimeType == "audio/wav" {
      return Converted(blob, "wav");
    }
    if !conversionSupported {
      return Converted(blob, "ogg");
    }
    match decoding {
      case Decoded(buffer) =>
        var view := AudioBufferToWav(buffer);
        r := Converted(Blob("audio/wav", view[..]), "wav");
      case _ =>
        r := Converted(blob, "ogg");
    }
  }

  // ---------------------------------------------------------------------------
  // The transcriber

  /** `config.apiUrl || "http://localhost:9000"`. */
  function ApiUrl(configApiUrl: string): string {
    Or(configApiUrl, "http://localhost:9000")
  }

  /** A configured URL is used as it is; without one the server is local. */
  lemma ApiUrlDefault(configApiUrl: string)
    ensures configApiUrl != "" ==> ApiUrl(configApiUrl) == configApiUrl
    ensures configApiUrl == "" ==> ApiUrl(configApiUrl) == "http://localhost:9000"
  {
  }

  datatype HealthReply = HealthOk | HealthNotOk | HealthThrew(message: string)

  /** `verifyWhisperServer()`. */
  function VerifyServer(reply: HealthReply): (r: Verdict)
    ensures r.Valid? <==> reply.HealthOk?
    ensures reply.HealthNotOk? ==> r == Invalid("Local Whisper server is not responding properly")
    ensures reply.HealthThrew? ==> r == Invalid("Cannot connect to Local Whisper server: " + reply.message)
  {
    match reply
    case HealthOk => Valid
    case HealthNotOk => Invalid("Local Whisper server is not responding properly")
    case HealthThrew(m) => Invalid("Cannot connect to Local Whisper server: " + m)
  }

  /** The inference request: URL, file name, file type and optional language. */
  datatype InferenceRequest = InferenceRequest(url: string, fileName: string, fileType: string, language: Option<string>)

  const ErrorPrefix: string := "Error with Local Whisper transcription: "

  /** `transcribeWithWhisper(audioBlob, options)`, given the settled conversion and
      request. */
  function Transcribe(apiUrl: string, converted: Converted, language: string, reply: Reply<string>)
    : (r: Attempt<InferenceRequest, string>)
    ensures r.sent == Some(InferenceRequest(apiUrl + "/inference", "audio." + converted.extension,
                                            converted.blob.mimeType, LanguageField(language)))
    ensures reply.Answered? <==> r.result.Ok?
    ensures reply.Answered? ==> r.result.value == reply.value
    ensures reply.Refused? ==> r.result == Err(ErrorPrefix + "Local Whisper transcription failed: " + reply.text)
    ensures reply.Failed? ==> r.result == Err(ErrorPrefix + reply.message)
  {
    var request := InferenceRequest(apiUrl + "/inference", "audio." + converted.extension,
                                    converted.blob.mimeType, LanguageField(language));
    match reply
    case Answered(text) => Attempt(Some(request), Ok(text))
    case Refused(text, _) => Attempt(Some(request), Err(ErrorPrefix + ("Local Whisper transcription failed: " + text)))
    case Failed(m) => Attempt(Some(request), Err(ErrorPrefix + m))
  }

  /** Every failure message starts with the transcriber's prefix. */
  lemma TranscribeErrorsPrefixed(apiUrl: string, converted: Converted, language: string, reply: Reply<string>)
    requires Transcribe(apiUrl, converted, language, reply).result.Err?
    ensures StartsWith(Transcribe(apiUrl, converted, language, reply).result.message, ErrorPrefix)
  {
    var m := Transcribe(apiUrl, converted, language, reply).result.message;
    var rest := if reply.Refused? then "Local Whisper transcription failed: " + reply.text else reply.message;
    assert m == ErrorPrefix + rest;
    assert m[..|ErrorPrefix|] == ErrorPrefix;
  }
}
