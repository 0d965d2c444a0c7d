/** Audio utilities: decoding the raw 16-bit little-endian mono PCM that the
    speech service returns, and the microphone recorder that buffers chunks
    and hands back a base64 payload with its MIME type. */
module AudioUtils {
  import opened Types

  type Byte = b: int | 0 <= b < 256

  /** Sample rate used for synthesized speech. */
  const SpeechSampleRate: int := 24000

  /** The signed 16-bit value whose low byte is `lo` and high byte is `hi`
      (little-endian, two's complement). */
  function Int16Le(lo: Byte, hi: Byte): (v: int)
    ensures -32768 <= v < 32768
    ensures (v + 65536) % 65536 == lo + 256 * hi
  {
    var u := lo + 256 * hi;
    if u >= 32768 then u - 65536 else u
  }

  /** The two little-endian bytes of a signed 16-bit value. */
  function LeBytes(v: int): (b: (Byte, Byte))
    requires -32768 <= v < 32768
  {
    var u := if v < 0 then v + 65536 else v;
    (u % 256, u / 256)
  }

  /** Reading back the bytes of a value gives the value; reading the bytes
      as a value and writing it gives the bytes. */
  lemma Int16LeRoundTrip(v: int, lo: Byte, hi: Byte)
    requires -32768 <= v < 32768
    ensures Int16Le(LeBytes(v).0, LeBytes(v).1) == v
    ensures LeBytes(Int16Le(lo, hi)) == (lo, hi)
  {
  }

  /** Storing a character code into a Uint8Array keeps its low eight bits. */
  function ByteOfChar(c: char): Byte
  {
    (c as int) % 256
  }

  /** The bytes a binary string (one character per byte) stands for. */
  function BytesOf(s: string): seq<Byte>
  {
    seq(|s|, i requires 0 <= i < |s| => ByteOfChar(s[i]))
  }

  /** The samples of an even-length byte sequence, each 16-bit value scaled
      by 1/32768. */
  function PcmSamples(bytes: seq<Byte>): (s: seq<real>)
    requires |bytes| % 2 == 0
    ensures |s| == |bytes| / 2
  {
    seq(|bytes| / 2, i requires 0 <= i < |bytes| / 2 => Int16Le(bytes[2 * i], bytes[2 * i + 1]) as real / 32768.0)
  }

  /** The little-endian encoding of a list of 16-bit values. */
  function EncodePcm(vs: seq<int>): (bytes: seq<Byte>)
    requires forall i :: 0 <= i < |vs| ==> -32768 <= vs[i] < 32768
    ensures |bytes| == 2 * |vs|
  {
    if vs == [] then []
    else [LeBytes(vs[0]).0, LeBytes(vs[0]).1] + EncodePcm(vs[1..])
  }

  lemma {:induction false} EncodePcmAt(vs: seq<int>, i: nat)
    requires forall j :: 0 <= j < |vs| ==> -32768 <= vs[j] < 32768
    requires i < |vs|
    ensures EncodePcm(vs)[2 * i] == LeBytes(vs[i]).0
    ensures EncodePcm(vs)[2 * i + 1] == LeBytes(vs[i]).1
  {
    if i > 0 {
      EncodePcmAt(vs[1..], i - 1);
      assert EncodePcm(vs)[2 * i] == EncodePcm(vs[1..])[2 * (i - 1)];
      assert EncodePcm(vs)[2 * i + 1] == EncodePcm(vs[1..])[2 * (i - 1) + 1];
    }
  }

  /** Decoding loses no samples: the PCM encoding of any list of 16-bit
      values decodes to the same number of samples, each the value / 32768. */
  lemma PcmRoundTrip(vs: seq<int>)
    requires forall i :: 0 <= i < |vs| ==> -32768 <= vs[i] < 32768
    ensures |PcmSamples(EncodePcm(vs))| == |vs|
    ensures forall i :: 0 <= i < |vs| ==> PcmSamples(EncodePcm(vs))[i] == vs[i] as real / 32768.0
  {
    forall i | 0 <= i < |vs|
      ensures PcmSamples(EncodePcm(vs))[i] == vs[i] as real / 32768.0
    {
      EncodePcmAt(vs, i);
      Int16LeRoundTrip(vs[i], 0, 0);
    }
  }

  /** A decoded mono buffer: channel count, sample rate and the samples of
      channel 0; its length is the number of samples. */
  datatype AudioBuffer = AudioBuffer(numberOfChannels: nat, sampleRate: int, channelData: seq<real>)

  /** Thrown by `new Int16Array(buffer)` when the byte length is odd. */
  const RangeErrorReason: string := "RangeError"
  /** Thrown by `createBuffer` for a buffer of zero frames. */
  const NotSupportedReason: string := "NotSupportedError"

  /** What decoding a binary string yields: an odd byte count cannot be
      viewed as 16-bit values, an empty buffer cannot be created, and
      otherwise each pair of bytes becomes one sample. */
  function Decoded(binary: string, sampleRate: int): Settled<AudioBuffer>
  {
    if |binary| % 2 != 0 then Rejected(RangeErrorReason)
    else if |binary| == 0 then Rejected(NotSupportedReason)
    else Resolved(AudioBuffer(1, sampleRate, PcmSamples(BytesOf(binary))))
  }

  /** Decoding rejects exactly on an odd or empty input; otherwise it yields
      one mono frame per byte pair, sample i being the signed value of bytes
      2i (low) and 2i+1 (high) over 32768, which lies in [-1, 1). */
  lemma DecodedMeaning(binary: string, sampleRate: int)
    ensures Decoded(binary, sampleRate).Resolved? <==> |binary| % 2 == 0 && |binary| > 0
    ensures Decoded(binary, sampleRate).Pending? == false
    ensures Decoded(binary, sampleRate).Resolved? ==>
      var b := Decoded(binary, sampleRate).value;
      && b.numberOfChannels == 1 && b.sampleRate == sampleRate
      && |b.channelData| == |binary| / 2
      && (forall i :: 0 <= i < |b.channelData| ==>
            b.channelData[i] == Int16Le(ByteOfChar(binary[2 * i]), ByteOfChar(binary[2 * i + 1])) as real / 32768.0)
      && (forall i :: 0 <= i < |b.channelData| ==> -1.0 <= b.channelData[i] < 1.0)
  {
  }

  /** decodeAudioData: copies the characters into a byte array, views it as
      16-bit values and fills the channel data of a fresh buffer. */
  method DecodeAudioData(binaryString: string, sampleRate: int) returns (r: Settled<AudioBuffer>)
    ensures r == Decoded(binaryString, sampleRate)
  {
    var len := |binaryString|;
    var bytes := new Byte[len];
    for i := 0 to len
      invariant forall k :: 0 <= k < i ==> bytes[k] == ByteOfChar(binaryString[k])
    {
      bytes[i] := ByteOfChar(binaryString[i]);
    }
    ghost var b := bytes[..];
    assert b == BytesOf(binaryString);
    if len % 2 != 0 {
      return Rejected(RangeErrorReason);
    }
    var frameCount := len / 2;
    if frameCount == 0 {
      return Rejected(NotSupportedReason);
    }
    var channelData := new real[frameCount];
    for i := 0 to frameCount
      modifies channelData
      invariant forall k :: 0 <= k < i ==> channelData[k] == Int16Le(bytes[2 * k], bytes[2 * k + 1]) as real / 32768.0
    {
      channelData[i] := Int16Le(bytes[2 * i], bytes[2 * i + 1]) as real / 32768.0;
    }
    assert channelData[..] == PcmSamples(b);
    r := Resolved(AudioBuffer(1, sampleRate, channelData[..]));
  }

  // ---------------------------------------------------------------------
  // Recording

  /** A recorded chunk; its size is the number of its bytes. */
  datatype Blob = Blob(bytes: seq<Byte>)

  datatype RecorderPhase = Recording | Inactive

  /** A MediaRecorder as far as this code sees it: whether it is recording
      and whether the tracks of its microphone stream are still live. */
  datatype MediaRecorder = MediaRecorder(phase: RecorderPhase, tracksLive: bool)

  /** What `stop` resolves with. */
  datatype Payload = Payload(base64: Option<string>, mimeType: string)

  /** How `getUserMedia` answers. */
  datatype DeviceAccess = Granted | Denied(reason: string)

  /** How the FileReader ends: `loaded` carries the base64 text of the blob. */
  datatype ReadOutcome = Loaded(blobBase64: string) | ReadFailed(reason: string)

  const NotInitializedReason: string := "Recorder not initialized"
  const DefaultMimeType: string := "audio/webm"
  /** The type the recorder gives the blob it builds. */
  const BlobType: string := "audio/webm"

  /** All chunks joined in order: the bytes of the blob built from them. */
  function Concat(chunks: seq<Blob>): (b: seq<Byte>)
  {
    if chunks == [] then [] else Concat(chunks[..|chunks| - 1]) + chunks[|chunks| - 1].bytes
  }

  /** `s.split(sep)` for a one-character separator. */
  function Split(s: string, sep: char): (parts: seq<string>)
    ensures |parts| >= 1
    ensures forall k :: 0 <= k < |parts| ==> sep !in parts[k]
  {
    if s == [] then [""]
    else
      var rest := Split(s[1..], sep);
      if s[0] == sep then [""] + rest
      else [[s[0]] + rest[0]] + rest[1..]
  }

  /** Joining the parts with the separator gives back the string. */
  function Join(parts: seq<string>, sep: char): string
    requires |parts| >= 1
  {
    if |parts| == 1 then parts[0] else parts[0] + [sep] + Join(parts[1..], sep)
  }

  lemma {:induction false} SplitJoin(s: string, sep: char)
    ensures Join(Split(s, sep), sep) == s
  {
    if s != [] {
      SplitJoin(s[1..], sep);
      var rest := Split(s[1..], sep);
      if s[0] != sep {
        if |rest| > 1 {
          assert ([[s[0]] + rest[0]] + rest[1..])[1..] == rest[1..];
        }
      }
    }
  }

  /** A string without the separator is one part. */
  lemma {:induction false} SplitWithoutSep(s: string, sep: char)
    requires sep !in s
    ensures Split(s, sep) == [s]
  {
    if s != [] {
      SplitWithoutSep(s[1..], sep);
      assert [s[0]] + s[1..] == s;
    }
  }

  /** There is more than one part exactly when the separator occurs. */
  lemma {:induction false} SplitHasManyParts(s: string, sep: char)
    ensures |Split(s, sep)| > 1 <==> sep in s
  {
    if s != [] {
      SplitHasManyParts(s[1..], sep);
      assert sep in s <==> s[0] == sep || sep in s[1..];
    }
  }

  /** A separator after a separator-free prefix ends the first part. */
  lemma {:induction false} SplitAfterPrefix(a: string, sep: char, b: string)
    requires sep !in a
    ensures Split(a + [sep] + b, sep) == [a] + Split(b, sep)
  {
    if a == [] {
      assert a + [sep] + b == [sep] + b;
      assert ([sep] + b)[1..] == b;
    } else {
      assert (a + [sep] + b)[1..] == a[1..] + [sep] + b;
      SplitAfterPrefix(a[1..], sep, b);
      assert [a[0]] + a[1..] == a;
    }
  }

  /** The data URL that FileReader.readAsDataURL produces. */
  function DataUrl(mimeType: string, base64: string): string
  {
    "data:" + mimeType + ";base64," + base64
  }

  /** `dataUrl.split(',')[1]`: the second comma-separated field, absent when
      there is no comma. */
  function PayloadOfDataUrl(dataUrl: string): (r: Option<string>)
    ensures r.Some? <==> ',' in dataUrl
  {
    var parts := Split(dataUrl, ',');
    SplitHasManyParts(dataUrl, ',');
    if |parts| > 1 then Some(parts[1]) else None
  }

  /** Splitting the data URL at its commas recovers the base64 text exactly,
      as base64 has no comma. */
  lemma DataUrlRoundTrip(mimeType: string, base64: string)
    requires ',' !in mimeType && ',' !in base64
    ensures PayloadOfDataUrl(DataUrl(mimeType, base64)) == Some(base64)
  {
    var prefix := "data:" + mimeType + ";base64";
    assert DataUrl(mimeType, base64) == prefix + [','] + base64;
    assert ',' !in prefix by {
      assert forall k :: 0 <= k < |prefix| ==> prefix[k] in "data:;base64" || prefix[k] in mimeType;
    }
    SplitAfterPrefix(prefix, ',', base64);
    SplitWithoutSep(base64, ',');
  }

  /** Records audio from the microphone and returns it as base64 text. */
  class AudioRecorder {
    var mediaRecorder: Option<MediaRecorder>
    var chunks: seq<Blob>

    constructor ()
      ensures mediaRecorder == None && chunks == []
    {
      mediaRecorder := None;
      chunks := [];
    }

    /** start: once microphone access is granted, a new recording begins with
        an empty chunk list; a refusal rejects and changes nothing. */
    method Start(access: DeviceAccess) returns (p: Settled<()>)
      modifies this
      ensures p == (if access.Granted? then Resolved(()) else Rejected(access.reason))
      ensures access.Granted? ==> mediaRecorder == Some(MediaRecorder(Recording, true)) && chunks == []
      ensures access.Denied? ==> mediaRecorder == old(mediaRecorder) && chunks == old(chunks)
    {
      if access.Denied? {
        return Rejected(access.reason);
      }
      mediaRecorder := Some(MediaRecorder(Recording, true));
      chunks := [];
      p := Resolved(());
    }

    /** ondataavailable: a non-empty chunk is appended, an empty one dropped. */
    method OnDataAvailable(data: Blob)
      requires mediaRecorder.Some?
      modifies this
      ensures chunks == if |data.bytes| > 0 then old(chunks) + [data] else old(chunks)
      ensures mediaRecorder == old(mediaRecorder)
    {
      if |data.bytes| > 0 {
        chunks := chunks + [data];
      }
    }

    /** stop: without a recorder it rejects; on a recorder that is no longer
        recording no stop event fires, so the promise never settles.
        Otherwise `mediaRecorder.stop()` first delivers the recording's last
        chunk `final` to the data handler (without a timeslice this is the
        whole recording), then the stop event joins the chunks into one
        blob, releases the tracks and settles with the reader's outcome.
        The blob built is returned alongside. */
    method Stop(final: Blob, read: ReadOutcome) returns (p: Settled<Payload>, blob: Blob)
      modifies this
      ensures old(mediaRecorder).None? ==>
        p == Rejected(NotInitializedReason) && mediaRecorder == old(mediaRecorder) && chunks == old(chunks)
      ensures old(mediaRecorder).Some? && old(mediaRecorder).value.phase == Inactive ==>
        p == Pending && mediaRecorder == old(mediaRecorder) && chunks == old(chunks)
      ensures old(mediaRecorder).Some? && old(mediaRecorder).value.phase == Recording ==>
        && mediaRecorder == Some(MediaRecorder(Inactive, false))
        && chunks == (if |final.bytes| > 0 then old(chunks) + [final] else old(chunks))
        && blob.bytes == Concat(old(chunks)) + final.bytes
        && p == match read
                case Loaded(b64) => Resolved(Payload(PayloadOfDataUrl(DataUrl(BlobType, b64)), BlobType))
                case ReadFailed(reason) => Rejected(reason)
    {
      blob := Blob([]);
      if mediaRecorder.None? {
        return Rejected(NotInitializedReason), blob;
      }
      if mediaRecorder.value.phase == Inactive {
        return Pending, blob;
      }
      OnDataAvailable(final);
      // onstop
      ConcatAppend(old(chunks), final);
      blob := Blob(Concat(chunks));
      match read {
        case Loaded(b64) =>
          var base64String := PayloadOfDataUrl(DataUrl(BlobType, b64));
          p := Resolved(Payload(base64String, if BlobType == "" then DefaultMimeType else BlobType));
        case ReadFailed(reason) =>
          p := Rejected(reason);
      }
      mediaRecorder := Some(MediaRecorder(Inactive, false));
    }
  }

  /** A whole recording: start with access granted, the chunks delivered
      while recording, then stop with its last chunk. The blob holds every
      delivered byte in arrival order, so dropping the empty chunks loses
      nothing, and the payload is the reader's outcome on that blob. */
  method RecordSession(delivered: seq<Blob>, final: Blob, read: ReadOutcome)
    returns (p: Settled<Payload>, blob: Blob)
    ensures blob.bytes == Concat(delivered + [final])
    ensures p.Resolved? <==> read.Loaded?
    ensures read.Loaded? ==> p.value == Payload(PayloadOfDataUrl(DataUrl(BlobType, read.blobBase64)), BlobType)
    ensures read.Loaded? && ',' !in read.blobBase64 ==> p == Resolved(Payload(Some(read.blobBase64), "audio/webm"))
  {
    var recorder := new AudioRecorder();
    var started := recorder.Start(Granted);
    DeliverAll(recorder, delivered);
    ghost var kept := Concat(recorder.chunks);
    p, blob := recorder.Stop(final, read);
    assert blob.bytes == kept + final.bytes;
    ConcatAppend(delivered, final);
    if read.Loaded? && ',' !in read.blobBase64 {
      StopPayloadIsBlobBase64(read.blobBase64);
    }
  }

  /** The data handler receiving each chunk in turn: the kept chunks carry
      exactly the delivered bytes. */
  method DeliverAll(recorder: AudioRecorder, delivered: seq<Blob>)
    requires recorder.mediaRecorder.Some? && recorder.chunks == []
    modifies recorder
    ensures recorder.mediaRecorder == old(recorder.mediaRecorder)
    ensures Concat(recorder.chunks) == Concat(delivered)
  {
    for i := 0 to |delivered|
      invariant recorder.mediaRecorder == old(recorder.mediaRecorder)
      invariant Concat(recorder.chunks) == Concat(delivered[..i])
    {
      DeliverStep(recorder.chunks, delivered, i);
      recorder.OnDataAvailable(delivered[i]);
    }
    assert delivered[..|delivered|] == delivered;
  }

  /** One delivery keeps the kept chunks' bytes equal to the delivered
      bytes, whether the chunk is kept or dropped for being empty. */
  lemma DeliverStep(chunks: seq<Blob>, delivered: seq<Blob>, i: nat)
    requires i < |delivered|
    requires Concat(chunks) == Concat(delivered[..i])
    ensures Concat(if |delivered[i].bytes| > 0 then chunks + [delivered[i]] else chunks) == Concat(delivered[..i + 1])
  {
    ConcatAppend(chunks, delivered[i]);
    ConcatAppend(delivered[..i], delivered[i]);
    assert delivered[..i + 1] == delivered[..i] + [delivered[i]];
  }

  /** A successful stop hands back exactly the base64 text of the blob and
      the type "audio/webm". */
  lemma StopPayloadIsBlobBase64(b64: string)
    requires ',' !in b64
    ensures PayloadOfDataUrl(DataUrl(BlobType, b64)) == Some(b64)
  {
    DataUrlRoundTrip(BlobType, b64);
  }

  /** Unfolding step of `Concat` for the slice reasoning: appending a chunk
      appends its bytes. */
  lemma {:induction false} ConcatAppend(chunks: seq<Blob>, c: Blob)
    ensures Concat(chunks + [c]) == Concat(chunks) + c.bytes
    ensures |Concat(chunks + [c])| == |Concat(chunks)| + |c.bytes|
  {
    assert (chunks + [c])[..|chunks + [c]| - 1] == chunks;
  }
}
