/**
 * The reply downsampler of server.js: the decoded MP3 PCM is read as
 * little-endian int16 samples, every third sample (averaged with its
 * successor) is kept, the samples are written back as int16 and the result
 * is cut to 480000 bytes before it is streamed to the device.
 */
module ReplyAudio {
  import opened Common
  import opened Bytes

  /** `ratio`: 44.1 kHz down to about 14.7 kHz. */
  const Ratio: nat := 3
  /** `maxSize`: the largest reply streamed, in bytes. */
  const MaxSize: nat := 480000

  /** The samples `readInt16LE` finds at offsets 0, 2, 4, ... of an even-length buffer. */
  function DecodeInt16LE(pcm: seq<byte>): (s: seq<int16>)
    requires |pcm| % 2 == 0
    ensures |s| == |pcm| / 2
  {
    seq(|pcm| / 2, k requires 0 <= k < |pcm| / 2 => ReadInt16LE(pcm, 2 * k))
  }

  /** The buffer `writeInt16LE(sample, 2 * index)` fills, one sample after another. */
  function EncodeInt16LE(s: seq<int16>): (b: seq<byte>)
    ensures |b| == 2 * |s|
  {
    seq(2 * |s|, j requires 0 <= j < 2 * |s| => Int16LE(s[j / 2])[j % 2])
  }

  /** Decoding what was encoded gives the samples back. */
  lemma DecodeEncode(s: seq<int16>)
    ensures DecodeInt16LE(EncodeInt16LE(s)) == s
  {
    var e := EncodeInt16LE(s);
    assert |e| == 2 * |s|;
    forall k | 0 <= k < |s| ensures DecodeInt16LE(e)[k] == s[k] {
      DecodeEncodeAt(s, k);
    }
  }

  /** The sample read at offset `2k` of the encoding is sample `k`. */
  lemma DecodeEncodeAt(s: seq<int16>, k: nat)
    requires k < |s|
    ensures ReadInt16LE(EncodeInt16LE(s), 2 * k) == s[k]
  {
    var e := EncodeInt16LE(s);
    assert e[2 * k] == Int16LE(s[k])[0];
    assert e[2 * k + 1] == Int16LE(s[k])[1];
    assert e[2 * k..2 * k + 2] == Int16LE(s[k]);
    Int16RoundTrip(s[k]);
    assert ReadInt16LE(e, 2 * k) == ReadInt16LE(e[2 * k..2 * k + 2], 0);
  }

  /** Encoding what was decoded gives the bytes back. */
  lemma EncodeDecode(pcm: seq<byte>)
    requires |pcm| % 2 == 0
    ensures EncodeInt16LE(DecodeInt16LE(pcm)) == pcm
  {
    var s := DecodeInt16LE(pcm);
    forall j | 0 <= j < |pcm| ensures EncodeInt16LE(s)[j] == pcm[j] {
      var k := j / 2;
      Int16Canonical(pcm, 2 * k);
      assert Int16LE(s[k]) == pcm[2 * k..2 * k + 2];
    }
  }

  /**
   * `Math.round((a + b) / 2)`. The mean is a whole number or lies halfway
   * between two; JavaScript rounds halves toward positive infinity.
   */
  function RoundedMean(a: int, b: int): (r: int)
    ensures (r as real) - 0.5 <= (a + b) as real / 2.0 < (r as real) + 0.5
    ensures Min(a, b) <= r <= Max(a, b)
  {
    (a + b + 1) / 2
  }

  /** How many indices `i = 0, 3, 6, ...` satisfy `i < n - 3`. */
  function OutputCount(n: nat): nat
  {
    if n <= Ratio then 0 else (n - 1) / Ratio
  }

  /** Output sample k comes from input index 3k, and exists exactly when `3k < n - 3`. */
  lemma OutputIndex(n: nat, k: nat)
    ensures k < OutputCount(n) <==> Ratio * k < n - Ratio
  {
  }

  /**
   * The decimated samples: for every kept index `i = 3k`, the rounded mean
   * of the sample at i and the one after it (the source clamps the second
   * index to the last sample).
   */
  function Decimated(s: seq<int>): (r: seq<int>)
    ensures |r| == OutputCount(|s|)
  {
    seq(OutputCount(|s|), k requires 0 <= k < OutputCount(|s|) =>
      RoundedMean(s[Ratio * k], s[Min(Ratio * k + 1, |s| - 1)]))
  }

  /**
   * Each output sample is the rounded mean of the pair at `3k`, `3k + 1`:
   * the clamp to the last index never takes effect, and the value lies
   * between the two samples.
   */
  lemma DecimatedSample(s: seq<int>, k: nat)
    requires k < |Decimated(s)|
    ensures Ratio * k + 1 < |s| - 1
    ensures Decimated(s)[k] == RoundedMean(s[Ratio * k], s[Ratio * k + 1])
    ensures Min(s[Ratio * k], s[Ratio * k + 1]) <= Decimated(s)[k] <= Max(s[Ratio * k], s[Ratio * k + 1])
  {
    OutputIndex(|s|, k);
  }

  /** Samples in int16 range decimate to samples in int16 range, so `writeInt16LE` never throws. */
  lemma DecimatedInRange(s: seq<int16>)
    ensures forall k :: 0 <= k < |Decimated(s)| ==> -0x8000 <= Decimated(s)[k] < 0x8000
  {
    forall k | 0 <= k < |Decimated(s)| ensures -0x8000 <= Decimated(s)[k] < 0x8000 {
      DecimatedSample(s, k);
    }
  }

  /** `Decimated` with its int16 range made part of its type. */
  function Decimated16(s: seq<int16>): seq<int16>
  {
    DecimatedInRange(s);
    Decimated(s)
  }

  /** `buffer.slice(0, Math.min(buffer.length, maxSize))`. */
  function Truncated(b: seq<byte>): seq<byte>
  {
    b[..Min(|b|, MaxSize)]
  }

  /**
   * The bytes streamed for decoded PCM, or None when reading a sample
   * throws (an odd number of bytes: the last `readInt16LE` is out of range).
   */
  function ReplyAudio(pcm: seq<byte>): Option<seq<byte>>
  {
    if |pcm| % 2 == 1 then None
    else Some(Truncated(EncodeInt16LE(Decimated16(DecodeInt16LE(pcm)))))
  }

  /**
   * What the device receives: min(2 * count, 480000) bytes, whole samples
   * only, which decode to a prefix of the decimated samples; each of them
   * lies between the two input samples it was averaged from.
   */
  lemma ReplyAudioShape(pcm: seq<byte>)
    requires |pcm| % 2 == 0
    ensures var r := ReplyAudio(pcm).value;
      var s := DecodeInt16LE(pcm);
      && |r| == Min(2 * OutputCount(|pcm| / 2), MaxSize)
      && |r| % 2 == 0
      && DecodeInt16LE(r) == Decimated(s)[..|r| / 2]
      && forall k :: 0 <= k < |r| / 2 ==>
           Ratio * k + 1 < |s| && Min(s[Ratio * k], s[Ratio * k + 1]) <= DecodeInt16LE(r)[k] <= Max(s[Ratio * k], s[Ratio * k + 1])
  {
    var s := DecodeInt16LE(pcm);
    var d := Decimated16(s);
    assert d == Decimated(s) && |d| == OutputCount(|pcm| / 2);
    var n := Min(2 * |d|, MaxSize);
    var m := n / 2;
    assert n == 2 * m;
    var r := ReplyAudio(pcm).value;
    assert r == EncodeInt16LE(d)[..n];
    EncodePrefix(d, m);
    DecodeEncode(d[..m]);
    assert DecodeInt16LE(r) == d[..m];
    forall k | 0 <= k < m
      ensures Ratio * k + 1 < |s| && Min(s[Ratio * k], s[Ratio * k + 1]) <= d[k] <= Max(s[Ratio * k], s[Ratio * k + 1])
    {
      DecimatedSample(s, k);
    }
  }

  /** The first `m` samples' encoding is the first `2m` bytes of the encoding. */
  lemma EncodePrefix(d: seq<int16>, m: nat)
    requires m <= |d|
    ensures EncodeInt16LE(d)[..2 * m] == EncodeInt16LE(d[..m])
  {
  }

  /** The loop `for (i = 0; i < pcmBuffer.length; i += 2) samples.push(pcmBuffer.readInt16LE(i))`. */
  method ReadSamples(pcm: seq<byte>) returns (r: Option<seq<int16>>)
    ensures r.None? <==> |pcm| % 2 == 1
    ensures r.Some? ==> r.value == DecodeInt16LE(pcm)
  {
    var samples: seq<int16> := [];
    var i := 0;
    while i < |pcm|
      invariant 0 <= i <= |pcm| && i % 2 == 0
      invariant |samples| == i / 2
      invariant forall k :: 0 <= k < |samples| ==> samples[k] == ReadInt16LE(pcm, 2 * k)
    {
      if i + 2 > |pcm| {
        return None;
      }
      samples := samples + [ReadInt16LE(pcm, i)];
      i := i + 2;
    }
    return Some(samples);
  }

  /** The loop `for (i = 0; i < samples.length - ratio; i += ratio) adjustedSamples.push(...)`. */
  method Decimate(samples: seq<int>) returns (adjusted: seq<int>)
    ensures adjusted == Decimated(samples)
  {
    adjusted := [];
    var i := 0;
    while i < |samples| - Ratio
      invariant i == Ratio * |adjusted|
      invariant |adjusted| <= OutputCount(|samples|)
      invariant forall k :: 0 <= k < |adjusted| ==> adjusted[k] == Decimated(samples)[k]
    {
      OutputIndex(|samples|, |adjusted|);
      adjusted := adjusted + [RoundedMean(samples[i], samples[Min(i + 1, |samples| - 1)])];
      i := i + Ratio;
    }
    OutputIndex(|samples|, |adjusted|);
  }

  /** `Buffer.alloc(2 * n)` filled by `writeInt16LE(sample, index * 2)` for every sample. */
  method WriteSamples(samples: seq<int16>) returns (bytes: seq<byte>)
    ensures bytes == EncodeInt16LE(samples)
  {
    var buf := new byte[2 * |samples|](_ => 0);
    var index := 0;
    while index < |samples|
      invariant 0 <= index <= |samples|
      invariant forall j :: 0 <= j < 2 * index ==> buf[j] == EncodeInt16LE(samples)[j]
    {
      var b := Int16LE(samples[index]);
      buf[2 * index] := b[0];
      buf[2 * index + 1] := b[1];
      index := index + 1;
    }
    bytes := buf[..];
  }

  /** The whole block: read, decimate, write back, truncate. */
  method DownsampleReply(pcm: seq<byte>) returns (r: Option<seq<byte>>)
    ensures r == ReplyAudio(pcm)
  {
    var samples := ReadSamples(pcm);
    if samples.None? {
      return None;
    }
    var adjusted := Decimate(samples.value);
    DecimatedInRange(samples.value);
    var adjustedBuffer := WriteSamples(adjusted);
    return Some(adjustedBuffer[..Min(|adjustedBuffer|, MaxSize)]);
  }
}
