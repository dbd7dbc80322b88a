/**
 * `addWavHeader` (server.js): the canonical 44-byte RIFF/WAVE header for
 * 16-bit mono PCM at 16 kHz, followed by the PCM bytes unchanged, and a
 * reader for such files.
 */
module Wav {
  import opened Common
  import opened Bytes

  const NumChannels: nat := 1
  const SampleRate: nat := 16000
  const BitsPerSample: nat := 16
  const ByteRate: nat := 32000
  const BlockAlign: nat := 2
  const HeaderSize: nat := 44

  /** The ASCII chunk tags `RIFF`, `WAVE`, `fmt ` and `data`. */
  const RIFF: seq<byte> := [0x52, 0x49, 0x46, 0x46]
  const WAVE: seq<byte> := [0x57, 0x41, 0x56, 0x45]
  const FMT: seq<byte> := [0x66, 0x6d, 0x74, 0x20]
  const DATA: seq<byte> := [0x64, 0x61, 0x74, 0x61]

  /** The `fmt ` chunk's fields. */
  datatype Format = Format(audioFormat: nat, numChannels: nat, sampleRate: nat,
                           byteRate: nat, blockAlign: nat, bitsPerSample: nat)

  const PcmFormat := Format(1, NumChannels, SampleRate, ByteRate, BlockAlign, BitsPerSample)

  /** A parsed file: its format and the bytes of its `data` chunk. */
  datatype WavFile = WavFile(format: Format, data: seq<byte>)

  /** `writeUInt32LE` of the RIFF chunk size throws a RangeError. */
  datatype EncodeError = RangeError

  /** The 24-byte `fmt ` sub-chunk: PCM, mono, 16 kHz, 16 bits per sample. */
  function FmtChunk(): (c: seq<byte>)
    ensures |c| == 24
  {
    FMT + UInt32LE(16) + UInt16LE(1) + UInt16LE(NumChannels)
    + UInt32LE(SampleRate) + UInt32LE(ByteRate) + UInt16LE(BlockAlign) + UInt16LE(BitsPerSample)
  }

  /** The header `addWavHeader` writes for `dataLen` bytes of PCM, field after field. */
  function WavHeader(dataLen: nat): (h: seq<byte>)
    requires 36 + dataLen < TWO_32
    ensures |h| == HeaderSize
  {
    RIFF + UInt32LE(36 + dataLen) + WAVE + FmtChunk() + DATA + UInt32LE(dataLen)
  }

  /**
   * A reader for the canonical layout: tags at 0, 8, 12 and 36, a 16-byte
   * `fmt ` chunk, and sizes that agree with the number of bytes present.
   */
  function ParseWav(b: seq<byte>): Option<WavFile>
  {
    if |b| < HeaderSize then None
    else if b[0..4] != RIFF || b[8..12] != WAVE || b[12..16] != FMT
            || b[36..40] != DATA then None
    else if ReadUInt32LE(b, 16) != 16 then None
    else if ReadUInt32LE(b, 4) != 36 + (|b| - HeaderSize) || ReadUInt32LE(b, 40) != |b| - HeaderSize then None
    else
      Some(WavFile(Format(ReadUInt16LE(b, 20), ReadUInt16LE(b, 22), ReadUInt32LE(b, 24),
                          ReadUInt32LE(b, 28), ReadUInt16LE(b, 32), ReadUInt16LE(b, 34)),
                   b[HeaderSize..]))
  }

  /**
   * `addWavHeader(pcmData)`: allocate a zeroed 44-byte buffer, write the
   * fields one by one, and concatenate the PCM. The ChunkSize write throws
   * when `36 + |pcm|` does not fit in 32 bits.
   */
  method AddWavHeader(pcm: seq<byte>) returns (r: Result<seq<byte>, EncodeError>)
    ensures r.Ok? <==> 36 + |pcm| < TWO_32
    ensures r.Ok? ==> r.value == WavHeader(|pcm|) + pcm
  {
    var header := new byte[HeaderSize](_ => 0);
    ghost var done: seq<byte> := [];
    assert header[..] == done + Zeros(HeaderSize);
    done := WriteField(header, 0, RIFF, done);
    if 36 + |pcm| >= TWO_32 {
      return Err(RangeError);
    }
    done := WriteField(header, 4, UInt32LE(36 + |pcm|), done);
    done := WriteField(header, 8, WAVE, done);
    ghost var riff := done;
    assert riff == RIFF + UInt32LE(36 + |pcm|) + WAVE;
    done := WriteFmtChunk(header, done);
    assert done == riff + FmtChunk();
    done := WriteField(header, 36, DATA, done);
    done := WriteField(header, 40, UInt32LE(|pcm|), done);
    assert done == riff + FmtChunk() + DATA + UInt32LE(|pcm|);
    assert header[..] == done;
    return Ok(header[..] + pcm);
  }

  /** The writes of server.js:244-251, at offsets 12 to 35 of the header. */
  method WriteFmtChunk(header: array<byte>, ghost done: seq<byte>) returns (ghost done': seq<byte>)
    requires header.Length == HeaderSize && |done| == 12
    requires header[..] == done + Zeros(HeaderSize - 12)
    modifies header
    ensures done' == done + FmtChunk()
    ensures header[..] == done' + Zeros(HeaderSize - 36)
  {
    done' := WriteFmtFormat(header, done);
    done' := WriteFmtRates(header, done');
  }

  /** Offsets 12 to 23: the chunk tag, its size 16, the audio format and the channel count. */
  method WriteFmtFormat(header: array<byte>, ghost done: seq<byte>) returns (ghost done': seq<byte>)
    requires header.Length == HeaderSize && |done| == 12
    requires header[..] == done + Zeros(HeaderSize - 12)
    modifies header
    ensures done' == done + (FMT + UInt32LE(16) + UInt16LE(1) + UInt16LE(NumChannels))
    ensures header[..] == done' + Zeros(HeaderSize - 24)
  {
    done' := WriteField(header, 12, FMT, done);
    done' := WriteField(header, 16, UInt32LE(16), done');
    done' := WriteField(header, 20, UInt16LE(1), done');
    done' := WriteField(header, 22, UInt16LE(NumChannels), done');
  }

  /** Offsets 24 to 35: sample rate, byte rate, block align and bits per sample. */
  method WriteFmtRates(header: array<byte>, ghost done: seq<byte>) returns (ghost done': seq<byte>)
    requires header.Length == HeaderSize && |done| == 24
    requires header[..] == done + Zeros(HeaderSize - 24)
    modifies header
    ensures done' == done + (UInt32LE(SampleRate) + UInt32LE(ByteRate) + UInt16LE(BlockAlign) + UInt16LE(BitsPerSample))
    ensures header[..] == done' + Zeros(HeaderSize - 36)
  {
    done' := WriteField(header, 24, UInt32LE(SampleRate), done);
    done' := WriteField(header, 28, UInt32LE(ByteRate), done');
    done' := WriteField(header, 32, UInt16LE(BlockAlign), done');
    done' := WriteField(header, 34, UInt16LE(BitsPerSample), done');
  }

  /**
   * Every field of the header has the value the source writes: the tags,
   * ChunkSize 36 + |pcm|, a 16-byte PCM `fmt ` chunk (format 1, mono,
   * 16000 Hz, 32000 bytes/s, block align 2, 16 bits) and Subchunk2Size |pcm|;
   * the PCM follows unchanged.
   */
  lemma WavHeaderFields(pcm: seq<byte>)
    requires 36 + |pcm| < TWO_32
    ensures var w := WavHeader(|pcm|) + pcm;
      && |w| == 44 + |pcm| && w[44..] == pcm
      && w[0..4] == RIFF && ReadUInt32LE(w, 4) == 36 + |pcm|
      && w[8..12] == WAVE && w[12..16] == FMT
      && ReadUInt32LE(w, 16) == 16 && ReadUInt16LE(w, 20) == 1 && ReadUInt16LE(w, 22) == 1
      && ReadUInt32LE(w, 24) == 16000 && ReadUInt32LE(w, 28) == 32000
      && ReadUInt16LE(w, 32) == 2 && ReadUInt16LE(w, 34) == 16
      && w[36..40] == DATA && ReadUInt32LE(w, 40) == |pcm|
  {
    var w := WavHeader(|pcm|) + pcm;
    assert w[..12] == RIFF + UInt32LE(36 + |pcm|) + WAVE;
    assert w[12..36] == FmtChunk();
    assert w[36..44] == DATA + UInt32LE(|pcm|);
    assert w[44..] == pcm;
    ReadUInt32At(w, 4, 36 + |pcm|);
    ReadUInt32At(w, 40, |pcm|);
    FmtChunkFields(w);
  }

  /** The `fmt ` chunk's fields, at their offsets within the chunk. */
  lemma FmtChunkParts()
    ensures var f := FmtChunk();
      && f[0..4] == FMT && f[4..8] == UInt32LE(16) && f[8..10] == UInt16LE(1) && f[10..12] == UInt16LE(1)
      && f[12..16] == UInt32LE(16000) && f[16..20] == UInt32LE(32000)
      && f[20..22] == UInt16LE(2) && f[22..24] == UInt16LE(16)
  {
  }

  /** Where the `fmt ` chunk sits at offset 12, its fields read as the PCM format. */
  lemma FmtChunkFields(w: seq<byte>)
    requires |w| >= 36 && w[12..36] == FmtChunk()
    ensures ReadUInt32LE(w, 16) == 16 && ReadUInt16LE(w, 20) == 1 && ReadUInt16LE(w, 22) == 1
    ensures ReadUInt32LE(w, 24) == 16000 && ReadUInt32LE(w, 28) == 32000
    ensures ReadUInt16LE(w, 32) == 2 && ReadUInt16LE(w, 34) == 16
  {
    var f := w[12..36];
    FmtChunkParts();
    ReadUInt32At(f, 4, 16);
    ReadUInt16At(f, 8, 1);
    ReadUInt16At(f, 10, 1);
    ReadUInt32At(f, 12, 16000);
    ReadUInt32At(f, 16, 32000);
    ReadUInt16At(f, 20, 2);
    ReadUInt16At(f, 22, 16);
    assert ReadUInt32LE(w, 16) == ReadUInt32LE(f, 4) && ReadUInt32LE(w, 24) == ReadUInt32LE(f, 12);
    assert ReadUInt32LE(w, 28) == ReadUInt32LE(f, 16);
  }

  /** Reading the encoded file gives back the PCM format and the PCM bytes. */
  lemma ParseAddWavHeader(pcm: seq<byte>)
    requires 36 + |pcm| < TWO_32
    ensures ParseWav(WavHeader(|pcm|) + pcm) == Some(WavFile(PcmFormat, pcm))
  {
    WavHeaderFields(pcm);
  }

  /**
   * Conversely, every file the reader accepts with the PCM format is
   * exactly the header `addWavHeader` writes followed by its data.
   */
  lemma ParsedPcmIsEncoded(b: seq<byte>)
    requires ParseWav(b).Some? && ParseWav(b).value.format == PcmFormat
    ensures 36 + |ParseWav(b).value.data| < TWO_32
    ensures b == WavHeader(|ParseWav(b).value.data|) + ParseWav(b).value.data
  {
    var n := |b| - HeaderSize;
    UInt32Canonical(b, 4);
    UInt32Canonical(b, 40);
    assert b[..12] == RIFF + UInt32LE(36 + n) + WAVE by {
      assert b[..12] == b[0..4] + b[4..8] + b[8..12];
    }
    assert b[36..44] == DATA + UInt32LE(n) by {
      assert b[36..44] == b[36..40] + b[40..44];
    }
    FmtChunkCanonical(b);
    assert b == b[..12] + b[12..36] + b[36..44] + b[44..];
  }

  /** Header bytes 12..35 that read as the PCM format are exactly the `fmt ` chunk. */
  lemma FmtChunkCanonical(b: seq<byte>)
    requires |b| >= HeaderSize && b[12..16] == FMT && ReadUInt32LE(b, 16) == 16
    requires Format(ReadUInt16LE(b, 20), ReadUInt16LE(b, 22), ReadUInt32LE(b, 24),
                    ReadUInt32LE(b, 28), ReadUInt16LE(b, 32), ReadUInt16LE(b, 34)) == PcmFormat
    ensures b[12..36] == FmtChunk()
  {
    UInt32Canonical(b, 16);
    UInt16Canonical(b, 20);
    UInt16Canonical(b, 22);
    UInt32Canonical(b, 24);
    UInt32Canonical(b, 28);
    UInt16Canonical(b, 32);
    UInt16Canonical(b, 34);
    assert b[12..36] == b[12..16] + b[16..20] + b[20..22] + b[22..24]
                      + b[24..28] + b[28..32] + b[32..34] + b[34..36];
  }
}
