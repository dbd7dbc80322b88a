/** test-vban-client.js: the header it builds and the packet it sends. */
module VbanClient {
  import opened Common
  import opened Bytes
  import opened VbanLayout
  import Server

  /** "VBAN" in ASCII. */
  const Magic: seq<byte> := [0x56, 0x42, 0x41, 0x4e]
  /** "test1" in ASCII, and the 8 bytes of 'test1\0\0\0'. */
  const TestName: seq<byte> := [0x74, 0x65, 0x73, 0x74, 0x31]
  const PaddedTestName: seq<byte> := TestName + [0, 0, 0]

  /** `createDummyAudio`'s length: 64 samples of 2 bytes. */
  const AudioBytes: nat := 64 * 2

  const TestFields := HeaderFields(Magic, 44100, 64, 1, 1, 0, PaddedTestName, 0)

  /**
   * `createVBANHeader`: a zeroed 28-byte buffer written field by field;
   * bytes 12..15 are never written.
   */
  method CreateVbanHeader() returns (header: seq<byte>)
    ensures header == EncodeHeader(TestFields)
  {
    var buf := new byte[HeaderSize](_ => 0);
    ghost var done: seq<byte> := [];
    assert buf[..] == done + Zeros(HeaderSize);
    done := WriteStreamSetup(buf, done);
    ZerosSplit(done, 4, 12);
    done := done + Zeros(4);
    done := WriteField(buf, 16, PaddedTestName, done);
    done := WriteField(buf, 24, UInt32LE(0), done);
    assert done == EncodeHeader(TestFields);
    header := buf[..];
  }

  /** The writes at offsets 0 to 11: magic, sample rate, samples per frame, channels, format, protocol. */
  method WriteStreamSetup(buf: array<byte>, ghost done: seq<byte>) returns (ghost done': seq<byte>)
    requires buf.Length == HeaderSize && done == []
    requires buf[..] == Zeros(HeaderSize)
    modifies buf
    ensures done' == Magic + UInt32LE(44100) + [64, 1, 1, 0]
    ensures buf[..] == done' + Zeros(HeaderSize - 12)
  {
    assert buf[..] == done + Zeros(HeaderSize);
    done' := WriteField(buf, 0, Magic, done);
    done' := WriteField(buf, 4, UInt32LE(44100), done');
    done' := WriteField(buf, 8, [64], done');
    done' := WriteField(buf, 9, [1], done');
    done' := WriteField(buf, 10, [1], done');
    done' := WriteField(buf, 11, [0x00], done');
  }

  /**
   * The header's bytes: `VBAN`, 44100 little-endian, 64, 1, 1, 0, four
   * zero bytes, `test1` padded with three NULs, and a zero frame counter.
   */
  lemma TestHeaderBytes()
    ensures var h := EncodeHeader(TestFields);
      && |h| == 28
      && h[0..4] == [0x56, 0x42, 0x41, 0x4e]
      && h[4..8] == [0x44, 0xac, 0x00, 0x00] && ReadUInt32LE(h, 4) == 44100
      && h[8] == 64 && h[9] == 1 && h[10] == 1 && h[11] == 0
      && h[12..16] == [0, 0, 0, 0]
      && h[16..24] == [0x74, 0x65, 0x73, 0x74, 0x31, 0, 0, 0]
      && h[24..28] == [0, 0, 0, 0]
  {
    var h := EncodeHeader(TestFields);
    assert h[4..8] == UInt32LE(44100);
    assert h[12..16] == Zeros(4);
    assert h[24..28] == UInt32LE(0);
  }

  /**
   * The packet `Buffer.concat([createVBANHeader(), createDummyAudio()])`:
   * 156 bytes ending in the audio; both receivers read back VBAN, 44100,
   * 64, 1, 1 and `test1`, and the server appends exactly the audio.
   */
  lemma TestPacket(audio: seq<byte>)
    requires |audio| == AudioBytes
    ensures var packet := EncodeHeader(TestFields) + audio;
      && |packet| == 156
      && packet[HeaderSize..] == audio
      && ReadHeader(packet) == Some(HeaderView(Magic, 44100, 64, 1, 1, TestName))
      && Server.Payload(packet) == audio
  {
    var packet := EncodeHeader(TestFields) + audio;
    assert 0 !in TestName;
    assert PaddedTestName == TestName + Zeros(3);
    ReadEncodedHeader(TestFields, TestName, audio);
  }
}
