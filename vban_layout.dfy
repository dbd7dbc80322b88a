/**
 * The repository's own 28-byte "VBAN" datagram header, as the test client
 * writes it and the two test receivers read it: magic at 0, a 32-bit
 * little-endian sample rate at 4, single bytes at 8, 9, 10 and 11, four
 * bytes never written, an 8-byte NUL-padded stream name at 16 and a 32-bit
 * frame counter at 24. (This is not VB-Audio's published layout.)
 */
module VbanLayout {
  import opened Common
  import opened Bytes

  const HeaderSize: nat := 28

  /** The fields the writer stores. */
  datatype HeaderFields = HeaderFields(
    magic: seq<byte>, sampleRate: nat, samplesPerFrame: byte, channels: byte,
    dataFormat: byte, protocol: byte, streamName: seq<byte>, frameCounter: nat)

  predicate WellFormed(f: HeaderFields) {
    |f.magic| == 4 && f.sampleRate < TWO_32 && |f.streamName| == 8 && f.frameCounter < TWO_32
  }

  /** The 28 bytes holding `f`, bytes 12..15 left zero. */
  function EncodeHeader(f: HeaderFields): (h: seq<byte>)
    requires WellFormed(f)
    ensures |h| == HeaderSize
  {
    f.magic + UInt32LE(f.sampleRate) + [f.samplesPerFrame, f.channels, f.dataFormat, f.protocol]
    + Zeros(4) + f.streamName + UInt32LE(f.frameCounter)
  }

  /** The header as the receivers report it. */
  datatype HeaderView = HeaderView(
    magic: seq<byte>, sampleRate: nat, samplesPerFrame: nat, channels: nat,
    dataFormat: nat, streamName: seq<byte>)

  /** `msg.slice(start, end)`: Node clamps both ends to the buffer. */
  function Slice(msg: seq<byte>, start: nat, end: nat): seq<byte>
  {
    var e := Min(end, |msg|);
    msg[Min(start, e)..e]
  }

  /** `msg.readUInt8(off)`: None where Node throws a RangeError. */
  function ReadUInt8(msg: seq<byte>, off: nat): Option<nat>
  {
    if off + 1 <= |msg| then Some(msg[off] as nat) else None
  }

  /** `msg.readUInt32LE(off)`: None where Node throws a RangeError. */
  function ReadUInt32(msg: seq<byte>, off: nat): Option<nat>
  {
    if off + 4 <= |msg| then Some(ReadUInt32LE(msg, off)) else None
  }

  /** `.replace(/\0/g, '')`: every NUL removed, the other bytes kept in order. */
  function StripNul(s: seq<byte>): (r: seq<byte>)
    ensures 0 !in r
    ensures |r| <= |s|
    ensures 0 !in s ==> r == s
  {
    if s == [] then []
    else if s[0] == 0 then StripNul(s[1..])
    else [s[0]] + StripNul(s[1..])
  }

  /** Only the NULs go: every other byte is kept, as often as it occurs. */
  lemma {:induction false} StripNulKeeps(s: seq<byte>)
    ensures multiset(StripNul(s)) == multiset(s)[0 := 0]
    ensures |StripNul(s)| == |s| - multiset(s)[0]
  {
    if s != [] {
      assert s == [s[0]] + s[1..];
      StripNulKeeps(s[1..]);
    }
  }

  /** Stripping works piece by piece, so the kept bytes stay in their order. */
  lemma {:induction false} StripNulAppend(a: seq<byte>, b: seq<byte>)
    ensures StripNul(a + b) == StripNul(a) + StripNul(b)
    decreases |a|
  {
    if a != [] {
      assert (a + b)[1..] == a[1..] + b;
      StripNulAppend(a[1..], b);
    } else {
      assert a + b == b;
    }
  }

  /** Stripping a name followed by NUL padding gives the name. */
  lemma {:induction false} StripPadding(name: seq<byte>, pad: nat)
    requires 0 !in name
    ensures StripNul(name + Zeros(pad)) == name
    decreases |name| + pad
  {
    var s := name + Zeros(pad);
    if name != [] {
      assert s[1..] == name[1..] + Zeros(pad);
      StripPadding(name[1..], pad);
    } else if pad > 0 {
      assert s[1..] == [] + Zeros(pad - 1);
      StripPadding(name, pad - 1);
    }
  }

  /**
   * The reads both receivers make, in their order; None when one of them
   * would throw. The furthest read ends at byte 11, so every datagram the
   * receivers parse (28 bytes or more) is read without an exception.
   */
  function ReadHeader(msg: seq<byte>): (r: Option<HeaderView>)
    ensures r.Some? <==> |msg| >= 11
    ensures |msg| >= HeaderSize ==> r == Some(HeaderView(msg[0..4], ReadUInt32LE(msg, 4),
      msg[8], msg[9], msg[10], StripNul(msg[16..24])))
  {
    var magic := Slice(msg, 0, 4);
    match ReadUInt32(msg, 4)
    case None => None
    case Some(sampleRate) =>
      match ReadUInt8(msg, 8)
      case None => None
      case Some(samplesPerFrame) =>
        match ReadUInt8(msg, 9)
        case None => None
        case Some(channels) =>
          match ReadUInt8(msg, 10)
          case None => None
          case Some(dataFormat) =>
            Some(HeaderView(magic, sampleRate, samplesPerFrame, channels, dataFormat,
                            StripNul(Slice(msg, 16, 24))))
  }

  /**
   * Reading an encoded header (followed by any payload) gives back the
   * fields written, the stream name without its NUL padding.
   */
  lemma ReadEncodedHeader(f: HeaderFields, name: seq<byte>, payload: seq<byte>)
    requires WellFormed(f) && 0 !in name && |name| <= 8 && f.streamName == name + Zeros(8 - |name|)
    ensures ReadHeader(EncodeHeader(f) + payload)
      == Some(HeaderView(f.magic, f.sampleRate, f.samplesPerFrame, f.channels, f.dataFormat, name))
  {
    var m := EncodeHeader(f) + payload;
    assert m[0..4] == f.magic;
    assert m[4..8] == UInt32LE(f.sampleRate);
    ReadUInt32At(m, 4, f.sampleRate);
    assert m[8] == f.samplesPerFrame && m[9] == f.channels && m[10] == f.dataFormat;
    assert m[16..24] == f.streamName;
    StripPadding(name, 8 - |name|);
  }
}
