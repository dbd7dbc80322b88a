/**
 * Node.js `Buffer` contents as byte sequences, and the little-endian
 * integer reads and writes (`readUInt32LE`, `writeInt16LE`, ...) that the
 * server and the test tools use at fixed offsets.
 */
module Bytes {

  type byte = b: int | 0 <= b < 0x100
  type int16 = v: int | -0x8000 <= v < 0x8000

  const TWO_16: nat := 0x1_0000
  const TWO_32: nat := 0x1_0000_0000

  /** The contents of `Buffer.alloc(n)`: n zero bytes. */
  function Zeros(n: nat): (z: seq<byte>)
    ensures |z| == n
  {
    seq(n, _ => 0)
  }

  // ---------------------------------------------------------------------
  // Little-endian encodings (what `writeUInt16LE`, `writeUInt32LE` and
  // `writeInt16LE` store) and the matching reads.
  // ---------------------------------------------------------------------

  function UInt16LE(v: nat): (b: seq<byte>)
    requires v < TWO_16
    ensures |b| == 2
  {
    [v % 0x100, v / 0x100]
  }

  function UInt32LE(v: nat): (b: seq<byte>)
    requires v < TWO_32
    ensures |b| == 4
  {
    [v % 0x100, v / 0x100 % 0x100, v / 0x1_0000 % 0x100, v / 0x100_0000]
  }

  /** `writeInt16LE`: two's complement in 16 bits, low byte first. */
  function Int16LE(v: int16): seq<byte>
  {
    UInt16LE(if v < 0 then v + TWO_16 else v)
  }

  function ReadUInt16LE(s: seq<byte>, off: nat): (v: nat)
    requires off + 2 <= |s|
    ensures v < TWO_16
  {
    s[off] as int + 0x100 * s[off + 1] as int
  }

  function ReadUInt32LE(s: seq<byte>, off: nat): (v: nat)
    requires off + 4 <= |s|
    ensures v < TWO_32
  {
    s[off] as int + 0x100 * s[off + 1] as int + 0x1_0000 * s[off + 2] as int + 0x100_0000 * s[off + 3] as int
  }

  /** `readInt16LE`: the two bytes as a two's-complement 16-bit value. */
  function ReadInt16LE(s: seq<byte>, off: nat): int16
    requires off + 2 <= |s|
  {
    var u := ReadUInt16LE(s, off);
    if u < 0x8000 then u else u - TWO_16
  }

  /** Reading back what was written gives the value (16-bit unsigned). */
  lemma UInt16RoundTrip(v: nat)
    requires v < TWO_16
    ensures ReadUInt16LE(UInt16LE(v), 0) == v
  {
  }

  /** Euclidean division by `k` of `lo + k * hi` with `0 <= lo < k` gives `hi`, remainder `lo`. */
  lemma DivModUnique(lo: int, hi: int, k: int)
    requires 0 <= lo < k
    ensures (lo + k * hi) / k == hi && (lo + k * hi) % k == lo
  {
    var n := lo + k * hi;
    var d := n / k - hi;
    assert k * d == lo - n % k;
    assert d == 0 by {
      assert -k < k * d < k;
      MulBelow(k, d);
    }
  }

  /** A multiple of `k` strictly between `-k` and `k` is zero. */
  lemma MulBelow(k: int, d: int)
    requires 0 < k && -k < k * d < k
    ensures d == 0
  {
  }

  /** Reading back what was written gives the value (32-bit unsigned). */
  lemma UInt32RoundTrip(v: nat)
    requires v < TWO_32
    ensures ReadUInt32LE(UInt32LE(v), 0) == v
  {
    var q1, q2, q3 := v / 0x100, v / 0x100 / 0x100, v / 0x100 / 0x100 / 0x100;
    assert v == v % 0x100 + 0x100 * q1;
    assert q1 == q1 % 0x100 + 0x100 * q2;
    assert q2 == q2 % 0x100 + 0x100 * q3;
    DivModUnique(v % 0x100 + 0x100 * (q1 % 0x100), q2, 0x1_0000);
    DivModUnique(v % 0x100 + 0x100 * (q1 % 0x100) + 0x1_0000 * (q2 % 0x100), q3, 0x100_0000);
  }

  /** Every four bytes are the encoding of the value read from them. */
  lemma UInt32Canonical(s: seq<byte>, off: nat)
    requires off + 4 <= |s|
    ensures UInt32LE(ReadUInt32LE(s, off)) == s[off..off + 4]
  {
    var b0, b1, b2, b3 := s[off] as int, s[off + 1] as int, s[off + 2] as int, s[off + 3] as int;
    var v := ReadUInt32LE(s, off);
    assert v == b0 + 0x100 * (b1 + 0x100 * (b2 + 0x100 * b3));
    DivModUnique(b0, b1 + 0x100 * (b2 + 0x100 * b3), 0x100);
    DivModUnique(b1, b2 + 0x100 * b3, 0x100);
    DivModUnique(b0 + 0x100 * b1, b2 + 0x100 * b3, 0x1_0000);
    DivModUnique(b2, b3, 0x100);
    DivModUnique(b0 + 0x100 * b1 + 0x1_0000 * b2, b3, 0x100_0000);
  }

  /** Every two bytes are the encoding of the value read from them. */
  lemma UInt16Canonical(s: seq<byte>, off: nat)
    requires off + 2 <= |s|
    ensures UInt16LE(ReadUInt16LE(s, off)) == s[off..off + 2]
  {
  }

  /** A 32-bit field read where its encoding was written gives the value written. */
  lemma ReadUInt32At(s: seq<byte>, off: nat, v: nat)
    requires v < TWO_32 && off + 4 <= |s| && s[off..off + 4] == UInt32LE(v)
    ensures ReadUInt32LE(s, off) == v
  {
    UInt32RoundTrip(v);
    assert ReadUInt32LE(s, off) == ReadUInt32LE(s[off..off + 4], 0);
  }

  /** A 16-bit field read where its encoding was written gives the value written. */
  lemma ReadUInt16At(s: seq<byte>, off: nat, v: nat)
    requires v < TWO_16 && off + 2 <= |s| && s[off..off + 2] == UInt16LE(v)
    ensures ReadUInt16LE(s, off) == v
  {
    UInt16RoundTrip(v);
    assert ReadUInt16LE(s, off) == ReadUInt16LE(s[off..off + 2], 0);
  }

  /** `readInt16LE` undoes `writeInt16LE`. */
  lemma Int16RoundTrip(v: int16)
    ensures ReadInt16LE(Int16LE(v), 0) == v
  {
    UInt16RoundTrip(if v < 0 then v + TWO_16 else v);
  }

  /** `writeInt16LE` of the value `readInt16LE` found restores the two bytes. */
  lemma Int16Canonical(s: seq<byte>, off: nat)
    requires off + 2 <= |s|
    ensures Int16LE(ReadInt16LE(s, off)) == s[off..off + 2]
  {
    UInt16Canonical(s, off);
  }

  // ---------------------------------------------------------------------
  // Writing into a Buffer in place.
  // ---------------------------------------------------------------------

  /** `s` with the bytes at `off .. off + |b|` replaced by `b`. */
  function Splice(s: seq<byte>, off: nat, b: seq<byte>): (r: seq<byte>)
    requires off + |b| <= |s|
    ensures |r| == |s|
  {
    s[..off] + b + s[off + |b|..]
  }

  /**
   * Writing a field at the start of the zero-filled tail of a buffer
   * appends it to the fields written so far.
   */
  lemma SpliceIntoZeros(p: seq<byte>, k: nat, b: seq<byte>)
    requires |b| <= k
    ensures Splice(p + Zeros(k), |p|, b) == (p + b) + Zeros(k - |b|)
  {
    var r := Splice(p + Zeros(k), |p|, b);
    var t := (p + b) + Zeros(k - |b|);
    assert |r| == |t|;
    forall i | 0 <= i < |r| ensures r[i] == t[i] {
      if |p| <= i < |p| + |b| {
        assert r[i] == b[i - |p|];
      }
    }
  }

  /** Bytes never written keep the zeros of `Buffer.alloc`. */
  lemma ZerosSplit(p: seq<byte>, a: nat, b: nat)
    ensures p + Zeros(a + b) == (p + Zeros(a)) + Zeros(b)
  {
  }

  /** Copies `b` into `buf` at `off`, as the `Buffer` write methods do. */
  method WriteBytes(buf: array<byte>, off: nat, b: seq<byte>)
    requires off + |b| <= buf.Length
    modifies buf
    ensures buf[..] == Splice(old(buf[..]), off, b)
  {
    var i := 0;
    while i < |b|
      invariant 0 <= i <= |b|
      invariant buf[..] == old(buf[..])[..off] + b[..i] + old(buf[..])[off + i..]
    {
      buf[off + i] := b[i];
      i := i + 1;
    }
  }

  /**
   * A `Buffer` write of `b` at `off` into a buffer whose first `off` bytes
   * hold the fields `done` written so far and whose rest is still zero.
   */
  method WriteField(buf: array<byte>, off: nat, b: seq<byte>, ghost done: seq<byte>)
    returns (ghost done': seq<byte>)
    requires off == |done| && off + |b| <= buf.Length
    requires buf[..] == done + Zeros(buf.Length - off)
    modifies buf
    ensures done' == done + b
    ensures buf[..] == done' + Zeros(buf.Length - |done'|)
  {
    WriteBytes(buf, off, b);
    SpliceIntoZeros(done, buf.Length - off, b);
    done' := done + b;
  }
}
