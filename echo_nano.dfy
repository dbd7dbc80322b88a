/** test-echo-nano.js: a receiver that prints each datagram's header and payload. */
module EchoNano {
  import opened Common
  import opened Bytes
  import opened VbanLayout
  import UdpProbe

  /** What the `message` handler prints for one datagram. */
  datatype EchoReport =
    | TooSmall(raw: seq<byte>)                                          // under 28 bytes
    | Analysis(header: HeaderView, payload: seq<byte>, first16: seq<byte>)
    | ParseError(raw: seq<byte>)                                        // the `catch` branch

  /** The `header` record, the payload after byte 28 and its first 16 bytes. */
  function Inspect(msg: seq<byte>): (r: EchoReport)
    ensures r.TooSmall? <==> |msg| < HeaderSize
    ensures r.TooSmall? ==> r.raw == msg
    ensures !r.ParseError?
    ensures r.Analysis? ==>
      && r.header == HeaderView(msg[0..4], ReadUInt32LE(msg, 4), msg[8], msg[9], msg[10], StripNul(msg[16..24]))
      && r.payload == msg[HeaderSize..] && |r.payload| == |msg| - HeaderSize
      && r.first16 == r.payload[..Min(16, |r.payload|)]
  {
    if |msg| >= HeaderSize then
      match ReadHeader(msg)
      case None => ParseError(msg)
      case Some(header) =>
        var payload := Slice(msg, HeaderSize, |msg|);
        Analysis(header, payload, Slice(payload, 0, 16))
    else
      TooSmall(msg)
  }

  /** Both test receivers parse the same datagrams and report the same header. */
  lemma SameHeaderAsProbe(msg: seq<byte>)
    ensures Inspect(msg).Analysis? <==> UdpProbe.Probe(msg).Analysed?
    ensures Inspect(msg).Analysis? ==> Inspect(msg).header == UdpProbe.Probe(msg).header
  {
  }
}
