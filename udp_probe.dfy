/** test-udp.js: a receiver that counts datagrams and reports their header fields. */
module UdpProbe {
  import opened Common
  import opened Bytes
  import opened VbanLayout

  /** What the `message` handler reports for one datagram. */
  datatype ProbeReport =
    | TooSmall(raw: seq<byte>)                                        // under 28 bytes: printed raw
    | Analysed(header: HeaderView, payloadSize: nat, preview: Option<seq<byte>>)
    | ParseError                                                      // the `catch` branch

  /**
   * The inspection: datagrams of 28 bytes or more are read at the fixed
   * offsets; the payload preview is shown only when there is a payload.
   */
  function Probe(msg: seq<byte>): (r: ProbeReport)
    ensures r.TooSmall? <==> |msg| < HeaderSize
    ensures r.TooSmall? ==> r.raw == msg
    ensures !r.ParseError?
    ensures r.Analysed? ==>
      && r.header == HeaderView(msg[0..4], ReadUInt32LE(msg, 4), msg[8], msg[9], msg[10], StripNul(msg[16..24]))
      && r.payloadSize == |msg| - HeaderSize
      && (r.preview.Some? <==> r.payloadSize > 0)
      && (r.preview.Some? ==> 0 < |r.preview.value| <= 10 && r.preview.value == msg[HeaderSize..Min(38, |msg|)])
  {
    if |msg| >= HeaderSize then
      match ReadHeader(msg)
      case None => ParseError
      case Some(header) =>
        var payloadSize := |msg| - HeaderSize;
        Analysed(header, payloadSize, if payloadSize > 0 then Some(Slice(msg, HeaderSize, Min(38, |msg|))) else None)
    else
      TooSmall(msg)
  }

  /** The reported stream name has no NUL and at most 8 bytes. */
  lemma ProbeStreamName(msg: seq<byte>)
    requires Probe(msg).Analysed?
    ensures 0 !in Probe(msg).header.streamName && |Probe(msg).header.streamName| <= 8
  {
  }

  /** The receiver's state: `packetCount` and the start time the statistics use. */
  class ProbeServer {
    var packetCount: nat
    const startTime: int

    constructor (now: int)
      ensures packetCount == 0 && startTime == now
    {
      packetCount := 0;
      startTime := now;
    }

    /**
     * One `message` event at time `now` (milliseconds): the count goes up by
     * one whatever the datagram, and statistics are due every 100th datagram
     * or once 10 seconds have passed.
     */
    method OnMessage(msg: seq<byte>, now: int) returns (report: ProbeReport, statsDue: bool)
      modifies this
      ensures packetCount == old(packetCount) + 1
      ensures report == Probe(msg)
      ensures statsDue <==> packetCount % 100 == 0 || now - startTime > 10000
    {
      packetCount := packetCount + 1;
      report := Probe(msg);
      statsDue := packetCount % 100 == 0 || now - startTime > 10000;
    }
  }
}
