/**
 * server.js: the process-wide capture buffer, fed by the UDP `message`
 * handler and drained by the TCP connection handler, which sends the
 * buffered audio as a WAV file to the speech recogniser, the transcript to
 * Voiceflow, and the spoken reply back to the device.
 */
module Server {
  import opened Common
  import opened Bytes
  import Wav
  import ReplyAudio
  import opened Backends

  /** `headerSize`: the bytes of each datagram the server skips. */
  const HeaderSize: nat := 28

  // The JSON error lines the connection handler writes before closing.
  const NoAudioData: string := "No audio data received"
  const TranscriptionFailed: string := "Error during transcription"
  const AiResponseFailed: string := "Error getting AI response"
  const ConvertFailed: string := "Error converting audio"
  const FetchFailed: string := "Error fetching audio"

  /** `JSON.stringify({ error: message }) + '\n'` for a message with nothing to escape. */
  function ErrorJson(message: string): string
  {
    "{\"error\":\"" + message + "\"}\n"
  }

  // ---------------------------------------------------------------------
  // Capture-buffer ingest
  // ---------------------------------------------------------------------

  /** What one datagram adds to the buffer: everything after its first 28 bytes. */
  function Payload(msg: seq<byte>): seq<byte>
  {
    if |msg| > HeaderSize then msg[HeaderSize..] else []
  }

  /** The buffer after a run of datagrams, one `message` event after another. */
  function Ingested(buffer: seq<byte>, msgs: seq<seq<byte>>): seq<byte>
    decreases |msgs|
  {
    if msgs == [] then buffer else Ingested(buffer + Payload(msgs[0]), msgs[1..])
  }

  /** The payloads of a run of datagrams, in arrival order. */
  function Payloads(msgs: seq<seq<byte>>): seq<byte>
  {
    if msgs == [] then [] else Payload(msgs[0]) + Payloads(msgs[1..])
  }

  /** The buffer is the old buffer followed by every datagram's payload, in order. */
  lemma {:induction false} IngestedIsConcatenation(buffer: seq<byte>, msgs: seq<seq<byte>>)
    ensures Ingested(buffer, msgs) == buffer + Payloads(msgs)
    decreases |msgs|
  {
    if msgs != [] {
      IngestedIsConcatenation(buffer + Payload(msgs[0]), msgs[1..]);
    }
  }

  /** Ingesting two runs one after the other is ingesting their concatenation. */
  lemma {:induction false} IngestedAppend(buffer: seq<byte>, a: seq<seq<byte>>, b: seq<seq<byte>>)
    ensures Ingested(buffer, a + b) == Ingested(Ingested(buffer, a), b)
    decreases |a|
  {
    if a != [] {
      assert (a + b)[1..] == a[1..] + b;
      IngestedAppend(buffer + Payload(a[0]), a[1..], b);
    } else {
      assert a + b == b;
    }
  }

  /**
   * Nothing in the first 28 bytes is inspected: datagrams of the same
   * length that agree after byte 28 have the same effect, and a datagram
   * of at most 28 bytes has none.
   */
  lemma PayloadIgnoresHeader(m1: seq<byte>, m2: seq<byte>)
    requires |m1| == |m2| && (|m1| > HeaderSize ==> m1[HeaderSize..] == m2[HeaderSize..])
    ensures Payload(m1) == Payload(m2)
    ensures |m1| <= HeaderSize ==> Payload(m1) == []
  {
  }

  /**
   * Whole 16-bit samples are not guaranteed: a buffer of even length
   * becomes odd after one datagram of 29 bytes.
   */
  lemma OddDatagramBreaksSampleAlignment()
    ensures |Ingested([], [Zeros(29)])| == 1
  {
    assert Ingested([], [Zeros(29)]) == Ingested(Payload(Zeros(29)), []);
  }

  // ---------------------------------------------------------------------
  // The connection handler
  // ---------------------------------------------------------------------

  /** node-lame's decode of the MP3 reply. */
  datatype Mp3Outcome = Decoded(pcm: seq<byte>) | DecodeFailed
  /** The GET of a reply given as a URL: streamed to the device, or rejected. */
  datatype FetchOutcome = Fetched | FetchRejected

  /** The code the handler calls but that is not modelled, as functions of their inputs. */
  datatype Collaborators = Collaborators(
    transcribe: seq<byte> -> AsrOutcome,     // the ASR POST of the WAV file
    converse: Option<string> -> VfOutcome,   // the Voiceflow POST of the transcript
    base64: string -> seq<byte>,             // Buffer.from(_, 'base64')
    decodeMp3: seq<byte> -> Mp3Outcome,      // node-lame
    fetchStream: string -> FetchOutcome)     // axios GET with a stream response

  /** What the device receives before the connection ends. */
  datatype Reply =
    | ErrorLine(error: string)        // one `{"error": ...}` line
    | PcmStream(audio: seq<byte>)     // the downsampled reply, raw
    | ProxiedStream(url: string)      // the fetched reply stream, piped through
    | Crashed                         // `addWavHeader` threw in the listener

  /** The reply for a transcript (the `.then` branch, server.js:63-206). */
  function DialogueStep(text: Option<string>, c: Collaborators): Reply
  {
    match DialogueResponse(c.converse(text))
    case Err(_) => ErrorLine(AiResponseFailed)
    case Ok(d) =>
      if IsInlineMp3(d.audioUri) then InlineStep(d.audioUri, c)
      else match c.fetchStream(d.audioUri)
        case Fetched => ProxiedStream(d.audioUri)
        case FetchRejected => ErrorLine(FetchFailed)
  }

  /**
   * The inline branch: `Buffer.from(undefined)` would throw a TypeError
   * caught as an AI-response error; a decode failure or a `readInt16LE`
   * past the end is caught as a conversion error.
   */
  function InlineStep(uri: string, c: Collaborators): Reply
  {
    match DataUriPayload(uri)
    case None => ErrorLine(AiResponseFailed)
    case Some(b64) =>
      match c.decodeMp3(c.base64(b64))
      case DecodeFailed => ErrorLine(ConvertFailed)
      case Decoded(pcm) =>
        match ReplyAudio.ReplyAudio(pcm)
        case None => ErrorLine(ConvertFailed)
        case Some(audio) => PcmStream(audio)
  }

  /** The reply to a connection made while the buffer holds `buffer`. */
  function SessionReply(buffer: seq<byte>, c: Collaborators): Reply
  {
    if |buffer| == 0 then ErrorLine(NoAudioData)
    else if 36 + |buffer| >= TWO_32 then Crashed
    else match Transcription(c.transcribe(Wav.WavHeader(|buffer|) + buffer))
      case Err(_) => ErrorLine(TranscriptionFailed)
      case Ok(text) => DialogueStep(text, c)
  }

  /**
   * An empty buffer is answered with exactly one `No audio data received`
   * line, whatever the collaborators would do: nothing is transcribed.
   */
  lemma EmptyBufferReply(c1: Collaborators, c2: Collaborators)
    ensures SessionReply([], c1) == SessionReply([], c2) == ErrorLine(NoAudioData)
    ensures ErrorJson(SessionReply([], c1).error) == "{\"error\":\"No audio data received\"}\n"
  {
    assert SessionReply([], c1) == ErrorLine(NoAudioData);
    assert SessionReply([], c2) == ErrorLine(NoAudioData);
    NoAudioDataJson();
  }

  /** The line written for an empty buffer, spelled out. */
  lemma NoAudioDataJson()
    ensures ErrorJson(NoAudioData) == "{\"error\":\"No audio data received\"}\n"
  {
  }

  /**
   * The recogniser is sent the buffer wrapped by `addWavHeader`; an empty
   * transcript is replaced by the fallback sentence and the session goes on
   * to Voiceflow with it, and a rejected transcription ends in one error line.
   */
  lemma TranscriptionStep(buffer: seq<byte>, c: Collaborators)
    requires 0 < |buffer| && 36 + |buffer| < TWO_32
    ensures var wav := Wav.WavHeader(|buffer|) + buffer;
      && Wav.ParseWav(wav) == Some(Wav.WavFile(Wav.PcmFormat, buffer))
      && (c.transcribe(wav) == AsrResponded(Some(AsrBody(Some("")))) ==>
            SessionReply(buffer, c) == DialogueStep(Some(NoSpeechFallback), c))
      && (Transcription(c.transcribe(wav)).Err? ==> SessionReply(buffer, c) == ErrorLine(TranscriptionFailed))
  {
    Wav.ParseAddWavHeader(buffer);
  }

  /**
   * A reply streamed inline is at most 480000 bytes of whole samples, and
   * the `split(',')[1]` error path is never taken on that branch.
   */
  lemma InlineStepShape(uri: string, c: Collaborators)
    requires IsInlineMp3(uri)
    ensures InlineStep(uri, c) != ErrorLine(AiResponseFailed)
    ensures InlineStep(uri, c).PcmStream? ==>
      |InlineStep(uri, c).audio| <= ReplyAudio.MaxSize && |InlineStep(uri, c).audio| % 2 == 0
  {
    InlinePayload(uri);
    var b64 := DataUriPayload(uri).value;
    match c.decodeMp3(c.base64(b64))
    case DecodeFailed =>
    case Decoded(pcm) =>
      if |pcm| % 2 == 0 {
        ReplyAudio.ReplyAudioShape(pcm);
      }
  }

  /** The process-wide state of server.js: the global `audioBuffer`. */
  class VoiceBridge {
    var audioBuffer: seq<byte>

    /** `let audioBuffer = Buffer.alloc(0)`. */
    constructor ()
      ensures audioBuffer == []
    {
      audioBuffer := [];
    }

    /** The UDP `message` handler: drop the first 28 bytes, append the rest. */
    method OnDatagram(msg: seq<byte>)
      modifies this
      ensures audioBuffer == old(audioBuffer) + Payload(msg)
      ensures |msg| <= HeaderSize ==> audioBuffer == old(audioBuffer)
    {
      if |msg| > HeaderSize {
        var payload := msg[HeaderSize..];
        audioBuffer := audioBuffer + payload;
      }
    }

    /**
     * The TCP connection handler, run to completion. An empty buffer is
     * left as it is; otherwise the buffer is reset once transcription has
     * settled, on success (server.js:209) and on failure (server.js:217).
     */
    method OnConnection(c: Collaborators) returns (reply: Reply)
      modifies this
      ensures reply == SessionReply(old(audioBuffer), c)
      ensures audioBuffer == if old(audioBuffer) == [] || reply.Crashed? then old(audioBuffer) else []
    {
      if |audioBuffer| == 0 {
        return ErrorLine(NoAudioData);
      }
      var wavBuffer := Wav.AddWavHeader(audioBuffer);
      if wavBuffer.Err? {
        return Crashed;
      }
      var transcription := Transcription(c.transcribe(wavBuffer.value));
      if transcription.Err? {
        audioBuffer := [];
        return ErrorLine(TranscriptionFailed);
      }
      var voiceflowResponse := DialogueResponse(c.converse(transcription.value));
      if voiceflowResponse.Err? {
        reply := ErrorLine(AiResponseFailed);
      } else {
        var audioUrl := voiceflowResponse.value.audioUri;
        if IsInlineMp3(audioUrl) {
          var base64Data := DataUriPayload(audioUrl);
          if base64Data.None? {
            reply := ErrorLine(AiResponseFailed);
          } else {
            var decoded := c.decodeMp3(c.base64(base64Data.value));
            if decoded.DecodeFailed? {
              reply := ErrorLine(ConvertFailed);
            } else {
              var audioData := ReplyAudio.DownsampleReply(decoded.pcm);
              reply := if audioData.None? then ErrorLine(ConvertFailed) else PcmStream(audioData.value);
            }
          }
        } else {
          reply := match c.fetchStream(audioUrl)
            case Fetched => ProxiedStream(audioUrl)
            case FetchRejected => ErrorLine(FetchFailed);
        }
      }
      audioBuffer := [];
    }
  }
}
