# Voice bridge audio core, modelled in Dafny

A Dafny model of the audio core of a UDP/TCP voice bridge for a small voice
device. The device streams audio datagrams over UDP. The server strips each
datagram's 28-byte header and appends the rest to one process-wide buffer.
When the device connects over TCP, the server wraps the buffer in a WAV
header and sends it to a speech recogniser. It then sends the transcript to
Voiceflow and streams the spoken reply back. An inline MP3 reply is decoded,
decimated by three and cut to 480000 bytes; a reply given as a URL is piped
through. Three test scripts build and read the repository's own 28-byte
"VBAN" header.

Modules, one per concern:

- `Common`: `Option` (a JavaScript value that may be `undefined`), `Result` (a call that may throw), `Min`, `Max`.
- `Bytes`: bytes, int16, Node's little-endian reads and writes, and writing fields into a zero-filled `Buffer` held in an `array`.
- `Wav`: `addWavHeader` as a method that fills a 44-byte array field by field, the header as a function, and a reader.
- `ReplyAudio`: the reply downsampler. Three loops (read int16, decimate, write int16), each a method proved against a function. Then the 480000-byte cut.
- `Backends`: how `transcribeAudio` and `getVoiceflowResponse` shape what their HTTP calls return, and the `data:` URI test. `DataUriPayload` is `split(',')[1]`, written with the recursive `Split`, and `InlinePayload` states its meaning.
- `Server`: the global `audioBuffer` as the field of class `VoiceBridge`. `OnDatagram` is the UDP handler. `OnConnection` is the TCP handler, run to completion and proved equal to the pure `SessionReply`. `SessionReply` covers the empty-buffer check and the transcription; `DialogueStep` (server.js:63-206) covers the Voiceflow call and the choice between the inline and the URL reply; `InlineStep` (server.js:74-158) covers the inline MP3 branch.
- `VbanLayout`: the 28-byte header's encoder and the reader shared by both test receivers.
- `VbanClient`: test-vban-client.js.
- `UdpProbe`: test-udp.js.
- `EchoNano`: test-echo-nano.js.

The HTTP calls, the MP3 decoder and the base64 decoder are not modelled.
Their results are inputs: the function fields of `Server.Collaborators` and
the outcome datatypes `AsrOutcome`, `VfOutcome`, `Mp3Outcome` and
`FetchOutcome`.

Facts about the code that shape the model:

- `OnDatagram` drops the first 28 bytes of every datagram without checking any tag (server.js:29-31).
- The reply keeps every third sample, averaged with the next one (server.js:103-109).
- The buffer can hold an odd number of bytes (`Server.OddDatagramBreaksSampleAlignment`).
- The Voiceflow `message` is only logged (server.js:365); the device is sent audio only.

## Model

| member | source | states |
|---|---|---|
| `Server.VoiceBridge.constructor` | server.js:13 | The capture buffer starts empty. |
| `Server.VoiceBridge.OnDatagram` | server.js:26-33 | A datagram longer than 28 bytes appends its bytes from 28 on to the buffer; a shorter one leaves the buffer unchanged. |
| `Server.IngestedIsConcatenation` | server.js:26-33 | After any run of datagrams the buffer is the old buffer followed by every payload, in arrival order. |
| `Server.IngestedAppend` | server.js:26-33 | Ingesting two runs one after the other equals ingesting their concatenation. |
| `Server.PayloadIgnoresHeader` | server.js:26-33 | No header byte is inspected: datagrams of equal length that agree after byte 28 have the same effect, and one of at most 28 bytes adds nothing. |
| `Server.OddDatagramBreaksSampleAlignment` | server.js:29-31 | A 29-byte datagram leaves an empty buffer holding one byte, so the buffer is not always whole 16-bit samples. |
| `Server.VoiceBridge.OnConnection` | server.js:44-219 | The reply equals `SessionReply` of the buffer. An empty buffer stays as it is; otherwise the buffer is empty afterwards, on transcription success (line 209) and failure (line 217). The exception is the WAV size overflow that throws in the listener. |
| `Server.EmptyBufferReply` | server.js:48-53 | An empty buffer gets exactly the line `{"error":"No audio data received"}` whatever the collaborators would do, so no transcription is attempted. |
| `Server.TranscriptionStep` | server.js:55-67 | The recogniser gets a WAV file that reads back as 16 kHz mono 16-bit PCM holding the buffer. An empty transcript goes on to Voiceflow as the fallback sentence. A rejected transcription ends in one `Error during transcription` line. |
| `Server.InlineStepShape` | server.js:74-122 | On the inline branch the `split(',')[1]` failure never happens, and a streamed reply is at most 480000 bytes of whole samples. |
| `Wav.AddWavHeader` | server.js:232-256 | The method writes the header into a zeroed 44-byte array field by field. It succeeds exactly when `36 + len` fits in 32 bits, and then yields the canonical header followed by the PCM. |
| `Wav.WriteFmtChunk` | server.js:244-251 | The writes at offsets 12 to 35 leave the `fmt ` chunk after the bytes already written, with zeros after it. |
| `Wav.WriteFmtFormat` | server.js:244-247 | The writes at offsets 12 to 23 append `fmt `, 16, 1 and the channel count, in 4, 4, 2 and 2 little-endian bytes. |
| `Wav.WriteFmtRates` | server.js:248-251 | The writes at offsets 24 to 35 append the sample rate, byte rate, block align and bits per sample, in 4, 4, 2 and 2 little-endian bytes. |
| `Wav.FmtChunkFields` | server.js:244-251 | Where the `fmt ` chunk sits at offset 12, the fields read back as 16, 1, 1, 16000, 32000, 2 and 16. |
| `Wav.WavHeaderFields` | server.js:239-255 | Length `44 + len` and bytes 44 on equal the PCM. The fields are `RIFF`, `36 + len`, `WAVE`, `fmt `, 16, 1, 1, 16000, 32000, 2, 16, `data` and `len`. |
| `Wav.ParseAddWavHeader` | server.js:232-256 | Reading the encoded file gives back the PCM format and exactly the PCM bytes. |
| `Wav.ParsedPcmIsEncoded` | server.js:232-256 | Conversely, every file the reader accepts with that format is the header `addWavHeader` writes followed by its data. |
| `Wav.FmtChunkCanonical` | server.js:244-251 | Header bytes 12 to 35 that read as the PCM format are exactly the `fmt ` chunk the encoder writes. |
| `ReplyAudio.ReadSamples` | server.js:93-97 | The loop yields the int16 samples at even offsets. It fails, as `readInt16LE` past the end throws, exactly when the PCM has odd length. |
| `ReplyAudio.Decimate` | server.js:99-109 | The loop yields `Decimated` of the samples. |
| `ReplyAudio.WriteSamples` | server.js:111-115 | Filling a fresh array with `writeInt16LE` at `2 * index` yields the int16 encoding of the samples. |
| `ReplyAudio.DownsampleReply` | server.js:93-122 | The whole block: read, decimate, write back and cut to 480000 bytes, equal to `ReplyAudio` of the PCM. |
| `ReplyAudio.RoundedMean` | server.js:105-107 | `Math.round((a + b) / 2)` is the integer within one half of the mean, with halves going up, and it lies between `a` and `b`. |
| `ReplyAudio.OutputIndex` | server.js:103 | Output sample k exists exactly when `3k < n - 3`: one sample per index 0, 3, 6, ... below `n - 3`. |
| `ReplyAudio.DecimatedSample` | server.js:103-109 | Each output is the rounded mean of input samples `3k` and `3k + 1`. The clamp to the last index never takes effect, and the value lies between the two. |
| `ReplyAudio.DecimatedInRange` | server.js:105-115 | Int16 inputs decimate to int16 outputs, so `writeInt16LE` never throws. |
| `ReplyAudio.ReplyAudioShape` | server.js:117-122 | The streamed bytes number `min(2 * count, 480000)`, an even number. They decode to a prefix of the decimated samples, each between its two source samples. |
| `ReplyAudio.DecodeEncode` | server.js:111-115 | Reading back the int16 encoding of samples gives the samples. |
| `ReplyAudio.EncodeDecode` | server.js:94-97 | Writing back the samples read from even-length PCM gives the PCM. |
| `Backends.Transcription` | server.js:291-319 | The result is a transcript exactly when a body came back, and never the empty string: `''` becomes the fallback sentence. A non-2xx reply maps to the server error and a missing reply to the network error. Anything else, a missing body included, is rethrown. The errors carry the messages `Failed to transcribe audio: Server error` and `Failed to transcribe audio: Network error` (lines 311 and 314), `No response data received from ASR API` for a missing body, and the original message otherwise. |
| `Backends.DialogueResponse` | server.js:360-369 | The call succeeds exactly when element 2 of the reply has a payload; otherwise it throws `NoPayload`. `message` and `audio.src` are taken from the payload, each defaulting to `''`. |
| `Backends.Split` | server.js:378 | `split` yields at least one piece and no piece holds the separator. |
| `Backends.JoinSplit` | server.js:378 | Joining the pieces of `split` with the separator gives back the string. |
| `Backends.SplitJoin` | server.js:378 | Splitting the join of separator-free pieces gives back the pieces. |
| `Backends.InlinePayload` | server.js:377-380 | For a URI with the `data:audio/mp3;base64,` prefix, `split(',')[1]` exists. It is the text after the prefix up to the next comma, and all of it when there is no further comma. |
| `VbanLayout.EncodeHeader` | test-vban-client.js:5-33 | The header is always 28 bytes. |
| `VbanLayout.StripNul` | test-udp.js:27 | Removing NULs leaves no NUL and no more bytes, and leaves a NUL-free name unchanged. |
| `VbanLayout.StripNulKeeps` | test-udp.js:27 | Only NULs are removed: every other byte is kept as often as it occurs, and the length drops by exactly the number of NULs. |
| `VbanLayout.StripNulAppend` | test-udp.js:27 | Stripping a concatenation strips each part, so the kept bytes stay in their order. |
| `VbanLayout.StripPadding` | test-vban-client.js:27 | A NUL-free name followed by NUL padding strips back to the name. |
| `VbanLayout.ReadHeader` | test-udp.js:22-27 | The reads succeed exactly when the datagram has 11 bytes or more. From 28 bytes on, the fields are magic 0-3, the 32-bit LE rate at 4, bytes 8, 9 and 10, and bytes 16-23 without NULs. |
| `VbanLayout.ReadEncodedHeader` | test-vban-client.js:5-33 | Reading an encoded header, followed by any payload, gives back the fields written and the name without padding. |
| `VbanClient.WriteStreamSetup` | test-vban-client.js:9-24 | The writes at offsets 0 to 11 append `VBAN`, 44100 little-endian, 64, 1, 1 and 0, with zeros after them. |
| `VbanClient.CreateVbanHeader` | test-vban-client.js:5-33 | The method writes into a zeroed 28-byte array at fixed offsets and yields the encoding of VBAN, 44100, 64, 1, 1, 0, `test1\0\0\0` and frame counter 0. |
| `VbanClient.TestHeaderBytes` | test-vban-client.js:6-30 | The bytes are `VBAN`, 44100 LE, then 64, 1, 1 and 0. Bytes 12-15 were never written and stay zero. Then `test1` and three NULs, and a zero frame counter. |
| `VbanClient.TestPacket` | test-vban-client.js:46-47 | The packet is 156 bytes with the audio from byte 28 on. Both receivers read back VBAN, 44100, 64, 1, 1 and `test1`, and the server appends exactly the audio. |
| `UdpProbe.Probe` | test-udp.js:18-51 | Datagrams under 28 bytes are reported raw and unparsed; the parse error branch is never taken. Fields come from fixed offsets, `payloadSize = len - 28`, and a preview of bytes 28 up to 38 (at most 10) appears exactly when there is a payload. |
| `UdpProbe.ProbeStreamName` | test-udp.js:27 | The reported stream name has no NUL and at most 8 bytes. |
| `UdpProbe.ProbeServer.constructor` | test-udp.js:4-5 | The count starts at 0 and the start time is recorded. |
| `UdpProbe.ProbeServer.OnMessage` | test-udp.js:12-55 | `packetCount` goes up by exactly one per datagram, whatever its size or parse outcome. Statistics are due on every 100th datagram or after 10 s. |
| `EchoNano.Inspect` | test-echo-nano.js:13-37 | Only datagrams of 28 bytes or more are parsed; a shorter one is reported with its bytes. The parse error branch is never taken. The header comes from fixed offsets, the payload is bytes 28 on, and the preview is its first `min(16, len)` bytes. |
| `EchoNano.SameHeaderAsProbe` | test-echo-nano.js:15-22 | Both receivers parse the same datagrams and report the same header fields. |

## Left out

- Socket and server setup: `bind`, `listen`, `error` and `listening` handlers. This is I/O wiring.
- The ASR and Voiceflow HTTP calls and the GET of a URL reply. They are network I/O; their settled outcomes are inputs.
- MP3 decoding by node-lame and base64 decoding by `Buffer.from`. Both are foreign library code; they are function inputs.
- Stream piping, socket and stream error handlers, EPIPE. This is streaming I/O; `Reply` records only what would be streamed.
- Interleaving of UDP appends with an in-flight TCP session. The buffer is cleared after the awaits, so datagrams that arrive meanwhile are lost. This is event-loop concurrency; the model runs each handler to completion.
- Server.VoiceBridge.OnConnection: when `addWavHeader` throws inside the connection listener, the process crashes; the model only records `Crashed`.
- `createDummyAudio` uses `Math.sin` (floating point). The audio is an input of 128 bytes.
- Timing statistics output: the rates and `toFixed` in test-udp.js (floating point, clock). Only the "statistics due" condition is modelled, with the time as an input.
- Logging, hard-coded endpoints and credentials.
- VbanLayout.ReadHeader: `toString()` decodes UTF-8; the model reports magic and stream name as bytes, which is the same text for ASCII bytes.
- Backends.Transcription: a `text` field of a type other than string is not modelled (it is a string or absent).
