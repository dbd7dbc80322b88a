/**
 * How server.js shapes what its two HTTP collaborators return
 * (`transcribeAudio`, `getVoiceflowResponse`), and how it recognises and
 * splits an inline `data:` reply URI (`dataUriToBuffer`). The HTTP calls
 * themselves are not modelled: their settled outcomes are inputs.
 */
module Backends {
  import opened Common

  // ---------------------------------------------------------------------
  // transcribeAudio
  // ---------------------------------------------------------------------

  /** The sentence returned instead of an empty transcript. */
  const NoSpeechFallback: string :=
    "I could not detect any speech in the audio. Could you please try speaking again?"

  /** The ASR reply body; `text` is None when the field is absent. */
  datatype AsrBody = AsrBody(text: Option<string>)

  /** How the ASR POST settled. */
  datatype AsrOutcome =
    | AsrResponded(data: Option<AsrBody>)  // a 2xx reply; `data` None when `response.data` is falsy
    | AsrHttpError                         // rejected with `error.response` (a non-2xx reply)
    | AsrNoResponse                        // rejected with only `error.request` (nothing came back)
    | AsrFailed(message: string)           // rejected before a request was made

  /** The errors `transcribeAudio` rejects with. */
  datatype TranscribeError = ServerError | NetworkError | Rethrown(message: string) {
    function Message(): string {
      match this
      case ServerError => "Failed to transcribe audio: Server error"
      case NetworkError => "Failed to transcribe audio: Network error"
      case Rethrown(m) => m
    }
  }

  /**
   * What `transcribeAudio` resolves to: the transcript (None when the body
   * has no `text`), or the error it rejects with. A missing body is thrown
   * inside the `try` and rethrown unchanged by the `catch`.
   */
  function Transcription(o: AsrOutcome): (r: Result<Option<string>, TranscribeError>)
    ensures r.Ok? <==> o.AsrResponded? && o.data.Some?
    ensures r.Ok? ==> r.value != Some("")
    ensures o == AsrResponded(Some(AsrBody(Some("")))) ==> r == Ok(Some(NoSpeechFallback))
    ensures r.Ok? && o.data.value.text != Some("") ==> r.value == o.data.value.text
    ensures r == Err(ServerError) <==> o.AsrHttpError?
    ensures r == Err(NetworkError) <==> o.AsrNoResponse?
    ensures o.AsrHttpError? ==> r.Err? && r.error.Message() == "Failed to transcribe audio: Server error"
    ensures o.AsrNoResponse? ==> r.Err? && r.error.Message() == "Failed to transcribe audio: Network error"
    ensures o == AsrResponded(None) ==> r.Err? && r.error.Message() == "No response data received from ASR API"
    ensures o.AsrFailed? ==> r.Err? && r.error.Message() == o.message
  {
    match o
    case AsrResponded(None) => Err(Rethrown("No response data received from ASR API"))
    case AsrResponded(Some(body)) =>
      if body.text == Some("") then Ok(Some(NoSpeechFallback)) else Ok(body.text)
    case AsrHttpError => Err(ServerError)
    case AsrNoResponse => Err(NetworkError)
    case AsrFailed(m) => Err(Rethrown(m))
  }

  // ---------------------------------------------------------------------
  // getVoiceflowResponse
  // ---------------------------------------------------------------------

  datatype VfAudio = VfAudio(src: Option<string>)
  datatype VfPayload = VfPayload(message: Option<string>, audio: Option<VfAudio>)
  /** One element of the Voiceflow reply array. */
  datatype VfTrace = VfTrace(payload: Option<VfPayload>)

  /** How the Voiceflow POST settled: the reply array, or a rejection. */
  datatype VfOutcome = VfResponded(traces: seq<VfTrace>) | VfFailed(message: string)

  /** What `getVoiceflowResponse` resolves to. */
  datatype DialogueReply = DialogueReply(message: string, audioUri: string)
  datatype DialogueError = NoPayload | RequestFailed(message: string)

  /**
   * `response.data[2]?.payload`, with `message` and `audio?.src`
   * defaulting to the empty string; no payload at index 2 throws.
   */
  function DialogueResponse(o: VfOutcome): (r: Result<DialogueReply, DialogueError>)
    ensures r.Ok? <==> o.VfResponded? && |o.traces| > 2 && o.traces[2].payload.Some?
    ensures r == Err(NoPayload) <==> o.VfResponded? && (|o.traces| <= 2 || o.traces[2].payload.None?)
    ensures r.Ok? ==> var p := o.traces[2].payload.value;
      && (p.message.Some? ==> r.value.message == p.message.value)
      && (p.message.None? ==> r.value.message == "")
      && (p.audio.Some? && p.audio.value.src.Some? ==> r.value.audioUri == p.audio.value.src.value)
      && (p.audio.None? || p.audio.value.src.None? ==> r.value.audioUri == "")
  {
    match o
    case VfFailed(m) => Err(RequestFailed(m))
    case VfResponded(traces) =>
      if |traces| <= 2 || traces[2].payload.None? then Err(NoPayload)
      else
        var p := traces[2].payload.value;
        var src := if p.audio.Some? then p.audio.value.src else None;
        Ok(DialogueReply(p.message.GetOr(""), src.GetOr("")))
  }

  // ---------------------------------------------------------------------
  // The reply URI: `startsWith('data:audio/mp3;base64,')` and `split(',')[1]`
  // ---------------------------------------------------------------------

  const InlineMp3Prefix: string := "data:audio/mp3;base64,"

  /** The branch condition of server.js:74. */
  predicate IsInlineMp3(uri: string) {
    InlineMp3Prefix <= uri
  }

  /** `s.split(sep)` for a one-character separator. */
  function Split(s: string, sep: char): (parts: seq<string>)
    ensures |parts| >= 1
    ensures forall i :: 0 <= i < |parts| ==> sep !in parts[i]
  {
    if |s| == 0 then [""]
    else if s[0] == sep then [""] + Split(s[1..], sep)
    else
      var rest := Split(s[1..], sep);
      [[s[0]] + rest[0]] + rest[1..]
  }

  /** `parts.join(sep)`. */
  function Join(parts: seq<string>, sep: char): string
    requires |parts| >= 1
  {
    if |parts| == 1 then parts[0] else parts[0] + [sep] + Join(parts[1..], sep)
  }

  lemma {:induction false} JoinConsChar(c: char, parts: seq<string>, sep: char)
    requires |parts| >= 1
    ensures Join([[c] + parts[0]] + parts[1..], sep) == [c] + Join(parts, sep)
  {
    var q := [[c] + parts[0]] + parts[1..];
    assert q[1..] == parts[1..];
  }

  /** Joining the pieces with the separator gives back the string. */
  lemma {:induction false} JoinSplit(s: string, sep: char)
    ensures Join(Split(s, sep), sep) == s
    decreases |s|
  {
    if |s| == 0 {
    } else if s[0] == sep {
      JoinSplit(s[1..], sep);
      var p := Split(s[1..], sep);
      assert ([""] + p)[1..] == p;
    } else {
      JoinSplit(s[1..], sep);
      JoinConsChar(s[0], Split(s[1..], sep), sep);
    }
  }

  /** A string with no separator in it splits into itself. */
  lemma {:induction false} SplitNoSeparator(s: string, sep: char)
    requires sep !in s
    ensures Split(s, sep) == [s]
    decreases |s|
  {
    if |s| > 0 {
      SplitNoSeparator(s[1..], sep);
      assert [s[0]] + s[1..] == s;
    }
  }

  /** A first piece free of the separator, then the separator: split there. */
  lemma {:induction false} SplitAfterFirst(p: string, sep: char, t: string)
    requires sep !in p
    ensures Split(p + [sep] + t, sep) == [p] + Split(t, sep)
    decreases |p|
  {
    var s := p + [sep] + t;
    if |p| == 0 {
      assert s[0] == sep && s[1..] == t;
    } else {
      SplitAfterFirst(p[1..], sep, t);
      assert s[1..] == p[1..] + [sep] + t;
      assert [p[0]] + p[1..] == p;
    }
  }

  /** Splitting the join of separator-free pieces gives back the pieces. */
  lemma {:induction false} SplitJoin(parts: seq<string>, sep: char)
    requires |parts| >= 1
    requires forall i :: 0 <= i < |parts| ==> sep !in parts[i]
    ensures Split(Join(parts, sep), sep) == parts
    decreases |parts|
  {
    if |parts| == 1 {
      SplitNoSeparator(parts[0], sep);
    } else {
      SplitJoin(parts[1..], sep);
      SplitAfterFirst(parts[0], sep, Join(parts[1..], sep));
      assert [parts[0]] + parts[1..] == parts;
    }
  }

  /** `dataUri.split(',')[1]`: None (`undefined`) when there is no comma. */
  function DataUriPayload(uri: string): Option<string>
  {
    var parts := Split(uri, ',');
    if |parts| > 1 then Some(parts[1]) else None
  }

  /**
   * On the inline branch the URI always has a second field: the text after
   * the prefix up to the next comma (all of it when there is none, as in
   * well-formed base64).
   */
  lemma InlinePayload(uri: string)
    requires IsInlineMp3(uri)
    ensures var t := uri[|InlineMp3Prefix|..];
      && DataUriPayload(uri) == Some(Split(t, ',')[0])
      && Split(t, ',')[0] <= t
      && (',' !in t ==> DataUriPayload(uri) == Some(t))
  {
    var head := "data:audio/mp3;base64";
    var t := uri[|InlineMp3Prefix|..];
    assert uri == head + [','] + t;
    SplitAfterFirst(head, ',', t);
    var parts := Split(t, ',');
    JoinSplit(t, ',');
    if |parts| > 1 {
      assert t == parts[0] + [','] + Join(parts[1..], ',');
    }
    if ',' !in t {
      SplitNoSeparator(t, ',');
    }
  }
}
