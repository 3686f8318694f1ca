/**
 * The component that talks to its own backend
 * (voice-chatbot/components/voice-chatbot-web-speech.tsx): the utterance is
 * sent base64-encoded to a speech-to-text service, the transcript goes to
 * the local backend, which answers with the reply
 * text and base64 audio; the audio is played and recording restarts when
 * playback ends.
 *
 * `btoa` and `atob` are foreign: the base64 text itself is not modelled,
 * and the decoding of the reply's audio is the parameter `atob`.
 */
module WebSpeechChatbot {
  import opened Common
  import opened SilenceDetector

  datatype Role = System | User | Assistant

  /** `ChatMessage`. */
  datatype ChatMessage = ChatMessage(role: Role, content: string)

  const SystemPrompt: string := "You are a helpful voice assistant. Keep responses concise and conversational."

  /** The conversation a fresh component starts with: the system turn alone. */
  const InitialHistory: seq<ChatMessage> := [ChatMessage(System, SystemPrompt)]

  /**
   * The shape every history keeps: the system turn first, then pairs of a
   * user turn followed by an assistant turn.
   */
  ghost predicate WellFormedHistory(h: seq<ChatMessage>)
  {
    && |h| % 2 == 1
    && h[0] == ChatMessage(System, SystemPrompt)
    && (forall i :: 0 < i < |h| ==> h[i].role == (if i % 2 == 1 then User else Assistant))
  }

  /** The history after one answered turn: every earlier entry, then the user turn, then the assistant turn. */
  function AppendTurn(h: seq<ChatMessage>, userMessage: string, aiText: string): (r: seq<ChatMessage>)
    ensures |r| == |h| + 2 && r[..|h|] == h
    ensures r[|h|] == ChatMessage(User, userMessage) && r[|h| + 1] == ChatMessage(Assistant, aiText)
  {
    h + [ChatMessage(User, userMessage), ChatMessage(Assistant, aiText)]
  }

  /** The initial history is well formed. */
  lemma InitialHistoryWellFormed()
    ensures WellFormedHistory(InitialHistory) && |InitialHistory| == 1
  {
  }

  /**
   * An answered turn keeps every earlier entry, adds exactly the user turn
   * and then the assistant turn, and keeps the history well formed.
   */
  lemma AppendTurnKeepsShape(h: seq<ChatMessage>, userMessage: string, aiText: string)
    requires WellFormedHistory(h)
    ensures var r := AppendTurn(h, userMessage, aiText);
            && |r| == |h| + 2 && r[..|h|] == h
            && r[|h|] == ChatMessage(User, userMessage) && r[|h| + 1] == ChatMessage(Assistant, aiText)
            && WellFormedHistory(r)
  {
    var r := AppendTurn(h, userMessage, aiText);
    forall i | 0 < i < |r|
      ensures r[i].role == (if i % 2 == 1 then User else Assistant)
    {
      if i >= |h| {
        assert i == |h| || i == |h| + 1;
      }
    }
  }

  /** After n answered turns from the initial history, the history holds 2n + 1 entries, the n-th user turn at 2n - 1. */
  function HistoryAfter(turns: seq<(string, string)>): seq<ChatMessage>
  {
    if turns == [] then InitialHistory
    else AppendTurn(HistoryAfter(turns[..|turns| - 1]), turns[|turns| - 1].0, turns[|turns| - 1].1)
  }

  lemma {:induction false} HistoryAfterShape(turns: seq<(string, string)>)
    ensures var h := HistoryAfter(turns);
            && WellFormedHistory(h) && |h| == 2 * |turns| + 1
            && forall n :: 0 <= n < |turns| ==>
                 h[2 * n + 1] == ChatMessage(User, turns[n].0) && h[2 * n + 2] == ChatMessage(Assistant, turns[n].1)
  {
    if turns != [] {
      var init := turns[..|turns| - 1];
      HistoryAfterShape(init);
      var last := turns[|turns| - 1];
      AppendTurnKeepsShape(HistoryAfter(init), last.0, last.1);
      assert forall n :: 0 <= n < |init| ==> turns[n] == init[n];
    }
  }

  /** The string a byte run stands for when each byte is one character. */
  function Latin1(bytes: seq<Byte>): string
  {
    seq(|bytes|, i requires 0 <= i < |bytes| => bytes[i] as char)
  }

  /** What storing each character's code in a `Uint8Array` keeps: the code modulo 256. */
  function CharCodes(s: string): seq<Byte>
  {
    seq(|s|, i requires 0 <= i < |s| => (s[i] as int) % 256)
  }

  /** The bytes survive the trip through a binary string unchanged. */
  lemma BytesRoundTrip(bytes: seq<Byte>)
    ensures CharCodes(Latin1(bytes)) == bytes
  {
  }

  /** A binary string (every code below 256) survives the trip through bytes unchanged. */
  lemma BinaryStringRoundTrip(s: string)
    requires forall i :: 0 <= i < |s| ==> s[i] as int < 256
    ensures Latin1(CharCodes(s)) == s
  {
  }

  /**
   * The `forEach` loop of `blobToBase64`: one character per byte, in order,
   * each with the byte as its code.
   */
  method BytesToBinaryString(bytes: seq<Byte>) returns (binary: string)
    ensures |binary| == |bytes|
    ensures forall i :: 0 <= i < |bytes| ==> binary[i] as int == bytes[i]
    ensures binary == Latin1(bytes)
  {
    binary := "";
    for i := 0 to |bytes|
      invariant |binary| == i
      invariant forall j :: 0 <= j < i ==> binary[j] as int == bytes[j]
    {
      binary := binary + [bytes[i] as char];
    }
  }

  /**
   * The loop that fills a `Uint8Array` of the binary string's length from
   * `atob`'s output: byte i is character i's code, modulo 256 as a
   * `Uint8Array` stores it.
   */
  method BinaryStringToBytes(binary: string) returns (bytes: seq<Byte>)
    ensures |bytes| == |binary|
    ensures forall i :: 0 <= i < |binary| ==> bytes[i] == (binary[i] as int) % 256
    ensures bytes == CharCodes(binary)
  {
    var buffer := new Byte[|binary|];
    for i := 0 to |binary|
      invariant forall j :: 0 <= j < i ==> buffer[j] == (binary[j] as int) % 256
    {
      buffer[i] := (binary[i] as int) % 256;
    }
    bytes := buffer[..];
  }

  /** What the speech-to-text service gives: a failure, or `data[0]` of its JSON. */
  datatype SpeechToText = SpeechToTextFailed | Heard(userMessage: string)

  /** What the backend gives: a failure (not `ok` included), or the reply text and its base64 audio. */
  datatype BackendReply = BackendFailed | Answered(text: string, audio: string)

  class WebSpeechChatbot {
    var isRecording: bool
    var isProcessing: bool
    var volume: real
    var history: seq<ChatMessage>
    /** `silenceStartRef.current`. */
    var silenceStart: Option<int>
    /** `audioChunksRef.current`. */
    var chunks: seq<Chunk>
    /** The microphone stream, audio graph and recorder are live. */
    var captureActive: bool
    /** An `Audio` element is playing a reply and will restart recording when it ends. */
    var playbackPending: bool
    var actions: seq<Action>

    ghost predicate Valid()
      reads this
    {
      isRecording == captureActive && AllNonEmpty(chunks) && WellFormedHistory(history)
    }

    constructor ()
      ensures Valid()
      ensures !isRecording && !isProcessing && volume == 0.0 && history == InitialHistory
      ensures silenceStart == None && chunks == [] && !captureActive && !playbackPending && actions == []
    {
      isRecording, isProcessing, volume, history := false, false, 0.0, InitialHistory;
      silenceStart, chunks, captureActive, playbackPending, actions := None, [], false, false, [];
    }

    /** `processor.onaudioprocess`: the volume of the analyser frame. */
    method OnAudioProcess(frame: seq<Byte>)
      requires Valid() && |frame| > 0
      modifies this
      ensures Valid()
      ensures volume == Sum(frame) as real / (|frame| as real * 255.0)
      ensures isRecording == old(isRecording) && isProcessing == old(isProcessing) && history == old(history)
      ensures silenceStart == old(silenceStart) && chunks == old(chunks)
      ensures captureActive == old(captureActive) && playbackPending == old(playbackPending) && actions == old(actions)
    {
      volume := CalculateVolume(frame);
    }

    /** The silence-detection effect at time `now`; `trigger` is whether it calls `processAudio()`. */
    method DetectSilence(now: int) returns (trigger: bool)
      requires Valid()
      modifies this
      ensures Valid()
      ensures EffectResult(silenceStart, trigger)
              == SilenceEffect(isRecording, isProcessing, old(silenceStart), Sample(volume, now))
      ensures isRecording == old(isRecording) && isProcessing == old(isProcessing) && volume == old(volume)
      ensures chunks == old(chunks) && history == old(history) && captureActive == old(captureActive)
      ensures playbackPending == old(playbackPending) && actions == old(actions)
    {
      trigger := false;
      if !isRecording || isProcessing {
        return;
      }
      if volume < 0.05 {
        if silenceStart.None? {
          silenceStart := Some(now);
        } else if now - silenceStart.value > 1500 {
          trigger := true;
        }
      } else {
        silenceStart := None;
      }
    }

    /** `mediaRecorder.ondataavailable`. */
    method OnDataAvailable(data: Chunk)
      requires Valid()
      modifies this
      ensures Valid()
      ensures chunks == PushNonEmpty(old(chunks), data)
      ensures isRecording == old(isRecording) && isProcessing == old(isProcessing) && volume == old(volume)
      ensures silenceStart == old(silenceStart) && history == old(history) && captureActive == old(captureActive)
      ensures playbackPending == old(playbackPending) && actions == old(actions)
    {
      if |data| > 0 {
        chunks := chunks + [data];
      }
    }

    /** `startRecording`: buffer and timestamp reset, then capture if `getUserMedia` resolves. */
    method StartRecording(granted: bool)
      requires Valid()
      modifies this
      ensures Valid()
      ensures chunks == [] && silenceStart == None
      ensures granted ==> isRecording && captureActive && actions == old(actions) + [CaptureStarted]
      ensures !granted ==> isRecording == old(isRecording) && captureActive == old(captureActive) && actions == old(actions)
      ensures isProcessing == old(isProcessing) && volume == old(volume) && history == old(history)
      ensures playbackPending == old(playbackPending)
    {
      chunks := [];
      silenceStart := None;
      if granted {
        captureActive := true;
        actions := actions + [CaptureStarted];
        isRecording := true;
      }
    }

    /** `stopRecording`. */
    method StopRecording()
      requires AllNonEmpty(chunks) && WellFormedHistory(history)
      modifies this
      ensures Valid()
      ensures !captureActive && !isRecording
      ensures actions == old(actions) + (if old(captureActive) then [CaptureStopped] else [])
      ensures isProcessing == old(isProcessing) && volume == old(volume) && history == old(history)
      ensures silenceStart == old(silenceStart) && chunks == old(chunks) && playbackPending == old(playbackPending)
    {
      if captureActive {
        captureActive := false;
        actions := actions + [CaptureStopped];
      }
      isRecording := false;
    }

    /** `toggleRecording`: stop when recording or processing, otherwise start. */
    method ToggleRecording(granted: bool)
      requires Valid()
      modifies this
      ensures Valid()
      ensures old(isRecording) || old(isProcessing) ==>
                !isRecording && !captureActive && chunks == old(chunks) && silenceStart == old(silenceStart)
      ensures !old(isRecording) && !old(isProcessing) ==>
                isRecording == granted && captureActive == granted && chunks == [] && silenceStart == None
      ensures isProcessing == old(isProcessing) && history == old(history)
      ensures actions == old(actions) + (if old(isRecording) || old(isProcessing)
                                         then (if old(captureActive) then [CaptureStopped] else [])
                                         else (if granted then [CaptureStarted] else []))
      ensures volume == old(volume) && playbackPending == old(playbackPending)
    {
      if isRecording || isProcessing {
        StopRecording();
      } else {
        StartRecording(granted);
      }
    }

    /**
     * `processAudio`: with no buffered chunk nothing happens. Otherwise the
     * turn is marked busy and capture released before any request; the blob
     * of every buffered chunk is turned into a binary string and sent for
     * transcription; the transcript is sent to the backend; an answer
     * extends the history by the user turn and the assistant turn, and its
     * audio, decoded by `atob` and turned back into bytes, is played. Every
     * exit leaves the turn not busy.
     */
    method ProcessAudio(stt: SpeechToText, backend: BackendReply, atob: string -> Option<string>, playOk: bool)
      requires Valid()
      modifies this
      ensures Valid()
      ensures old(chunks) == [] ==>
                && isRecording == old(isRecording) && isProcessing == old(isProcessing) && history == old(history)
                && captureActive == old(captureActive) && playbackPending == old(playbackPending)
                && actions == old(actions)
      ensures old(chunks) != [] ==> !isProcessing && !isRecording && !captureActive
      ensures old(chunks) != [] && stt.Heard? && backend.Answered? ==>
                history == AppendTurn(old(history), stt.userMessage, backend.text)
      ensures !(stt.Heard? && backend.Answered?) ==> history == old(history)
      ensures old(chunks) != [] ==>
                actions == old(actions) + (if old(captureActive) then [CaptureStopped] else [])
                           + TurnActions(Flatten(old(chunks)), stt, backend, atob, playOk)
      ensures playbackPending == (old(playbackPending) || (old(chunks) != [] && Plays(stt, backend, atob, playOk)))
      ensures chunks == old(chunks) && silenceStart == old(silenceStart) && volume == old(volume)
    {
      if |chunks| == 0 {
        return;
      }
      ghost var stopped := actions + (if captureActive then [CaptureStopped] else []);
      var audioBlob := BeginTurn();
      HandleTranscript(stt, backend, atob, playOk);
      isProcessing := false;
      assert TurnActions(audioBlob, stt, backend, atob, playOk)
             == [TranscriptionRequested(audioBlob)] + TranscriptActions(stt, backend, atob, playOk);
    }

    /**
     * The part of `processAudio` before its first `await`: busy, not
     * recording, capture released, and the blob of every buffered chunk
     * turned into a binary string and sent for transcription.
     */
    method BeginTurn() returns (audio: seq<Byte>)
      requires Valid()
      modifies this
      ensures Valid()
      ensures audio == Flatten(old(chunks))
      ensures isProcessing && !isRecording && !captureActive
      ensures actions == old(actions) + (if old(captureActive) then [CaptureStopped] else [])
                         + [TranscriptionRequested(audio)]
      ensures chunks == old(chunks) && silenceStart == old(silenceStart) && volume == old(volume)
      ensures history == old(history) && playbackPending == old(playbackPending)
    {
      isProcessing := true;
      isRecording := false;
      StopRecording();
      audio := Flatten(chunks);
      var binary := BytesToBinaryString(audio);
      actions := actions + [TranscriptionRequested(audio)];
    }

    /** What follows the transcription: the backend request, the history update and the playback. */
    method HandleTranscript(stt: SpeechToText, backend: BackendReply, atob: string -> Option<string>, playOk: bool)
      requires Valid()
      modifies this
      ensures Valid()
      ensures stt.Heard? && backend.Answered? ==> history == AppendTurn(old(history), stt.userMessage, backend.text)
      ensures !(stt.Heard? && backend.Answered?) ==> history == old(history)
      ensures actions == old(actions) + TranscriptActions(stt, backend, atob, playOk)
      ensures playbackPending == (old(playbackPending) || Plays(stt, backend, atob, playOk))
      ensures isRecording == old(isRecording) && isProcessing == old(isProcessing) && captureActive == old(captureActive)
      ensures chunks == old(chunks) && silenceStart == old(silenceStart) && volume == old(volume)
    {
      match stt {
        case SpeechToTextFailed =>
        case Heard(userMessage) =>
          actions := actions + [ReplyRequested(userMessage)];
          match backend {
            case BackendFailed =>
            case Answered(aiText, audioBase64) =>
              AppendTurnKeepsShape(history, userMessage, aiText);
              history := AppendTurn(history, userMessage, aiText);
              match atob(audioBase64) {
                case None =>
                case Some(decoded) =>
                  var bytes := BinaryStringToBytes(decoded);
                  if playOk {
                    actions := actions + [PlaybackStarted(bytes)];
                    playbackPending := true;
                  }
              }
          }
      }
    }

    /** `audio.onended`: playback is over and recording starts again. */
    method OnPlaybackEnded(granted: bool)
      requires Valid() && playbackPending
      modifies this
      ensures Valid()
      ensures !playbackPending && chunks == [] && silenceStart == None
      ensures granted ==> isRecording && captureActive && actions == old(actions) + [CaptureStarted]
      ensures !granted ==> isRecording == old(isRecording) && actions == old(actions)
      ensures isProcessing == old(isProcessing) && history == old(history)
    {
      playbackPending := false;
      StartRecording(granted);
    }
  }

  /** Whether a turn reaches playback: transcript, answer, decodable audio, and `play()` resolving. */
  predicate Plays(stt: SpeechToText, backend: BackendReply, atob: string -> Option<string>, playOk: bool)
  {
    stt.Heard? && backend.Answered? && atob(backend.audio).Some? && playOk
  }

  /** The requests and playback that follow the transcription request. */
  function TranscriptActions(stt: SpeechToText, backend: BackendReply, atob: string -> Option<string>, playOk: bool): seq<Action>
  {
    if stt.Heard? then
      [ReplyRequested(stt.userMessage)]
      + (if Plays(stt, backend, atob, playOk) then [PlaybackStarted(CharCodes(atob(backend.audio).value))] else [])
    else []
  }

  /**
   * The requests and playback of one turn on `audio`: transcription, then the
   * transcript to the backend, then the answer's audio, byte for byte as
   * `atob` decoded it.
   */
  function TurnActions(audio: seq<Byte>, stt: SpeechToText, backend: BackendReply,
                       atob: string -> Option<string>, playOk: bool): (r: seq<Action>)
    ensures |r| >= 1 && r[0] == TranscriptionRequested(audio)
    ensures (exists u :: ReplyRequested(u) in r) <==> stt.Heard?
    ensures (exists b :: PlaybackStarted(b) in r) <==> Plays(stt, backend, atob, playOk)
    ensures forall b :: PlaybackStarted(b) in r ==> b == CharCodes(atob(backend.audio).value)
    ensures CaptureStarted !in r && CaptureStopped !in r
  {
    [TranscriptionRequested(audio)] + TranscriptActions(stt, backend, atob, playOk)
  }
}
