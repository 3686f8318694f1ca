/**
 * The base component (voice-chatbot/components/voice-chatbot.tsx): one
 * recording turn ends when the silence effect fires; the utterance is
 * transcribed, answered, and the answer is handed to the local
 * text-to-speech socket. Capture is never resumed after a turn.
 *
 * The microphone, audio graph and `MediaRecorder` are the single flag
 * `captureActive`; each remote request is recorded in `actions` together
 * with what it carries, and its outcome is a parameter.
 */
module BaseChatbot {
  import opened Common
  import opened SilenceDetector

  /**
   * The remote requests of one turn whose audio is `audio`, in the order
   * they are issued: transcription always; a chat request only for a
   * non-empty transcript; the reply text to the speech socket only when
   * it is non-empty and the socket is open.
   */
  function TurnRequests(audio: seq<Byte>, t: Transcription, c: ChatReply, socketOpen: bool): (r: seq<Action>)
    ensures |r| >= 1 && r[0] == TranscriptionRequested(audio)
    ensures (exists u :: ReplyRequested(u) in r) <==> t.Transcribed? && Truthy(t.text)
    ensures forall u :: ReplyRequested(u) in r ==> u == t.text.value
    ensures (exists x :: SpeechRequested(x) in r) <==>
              t.Transcribed? && Truthy(t.text) && c.ChatReplied? && Truthy(c.content) && socketOpen
    ensures forall x :: SpeechRequested(x) in r ==> x == c.content.value && x != ""
    ensures CaptureStarted !in r && CaptureStopped !in r
  {
    [TranscriptionRequested(audio)] + ChatRequests(t, c, socketOpen)
  }

  /**
   * The requests that follow the transcription request: none without a
   * non-empty transcript; otherwise the chat request carrying it, then the
   * speech request exactly when the answer is non-empty and the socket open.
   */
  function ChatRequests(t: Transcription, c: ChatReply, socketOpen: bool): (r: seq<Action>)
    ensures r == [] <==> !(t.Transcribed? && Truthy(t.text))
    ensures r != [] ==> r[0] == ReplyRequested(t.text.value)
    ensures |r| <= 2
    ensures |r| == 2 <==> t.Transcribed? && Truthy(t.text) && c.ChatReplied? && Truthy(c.content) && socketOpen
    ensures |r| == 2 ==> r[1] == SpeechRequested(c.content.value)
  {
    if t.Transcribed? && Truthy(t.text) then
      [ReplyRequested(t.text.value)]
      + (if c.ChatReplied? && Truthy(c.content) && socketOpen then [SpeechRequested(c.content.value)] else [])
    else []
  }

  class VoiceChatbot {
    var isRecording: bool
    var isProcessing: bool
    var volume: real
    /** `silenceStartRef.current`. */
    var silenceStart: Option<int>
    /** `audioChunksRef.current`. */
    var chunks: seq<Chunk>
    /** The microphone stream, audio graph and recorder are live. */
    var captureActive: bool
    /** Everything the component has done to the outside world, oldest first. */
    var actions: seq<Action>

    /** The recording flag mirrors the capture, and only non-empty chunks are buffered. */
    ghost predicate Valid()
      reads this
    {
      isRecording == captureActive && AllNonEmpty(chunks)
    }

    constructor ()
      ensures Valid()
      ensures !isRecording && !isProcessing && volume == 0.0 && silenceStart == None
      ensures chunks == [] && !captureActive && actions == []
    {
      isRecording, isProcessing, volume, silenceStart := false, false, 0.0, None;
      chunks, captureActive, actions := [], false, [];
    }

    /** `processor.onaudioprocess`: the volume of the analyser frame. */
    method OnAudioProcess(frame: seq<Byte>)
      requires Valid() && |frame| > 0
      modifies this
      ensures Valid()
      ensures volume == Sum(frame) as real / (|frame| as real * 255.0)
      ensures isRecording == old(isRecording) && isProcessing == old(isProcessing)
      ensures silenceStart == old(silenceStart) && chunks == old(chunks)
      ensures captureActive == old(captureActive) && actions == old(actions)
    {
      volume := CalculateVolume(frame);
    }

    /**
     * The silence-detection effect, run at time `now` after `volume`,
     * `isRecording` or `isProcessing` changed; `trigger` is whether it
     * calls `processAudio()`.
     */
    method DetectSilence(now: int) returns (trigger: bool)
      requires Valid()
      modifies this
      ensures Valid()
      ensures EffectResult(silenceStart, trigger)
              == SilenceEffect(isRecording, isProcessing, old(silenceStart), Sample(volume, now))
      ensures isRecording == old(isRecording) && isProcessing == old(isProcessing) && volume == old(volume)
      ensures chunks == old(chunks) && captureActive == old(captureActive) && actions == old(actions)
    {
      trigger := false;
      if !isRecording || isProcessing {
        return;
      }
      if volume < 0.05 {
        if silenceStart.None? {
          silenceStart := Some(now);
        } else if now - silenceStart.value > 1500 {
          trigger := true;
        }
      } else {
        silenceStart := None;
      }
    }

    /** `mediaRecorder.ondataavailable`. */
    method OnDataAvailable(data: Chunk)
      requires Valid()
      modifies this
      ensures Valid()
      ensures chunks == PushNonEmpty(old(chunks), data)
      ensures isRecording == old(isRecording) && isProcessing == old(isProcessing) && volume == old(volume)
      ensures silenceStart == old(silenceStart) && captureActive == old(captureActive) && actions == old(actions)
    {
      if |data| > 0 {
        chunks := chunks + [data];
      }
    }

    /**
     * `startRecording`: the buffer and the silence timestamp are reset before
     * the microphone is asked for; `granted` is whether `getUserMedia`
     * resolved, and a refusal is only logged.
     */
    method StartRecording(granted: bool)
      requires Valid()
      modifies this
      ensures Valid()
      ensures chunks == [] && silenceStart == None
      ensures granted ==> isRecording && captureActive && actions == old(actions) + [CaptureStarted]
      ensures !granted ==> isRecording == old(isRecording) && captureActive == old(captureActive) && actions == old(actions)
      ensures isProcessing == old(isProcessing) && volume == old(volume)
    {
      chunks := [];
      silenceStart := None;
      if granted {
        captureActive := true;
        actions := actions + [CaptureStarted];
        isRecording := true;
      }
    }

    /** `stopRecording`: the recorder and the audio graph are released and recording is over. */
    method StopRecording()
      requires AllNonEmpty(chunks)
      modifies this
      ensures Valid()
      ensures !captureActive && !isRecording
      ensures actions == old(actions) + (if old(captureActive) then [CaptureStopped] else [])
      ensures isProcessing == old(isProcessing) && volume == old(volume)
      ensures silenceStart == old(silenceStart) && chunks == old(chunks)
    {
      if captureActive {
        captureActive := false;
        actions := actions + [CaptureStopped];
      }
      isRecording := false;
    }

    /** `toggleRecording`: stop when recording or processing, otherwise start. */
    method ToggleRecording(granted: bool)
      requires Valid()
      modifies this
      ensures Valid()
      ensures old(isRecording) || old(isProcessing) ==>
                !isRecording && !captureActive && chunks == old(chunks) && silenceStart == old(silenceStart)
      ensures !old(isRecording) && !old(isProcessing) ==>
                isRecording == granted && captureActive == granted && chunks == [] && silenceStart == None
      ensures isProcessing == old(isProcessing)
      ensures actions == old(actions) + (if old(isRecording) || old(isProcessing)
                                         then (if old(captureActive) then [CaptureStopped] else [])
                                         else (if granted then [CaptureStarted] else []))
      ensures volume == old(volume)
    {
      if isRecording || isProcessing {
        StopRecording();
      } else {
        StartRecording(granted);
      }
    }

    /**
     * `processAudio`: with no buffered chunk nothing happens. Otherwise the
     * turn is marked busy and capture is released BEFORE the first request;
     * the blob of every buffered chunk is transcribed; an empty transcript ends
     * the turn; a reply is asked for and, when non-empty and the socket is
     * open, sent to the speech socket. Every exit leaves the turn not busy and
     * capture off; the buffer is kept.
     */
    method ProcessAudio(transcription: Transcription, chat: ChatReply, socketOpen: bool)
      requires Valid()
      modifies this
      ensures Valid()
      ensures old(chunks) == [] ==>
                && isRecording == old(isRecording) && isProcessing == old(isProcessing)
                && captureActive == old(captureActive) && actions == old(actions)
      ensures old(chunks) != [] ==>
                && !isProcessing && !isRecording && !captureActive
                && actions == old(actions) + (if old(captureActive) then [CaptureStopped] else [])
                              + TurnRequests(Flatten(old(chunks)), transcription, chat, socketOpen)
      ensures chunks == old(chunks) && silenceStart == old(silenceStart) && volume == old(volume)
    {
      if |chunks| == 0 {
        return;
      }
      isProcessing := true;
      isRecording := false;
      StopRecording();
      ghost var stopped := actions;
      var audioBlob := Flatten(chunks);
      actions := actions + [TranscriptionRequested(audioBlob)];
      HandleTranscript(transcription, chat, socketOpen);
      isProcessing := false;
      assert actions == stopped + TurnRequests(audioBlob, transcription, chat, socketOpen);
    }

    /**
     * What follows the transcription request: an empty transcript ends the
     * turn; otherwise a reply is asked for with it and, when the reply is
     * non-empty and the socket open, sent to the speech socket.
     */
    method HandleTranscript(transcription: Transcription, chat: ChatReply, socketOpen: bool)
      modifies this
      ensures actions == old(actions) + ChatRequests(transcription, chat, socketOpen)
      ensures isRecording == old(isRecording) && isProcessing == old(isProcessing) && captureActive == old(captureActive)
      ensures chunks == old(chunks) && silenceStart == old(silenceStart) && volume == old(volume)
    {
      match transcription {
        case TranscriptionFailed(_) =>
        case Transcribed(text) =>
          if !Truthy(text) {
            return;
          }
          actions := actions + [ReplyRequested(text.value)];
          match chat {
            case ChatFailed =>
            case ChatReplied(aiText) =>
              if Truthy(aiText) && socketOpen {
                actions := actions + [SpeechRequested(aiText.value)];
              }
          }
      }
    }
  }
}
