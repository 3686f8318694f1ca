/**
 * The always-listening component (voice-chatbot/components/voice-chatbot-realistic.tsx).
 * Once silence has lasted strictly more than 1500 ms, a 200 ms settle timer
 * is armed; when it fires, the buffered utterance is sealed and transcribed,
 * the reply is streamed in, and recording resumes whatever happened.
 *
 * Timers are explicit handles: arming one adds it to `liveTimers`,
 * `clearTimeout` removes it, and firing is the method `TimerFires`.
 */
module RealisticChatbot {
  import opened Common
  import opened SilenceDetector
  import opened ServerSentEvents

  /** `silenceStartRef.current`, and whether `silenceTimeoutRef.current` holds a timer. */
  datatype Settle = Settle(silenceStart: Option<int>, timerPending: bool)

  /**
   * The silence effect of this variant. While listening and not processing,
   * it is the latched detector of the hook with threshold 0.05 and timeout
   * 1500, the pending timer playing the latched flag; otherwise, and on any
   * loud sample, the timestamp is dropped and a pending timer cancelled.
   */
  function SettleStep(st: Settle, s: Sample, listening: bool, processing: bool): (r: Settle)
    ensures listening && !processing ==>
              var l := LatchStep(Latch(st.silenceStart, st.timerPending), s, QuietThreshold, SustainMs);
              r == Settle(l.silenceStart, l.detected)
    ensures !listening || processing || s.volume >= QuietThreshold ==> r == Settle(None, false)
    ensures r.timerPending && !st.timerPending ==>
              && s.volume < QuietThreshold && listening && !processing
              && st.silenceStart.Some? && s.now - st.silenceStart.value > SustainMs
  {
    if s.volume < QuietThreshold && listening && !processing then
      if st.silenceStart.None? then Settle(Some(s.now), st.timerPending)
      else if s.now - st.silenceStart.value > SustainMs && !st.timerPending then Settle(st.silenceStart, true)
      else st
    else Settle(None, false)
  }

  /** The effect's state after a run of samples taken with fixed `listening` and `processing`. */
  function SettleAfter(st: Settle, samples: seq<Sample>, listening: bool, processing: bool): Settle
  {
    if samples == [] then st
    else SettleStep(SettleAfter(st, samples[..|samples| - 1], listening, processing), samples[|samples| - 1], listening, processing)
  }

  /**
   * From a fresh state, while listening and not processing, a settle timer is
   * pending after a run of samples exactly when the run ends in quiet samples
   * and one of them came strictly more than 1500 ms after the first of them.
   */
  lemma {:induction false} SettleArmsAfterSustain(samples: seq<Sample>)
    ensures var k := QuietRunStart(samples, QuietThreshold);
            var st := SettleAfter(Settle(None, false), samples, true, false);
            && st.silenceStart == (if k == |samples| then None else Some(samples[k].now))
            && (st.timerPending <==> exists j :: k < j < |samples| && samples[j].now - samples[k].now > SustainMs)
  {
    SettleIsLatch(samples);
    LatchDetectsSustainedSilence(samples, QuietThreshold, SustainMs);
  }

  lemma {:induction false} SettleIsLatch(samples: seq<Sample>)
    ensures var st := SettleAfter(Settle(None, false), samples, true, false);
            var l := LatchAfter(Cleared, samples, QuietThreshold, SustainMs);
            st == Settle(l.silenceStart, l.detected)
  {
    if samples != [] {
      SettleIsLatch(samples[..|samples| - 1]);
    }
  }

  /**
   * How a streamed chat request ends: a failure raising an error with
   * `message`; an `ok` response without a body; or the decoded chunks the
   * reader delivered, and, if a read then failed, that error's message.
   */
  datatype StreamedReply =
    | ReplyFailed(message: string)
    | NoBody
    | Streamed(chunks: seq<string>, readFailure: Option<string>)

  /** A transcript worth answering: present and not only whitespace. */
  predicate HeardSpeech(t: Transcription)
  {
    t.Transcribed? && t.text.Some? && !Blank(t.text.value)
  }

  /**
   * The remote requests of one turn on `audio`: the transcription, then a
   * reply request carrying the transcript exactly when it holds speech.
   */
  function TurnRequests(audio: seq<Byte>, t: Transcription): (r: seq<Action>)
    ensures |r| >= 1 && r[0] == TranscriptionRequested(audio)
    ensures (exists u :: ReplyRequested(u) in r) <==> HeardSpeech(t)
    ensures forall u :: ReplyRequested(u) in r ==> u == t.text.value && !Blank(u)
    ensures CaptureStarted !in r && CaptureStopped !in r
  {
    [TranscriptionRequested(audio)] + (if HeardSpeech(t) then [ReplyRequested(t.text.value)] else [])
  }

  /** The text shown when a transcript holds no speech. */
  const NoSpeech: string := "(No speech detected)"

  /** What the component shows: the last transcript, the reply and the error. */
  datatype Display = Display(transcription: Option<string>, response: string, error: Option<string>)

  /**
   * What reading the chat response shows: a failure as the error; a readable
   * body replaces the response with the text of every delta in arrival order,
   * and a read that fails part-way shows its error after what was read.
   */
  function ReplyDisplay(d: Display, reply: StreamedReply, deltaOf: string -> Delta): (r: Display)
    ensures r.transcription == d.transcription
    ensures reply.ReplyFailed? ==> r == d.(error := Some(reply.message))
    ensures reply.NoBody? ==> r == d
    ensures reply.Streamed? ==> r.response == StreamContent(reply.chunks, deltaOf)
    ensures reply.Streamed? && reply.readFailure.None? ==> r.error == d.error
    ensures reply.Streamed? && reply.readFailure.Some? ==> r.error == reply.readFailure
  {
    match reply
    case ReplyFailed(message) => d.(error := Some(message))
    case NoBody => d
    case Streamed(decoded, readFailure) =>
      d.(response := StreamContent(decoded, deltaOf), error := if readFailure.Some? then readFailure else d.error)
  }

  /**
   * What a turn shows once its transcription request is answered: a failure
   * as the error, with transcript and reply kept; "(No speech detected)" for
   * a transcript without speech, with the reply kept; otherwise the
   * transcript, and what the reply shows.
   */
  function TurnDisplay(d: Display, t: Transcription, reply: StreamedReply, deltaOf: string -> Delta): (r: Display)
    ensures t.TranscriptionFailed? ==> r == d.(error := Some(t.message))
    ensures t.Transcribed? && !HeardSpeech(t) ==> r == d.(transcription := Some(NoSpeech))
    ensures HeardSpeech(t) ==> r == ReplyDisplay(d.(transcription := t.text), reply, deltaOf)
    ensures HeardSpeech(t) ==> r.transcription == t.text && !Blank(r.transcription.value)
  {
    match t
    case TranscriptionFailed(message) => d.(error := Some(message))
    case Transcribed(text) =>
      if text.None? || Blank(text.value) then d.(transcription := Some(NoSpeech))
      else ReplyDisplay(d.(transcription := text), reply, deltaOf)
  }

  /** The message shown when the microphone is refused. */
  const MicrophoneRefused: string := "Could not access microphone. Please ensure you have granted microphone permissions."

  class RealisticChatbot {
    var isListening: bool
    var volume: real
    var response: string
    var error: Option<string>
    var transcription: Option<string>
    /** `streamRef.current` is set. */
    var hasStream: bool
    /** `mediaRecorderRef.current` exists and is not "inactive". */
    var recorderActive: bool
    /** `audioChunksRef.current`. */
    var chunks: seq<Chunk>
    /** `processingRef.current`. */
    var processing: bool
    /** `silenceStartRef.current`. */
    var silenceStart: Option<int>
    /** `silenceTimeoutRef.current`. */
    var timerRef: Option<nat>
    /** The timers armed and neither fired nor cancelled. */
    var liveTimers: set<nat>
    /** The handle the next `setTimeout` returns. */
    var nextHandle: nat
    var actions: seq<Action>

    /**
     * Only non-empty chunks are buffered, a recorder runs only on a stream,
     * and every live timer is the one the ref holds: no timer is orphaned.
     */
    ghost predicate Valid()
      reads this
    {
      && AllNonEmpty(chunks)
      && (recorderActive ==> hasStream)
      && (forall h :: h in liveTimers ==> timerRef == Some(h))
      && (timerRef.Some? ==> timerRef.value < nextHandle)
    }

    /** The effect's state as the pure model sees it. */
    function SettleState(): Settle
      reads this
    {
      Settle(silenceStart, timerRef.Some?)
    }

    /** What the component shows. */
    function Shown(): Display
      reads this
    {
      Display(transcription, response, error)
    }

    /** At most one timer is ever pending. */
    lemma AtMostOneLiveTimer()
      requires Valid()
      ensures |liveTimers| <= 1
      ensures liveTimers != {} ==> liveTimers == {timerRef.value}
    {
      if liveTimers != {} {
        var h :| h in liveTimers;
        assert liveTimers == {h} by {
          forall g | g in liveTimers
            ensures g == h
          {
            assert timerRef == Some(g);
          }
        }
      }
    }

    constructor ()
      ensures Valid()
      ensures !isListening && volume == 0.0 && response == "" && error == None && transcription == None
      ensures !hasStream && !recorderActive && chunks == [] && !processing
      ensures SettleState() == Settle(None, false) && liveTimers == {} && actions == []
    {
      isListening, volume, response, error, transcription := false, 0.0, "", None, None;
      hasStream, recorderActive, chunks, processing := false, false, [], false;
      silenceStart, timerRef, liveTimers, nextHandle, actions := None, None, {}, 0, [];
    }

    /** `initializeAudio`, run on mount; `granted` is whether `getUserMedia` resolved. */
    method InitializeAudio(granted: bool)
      requires Valid()
      modifies this
      ensures Valid()
      ensures granted ==> error == None && hasStream && recorderActive && isListening
                          && actions == old(actions) + [CaptureStarted]
      ensures !granted ==> error == Some(MicrophoneRefused) && hasStream == old(hasStream)
                           && recorderActive == old(recorderActive) && isListening == old(isListening)
                           && actions == old(actions)
      ensures chunks == old(chunks) && processing == old(processing) && SettleState() == old(SettleState())
      ensures liveTimers == old(liveTimers) && response == old(response) && transcription == old(transcription)
    {
      error := None;
      if granted {
        hasStream := true;
        recorderActive := true;
        actions := actions + [CaptureStarted];
        isListening := true;
      } else {
        error := Some(MicrophoneRefused);
      }
    }

    /** `processor.onaudioprocess`: the volume of the analyser frame. */
    method OnAudioProcess(frame: seq<Byte>)
      requires Valid() && |frame| > 0
      modifies this
      ensures Valid()
      ensures volume == Sum(frame) as real / (|frame| as real * 255.0)
      ensures isListening == old(isListening) && processing == old(processing) && chunks == old(chunks)
      ensures SettleState() == old(SettleState()) && liveTimers == old(liveTimers)
      ensures recorderActive == old(recorderActive) && actions == old(actions)
    {
      volume := CalculateVolume(frame);
    }

    /** `mediaRecorder.ondataavailable`, as installed by `initializeAudio` and `restartRecording`. */
    method OnDataAvailable(data: Chunk)
      requires Valid()
      modifies this
      ensures Valid()
      ensures chunks == PushNonEmpty(old(chunks), data)
      ensures isListening == old(isListening) && processing == old(processing)
      ensures SettleState() == old(SettleState()) && liveTimers == old(liveTimers)
      ensures recorderActive == old(recorderActive) && actions == old(actions)
    {
      if |data| > 0 {
        chunks := chunks + [data];
      }
    }

    /**
     * The silence effect, run at time `now` after `volume` or `isListening`
     * changed: it arms a settle timer only when none is pending, and cancels
     * the pending one whenever it drops the timestamp.
     */
    method DetectSilence(now: int)
      requires Valid()
      modifies this
      ensures Valid()
      ensures SettleState() == SettleStep(old(SettleState()), Sample(volume, now), isListening, processing)
      ensures !old(SettleState()).timerPending && SettleState().timerPending ==>
                liveTimers == old(liveTimers) + {timerRef.value} && timerRef.value !in old(liveTimers)
      ensures old(SettleState()).timerPending && !SettleState().timerPending ==>
                liveTimers == old(liveTimers) - {old(timerRef).value}
      ensures old(SettleState()).timerPending == SettleState().timerPending ==>
                liveTimers == old(liveTimers) && timerRef == old(timerRef)
      ensures isListening == old(isListening) && processing == old(processing) && volume == old(volume)
      ensures chunks == old(chunks) && recorderActive == old(recorderActive) && actions == old(actions)
    {
      if volume < 0.05 && isListening && !processing {
        if silenceStart.None? {
          silenceStart := Some(now);
        } else if now - silenceStart.value > 1500 && timerRef.None? {
          var handle := nextHandle;
          nextHandle := nextHandle + 1;
          liveTimers := liveTimers + {handle};
          timerRef := Some(handle);
        }
      } else {
        silenceStart := None;
        if timerRef.Some? {
          liveTimers := liveTimers - {timerRef.value};
          timerRef := None;
        }
      }
    }

    /**
     * `restartRecording`: a new recorder is started only when a stream exists
     * and no recorder is active; listening resumes and processing ends on
     * every path.
     */
    method RestartRecording()
      requires AllNonEmpty(chunks) && (recorderActive ==> hasStream)
      modifies this
      ensures isListening && !processing
      ensures recorderActive == (old(recorderActive) || hasStream)
      ensures actions == old(actions) + (if hasStream && !old(recorderActive) then [CaptureStarted] else [])
      ensures hasStream == old(hasStream) && chunks == old(chunks) && volume == old(volume)
      ensures silenceStart == old(silenceStart) && timerRef == old(timerRef) && liveTimers == old(liveTimers)
      ensures nextHandle == old(nextHandle) && response == old(response)
      ensures error == old(error) && transcription == old(transcription)
    {
      if hasStream && !recorderActive {
        recorderActive := true;
        actions := actions + [CaptureStarted];
      }
      isListening := true;
      processing := false;
    }

    /**
     * The reading of the chat response, once the transcript was accepted: a
     * failure is shown as the error; a readable body first clears the
     * response, which then holds the text of every delta in arrival order.
     */
    method ReceiveReply(reply: StreamedReply, deltaOf: string -> Delta)
      modifies this
      ensures Shown() == ReplyDisplay(old(Shown()), reply, deltaOf)
      ensures isListening == old(isListening) && processing == old(processing) && chunks == old(chunks)
      ensures hasStream == old(hasStream) && recorderActive == old(recorderActive) && actions == old(actions)
      ensures SettleState() == old(SettleState()) && timerRef == old(timerRef) && liveTimers == old(liveTimers)
      ensures nextHandle == old(nextHandle)
      ensures volume == old(volume) && transcription == old(transcription)
    {
      ghost var before := Shown();
      match reply {
        case ReplyFailed(message) =>
          error := Some(message);
        case NoBody =>
        case Streamed(decoded, readFailure) =>
          response := "";
          var added := ReadStream(decoded, deltaOf);
          response := response + added;
          if readFailure.Some? {
            error := readFailure;
          }
          assert Shown() == before.(response := added, error := if readFailure.Some? then readFailure else before.error);
      }
    }

    /**
     * What follows the transcription request: a failure is shown as the error;
     * a transcript without speech shows "(No speech detected)" and resumes
     * recording at once; a transcript with speech is shown and a reply asked
     * for with it.
     */
    method HandleTranscript(t: Transcription, reply: StreamedReply, deltaOf: string -> Delta)
      requires AllNonEmpty(chunks) && !recorderActive
      modifies this
      ensures AllNonEmpty(chunks) && (recorderActive ==> hasStream)
      ensures recorderActive == (t.Transcribed? && !HeardSpeech(t) && hasStream)
      ensures actions == old(actions) + (if HeardSpeech(t) then [ReplyRequested(t.text.value)] else [])
                         + (if recorderActive then [CaptureStarted] else [])
      ensures Shown() == TurnDisplay(old(Shown()), t, reply, deltaOf)
      ensures chunks == old(chunks) && hasStream == old(hasStream) && volume == old(volume)
      ensures SettleState() == old(SettleState()) && timerRef == old(timerRef) && liveTimers == old(liveTimers)
      ensures nextHandle == old(nextHandle)
    {
      match t {
        case TranscriptionFailed(message) =>
          error := Some(message);
        case Transcribed(text) =>
          if text.None? || Blank(text.value) {
            transcription := Some(NoSpeech);
            RestartRecording();
          } else {
            transcription := text;
            actions := actions + [ReplyRequested(text.value)];
            ReceiveReply(reply, deltaOf);
          }
      }
    }

    /** The recorder is stopped when it exists and is not inactive. */
    method StopRecorder()
      modifies this
      ensures !recorderActive
      ensures actions == old(actions) + (if old(recorderActive) then [CaptureStopped] else [])
      ensures isListening == old(isListening) && volume == old(volume) && response == old(response)
      ensures error == old(error) && transcription == old(transcription) && hasStream == old(hasStream)
      ensures chunks == old(chunks) && processing == old(processing) && silenceStart == old(silenceStart)
      ensures timerRef == old(timerRef) && liveTimers == old(liveTimers) && nextHandle == old(nextHandle)
    {
      if recorderActive {
        recorderActive := false;
        actions := actions + [CaptureStopped];
      }
    }

    /**
     * The part of `processAudioChunks` that runs before its first `await`: the
     * turn is marked busy and the error cleared, the recorder is stopped, and
     * the whole buffer is sealed into one blob, emptied, and sent for
     * transcription.
     */
    method BeginTurn() returns (audio: seq<Byte>)
      requires Valid()
      modifies this
      ensures audio == Flatten(old(chunks))
      ensures processing && chunks == [] && !recorderActive && Shown() == old(Shown()).(error := None)
      ensures actions == old(actions) + (if old(recorderActive) then [CaptureStopped] else [])
                         + [TranscriptionRequested(audio)]
      ensures Valid()
      ensures hasStream == old(hasStream) && isListening == old(isListening) && volume == old(volume)
      ensures SettleState() == old(SettleState()) && timerRef == old(timerRef) && liveTimers == old(liveTimers)
      ensures nextHandle == old(nextHandle)
    {
      processing := true;
      error := None;
      StopRecorder();
      audio := Flatten(chunks);
      chunks := [];
      actions := actions + [TranscriptionRequested(audio)];
    }

    /**
     * `processAudioChunks`: nothing happens when the buffer is empty or a turn
     * is already running. Otherwise the turn is marked busy, the recorder is
     * stopped before any request, the whole buffer is sealed into one blob and
     * emptied, and the blob is transcribed. A transcript that is missing or
     * only whitespace shows "(No speech detected)" and asks for no reply.
     * Otherwise the transcript is shown and a streamed reply asked for (see
     * `ReceiveReply`). On every path recording resumes (once, whatever the
     * number of restart calls) and processing ends.
     */
    method ProcessAudioChunks(t: Transcription, reply: StreamedReply, deltaOf: string -> Delta)
      requires Valid()
      modifies this
      ensures Valid()
      ensures old(chunks) == [] || old(processing) ==>
                && chunks == old(chunks) && processing == old(processing) && isListening == old(isListening)
                && recorderActive == old(recorderActive) && actions == old(actions)
                && error == old(error) && response == old(response) && transcription == old(transcription)
      ensures old(chunks) != [] && !old(processing) ==>
                && chunks == [] && !processing && isListening && recorderActive == hasStream
                && actions == old(actions) + (if old(recorderActive) then [CaptureStopped] else [])
                              + TurnRequests(Flatten(old(chunks)), t)
                              + (if hasStream then [CaptureStarted] else [])
      ensures old(chunks) != [] && !old(processing) ==>
                Shown() == TurnDisplay(old(Shown()).(error := None), t, reply, deltaOf)
      ensures hasStream == old(hasStream) && SettleState() == old(SettleState()) && liveTimers == old(liveTimers)
      ensures volume == old(volume)
    {
      if |chunks| == 0 || processing {
        return;
      }
      ghost var stopped := actions + (if recorderActive then [CaptureStopped] else []);
      var audioBlob := BeginTurn();
      FinishTurn(t, reply, deltaOf);
      ghost var asked := if HeardSpeech(t) then [ReplyRequested(t.text.value)] else [];
      assert TurnRequests(audioBlob, t) == [TranscriptionRequested(audioBlob)] + asked;
    }

    /**
     * Everything after the transcription request: the transcript is handled
     * and then `finally` restarts recording, which starts a recorder only if
     * the transcript handling did not already.
     */
    method FinishTurn(t: Transcription, reply: StreamedReply, deltaOf: string -> Delta)
      requires AllNonEmpty(chunks) && !recorderActive
      modifies this
      ensures AllNonEmpty(chunks) && !processing && isListening && recorderActive == hasStream
      ensures actions == old(actions) + (if HeardSpeech(t) then [ReplyRequested(t.text.value)] else [])
                         + (if hasStream then [CaptureStarted] else [])
      ensures Shown() == TurnDisplay(old(Shown()), t, reply, deltaOf)
      ensures chunks == old(chunks) && hasStream == old(hasStream) && volume == old(volume)
      ensures SettleState() == old(SettleState()) && timerRef == old(timerRef) && liveTimers == old(liveTimers)
      ensures nextHandle == old(nextHandle)
    {
      HandleTranscript(t, reply, deltaOf);
      RestartRecording();
    }

    /**
     * A pending settle timer fires: the callback runs `processAudioChunks()`
     * and then drops both the timer ref and the timestamp.
     */
    method TimerFires(handle: nat, t: Transcription, reply: StreamedReply, deltaOf: string -> Delta)
      requires Valid() && handle in liveTimers
      modifies this
      ensures Valid()
      ensures SettleState() == Settle(None, false) && liveTimers == {}
      ensures old(chunks) != [] && !old(processing) ==>
                && chunks == [] && !processing && isListening && recorderActive == hasStream
                && actions == old(actions) + (if old(recorderActive) then [CaptureStopped] else [])
                              + TurnRequests(Flatten(old(chunks)), t)
                              + (if hasStream then [CaptureStarted] else [])
                && Shown() == TurnDisplay(old(Shown()).(error := None), t, reply, deltaOf)
      ensures old(chunks) == [] || old(processing) ==>
                && chunks == old(chunks) && processing == old(processing) && isListening == old(isListening)
                && recorderActive == old(recorderActive) && actions == old(actions) && Shown() == old(Shown())
      ensures hasStream == old(hasStream) && volume == old(volume)
    {
      AtMostOneLiveTimer();
      liveTimers := liveTimers - {handle};
      ProcessAudioChunks(t, reply, deltaOf);
      timerRef := None;
      silenceStart := None;
    }
  }
}
