/**
 * The `useAudioRecorder` hook (voice-chatbot/hooks/use-audio-recorder.ts):
 * its refs become fields that the callbacks update in place. The browser's
 * microphone, audio graph and `MediaRecorder` are reduced to whether the
 * recorder is active; `Date.now()` is the `now` parameter.
 */
module AudioRecorderHook {
  import opened Common
  import opened SilenceDetector

  /** Default `silenceThreshold` and `silenceTimeout` of the hook. */
  const DefaultThreshold: real := 0.05
  const DefaultTimeout: int := 1500

  class AudioRecorder {
    const silenceThreshold: real
    const silenceTimeout: int

    var isRecording: bool
    var volume: real
    var error: Option<string>
    /** `mediaRecorderRef.current` exists and its state is not "inactive". */
    var recorderActive: bool
    /** `audioChunksRef.current`. */
    var chunks: seq<Chunk>
    /** `silenceStartRef.current`. */
    var silenceStart: Option<int>
    /** `silenceDetectedRef.current`. */
    var silenceDetected: bool

    /**
     * What the callbacks keep true: only non-empty chunks are buffered, and the
     * flag is never set without a recorded silence start.
     */
    ghost predicate Valid()
      reads this
    {
      AllNonEmpty(chunks) && (silenceStart.None? ==> !silenceDetected)
    }

    /** The detector's state as the pure model sees it. */
    function Detector(): Latch
      reads this
    {
      Latch(silenceStart, silenceDetected)
    }

    constructor (silenceThreshold: real, silenceTimeout: int)
      ensures Valid()
      ensures this.silenceThreshold == silenceThreshold && this.silenceTimeout == silenceTimeout
      ensures !isRecording && !recorderActive && volume == 0.0 && error == None
      ensures chunks == [] && Detector() == Cleared
    {
      this.silenceThreshold := silenceThreshold;
      this.silenceTimeout := silenceTimeout;
      isRecording, volume, error, recorderActive := false, 0.0, None, false;
      chunks, silenceStart, silenceDetected := [], None, false;
    }

    /**
     * `startRecording`: the error and the chunk buffer are reset before the
     * microphone is requested; `denial` is the reason `getUserMedia` rejected,
     * if it did. The silence refs are not reset here.
     */
    method StartRecording(denial: Option<string>)
      requires Valid()
      modifies this
      ensures Valid()
      ensures chunks == []
      ensures denial.None? ==> error == None && recorderActive && isRecording
      ensures denial.Some? ==> error == Some("Could not start recording: " + denial.value)
                               && recorderActive == old(recorderActive) && isRecording == old(isRecording)
      ensures Detector() == old(Detector()) && volume == old(volume)
    {
      error := None;
      chunks := [];
      if denial.None? {
        recorderActive := true;
        isRecording := true;
      } else {
        error := Some("Could not start recording: " + denial.value);
      }
    }

    /**
     * `processor.onaudioprocess`: the volume of the analyser frame is computed
     * and the detector takes one step with it.
     */
    method OnAudioProcess(frame: seq<Byte>, now: int)
      requires Valid() && |frame| > 0
      modifies this
      ensures Valid()
      ensures volume == Sum(frame) as real / (|frame| as real * 255.0)
      ensures Detector() == LatchStep(old(Detector()), Sample(volume, now), silenceThreshold, silenceTimeout)
      ensures chunks == old(chunks) && isRecording == old(isRecording)
      ensures recorderActive == old(recorderActive) && error == old(error)
    {
      var currentVolume := CalculateVolume(frame);
      volume := currentVolume;
      if currentVolume < silenceThreshold {
        if silenceStart.None? {
          silenceStart := Some(now);
        } else if now - silenceStart.value > silenceTimeout && !silenceDetected {
          silenceDetected := true;
        }
      } else {
        silenceStart := None;
        silenceDetected := false;
      }
    }

    /** `mediaRecorder.ondataavailable`: only a chunk holding bytes is pushed. */
    method OnDataAvailable(data: Chunk)
      requires Valid()
      modifies this
      ensures Valid()
      ensures chunks == PushNonEmpty(old(chunks), data)
      ensures Detector() == old(Detector()) && isRecording == old(isRecording)
      ensures recorderActive == old(recorderActive) && volume == old(volume) && error == old(error)
    {
      if |data| > 0 {
        chunks := chunks + [data];
      }
    }

    /** `stopRecording`: the recorder is stopped if active; the buffer is kept. */
    method StopRecording()
      requires Valid()
      modifies this
      ensures Valid()
      ensures !recorderActive && !isRecording
      ensures chunks == old(chunks) && Detector() == old(Detector())
      ensures volume == old(volume) && error == old(error)
    {
      if recorderActive {
        recorderActive := false;
      }
      isRecording := false;
    }

    /**
     * `getAudioBlob`: nothing when no chunk was buffered, otherwise one blob
     * holding every buffered chunk in push order, which then holds at least
     * one byte.
     */
    method GetAudioBlob() returns (blob: Option<seq<Byte>>)
      requires Valid()
      ensures blob.None? <==> chunks == []
      ensures blob.Some? ==> blob.value == Flatten(chunks) && blob.value != []
    {
      if |chunks| == 0 {
        return None;
      }
      FlattenEmpty(chunks);
      assert chunks[0] != [];
      blob := Some(Flatten(chunks));
    }

    /** `clearAudioChunks`. */
    method ClearAudioChunks()
      requires Valid()
      modifies this
      ensures Valid()
      ensures chunks == []
      ensures Detector() == old(Detector()) && isRecording == old(isRecording)
      ensures recorderActive == old(recorderActive) && volume == old(volume) && error == old(error)
    {
      chunks := [];
    }

    /** `isSilenceDetected`: the latched flag. */
    method IsSilenceDetected() returns (detected: bool)
      requires Valid()
      ensures detected == silenceDetected
      ensures detected ==> silenceStart.Some?
    {
      detected := silenceDetected;
    }

    /** `resetSilenceDetection`: both refs cleared; calling it again changes nothing more. */
    method ResetSilenceDetection()
      requires Valid()
      modifies this
      ensures Valid()
      ensures Detector() == Cleared
      ensures chunks == old(chunks) && isRecording == old(isRecording)
      ensures recorderActive == old(recorderActive) && volume == old(volume) && error == old(error)
    {
      silenceStart := None;
      silenceDetected := false;
    }

    /** `cleanup`: the recorder is stopped and recording is over; the graph's release is not modelled. */
    method Cleanup()
      requires Valid()
      modifies this
      ensures Valid()
      ensures !recorderActive && !isRecording
      ensures chunks == old(chunks) && Detector() == old(Detector())
      ensures volume == old(volume) && error == old(error)
    {
      if recorderActive {
        recorderActive := false;
      }
      isRecording := false;
    }
  }
}
