/**
 * The hook-based component (voice-chatbot/components/voice-chatbot-enhanced.tsx):
 * it records through `useAudioRecorder`, arms a 2000 ms timer while the
 * volume is low, and when the timer fires sends the recorded audio to
 * `/api/chat` and appends the streamed answer to the shown response.
 *
 * The timer's callback calls the `processAudio` of the render that armed
 * it, so the `isRecording` it tests is the value at arming time; it is kept
 * in `armedWhileRecording`.
 */
module EnhancedChatbot {
  import opened Common
  import opened AudioRecorderHook

  /**
   * How the `/api/chat` request ends: a failure (rejected or not `ok`); an
   * `ok` response without a body; or the decoded chunks read, and whether a
   * read then failed.
   */
  datatype ChatStream = RequestFailed | NoBody | Streamed(chunks: seq<string>, interrupted: bool)

  /** Whether the effect leaves a timer pending: volume below 0.05 while listening and not loading. */
  predicate WantsTimer(volume: real, listening: bool, loading: bool)
  {
    volume < 0.05 && listening && !loading
  }

  class EnhancedChatbot {
    const rec: AudioRecorder
    var isListening: bool
    var isLoading: bool
    var response: string
    /** `processingTimeoutRef.current`. */
    var timerRef: Option<nat>
    /** The `isRecording` seen by the render that armed the pending timer. */
    var armedWhileRecording: bool
    /** The `isRecording` seen by the render that ran the mount effect, which its cleanup tests. */
    var mountedWhileRecording: bool
    var liveTimers: set<nat>
    var nextHandle: nat
    var actions: seq<Action>

    /** The hook is consistent, and every live timer is the one the ref holds. */
    ghost predicate Valid()
      reads this, rec
    {
      && rec.Valid()
      && (forall h :: h in liveTimers ==> timerRef == Some(h))
      && (timerRef.Some? ==> timerRef.value < nextHandle)
    }

    constructor ()
      ensures Valid() && fresh(rec)
      ensures !isListening && !isLoading && response == "" && timerRef == None && liveTimers == {}
      ensures !rec.isRecording && rec.chunks == [] && actions == []
    {
      rec := new AudioRecorder(DefaultThreshold, DefaultTimeout);
      isListening, isLoading, response := false, false, "";
      timerRef, armedWhileRecording, liveTimers, nextHandle, actions := None, false, {}, 0, [];
      mountedWhileRecording := false;
    }

    /** The mount effect: start recording, then listen, whether or not the microphone was granted. */
    method Mount(micDenial: Option<string>)
      requires Valid()
      modifies this, rec
      ensures Valid()
      ensures isListening && rec.chunks == [] && (rec.isRecording <==> micDenial.None? || old(rec.isRecording))
      ensures isLoading == old(isLoading) && timerRef == old(timerRef) && liveTimers == old(liveTimers)
      ensures mountedWhileRecording == old(rec.isRecording)
      ensures actions == old(actions) && response == old(response)
    {
      mountedWhileRecording := rec.isRecording;
      rec.StartRecording(micDenial);
      isListening := true;
    }

    /**
     * The mount effect's cleanup, run at unmount: it stops recording only if
     * the render that mounted saw recording, and cancels a pending timer
     * (the ref keeps the cancelled handle). The hook's own cleanup, which is
     * `AudioRecorderHook.AudioRecorder.Cleanup`, is a separate step.
     */
    method Unmount()
      requires Valid()
      modifies this, rec
      ensures Valid()
      ensures liveTimers == {} && timerRef == old(timerRef)
      ensures old(mountedWhileRecording) ==> !rec.isRecording
      ensures !old(mountedWhileRecording) ==> rec.isRecording == old(rec.isRecording)
      ensures rec.chunks == old(rec.chunks) && isListening == old(isListening) && isLoading == old(isLoading)
      ensures response == old(response) && actions == old(actions)
    {
      if mountedWhileRecording {
        rec.StopRecording();
      }
      if timerRef.Some? {
        liveTimers := liveTimers - {timerRef.value};
      }
    }

    /**
     * The processing effect, run after `volume`, `isListening` or `isLoading`
     * changed: afterwards a timer is pending exactly when the volume is low
     * while listening and not loading; a pending timer is never replaced,
     * and one no longer wanted is cancelled.
     */
    method ProcessingEffect()
      requires Valid()
      modifies this
      ensures Valid()
      ensures timerRef.Some? <==> WantsTimer(rec.volume, isListening, isLoading)
      ensures old(timerRef).Some? && timerRef.Some? ==>
                timerRef == old(timerRef) && liveTimers == old(liveTimers) && armedWhileRecording == old(armedWhileRecording)
      ensures old(timerRef).None? && timerRef.Some? ==>
                timerRef.value !in old(liveTimers) && liveTimers == old(liveTimers) + {timerRef.value}
                && armedWhileRecording == rec.isRecording
      ensures timerRef.None? ==> liveTimers == {}
      ensures isListening == old(isListening) && isLoading == old(isLoading) && response == old(response)
      ensures actions == old(actions)
    {
      if rec.volume < 0.05 && isListening && !isLoading {
        if timerRef.None? {
          var handle := nextHandle;
          nextHandle := nextHandle + 1;
          liveTimers := liveTimers + {handle};
          timerRef := Some(handle);
          armedWhileRecording := rec.isRecording;
        }
      } else if timerRef.Some? {
        liveTimers := liveTimers - {timerRef.value};
        timerRef := None;
      }
    }

    /** The `while (true)` reader loop: every decoded chunk is appended to the response in arrival order. */
    method AppendStream(chunks: seq<string>)
      modifies this
      ensures response == old(response) + Flatten(chunks)
      ensures isListening == old(isListening) && isLoading == old(isLoading) && timerRef == old(timerRef)
      ensures liveTimers == old(liveTimers) && nextHandle == old(nextHandle) && actions == old(actions)
      ensures armedWhileRecording == old(armedWhileRecording)
    {
      var responseText := "";
      var i := 0;
      while i < |chunks|
        invariant 0 <= i <= |chunks|
        invariant responseText == Flatten(chunks[..i])
        invariant response == old(response) + responseText
        invariant isListening == old(isListening) && isLoading == old(isLoading) && timerRef == old(timerRef)
        invariant liveTimers == old(liveTimers) && nextHandle == old(nextHandle) && actions == old(actions)
        invariant armedWhileRecording == old(armedWhileRecording)
      {
        var chunk := chunks[i];
        assert chunks[..i + 1][..i] == chunks[..i];
        responseText := responseText + chunk;
        response := response + chunk;
        i := i + 1;
      }
      assert chunks[..|chunks|] == chunks;
    }

    /**
     * The body of `processAudio` from `setIsLoading(true)` to the end of the
     * `try` block: capture is stopped and listening ends; with no audio the
     * turn ends there; otherwise the audio is sent, the streamed answer is
     * appended, and, unless the request or a read failed, recording restarts
     * and listening resumes. `completed` is whether the `try` block ran to
     * its end.
     */
    method RunTurn(reply: ChatStream, micDenial: Option<string>) returns (completed: bool)
      requires Valid()
      modifies this, rec
      ensures Valid()
      ensures completed <==> old(rec.chunks) != [] && (reply.NoBody? || (reply.Streamed? && !reply.interrupted))
      ensures completed ==> isListening && rec.chunks == [] && (rec.isRecording <==> micDenial.None?)
      ensures !completed ==> !isListening && !rec.isRecording && rec.chunks == old(rec.chunks)
      ensures old(rec.chunks) == [] ==> actions == old(actions)
      ensures old(rec.chunks) != [] ==> actions == old(actions) + [TranscriptionRequested(Flatten(old(rec.chunks)))]
      ensures response == old(response) + (if old(rec.chunks) != [] && reply.Streamed? then Flatten(reply.chunks) else "")
      ensures isLoading == old(isLoading) && timerRef == old(timerRef) && liveTimers == old(liveTimers)
      ensures nextHandle == old(nextHandle)
    {
      rec.StopRecording();
      isListening := false;
      var audioBlob := rec.GetAudioBlob();
      completed := false;
      if audioBlob.None? {
        return;
      }
      actions := actions + [TranscriptionRequested(audioBlob.value)];
      match reply {
        case RequestFailed =>
          return;
        case NoBody =>
        case Streamed(chunks, interrupted) =>
          AppendStream(chunks);
          if interrupted {
            return;
          }
      }
      rec.StartRecording(micDenial);
      isListening := true;
      completed := true;
    }

    /**
     * `processAudio` AS WRITTEN. Its `finally` block tests the `isRecording`
     * of the render that armed the timer, which the guard has just found
     * true, so it never restarts anything: when there is no audio, or the
     * request or a read fails, the component is left neither recording nor
     * listening.
     */
    method ProcessAudioAsWritten(recordingSnapshot: bool, reply: ChatStream, micDenial: Option<string>)
      requires Valid()
      modifies this, rec
      ensures Valid()
      ensures !recordingSnapshot ==>
                && isListening == old(isListening) && isLoading == old(isLoading)
                && rec.isRecording == old(rec.isRecording) && actions == old(actions) && response == old(response)
      ensures recordingSnapshot ==> !isLoading
      ensures recordingSnapshot && (old(rec.chunks) == [] || reply.RequestFailed? || (reply.Streamed? && reply.interrupted)) ==>
                !isListening && !rec.isRecording
      ensures recordingSnapshot && old(rec.chunks) != [] && (reply.NoBody? || (reply.Streamed? && !reply.interrupted)) ==>
                isListening && (rec.isRecording <==> micDenial.None?)
      ensures recordingSnapshot ==>
                response == old(response) + (if old(rec.chunks) != [] && reply.Streamed? then Flatten(reply.chunks) else "")
      ensures recordingSnapshot ==>
                actions == old(actions) + (if old(rec.chunks) != [] then [TranscriptionRequested(Flatten(old(rec.chunks)))] else [])
      ensures timerRef == old(timerRef) && liveTimers == old(liveTimers)
    {
      if !recordingSnapshot {
        return;
      }
      isLoading := true;
      var completed := RunTurn(reply, micDenial);
      isLoading := false;
      // The restart `if (!isRecording)` guards: the guard above found this
      // same snapshot true, so the branch is dead.
      if !recordingSnapshot {
        assert false;
      }
    }

    /**
     * `processAudio` as its `finally` block evidently means it: it tests
     * whether recording is stopped NOW and, if so, restarts it and resumes
     * listening. After any turn that passed the guard, the component is
     * listening, not loading, and recording unless the microphone was refused.
     */
    method ProcessAudio(recordingSnapshot: bool, reply: ChatStream, micDenial: Option<string>)
      requires Valid()
      modifies this, rec
      ensures Valid()
      ensures !recordingSnapshot ==>
                && isListening == old(isListening) && isLoading == old(isLoading)
                && rec.isRecording == old(rec.isRecording) && actions == old(actions) && response == old(response)
      ensures recordingSnapshot ==> isListening && !isLoading && (rec.isRecording <==> micDenial.None?)
      ensures recordingSnapshot ==>
                response == old(response) + (if old(rec.chunks) != [] && reply.Streamed? then Flatten(reply.chunks) else "")
      ensures recordingSnapshot ==>
                actions == old(actions) + (if old(rec.chunks) != [] then [TranscriptionRequested(Flatten(old(rec.chunks)))] else [])
      ensures timerRef == old(timerRef) && liveTimers == old(liveTimers)
    {
      if !recordingSnapshot {
        return;
      }
      isLoading := true;
      var completed := RunTurn(reply, micDenial);
      isLoading := false;
      if !rec.isRecording {
        rec.StartRecording(micDenial);
        isListening := true;
      }
    }

    /** Only the handle the ref holds can be live. */
    lemma LiveTimerIsRef(handle: nat)
      requires Valid() && handle in liveTimers
      ensures liveTimers == {handle} && timerRef == Some(handle)
    {
      forall h | h in liveTimers
        ensures h == handle
      {
        assert timerRef == Some(h) && timerRef == Some(handle);
      }
    }

    /**
     * The pending timer fires: its callback runs the `processAudio` of the
     * render that armed it, as written, with the `isRecording` of that
     * render, then drops the timer ref. A turn armed while recording that
     * has no audio, or whose request or read fails, leaves the component
     * neither listening nor recording.
     */
    method TimerFires(handle: nat, reply: ChatStream, micDenial: Option<string>)
      requires Valid() && handle in liveTimers
      modifies this, rec
      ensures Valid()
      ensures timerRef == None && liveTimers == {}
      ensures old(armedWhileRecording) ==> !isLoading
      ensures old(armedWhileRecording) && (old(rec.chunks) == [] || reply.RequestFailed? || (reply.Streamed? && reply.interrupted)) ==>
                !isListening && !rec.isRecording
      ensures old(armedWhileRecording) && old(rec.chunks) != [] && (reply.NoBody? || (reply.Streamed? && !reply.interrupted)) ==>
                isListening && (rec.isRecording <==> micDenial.None?)
      ensures !old(armedWhileRecording) ==>
                isListening == old(isListening) && isLoading == old(isLoading) && rec.isRecording == old(rec.isRecording)
      ensures old(armedWhileRecording) ==>
                && response == old(response) + (if old(rec.chunks) != [] && reply.Streamed? then Flatten(reply.chunks) else "")
                && actions == old(actions) + (if old(rec.chunks) != [] then [TranscriptionRequested(Flatten(old(rec.chunks)))] else [])
      ensures !old(armedWhileRecording) ==> response == old(response) && actions == old(actions)
    {
      LiveTimerIsRef(handle);
      liveTimers := liveTimers - {handle};
      ProcessAudioAsWritten(armedWhileRecording, reply, micDenial);
      timerRef := None;
    }

    /**
     * The same timer running the corrected `processAudio`: after any turn
     * armed while recording, the component listens, is not loading, and
     * records unless the microphone was refused.
     */
    method TimerFiresCorrected(handle: nat, reply: ChatStream, micDenial: Option<string>)
      requires Valid() && handle in liveTimers
      modifies this, rec
      ensures Valid()
      ensures timerRef == None && liveTimers == {}
      ensures old(armedWhileRecording) ==> isListening && !isLoading && (rec.isRecording <==> micDenial.None?)
      ensures !old(armedWhileRecording) ==>
                isListening == old(isListening) && isLoading == old(isLoading) && rec.isRecording == old(rec.isRecording)
      ensures old(armedWhileRecording) ==>
                && response == old(response) + (if old(rec.chunks) != [] && reply.Streamed? then Flatten(reply.chunks) else "")
                && actions == old(actions) + (if old(rec.chunks) != [] then [TranscriptionRequested(Flatten(old(rec.chunks)))] else [])
      ensures !old(armedWhileRecording) ==> response == old(response) && actions == old(actions)
    {
      LiveTimerIsRef(handle);
      liveTimers := liveTimers - {handle};
      ProcessAudio(armedWhileRecording, reply, micDenial);
      timerRef := None;
    }
  }

  /**
   * The input that shows the `finally` block's mistake: the microphone is
   * granted, one chunk is recorded, a silent frame arms the timer, the
   * timer fires and `/api/chat` fails. As written, the component ends
   * neither recording nor listening, and no timer can be armed again since
   * that needs listening.
   */
  method FailedRequestLeavesComponentDeaf() returns (c: EnhancedChatbot)
    ensures !c.isListening && !c.isLoading && !c.rec.isRecording
    ensures c.timerRef == None && c.actions == [TranscriptionRequested([1, 2, 3])]
    ensures forall v: real :: !WantsTimer(v, c.isListening, c.isLoading)
  {
    c := new EnhancedChatbot();
    c.Mount(None);
    var recorded: Chunk := [1, 2, 3];
    c.rec.OnDataAvailable(recorded);
    c.rec.OnAudioProcess([0], 0);
    assert c.rec.volume == 0.0;
    c.ProcessingEffect();
    var handle := c.timerRef.value;
    assert c.rec.chunks == [recorded] && Flatten([recorded]) == recorded;
    c.TimerFires(handle, RequestFailed, None);
  }

  /**
   * Unmounting a component that mounted with the microphone granted: the
   * component's own cleanup saw recording off at mount and leaves the
   * recorder running; the hook's cleanup, run at the same unmount, then
   * stops it.
   */
  method UnmountStopsThroughHook() returns (c: EnhancedChatbot, recordingAfterComponentCleanup: bool)
    ensures recordingAfterComponentCleanup
    ensures !c.rec.isRecording && c.liveTimers == {}
  {
    c := new EnhancedChatbot();
    c.Mount(None);
    c.Unmount();
    recordingAfterComponentCleanup := c.rec.isRecording;
    c.rec.Cleanup();
  }
}
