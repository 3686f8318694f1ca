/**
 * The streaming-transcription component
 * (voice-chatbot/components/voice-chatbot-openai.tsx): every recorder chunk
 * that arrives while no request is in flight sends the whole buffer for
 * transcription, and every non-empty transcript is appended to the shown
 * text. The buffer is only cut back, to its last two chunks, once it holds
 * more than five.
 *
 * `processAudioChunk` is split at its `await`: `ProcessAudioChunk` is the
 * part that runs at once, `OnTranscription` the rest, so chunks may arrive
 * in between, while `processingRef` is set.
 */
module OpenAiChatbot {
  import opened Common

  /** The buffer after a request: more than five chunks are cut back to the last two. */
  function TrimContext(c: seq<Chunk>): (r: seq<Chunk>)
    ensures |c| > 5 ==> |r| == 2 && r == c[|c| - 2..]
    ensures |c| <= 5 ==> r == c
    ensures |r| <= 5 && r == c[|c| - |r|..]
  {
    if |c| > 5 then c[|c| - 2..] else c
  }

  /** What one transcription adds to the shown text: a space and the text, when the text is non-empty. */
  function TranscriptPiece(t: Transcription): (r: string)
    ensures r == "" <==> !(t.Transcribed? && Truthy(t.text))
    ensures r != "" ==> r[0] == ' ' && r[1..] == t.text.value
  {
    if t.Transcribed? && Truthy(t.text) then " " + t.text.value else ""
  }

  /** The piece each transcription of a run adds, in completion order. */
  function TranscriptPieces(ts: seq<Transcription>): (r: seq<string>)
    ensures |r| == |ts|
  {
    if ts == [] then [] else TranscriptPieces(ts[..|ts| - 1]) + [TranscriptPiece(ts[|ts| - 1])]
  }

  /** The shown text after a run of transcriptions from an empty start. */
  function TranscriptAfter(ts: seq<Transcription>): string
  {
    Flatten(TranscriptPieces(ts))
  }

  lemma {:induction false} TranscriptPiecesConcat(a: seq<Transcription>, b: seq<Transcription>)
    ensures TranscriptPieces(a + b) == TranscriptPieces(a) + TranscriptPieces(b)
    decreases |b|
  {
    if b == [] {
      assert a + b == a;
    } else {
      var b' := b[..|b| - 1];
      assert (a + b)[..|a + b| - 1] == a + b';
      assert (a + b)[|a + b| - 1] == b[|b| - 1];
      TranscriptPiecesConcat(a, b');
    }
  }

  /** Failed and empty transcriptions leave no trace: only the non-empty texts count, in order. */
  lemma {:induction false} TranscriptSkipsEmpty(ts: seq<Transcription>, t: Transcription)
    requires !(t.Transcribed? && Truthy(t.text))
    ensures TranscriptAfter(ts + [t]) == TranscriptAfter(ts)
  {
    var pieces := TranscriptPieces(ts);
    assert (ts + [t])[..|ts|] == ts;
    assert TranscriptPieces(ts + [t]) == pieces + [""];
    assert (pieces + [""])[..|pieces|] == pieces;
    assert Flatten(pieces + [""]) == Flatten(pieces) + "";
  }

  /**
   * The shown text is the texts of the successful transcriptions, each
   * after one space, in the order the requests completed.
   */
  lemma {:induction false} TranscriptConcat(a: seq<Transcription>, b: seq<Transcription>)
    ensures TranscriptAfter(a + b) == TranscriptAfter(a) + TranscriptAfter(b)
  {
    TranscriptPiecesConcat(a, b);
    FlattenConcat(TranscriptPieces(a), TranscriptPieces(b));
  }

  class OpenAiChatbot {
    var isRecording: bool
    var volume: real
    var transcription: string
    /** `audioChunksRef.current`. */
    var chunks: seq<Chunk>
    /** `processingRef.current`: a transcription request is in flight. */
    var processing: bool
    /** The microphone stream, audio graph and recorder are live. */
    var captureActive: bool
    var actions: seq<Action>

    ghost predicate Valid()
      reads this
    {
      isRecording == captureActive && AllNonEmpty(chunks)
    }

    constructor ()
      ensures Valid()
      ensures !isRecording && volume == 0.0 && transcription == "" && chunks == []
      ensures !processing && !captureActive && actions == []
    {
      isRecording, volume, transcription, chunks := false, 0.0, "", [];
      processing, captureActive, actions := false, false, [];
    }

    /** `processor.onaudioprocess`: the volume of the analyser frame. */
    method OnAudioProcess(frame: seq<Byte>)
      requires Valid() && |frame| > 0
      modifies this
      ensures Valid()
      ensures volume == Sum(frame) as real / (|frame| as real * 255.0)
      ensures isRecording == old(isRecording) && transcription == old(transcription) && chunks == old(chunks)
      ensures processing == old(processing) && captureActive == old(captureActive) && actions == old(actions)
    {
      volume := CalculateVolume(frame);
    }

    /**
     * `processAudioChunk` up to its `await`: nothing happens while a request
     * is in flight or the buffer is empty; otherwise a request is marked in
     * flight and the whole buffer, in push order, is sent for transcription.
     */
    method ProcessAudioChunk() returns (started: bool)
      requires Valid()
      modifies this
      ensures Valid()
      ensures started <==> !old(processing) && old(chunks) != []
      ensures started ==> processing && actions == old(actions) + [TranscriptionRequested(Flatten(chunks))]
      ensures !started ==> processing == old(processing) && actions == old(actions)
      ensures isRecording == old(isRecording) && transcription == old(transcription) && chunks == old(chunks)
      ensures captureActive == old(captureActive) && volume == old(volume)
    {
      started := false;
      if processing || |chunks| == 0 {
        return;
      }
      processing := true;
      var audioBlob := Flatten(chunks);
      actions := actions + [TranscriptionRequested(audioBlob)];
      started := true;
    }

    /**
     * The rest of `processAudioChunk`, once the request in flight is
     * answered: a non-empty text is appended after a space, then the buffer
     * (with whatever arrived meanwhile) is cut back to its last two chunks
     * when it holds more than five, and the request is no longer in flight.
     */
    method OnTranscription(t: Transcription)
      requires Valid() && processing
      modifies this
      ensures Valid()
      ensures transcription == old(transcription) + TranscriptPiece(t)
      ensures chunks == TrimContext(old(chunks)) && |chunks| <= 5
      ensures !processing
      ensures isRecording == old(isRecording) && captureActive == old(captureActive)
      ensures actions == old(actions) && volume == old(volume)
    {
      match t {
        case TranscriptionFailed(_) =>
        case Transcribed(text) =>
          if Truthy(text) {
            transcription := transcription + " " + text.value;
          }
      }
      if |chunks| > 5 {
        chunks := chunks[|chunks| - 2..];
      }
      processing := false;
    }

    /**
     * `mediaRecorder.ondataavailable`: a non-empty chunk is pushed and, when
     * no request is in flight, starts one.
     */
    method OnDataAvailable(data: Chunk) returns (started: bool)
      requires Valid()
      modifies this
      ensures Valid()
      ensures chunks == PushNonEmpty(old(chunks), data)
      ensures started <==> |data| > 0 && !old(processing)
      ensures started ==> processing && actions == old(actions) + [TranscriptionRequested(Flatten(chunks))]
      ensures !started ==> processing == old(processing) && actions == old(actions)
      ensures isRecording == old(isRecording) && transcription == old(transcription)
      ensures captureActive == old(captureActive) && volume == old(volume)
    {
      started := false;
      if |data| > 0 {
        chunks := chunks + [data];
        if !processing && |chunks| > 0 {
          started := ProcessAudioChunk();
        }
      }
    }

    /** `startRecording`: the shown text and the buffer are reset, then capture starts if `getUserMedia` resolves. */
    method StartRecording(granted: bool)
      requires Valid()
      modifies this
      ensures Valid()
      ensures transcription == "" && chunks == []
      ensures granted ==> isRecording && captureActive && actions == old(actions) + [CaptureStarted]
      ensures !granted ==> isRecording == old(isRecording) && captureActive == old(captureActive) && actions == old(actions)
      ensures processing == old(processing) && volume == old(volume)
    {
      transcription := "";
      chunks := [];
      if granted {
        captureActive := true;
        actions := actions + [CaptureStarted];
        isRecording := true;
      }
    }

    /**
     * `stopRecording`: capture is released and recording is over; the
     * buffer left over is then sent, unless a request is already in flight.
     */
    method StopRecording() returns (started: bool)
      requires Valid()
      modifies this
      ensures Valid()
      ensures !isRecording && !captureActive
      ensures started <==> old(chunks) != [] && !old(processing)
      ensures actions == old(actions) + (if old(captureActive) then [CaptureStopped] else [])
                         + (if started then [TranscriptionRequested(Flatten(chunks))] else [])
      ensures processing == (old(processing) || started)
      ensures chunks == old(chunks) && transcription == old(transcription) && volume == old(volume)
    {
      if captureActive {
        captureActive := false;
        actions := actions + [CaptureStopped];
      }
      isRecording := false;
      started := false;
      if |chunks| > 0 {
        started := ProcessAudioChunk();
      }
    }

    /** `toggleRecording`: stop when recording, otherwise start; a request in flight does not matter. */
    method ToggleRecording(granted: bool)
      requires Valid()
      modifies this
      ensures Valid()
      ensures old(isRecording) ==> !isRecording && !captureActive && chunks == old(chunks) && transcription == old(transcription)
      ensures old(isRecording) ==> processing == (old(processing) || old(chunks) != [])
      ensures old(isRecording) ==>
                actions == old(actions) + (if old(captureActive) then [CaptureStopped] else [])
                           + (if old(chunks) != [] && !old(processing) then [TranscriptionRequested(Flatten(chunks))] else [])
      ensures !old(isRecording) ==> isRecording == granted && captureActive == granted && chunks == [] && transcription == ""
      ensures !old(isRecording) ==> processing == old(processing) && actions == old(actions) + (if granted then [CaptureStarted] else [])
      ensures volume == old(volume)
    {
      if isRecording {
        var _ := StopRecording();
      } else {
        StartRecording(granted);
      }
    }
  }
}
