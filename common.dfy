/**
 * Values shared by every variant of the voice chatbot: bytes and recorded
 * chunks, the nullable value of a ref, JavaScript truthiness of strings,
 * the whitespace that `String.prototype.trim` removes, and the volume
 * estimate that every component computes from an analyser frame.
 */
module Common {

  /** A byte as stored in a `Uint8Array`. */
  type Byte = x: int | 0 <= x < 256

  /** One `Blob` delivered by `MediaRecorder.ondataavailable`, as its bytes. */
  type Chunk = seq<Byte>

  /** A nullable value (`T | null` in the source). */
  datatype Option<+T> = None | Some(value: T)

  /** JavaScript truthiness of a possibly missing string: present and not "". */
  predicate Truthy(s: Option<string>)
  {
    s.Some? && s.value != ""
  }

  /** The characters that `String.prototype.trim` removes (WhiteSpace and LineTerminator of ECMAScript). */
  predicate IsJsSpace(c: char)
  {
    || c == '\t' || c == '\n' || c == '\U{000B}' || c == '\U{000C}' || c == '\r' || c == ' '
    || c == '\U{00A0}' || c == '\U{1680}' || ('\U{2000}' <= c <= '\U{200A}')
    || c == '\U{2028}' || c == '\U{2029}' || c == '\U{202F}' || c == '\U{205F}'
    || c == '\U{3000}' || c == '\U{FEFF}'
  }

  /** `s.trim() === ""`: the string holds nothing but whitespace. */
  predicate Blank(s: string)
  {
    forall i :: 0 <= i < |s| ==> IsJsSpace(s[i])
  }

  /**
   * Parts concatenated in order: the bytes of `new Blob(chunks)`, and the
   * text a run of streamed or transcribed pieces adds up to.
   */
  function Flatten<T>(chunks: seq<seq<T>>): seq<T>
  {
    if chunks == [] then [] else Flatten(chunks[..|chunks| - 1]) + chunks[|chunks| - 1]
  }

  /** Total number of elements held by a list of parts. */
  function TotalSize<T>(chunks: seq<seq<T>>): nat
  {
    if chunks == [] then 0 else TotalSize(chunks[1..]) + |chunks[0]|
  }

  /** Sealing two runs of chunks one after the other gives the two blobs one after the other. */
  lemma {:induction false} FlattenConcat<T>(a: seq<seq<T>>, b: seq<seq<T>>)
    ensures Flatten(a + b) == Flatten(a) + Flatten(b)
    decreases |b|
  {
    if b == [] {
      assert a + b == a;
    } else {
      var b' := b[..|b| - 1];
      assert (a + b)[..|a + b| - 1] == a + b';
      assert (a + b)[|a + b| - 1] == b[|b| - 1];
      FlattenConcat(a, b');
    }
  }

  /** No byte is lost or duplicated: the sealed blob is exactly as long as all chunks together. */
  lemma {:induction false} FlattenSize<T>(chunks: seq<seq<T>>)
    ensures |Flatten(chunks)| == TotalSize(chunks)
  {
    if chunks != [] {
      FlattenSize(chunks[1..]);
      assert chunks == [chunks[0]] + chunks[1..];
      FlattenConcat([chunks[0]], chunks[1..]);
      assert Flatten([chunks[0]]) == Flatten([]) + chunks[0];
    }
  }

  /** The blob is empty exactly when no chunk holds a byte. */
  lemma {:induction false} FlattenEmpty<T>(chunks: seq<seq<T>>)
    ensures Flatten(chunks) == [] <==> forall i :: 0 <= i < |chunks| ==> chunks[i] == []
  {
    if chunks != [] {
      var init := chunks[..|chunks| - 1];
      FlattenEmpty(init);
      assert forall i :: 0 <= i < |init| ==> init[i] == chunks[i];
    }
  }

  /**
   * `if (event.data.size > 0) audioChunksRef.current.push(event.data)`,
   * the handler that every variant installs on its `MediaRecorder`
   * (voice-chatbot/hooks/use-audio-recorder.ts:99-103).
   */
  function PushNonEmpty(chunks: seq<Chunk>, data: Chunk): (r: seq<Chunk>)
    ensures |data| > 0 ==> r == chunks + [data] && Flatten(r) == Flatten(chunks) + data
    ensures |data| == 0 ==> r == chunks
  {
    if |data| > 0 then chunks + [data] else chunks
  }

  /** Every chunk of a list built only by `PushNonEmpty` holds at least one byte. */
  predicate AllNonEmpty(chunks: seq<Chunk>)
  {
    forall i :: 0 <= i < |chunks| ==> |chunks[i]| > 0
  }

  lemma PushKeepsNonEmpty(chunks: seq<Chunk>, data: Chunk)
    requires AllNonEmpty(chunks)
    ensures AllNonEmpty(PushNonEmpty(chunks, data))
  {
  }

  /**
   * What a transcription request (`fetch` to a speech-to-text endpoint, then
   * `response.json()`) gives: a failure (rejected, not `ok`, or unreadable
   * JSON) with the message of the error it raises, or the JSON's `text`
   * field, which may be missing.
   */
  datatype Transcription = TranscriptionFailed(message: string) | Transcribed(text: Option<string>)

  /** What a non-streamed chat-completion request gives: a failure, or `choices[0]?.message?.content`. */
  datatype ChatReply = ChatFailed | ChatReplied(content: Option<string>)

  /**
   * The effects of a turn on the outside world, in the order they happen:
   * capture released or resumed, and each remote request with what it carries.
   */
  datatype Action =
    | CaptureStopped
    | CaptureStarted
    | TranscriptionRequested(audio: seq<Byte>)
    | ReplyRequested(userText: string)
    | SpeechRequested(text: string)
    | PlaybackStarted(audio: seq<Byte>)

  /** Sum of a frame's bytes, the quantity `calculateVolume` accumulates. */
  function Sum(frame: seq<Byte>): nat
  {
    if frame == [] then 0 else Sum(frame[..|frame| - 1]) + frame[|frame| - 1]
  }

  lemma {:induction false} SumBound(frame: seq<Byte>)
    ensures Sum(frame) <= 255 * |frame|
  {
    if frame != [] {
      SumBound(frame[..|frame| - 1]);
    }
  }

  /**
   * `calculateVolume`: the mean of the analyser's byte magnitudes divided by
   * 255 (voice-chatbot/hooks/use-audio-recorder.ts:138-145). The same loop is
   * repeated in every component.
   */
  method CalculateVolume(frame: seq<Byte>) returns (volume: real)
    requires |frame| > 0
    ensures volume == Sum(frame) as real / (|frame| as real * 255.0)
    ensures 0.0 <= volume <= 1.0
  {
    var sum: nat := 0;
    for i := 0 to |frame|
      invariant sum == Sum(frame[..i])
    {
      assert frame[..i + 1][..i] == frame[..i];
      sum := sum + frame[i];
    }
    assert frame[..|frame|] == frame;
    var average := sum as real / |frame| as real;
    volume := average / 255.0;
    SumBound(frame);
    VolumeBounds(sum, |frame|);
  }

  lemma VolumeBounds(sum: nat, n: nat)
    requires n > 0 && sum <= 255 * n
    ensures (sum as real / n as real) / 255.0 == sum as real / (n as real * 255.0)
    ensures 0.0 <= sum as real / (n as real * 255.0) <= 1.0
  {
    var x := sum as real / n as real;
    var d := n as real * 255.0;
    assert x * n as real == sum as real;
    assert (x / 255.0) * d == x * n as real;
    var q := sum as real / d;
    assert q * d == sum as real;
    assert (x / 255.0 - q) * d == 0.0;
    assert d > 0.0;
    assert sum as real <= d;
  }
}
