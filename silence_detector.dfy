/**
 * The energy-threshold silence detector shared by the hook and the
 * components: a nullable "silence started at" timestamp that the first
 * quiet sample sets and any loud sample clears. Time is an explicit
 * parameter (the source reads `Date.now()`).
 */
module SilenceDetector {
  import opened Common

  /** One volume reading together with the time at which it was taken, in ms. */
  datatype Sample = Sample(volume: real, now: int)

  /** The threshold every variant uses (`volume < 0.05`). */
  const QuietThreshold: real := 0.05

  /** The sustain window of the components (`Date.now() - silenceStartRef.current > 1500`). */
  const SustainMs: int := 1500

  /**
   * How a sample moves the silence-start timestamp: a quiet sample records
   * `now` only when nothing is recorded yet, a loud sample clears it.
   */
  function TrackStart(start: Option<int>, s: Sample, threshold: real): Option<int>
  {
    if s.volume < threshold then (if start.None? then Some(s.now) else start) else None
  }

  /** The timestamp after a run of samples, starting from `start`. */
  function StartAfter(start: Option<int>, samples: seq<Sample>, threshold: real): Option<int>
  {
    if samples == [] then start
    else TrackStart(StartAfter(start, samples[..|samples| - 1], threshold), samples[|samples| - 1], threshold)
  }

  /** Index of the first sample of the trailing run of quiet samples (`|samples|` when the last one is loud). */
  function QuietRunStart(samples: seq<Sample>, threshold: real): (k: nat)
    ensures k <= |samples|
    ensures forall i :: k <= i < |samples| ==> samples[i].volume < threshold
    ensures k > 0 ==> samples[k - 1].volume >= threshold
  {
    if samples == [] then 0
    else if samples[|samples| - 1].volume < threshold then QuietRunStart(samples[..|samples| - 1], threshold)
    else |samples|
  }

  /**
   * From a cleared detector, the recorded timestamp is the time of the FIRST
   * sample of the trailing quiet run, and nothing when the last sample was loud:
   * elapsed silence is measured from the first quiet sample, and a single loud
   * sample discards an almost complete window.
   */
  lemma {:induction false} StartIsFirstQuietSample(samples: seq<Sample>, threshold: real)
    ensures var k := QuietRunStart(samples, threshold);
            StartAfter(None, samples, threshold) == if k == |samples| then None else Some(samples[k].now)
  {
    if samples != [] {
      var init := samples[..|samples| - 1];
      StartIsFirstQuietSample(init, threshold);
      var k' := QuietRunStart(init, threshold);
      if k' < |init| {
        assert init[k'] == samples[k'];
      }
    }
  }

  // ---------------------------------------------------------------------
  // The hook's detector, latched in `silenceDetectedRef`
  // (voice-chatbot/hooks/use-audio-recorder.ts:81-90).

  /** `silenceStartRef` and `silenceDetectedRef` of the hook. */
  datatype Latch = Latch(silenceStart: Option<int>, detected: bool)

  /** The state after `resetSilenceDetection`, and the initial state. */
  const Cleared: Latch := Latch(None, false)

  /** The silence-detection block of `onaudioprocess`. */
  function LatchStep(d: Latch, s: Sample, threshold: real, timeout: int): (r: Latch)
    ensures r.silenceStart == TrackStart(d.silenceStart, s, threshold)
  {
    if s.volume < threshold then
      if d.silenceStart.None? then Latch(Some(s.now), d.detected)
      else if s.now - d.silenceStart.value > timeout && !d.detected then Latch(d.silenceStart, true)
      else d
    else Cleared
  }

  /** The detector after a run of samples. */
  function LatchAfter(d: Latch, samples: seq<Sample>, threshold: real, timeout: int): Latch
  {
    if samples == [] then d
    else LatchStep(LatchAfter(d, samples[..|samples| - 1], threshold, timeout), samples[|samples| - 1], threshold, timeout)
  }

  /**
   * A quiet sample with no start recorded records `now` and changes nothing
   * else; once the flag is set further quiet samples change nothing, so the
   * detector fires once; a loud sample clears both fields.
   */
  lemma LatchStepCases(d: Latch, s: Sample, threshold: real, timeout: int)
    ensures s.volume < threshold && d.silenceStart.None? ==>
              LatchStep(d, s, threshold, timeout) == d.(silenceStart := Some(s.now))
    ensures s.volume < threshold && d.detected ==> d.silenceStart.Some? ==>
              LatchStep(d, s, threshold, timeout) == d
    ensures s.volume >= threshold ==> LatchStep(d, s, threshold, timeout) == Cleared
    ensures LatchStep(d, s, threshold, timeout).detected && !d.detected ==>
              s.volume < threshold && d.silenceStart.Some? && s.now - d.silenceStart.value > timeout
  {
  }

  /**
   * The latched flag, from a cleared detector, is set exactly when some sample
   * after the first quiet sample of the trailing quiet run came strictly more
   * than `timeout` ms after it. The flag stays set through further quiet samples.
   */
  lemma {:induction false} LatchDetectsSustainedSilence(samples: seq<Sample>, threshold: real, timeout: int)
    ensures var k := QuietRunStart(samples, threshold);
            var r := LatchAfter(Cleared, samples, threshold, timeout);
            && r.silenceStart == (if k == |samples| then None else Some(samples[k].now))
            && (r.detected <==> exists j :: k < j < |samples| && samples[j].now - samples[k].now > timeout)
  {
    if samples != [] {
      var init := samples[..|samples| - 1];
      var x := samples[|samples| - 1];
      LatchDetectsSustainedSilence(init, threshold, timeout);
      var k' := QuietRunStart(init, threshold);
      var k := QuietRunStart(samples, threshold);
      var r := LatchAfter(Cleared, samples, threshold, timeout);
      if x.volume < threshold {
        assert k == k';
        if k' < |init| {
          assert init[k'] == samples[k'];
          assert forall j :: k < j < |init| ==> init[j] == samples[j];
          if r.detected {
            if LatchAfter(Cleared, init, threshold, timeout).detected {
              var j :| k' < j < |init| && init[j].now - init[k'].now > timeout;
              assert samples[j] == init[j];
            } else {
              assert x.now - samples[k].now > timeout;
              assert k < |samples| - 1;
            }
          }
        }
      }
    }
  }

  /** A run of loud samples never sets the flag, whatever the detector held before. */
  lemma LoudNeverFires(d: Latch, samples: seq<Sample>, threshold: real, timeout: int)
    requires samples != []
    requires forall i :: 0 <= i < |samples| ==> samples[i].volume >= threshold
    ensures LatchAfter(d, samples, threshold, timeout) == Cleared
  {
  }

  /**
   * The trace [0.2, 0.01, 0.01, 0.01] sampled 600 ms apart does not fire with
   * threshold 0.05 and timeout 1500: elapsed time is counted from the first
   * quiet sample (600 ms), so the last sample is only 1200 ms in. One more
   * quiet sample 600 ms later (1800 ms in) does fire.
   */
  lemma QuietTraceFiresOnlyOnFifthSample()
    ensures var t := [Sample(0.2, 0), Sample(0.01, 600), Sample(0.01, 1200), Sample(0.01, 1800)];
            && !LatchAfter(Cleared, t, QuietThreshold, SustainMs).detected
            && LatchAfter(Cleared, t + [Sample(0.01, 2400)], QuietThreshold, SustainMs).detected
  {
    var t := [Sample(0.2, 0), Sample(0.01, 600), Sample(0.01, 1200), Sample(0.01, 1800)];
    var t5 := t + [Sample(0.01, 2400)];
    LatchDetectsSustainedSilence(t, QuietThreshold, SustainMs);
    LatchDetectsSustainedSilence(t5, QuietThreshold, SustainMs);
    assert t5[..4] == t;
    assert QuietRunStart(t, QuietThreshold) == 1;
    assert QuietRunStart(t5, QuietThreshold) == 1;
    assert t5[4].now - t5[1].now > SustainMs;
  }

  // ---------------------------------------------------------------------
  // The unlatched effect of voice-chatbot.tsx:63-78 and
  // voice-chatbot-web-speech.tsx:77-92: it calls `processAudio()` on every
  // sample that finds the window exceeded.

  /** `silenceStartRef` after the effect, and whether it called `processAudio()`. */
  datatype EffectResult = EffectResult(silenceStart: Option<int>, trigger: bool)

  /** The silence-detection effect, run on each volume change. */
  function SilenceEffect(recording: bool, processing: bool, start: Option<int>, s: Sample): (r: EffectResult)
    ensures r.trigger ==> recording && !processing && r.silenceStart == start
  {
    if !recording || processing then EffectResult(start, false)
    else if s.volume < QuietThreshold then
      if start.None? then EffectResult(Some(s.now), false)
      else if s.now - start.value > SustainMs then EffectResult(start, true)
      else EffectResult(start, false)
    else EffectResult(None, false)
  }

  /** While recording and not processing, the effect tracks the timestamp exactly as the detector does. */
  lemma EffectTracksStart(start: Option<int>, s: Sample)
    ensures SilenceEffect(true, false, start, s).silenceStart == TrackStart(start, s, QuietThreshold)
    ensures SilenceEffect(false, false, start, s) == EffectResult(start, false)
    ensures SilenceEffect(true, true, start, s) == EffectResult(start, false)
  {
  }

  /**
   * Over a run of samples taken while recording and not processing, starting
   * with no timestamp (as `startRecording` leaves it), the last sample calls
   * `processAudio()` exactly when it is quiet and comes strictly more than
   * 1500 ms after the first sample of the trailing quiet run.
   */
  lemma {:induction false} EffectFiresAfterSustain(samples: seq<Sample>)
    requires samples != []
    ensures var n, k := |samples|, QuietRunStart(samples, QuietThreshold);
            var fired := SilenceEffect(true, false, StartAfter(None, samples[..n - 1], QuietThreshold), samples[n - 1]).trigger;
            fired <==> k < n - 1 && samples[n - 1].now - samples[k].now > SustainMs
  {
    var n := |samples|;
    var init := samples[..n - 1];
    StartIsFirstQuietSample(init, QuietThreshold);
    var k' := QuietRunStart(init, QuietThreshold);
    if k' < |init| {
      assert init[k'] == samples[k'];
    }
  }
}
