/** The per-frame analyzer of the backend (`AudioAnalyzer`): noise-floor
    calibration, energy gating, formant smoothing and vowel detection.
    The numeric library calls (RMS, Praat's formant, pitch and intensity
    trackers, the square root) are the `Dsp` parameter: the model fixes what
    is done with their results, not how they are computed. */
module Analyzer {
  import opened Common
  import opened Vowels

  // ---------------------------------------------------------------------
  // Constants of the analyzer

  /** Frames shorter than this are neither analysed nor used for calibration. */
  const MinFrame: nat := 256
  const UncalibratedRmsThreshold: real := 0.04
  const MinRmsThreshold: real := 0.03
  const RmsThresholdMultiplier: real := 2.5
  const UncalibratedIntensityThreshold: real := 45.0
  const MinIntensityThreshold: real := 40.0
  const IntensityThresholdOffset: real := 10.0
  /** Weight of the previous value in exponential smoothing. */
  const SmoothingFactor: real := 0.3
  /** Factor applied to the held F1 and F2 on every unvoiced frame. */
  const DecayFactor: real := 0.8
  const InitialNoiseFloorRms: real := 0.01
  const InitialNoiseFloorIntensity: real := 30.0
  const MinNoiseFloorIntensity: real := 20.0
  const NoiseFloorIntensityMargin: real := 5.0
  /** The calibration window assumes chunks of about this many samples. */
  const AssumedChunk: nat := 512

  // ---------------------------------------------------------------------
  // Values

  /** What the numeric libraries report for one frame. */
  datatype Measurements = Measurements(rms: real, intensity: real, f1: real, f2: real, f3: real, pitch: real)

  /** The library calls the analyzer makes: `measure` gives the RMS and the
      Praat readings of a frame, `sqrt` is NumPy's square root and `alpha` is
      the high-pass coefficient `rc / (rc + dt)` for the 80 Hz cutoff. */
  datatype Dsp = Dsp(measure: seq<real> -> Measurements, sqrt: real -> real, alpha: real)

  datatype AnalysisResult = AnalysisResult(
    f1: real, f2: real, f3: real, pitch: real, intensity: real,
    isVoiced: bool, detectedVowel: Option<string>, confidence: real)

  /** The analyzer's mutable fields, as one value. */
  datatype AnalyzerState = AnalyzerState(
    lastF1: real, lastF2: real, lastF3: real, lastPitch: real,
    noiseFloorRms: real, noiseFloorIntensity: real,
    isCalibrated: bool, calibrationSamples: seq<real>)

  /** The state after construction and after `reset`. */
  const InitialState: AnalyzerState :=
    AnalyzerState(0.0, 0.0, 0.0, 0.0, InitialNoiseFloorRms, InitialNoiseFloorIntensity, false, [])

  /** The result for a frame that is too short, too quiet, or failed. */
  function SilentResult(): (r: AnalysisResult)
    ensures !r.isVoiced && r.detectedVowel.None? && r.confidence == 0.0
    ensures r.f1 == r.f2 == r.f3 == r.pitch == r.intensity == 0.0
  {
    AnalysisResult(0.0, 0.0, 0.0, 0.0, 0.0, false, None, 0.0)
  }

  // ---------------------------------------------------------------------
  // Smoothing

  /** Exponential smoothing of a new reading against the previous value.
      A zero reading (a formant Praat could not find) halves the previous
      value; any other reading moves 70% of the way from the old value to it. */
  function Smooth(newVal: real, oldVal: real): (r: real)
    ensures newVal == 0.0 ==> r == oldVal * 0.5
    ensures newVal != 0.0 ==> Min(oldVal, newVal) <= r <= Max(oldVal, newVal)
    ensures newVal != 0.0 ==> r - newVal == SmoothingFactor * (oldVal - newVal)
  {
    if newVal == 0.0 then oldVal * 0.5
    else oldVal * SmoothingFactor + newVal * (1.0 - SmoothingFactor)
  }

  /** Smoothing a steady non-zero reading leaves it unchanged. */
  lemma SmoothSteady(x: real)
    requires x != 0.0
    ensures Smooth(x, x) == x
  {
  }

  // ---------------------------------------------------------------------
  // High-pass filter

  /** Output sample `i` of the one-pole high-pass filter: the first output
      sample is the first input sample and each later one is
      `alpha * (out[i-1] + in[i] - in[i-1])`. */
  function HighPassAt(s: seq<real>, alpha: real, i: nat): real
    requires i < |s|
  {
    if i == 0 then s[0] else FilterStep(alpha, HighPassAt(s, alpha, i - 1), s[i], s[i - 1])
  }

  /** `alpha * (previous_output + sample - previous_sample)`. */
  function FilterStep(alpha: real, previousOutput: real, sample: real, previousSample: real): real
  {
    alpha * (previousOutput + sample - previousSample)
  }

  /** Sample `i` of `r` follows from sample `i - 1` by the filter's recurrence. */
  ghost predicate IsHighPassStep(s: seq<real>, r: seq<real>, alpha: real, i: int)
    requires |r| == |s| && 1 <= i < |s|
  {
    r[i] == FilterStep(alpha, r[i - 1], s[i], s[i - 1])
  }

  /** The filtered signal. Inputs shorter than two samples come back unchanged. */
  function HighPass(s: seq<real>, alpha: real): (r: seq<real>)
    ensures |r| == |s|
    ensures |s| < 2 ==> r == s
    ensures |s| > 0 ==> r[0] == s[0]
    ensures forall i :: 1 <= i < |s| ==> IsHighPassStep(s, r, alpha, i)
    ensures forall i :: 0 <= i < |s| ==> r[i] == HighPassAt(s, alpha, i)
  {
    if |s| < 2 then s
    else seq(|s|, i requires 0 <= i < |s| => HighPassAt(s, alpha, i))
  }

  /** A signal that agrees with the filter sample by sample is its output. */
  lemma HighPassPointwise(s: seq<real>, r: seq<real>, alpha: real)
    requires |r| == |s|
    requires forall k :: 0 <= k < |s| ==> r[k] == HighPassAt(s, alpha, k)
    ensures r == HighPass(s, alpha)
  {
  }

  /** The recurrence has exactly one solution for a given input: any signal
      that starts with the input's first sample and follows the recurrence is
      the filter's output. */
  lemma HighPassUnique(s: seq<real>, r: seq<real>, alpha: real)
    requires |r| == |s|
    requires |s| > 0 ==> r[0] == s[0]
    requires forall i :: 1 <= i < |s| ==> IsHighPassStep(s, r, alpha, i)
    ensures r == HighPass(s, alpha)
  {
    var h := HighPass(s, alpha);
    forall i | 0 <= i < |s|
      ensures r[i] == h[i]
    {
      HighPassAgree(s, r, alpha, i);
    }
  }

  lemma {:induction false} HighPassAgree(s: seq<real>, r: seq<real>, alpha: real, i: nat)
    requires |r| == |s| && i < |s|
    requires r[0] == s[0]
    requires forall k :: 1 <= k < |s| ==> IsHighPassStep(s, r, alpha, k)
    ensures r[i] == HighPassAt(s, alpha, i)
  {
    if i > 0 {
      HighPassAgree(s, r, alpha, i - 1);
      assert IsHighPassStep(s, r, alpha, i);
    }
  }

  /** `x * r^n`: `x` scaled by the factor `r`, `n` times over. */
  function Geometric(x: real, r: real, n: nat): real
  {
    if n == 0 then x else Geometric(x, r, n - 1) * r
  }

  /** A constant (DC) input is not passed through: the output starts at the
      constant and shrinks by the factor `alpha` at every sample. */
  lemma HighPassRemovesConstant(s: seq<real>, c: real, alpha: real, i: nat)
    requires forall k :: 0 <= k < |s| ==> s[k] == c
    requires i < |s|
    ensures HighPass(s, alpha)[i] == Geometric(c, alpha, i)
  {
    ConstantAt(s, c, alpha, i);
  }

  lemma {:induction false} ConstantAt(s: seq<real>, c: real, alpha: real, i: nat)
    requires forall k :: 0 <= k < |s| ==> s[k] == c
    requires i < |s|
    ensures HighPassAt(s, alpha, i) == Geometric(c, alpha, i)
  {
    if i > 0 {
      ConstantAt(s, c, alpha, i - 1);
      assert s[i] == c && s[i - 1] == c;
      assert HighPassAt(s, alpha, i) == alpha * HighPassAt(s, alpha, i - 1);
    }
  }

  /** The filter loop: output samples are written one at a time into a
      zero-initialised buffer. Inputs shorter than two samples are returned as
      they are. */
  method HighPassFilter(audio: seq<real>, alpha: real) returns (filtered: seq<real>)
    ensures filtered == HighPass(audio, alpha)
  {
    if |audio| < 2 {
      return audio;
    }
    var buffer := new real[|audio|];
    buffer[0] := audio[0];
    for i := 1 to |audio|
      invariant forall k :: 0 <= k < i ==> buffer[k] == HighPassAt(audio, alpha, k)
    {
      buffer[i] := FilterStep(alpha, buffer[i - 1], audio[i], audio[i - 1]);
    }
    filtered := buffer[..];
    HighPassPointwise(audio, filtered, alpha);
  }

  // ---------------------------------------------------------------------
  // Gating thresholds

  /** RMS needed to analyse a frame: a fixed 0.04 before calibration,
      afterwards 2.5 times the noise floor but never under 0.03. */
  function RmsThreshold(calibrated: bool, noiseFloorRms: real): (t: real)
    ensures !calibrated ==> t == UncalibratedRmsThreshold
    ensures calibrated ==> t >= MinRmsThreshold && t >= RmsThresholdMultiplier * noiseFloorRms
    ensures calibrated ==> t == MinRmsThreshold || t == RmsThresholdMultiplier * noiseFloorRms
  {
    if calibrated then Max(MinRmsThreshold, noiseFloorRms * RmsThresholdMultiplier)
    else UncalibratedRmsThreshold
  }

  /** Intensity needed for voicing: 45 dB before calibration, afterwards
      10 dB above the noise floor but never under 40 dB. */
  function IntensityThreshold(calibrated: bool, noiseFloorIntensity: real): (t: real)
    ensures !calibrated ==> t == UncalibratedIntensityThreshold
    ensures calibrated ==> t >= MinIntensityThreshold && t >= noiseFloorIntensity + IntensityThresholdOffset
    ensures calibrated ==> t == MinIntensityThreshold || t == noiseFloorIntensity + IntensityThresholdOffset
  {
    if calibrated then Max(MinIntensityThreshold, noiseFloorIntensity + IntensityThresholdOffset)
    else UncalibratedIntensityThreshold
  }

  // ---------------------------------------------------------------------
  // Calibration window

  /** `int(sample_rate * 1.0 / 512)`: about one second of 512-sample chunks,
      that is, the number of whole 512-sample chunks in one second. */
  function MaxWindow(sampleRate: nat): (m: nat)
    ensures m * AssumedChunk <= sampleRate < (m + 1) * AssumedChunk
    ensures m == 0 <==> sampleRate < AssumedChunk
  {
    sampleRate / AssumedChunk
  }

  /** `int(n * 0.9)`, the index of the 90th percentile in a sorted list of `n`. */
  function PercentileIndex(n: nat): (k: nat)
    requires n > 0
    ensures k < n
    ensures k * 10 <= n * 9 < (k + 1) * 10
  {
    n * 9 / 10
  }

  /** The noise floor chosen from a window: the element at the 90th-percentile
      position of the window sorted in ascending order. */
  function NoiseFloorPick(w: seq<real>): real
    requires |w| > 0
  {
    SortAscending(w)[PercentileIndex(|w|)]
  }

  /** The noise floor is one of the window's own values. */
  lemma NoiseFloorInWindow(w: seq<real>)
    requires |w| > 0
    ensures NoiseFloorPick(w) in w
  {
    var sorted := SortAscending(w);
    assert sorted[PercentileIndex(|w|)] in multiset(sorted);
  }

  /** At least `PercentileIndex(|w|) + 1` values of the window (the sorted
      prefix up to the pick) are at most the noise floor, and the rest at least it. */
  lemma NoiseFloorIsPercentile(w: seq<real>)
    requires |w| > 0
    ensures var sorted, k := SortAscending(w), PercentileIndex(|w|);
      && (forall j :: 0 <= j <= k ==> sorted[j] <= NoiseFloorPick(w))
      && (forall j :: k <= j < |w| ==> NoiseFloorPick(w) <= sorted[j])
  {
    SortedAround(SortAscending(w), PercentileIndex(|w|));
  }

  lemma SortedAround(s: seq<real>, k: nat)
    requires k < |s| && IsSorted(s)
    ensures forall j :: 0 <= j <= k ==> s[j] <= s[k]
    ensures forall j :: k <= j < |s| ==> s[k] <= s[j]
  {
  }

  /** The window keeps at most `MaxWindow` values (none are dropped when the bound is 0). */
  ghost predicate WindowBounded(w: seq<real>, sampleRate: nat)
  {
    MaxWindow(sampleRate) > 0 ==> |w| <= MaxWindow(sampleRate)
  }

  /** For the 16 kHz stream: a window of 31 chunks, calibrated once 15 are held. */
  lemma StreamWindow()
    ensures MaxWindow(16000) == 31 && MaxWindow(16000) / 2 == 15
    ensures PercentileIndex(31) == 27 && PercentileIndex(15) == 13
  {
  }

  // ---------------------------------------------------------------------
  /** The intensity noise floor taken at calibration: 5 dB below the
      current frame's intensity, but never below 20 dB. */
  function IntensityFloor(intensity: real): (r: real)
    ensures r >= MinNoiseFloorIntensity && r >= intensity - NoiseFloorIntensityMargin
    ensures r == MinNoiseFloorIntensity || r == intensity - NoiseFloorIntensityMargin
  {
    Max(MinNoiseFloorIntensity, intensity - NoiseFloorIntensityMargin)
  }

  // The two per-frame operations as functions of the state

  /** `calibrate_noise_floor` on a frame of raw samples: records the frame's
      RMS in the window and, once the window is half full, takes its
      90th-percentile value as the noise floor. */
  function Calibration(s: AnalyzerState, sampleRate: nat, frame: seq<real>, dsp: Dsp): (out: (AnalyzerState, bool))
    // the smoothing state is never touched, and a calibration is never undone
    ensures && out.0.lastF1 == s.lastF1 && out.0.lastF2 == s.lastF2
            && out.0.lastF3 == s.lastF3 && out.0.lastPitch == s.lastPitch
    ensures s.isCalibrated ==> out.0.isCalibrated
    ensures out.1 ==> out.0.isCalibrated
  {
    if |frame| < MinFrame then (s, false)
    else
      var m := dsp.measure(frame);
      var window := KeepLast(s.calibrationSamples + [m.rms], MaxWindow(sampleRate));
      if |window| >= MaxWindow(sampleRate) / 2 then
        (s.(calibrationSamples := window,
            noiseFloorRms := NoiseFloorPick(window),
            noiseFloorIntensity := IntensityFloor(m.intensity),
            isCalibrated := true),
         true)
      else
        (s.(calibrationSamples := window), false)
  }

  /** What one calibration step does: frames shorter than 256 samples change
      nothing; otherwise the frame's RMS enters the bounded window, and once the
      window is half full the analyzer is calibrated with the window's 90th
      percentile as RMS floor. The smoothing state is never touched. */
  lemma CalibrationSpec(s: AnalyzerState, sampleRate: nat, frame: seq<real>, dsp: Dsp)
    ensures var out := Calibration(s, sampleRate, frame, dsp);
      |frame| < MinFrame ==> out == (s, false)
    ensures var out := Calibration(s, sampleRate, frame, dsp);
      |frame| >= MinFrame ==>
        out.0.calibrationSamples == KeepLast(s.calibrationSamples + [dsp.measure(frame).rms], MaxWindow(sampleRate))
    ensures var out := Calibration(s, sampleRate, frame, dsp);
      out.1 <==> |frame| >= MinFrame && |out.0.calibrationSamples| >= MaxWindow(sampleRate) / 2
    ensures var out := Calibration(s, sampleRate, frame, dsp);
      out.1 ==>
        && |out.0.calibrationSamples| > 0
        && out.0.noiseFloorRms == NoiseFloorPick(out.0.calibrationSamples)
        && out.0.noiseFloorRms in out.0.calibrationSamples
        && out.0.noiseFloorIntensity == IntensityFloor(dsp.measure(frame).intensity)
    ensures var out := Calibration(s, sampleRate, frame, dsp);
      !out.1 ==> out.0 == s.(calibrationSamples := out.0.calibrationSamples)
    ensures var out := Calibration(s, sampleRate, frame, dsp);
      WindowBounded(s.calibrationSamples, sampleRate) ==> WindowBounded(out.0.calibrationSamples, sampleRate)
  {
    var out := Calibration(s, sampleRate, frame, dsp);
    if out.1 {
      NoiseFloorInWindow(out.0.calibrationSamples);
    }
  }

  /** The state after `calibrate_noise_floor` has been called on each frame in turn. */
  function CalibrationRun(s: AnalyzerState, sampleRate: nat, frames: seq<seq<real>>, dsp: Dsp): AnalyzerState
  {
    if frames == [] then s
    else Calibration(CalibrationRun(s, sampleRate, frames[..|frames| - 1], dsp), sampleRate, frames[|frames| - 1], dsp).0
  }

  /** The RMS of each frame long enough to be recorded, in order. */
  function RecordedRms(frames: seq<seq<real>>, dsp: Dsp): seq<real>
  {
    if frames == [] then []
    else
      var last := frames[|frames| - 1];
      RecordedRms(frames[..|frames| - 1], dsp) + (if |last| >= MinFrame then [dsp.measure(last).rms] else [])
  }

  /** However many calls there are, the window holds the newest `MaxWindow`
      RMS values of all frames recorded since the window was last emptied. */
  lemma {:induction false} CalibrationWindowIsRecent(s: AnalyzerState, sampleRate: nat, frames: seq<seq<real>>, dsp: Dsp)
    requires WindowBounded(s.calibrationSamples, sampleRate)
    ensures CalibrationRun(s, sampleRate, frames, dsp).calibrationSamples
         == KeepLast(s.calibrationSamples + RecordedRms(frames, dsp), MaxWindow(sampleRate))
  {
    var m := MaxWindow(sampleRate);
    if frames == [] {
      assert s.calibrationSamples + [] == s.calibrationSamples;
    } else {
      var prefix, last := frames[..|frames| - 1], frames[|frames| - 1];
      var before := CalibrationRun(s, sampleRate, prefix, dsp);
      var earlier := s.calibrationSamples + RecordedRms(prefix, dsp);
      CalibrationWindowIsRecent(s, sampleRate, prefix, dsp);
      CalibrationSpec(before, sampleRate, last, dsp);
      if |last| >= MinFrame {
        var rms := dsp.measure(last).rms;
        KeepLastConcat(earlier, [rms], m);
        AppendAssoc(s.calibrationSamples, RecordedRms(prefix, dsp), [rms]);
      } else {
        assert RecordedRms(frames, dsp) == RecordedRms(prefix, dsp) + [];
        assert RecordedRms(prefix, dsp) + [] == RecordedRms(prefix, dsp);
      }
    }
  }

  /** `analyze` on a frame: the high-pass filtered frame is measured; quiet
      frames give the silent result, unvoiced frames decay the held F1/F2,
      voiced frames are smoothed against the held values and classified. */
  function Analysis(s: AnalyzerState, frame: seq<real>, dsp: Dsp): (out: (AnalyzerState, AnalysisResult))
    // calibration is never touched
    ensures out.0.noiseFloorRms == s.noiseFloorRms && out.0.noiseFloorIntensity == s.noiseFloorIntensity
    ensures out.0.isCalibrated == s.isCalibrated && out.0.calibrationSamples == s.calibrationSamples
  {
    if |frame| < MinFrame then (s, SilentResult())
    else
      var m := dsp.measure(HighPass(frame, dsp.alpha));
      var rmsThreshold := RmsThreshold(s.isCalibrated, s.noiseFloorRms);
      if m.rms < rmsThreshold then (s, SilentResult())
      else
        var voiced := m.intensity > IntensityThreshold(s.isCalibrated, s.noiseFloorIntensity) && m.rms > rmsThreshold;
        if !voiced then
          var s' := s.(lastF1 := s.lastF1 * DecayFactor, lastF2 := s.lastF2 * DecayFactor);
          (s', AnalysisResult(s'.lastF1, s'.lastF2, 0.0, 0.0, m.intensity, false, None, 0.0))
        else
          var smooth := s.lastF1 > 0.0;
          var f1 := if smooth then Smooth(m.f1, s.lastF1) else m.f1;
          var f2 := if smooth then Smooth(m.f2, s.lastF2) else m.f2;
          var f3 := if smooth then Smooth(m.f3, s.lastF3) else m.f3;
          var pitch := if smooth then Smooth(m.pitch, s.lastPitch) else m.pitch;
          var detection := Detect(f1, f2, dsp.sqrt);
          (s.(lastF1 := f1, lastF2 := f2, lastF3 := f3, lastPitch := pitch),
           AnalysisResult(f1, f2, f3, pitch, m.intensity, true, detection.0, detection.1))
  }

  /** What `analyze` promises, frame by frame. */
  lemma AnalysisSpec(s: AnalyzerState, frame: seq<real>, dsp: Dsp)
    // too short, or below the RMS threshold: silent, and nothing changes
    ensures var out := Analysis(s, frame, dsp);
      |frame| < MinFrame ==> out == (s, SilentResult())
    ensures var out := Analysis(s, frame, dsp);
      var m := dsp.measure(HighPass(frame, dsp.alpha));
        |frame| >= MinFrame && m.rms < RmsThreshold(s.isCalibrated, s.noiseFloorRms) ==> out == (s, SilentResult())
    // voicing: long enough, strictly above the RMS threshold and above the intensity threshold
    ensures var out := Analysis(s, frame, dsp);
      var m := dsp.measure(HighPass(frame, dsp.alpha));
        out.1.isVoiced <==>
          && |frame| >= MinFrame
          && m.rms > RmsThreshold(s.isCalibrated, s.noiseFloorRms)
          && m.intensity > IntensityThreshold(s.isCalibrated, s.noiseFloorIntensity)
    // unvoiced but loud enough: only F1 and F2 decay, and the result carries them
    ensures var out := Analysis(s, frame, dsp);
      var m := dsp.measure(HighPass(frame, dsp.alpha));
        |frame| >= MinFrame && m.rms >= RmsThreshold(s.isCalibrated, s.noiseFloorRms) && !out.1.isVoiced ==>
          && out.0 == s.(lastF1 := s.lastF1 * DecayFactor, lastF2 := s.lastF2 * DecayFactor)
          && out.1 == AnalysisResult(out.0.lastF1, out.0.lastF2, 0.0, 0.0, m.intensity, false, None, 0.0)
    // voiced: the held values are the reported ones, smoothed only when F1 was held
    ensures var out := Analysis(s, frame, dsp);
      out.1.isVoiced ==>
        && out.0.lastF1 == out.1.f1 && out.0.lastF2 == out.1.f2
        && out.0.lastF3 == out.1.f3 && out.0.lastPitch == out.1.pitch
        && (out.1.detectedVowel, out.1.confidence) == Detect(out.1.f1, out.1.f2, dsp.sqrt)
    ensures var out := Analysis(s, frame, dsp);
      var m := dsp.measure(HighPass(frame, dsp.alpha));
        out.1.isVoiced ==>
          && out.1.intensity == m.intensity
          && (s.lastF1 > 0.0 ==>
                && out.1.f1 == Smooth(m.f1, s.lastF1) && out.1.f2 == Smooth(m.f2, s.lastF2)
                && out.1.f3 == Smooth(m.f3, s.lastF3) && out.1.pitch == Smooth(m.pitch, s.lastPitch))
          && (s.lastF1 <= 0.0 ==>
                out.1.f1 == m.f1 && out.1.f2 == m.f2 && out.1.f3 == m.f3 && out.1.pitch == m.pitch)
    ensures var out := Analysis(s, frame, dsp);
      !out.1.isVoiced ==> out.1.detectedVowel.None? && out.1.confidence == 0.0 && out.1.f3 == 0.0 && out.1.pitch == 0.0
    ensures var out := Analysis(s, frame, dsp);
      out.1.confidence >= 0.0
  {
  }

  /** With a true square root, every reported confidence lies in [0, 1]. */
  lemma AnalysisConfidenceBounded(s: AnalyzerState, frame: seq<real>, dsp: Dsp)
    requires IsSqrt(dsp.sqrt)
    ensures 0.0 <= Analysis(s, frame, dsp).1.confidence <= 1.0
  {
    AnalysisSpec(s, frame, dsp);
    var r := Analysis(s, frame, dsp).1;
    if r.isVoiced && r.f1 != 0.0 && r.f2 != 0.0 {
      DetectConfidence(r.f1, r.f2, dsp.sqrt);
    }
  }

  /** The state after `analyze` has been called on each frame in turn. */
  function AnalysisRun(s: AnalyzerState, frames: seq<seq<real>>, dsp: Dsp): AnalyzerState
  {
    if frames == [] then s
    else Analysis(AnalysisRun(s, frames[..|frames| - 1], dsp), frames[|frames| - 1], dsp).0
  }

  /** The frame passes the RMS gate but is not voiced. */
  ghost predicate LoudButUnvoiced(s: AnalyzerState, frame: seq<real>, dsp: Dsp)
  {
    var m := dsp.measure(HighPass(frame, dsp.alpha));
    var rmsThreshold := RmsThreshold(s.isCalibrated, s.noiseFloorRms);
    && |frame| >= MinFrame
    && m.rms >= rmsThreshold
    && !(m.rms > rmsThreshold && m.intensity > IntensityThreshold(s.isCalibrated, s.noiseFloorIntensity))
  }

  /** One such frame scales the held F1 and F2 by the decay factor and changes nothing else. */
  lemma UnvoicedStep(s: AnalyzerState, frame: seq<real>, dsp: Dsp)
    requires LoudButUnvoiced(s, frame, dsp)
    ensures Analysis(s, frame, dsp).0 == s.(lastF1 := s.lastF1 * DecayFactor, lastF2 := s.lastF2 * DecayFactor)
  {
  }

  /** Two states that agree on everything but the held F1 and F2. */
  ghost predicate OnlyFormantsDiffer(a: AnalyzerState, b: AnalyzerState)
  {
    && a.lastF3 == b.lastF3 && a.lastPitch == b.lastPitch
    && a.noiseFloorRms == b.noiseFloorRms && a.noiseFloorIntensity == b.noiseFloorIntensity
    && a.isCalibrated == b.isCalibrated && a.calibrationSamples == b.calibrationSamples
  }

  /** Whether a frame is loud but unvoiced depends on the calibration only. */
  lemma LoudButUnvoicedKept(s: AnalyzerState, t: AnalyzerState, frame: seq<real>, dsp: Dsp)
    requires LoudButUnvoiced(s, frame, dsp) && OnlyFormantsDiffer(t, s)
    ensures LoudButUnvoiced(t, frame, dsp)
  {
  }

  /** A positive held formant stays positive and never grows while it decays. */
  lemma {:induction false} DecayShrinks(x: real, n: nat)
    requires x > 0.0
    ensures 0.0 < Geometric(x, DecayFactor, n) <= x
    ensures n > 0 ==> Geometric(x, DecayFactor, n) < x
  {
    if n > 0 {
      DecayShrinks(x, n - 1);
    }
  }

  /** While loud but unvoiced frames keep arriving, the held F1 and F2
      shrink geometrically towards zero, by the decay factor per frame, and
      the rest of the state, calibration included, stays as it was. */
  lemma {:induction false} UnvoicedFramesDecay(s: AnalyzerState, frames: seq<seq<real>>, dsp: Dsp)
    requires forall i :: 0 <= i < |frames| ==> LoudButUnvoiced(s, frames[i], dsp)
    ensures AnalysisRun(s, frames, dsp).lastF1 == Geometric(s.lastF1, DecayFactor, |frames|)
    ensures AnalysisRun(s, frames, dsp).lastF2 == Geometric(s.lastF2, DecayFactor, |frames|)
    ensures OnlyFormantsDiffer(AnalysisRun(s, frames, dsp), s)
  {
    if frames != [] {
      var prefix, last := frames[..|frames| - 1], frames[|frames| - 1];
      assert forall i :: 0 <= i < |prefix| ==> prefix[i] == frames[i];
      UnvoicedFramesDecay(s, prefix, dsp);
      var previous := AnalysisRun(s, prefix, dsp);
      LoudButUnvoicedKept(s, previous, last, dsp);
      UnvoicedStep(previous, last, dsp);
    }
  }

  // ---------------------------------------------------------------------
  // The analyzer object

  class AudioAnalyzer {
    const sampleRate: nat
    var lastF1: real
    var lastF2: real
    var lastF3: real
    var lastPitch: real
    var noiseFloorRms: real
    var noiseFloorIntensity: real
    var isCalibrated: bool
    var calibrationSamples: seq<real>

    ghost predicate Valid()
      reads this
    {
      WindowBounded(calibrationSamples, sampleRate)
    }

    function State(): AnalyzerState
      reads this
    {
      AnalyzerState(lastF1, lastF2, lastF3, lastPitch, noiseFloorRms, noiseFloorIntensity, isCalibrated, calibrationSamples)
    }

    constructor (sampleRate: nat)
      ensures Valid()
      ensures this.sampleRate == sampleRate && State() == InitialState
    {
      this.sampleRate := sampleRate;
      noiseFloorRms := InitialNoiseFloorRms;
      noiseFloorIntensity := InitialNoiseFloorIntensity;
      isCalibrated := false;
      calibrationSamples := [];
      lastF1, lastF2, lastF3, lastPitch := 0.0, 0.0, 0.0, 0.0;
    }

    /** Feeds one chunk of ambient audio to the calibration; true once calibrated. */
    method CalibrateNoiseFloor(audio: seq<real>, dsp: Dsp) returns (done: bool)
      requires Valid()
      modifies this
      ensures Valid()
      ensures (State(), done) == Calibration(old(State()), sampleRate, audio, dsp)
    {
      ghost var expected := Calibration(State(), sampleRate, audio, dsp);
      if |audio| < MinFrame {
        return false;
      }
      var m := dsp.measure(audio);
      var samples := calibrationSamples + [m.rms];
      var maxSamples := MaxWindow(sampleRate);
      if maxSamples > 0 && |samples| > maxSamples {
        samples := samples[|samples| - maxSamples..];
      }
      assert samples == KeepLast(calibrationSamples + [m.rms], maxSamples);
      calibrationSamples := samples;
      if |samples| >= maxSamples / 2 {
        noiseFloorRms := NoiseFloorPick(samples);
        noiseFloorIntensity := IntensityFloor(m.intensity);
        isCalibrated := true;
        assert State() == expected.0;
        return true;
      }
      assert State() == expected.0;
      return false;
    }

    /** Analyses one frame, updating the held smoothing values. */
    method Analyze(audio: seq<real>, dsp: Dsp) returns (result: AnalysisResult)
      requires Valid()
      modifies this
      ensures Valid()
      ensures (State(), result) == Analysis(old(State()), audio, dsp)
    {
      if |audio| < MinFrame {
        return SilentResult();
      }
      var filtered := HighPassFilter(audio, dsp.alpha);
      var m := dsp.measure(filtered);
      var rmsThreshold := RmsThreshold(isCalibrated, noiseFloorRms);
      if m.rms < rmsThreshold {
        return SilentResult();
      }
      var intensityThreshold := IntensityThreshold(isCalibrated, noiseFloorIntensity);
      var rmsAboveNoise := m.rms > rmsThreshold;
      var isVoiced := m.intensity > intensityThreshold && rmsAboveNoise;
      if !isVoiced {
        lastF1 := lastF1 * DecayFactor;
        lastF2 := lastF2 * DecayFactor;
        return AnalysisResult(lastF1, lastF2, 0.0, 0.0, m.intensity, false, None, 0.0);
      }
      var f1, f2, f3, pitch := m.f1, m.f2, m.f3, m.pitch;
      if lastF1 > 0.0 {
        f1 := Smooth(f1, lastF1);
        f2 := Smooth(f2, lastF2);
        f3 := Smooth(f3, lastF3);
        pitch := Smooth(pitch, lastPitch);
      }
      lastF1, lastF2, lastF3, lastPitch := f1, f2, f3, pitch;
      var vowel, confidence := DetectVowel(f1, f2, dsp.sqrt);
      result := AnalysisResult(f1, f2, f3, pitch, m.intensity, true, vowel, confidence);
    }

    /** Clears the smoothing state and the calibration. */
    method Reset()
      modifies this
      ensures Valid()
      ensures State() == InitialState
    {
      lastF1, lastF2, lastF3, lastPitch := 0.0, 0.0, 0.0, 0.0;
      isCalibrated := false;
      calibrationSamples := [];
      noiseFloorRms := InitialNoiseFloorRms;
      noiseFloorIntensity := InitialNoiseFloorIntensity;
    }
  }

  /** The module-level `_analyzer` singleton behind `get_analyzer`. */
  class AnalyzerCache {
    var current: AudioAnalyzer?

    ghost predicate Valid()
      reads this, current
    {
      current != null ==> current.Valid()
    }

    constructor ()
      ensures Valid() && current == null
    {
      current := null;
    }

    /** Returns the cached analyzer when its sample rate matches, and
        otherwise replaces it by a new one. */
    method GetAnalyzer(sampleRate: nat) returns (a: AudioAnalyzer)
      requires Valid()
      modifies this
      ensures Valid() && current == a && a.sampleRate == sampleRate
      ensures old(current) != null && old(current).sampleRate == sampleRate ==> a == old(current)
      ensures old(current) == null || old(current).sampleRate != sampleRate ==> fresh(a) && a.State() == InitialState
    {
      if current == null || current.sampleRate != sampleRate {
        current := new AudioAnalyzer(sampleRate);
      }
      a := current;
    }
  }
}
