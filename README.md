# Vowel-analysis backend: a Dafny model

This project models the real-time audio backend of a vowel-training
application. The backend receives 16-bit PCM audio over a websocket and
keeps a rolling buffer of the newest samples. Every 512 new samples it
analyses the newest 1024 of them. The analyzer gates each frame on energy
and intensity, smooths the formants, and classifies (F1, F2) as the
nearest of fourteen IPA vowels. Each result goes back to the client with a
clamped position on a vowel chart.

The model has four modules:

- `Common` (common.dfy) holds `Option`, Python's `s[-m:]` trimming as
  `KeepLast`, Python's `sorted` on reals, and lemmas about bounded windows.
- `Vowels` (vowels.dfy) holds the IPA catalogue, the weighted F1/F2
  distance, the first-minimum search and the confidence. The search is a
  loop method proved against a recursive specification function.
- `Analyzer` (analyzer.dfy) models `AudioAnalyzer`:
  - the constants and thresholds;
  - `_smooth`, `_silent_result`, and the high-pass filter as a loop over
    an array;
  - the calibration window and its 90th-percentile pick;
  - the pure transition functions `Calibration` and `Analysis`;
  - the class `AudioAnalyzer`, whose methods are proved equal to those
    functions;
  - the `get_analyzer` cache as the class `AnalyzerCache`.
- `Ingest` (ingest.dfy) models the websocket handler:
  - the stream constants;
  - PCM decoding with a reference encoder as its inverse;
  - the position mapping of `result_to_dict`;
  - the per-message transition `Step` and its fold `Run` over a message
    sequence;
  - the class `Session`, whose `Receive` and `Serve` methods are proved
    equal to `Step` and `Run`.

The numeric library calls are parameters. `Dsp.measure` stands for the RMS
computed with NumPy and for Praat's formant, pitch and intensity readings.
`Dsp.sqrt` stands for NumPy's square root, and `Dsp.alpha` for the filter
coefficient. Properties that need a true square root say so with
`IsSqrt(sqrt)`. The stream transition is generic over the frame analysis:
its buffer and counter properties hold for any analyzer. The handler
instantiates it with `AnalysisOf(dsp)`, that is, with `analyze`.

Notes on how the model matches the code:

- The classifier compares the root distances with a strict `<`, as
  `_detect_vowel` does. `Vowels.NearestBySquaredDistance` shows that with a
  true root this picks the same entry as comparing squared distances.
- `int(len * 0.9)` is modelled exactly as `len * 9 / 10`. The window holds
  at most `sample_rate // 512` values, 31 at 16 kHz. In double-precision
  arithmetic `int(n * 0.9)` equals `n * 9 // 10` for every n below
  2,000,000, so for every rate up to about 10⁹ Hz the two agree.
- Python's `s[-0:]` is the whole list. So `KeepLast` with a bound of 0
  trims nothing, as `calibrate_noise_floor` does for sample rates below
  512.
- An RMS equal to the threshold passes the first gate, so the result is not
  silent. The frame is still unvoiced, because voicing needs `rms >
  threshold`. The model keeps both comparisons.
- The websocket handler never calls `calibrate_noise_floor`. A streaming
  session therefore always runs with the uncalibrated thresholds (0.04 RMS,
  45 dB), as `Ingest.RunKeepsUncalibrated` states. The calibration is
  modelled as the analyzer offers it.
- A `reset` text message does not clear `samples_since_last_process`, and
  `ControlStep` states this.

## Model

| member | source | states |
|---|---|---|
| Common.KeepLast | backend/audio_analyzer.py:105-107 | the trimmed list has length min(m, len) (all of it when m is 0) and is the suffix of that length |
| Common.KeepLastConcat | backend/main.py:81-87 | trimming before a concatenation and trimming after it give the same buffer |
| Common.ChunkedIsRecent | backend/main.py:81-87 | however a stream is cut into chunks, trimming after each chunk keeps the newest m elements of the whole stream |
| Common.Insert | backend/audio_analyzer.py:112 | inserting into a sorted list gives a sorted list one longer, with the same elements plus the new one |
| Common.SortAscending | backend/audio_analyzer.py:112 | `sorted` returns an ascending permutation of its input |
| Vowels.WeightedSq | backend/audio_analyzer.py:294-296 | the weighted squared distance is non-negative and is zero exactly at the entry's own (F1, F2) |
| Vowels.Distance | backend/audio_analyzer.py:294-296 | with a true square root, the distance is non-negative, squares to the weighted squared distance, and is zero exactly at the entry's own (F1, F2) |
| Vowels.NearestIn | backend/audio_analyzer.py:290-300 | the search keeps the first minimum: the chosen entry is no farther than any entry seen, and strictly nearer than every earlier one |
| Vowels.NearestIndex | backend/audio_analyzer.py:293-300 | over the whole catalogue, the chosen entry is the first nearest one |
| Vowels.FirstNearestUnique | backend/audio_analyzer.py:298-300 | because the comparison is strict, ties go to the earliest entry, so the first nearest entry is unique |
| Vowels.NearestBySquaredDistance | backend/audio_analyzer.py:294-300 | with a true square root, the chosen entry also has the least squared distance, strictly less than every earlier entry |
| Vowels.Confidence | backend/audio_analyzer.py:302 | `max(0, 1 - d/400)` is never negative, is at most 1 for d >= 0, is 1 exactly at d = 0, and is 0 from 400 on |
| Vowels.ConfidenceMonotone | backend/audio_analyzer.py:302 | a nearer match never gets a lower confidence |
| Vowels.Detect | backend/audio_analyzer.py:285-303 | none and 0 exactly when f1 or f2 is 0; otherwise the first nearest entry's symbol, with the confidence of its distance |
| Vowels.DetectConfidence | backend/audio_analyzer.py:302 | with a true root, confidence lies in [0, 1], and is 1 iff the input equals the chosen entry's (F1, F2) |
| Vowels.CatalogueKeysDistinct | backend/audio_analyzer.py:30-45 | `Catalogue` holds the fourteen entries of `IPA_VOWELS` in dict insertion order, with symbol, F1, F2 and name as written; as dict keys, no two entries share a symbol |
| Vowels.CatalogueDistinct | backend/audio_analyzer.py:30-45 | no two of the fourteen entries share their (F1, F2) pair |
| Vowels.RoundTrip | backend/audio_analyzer.py:30-45 | each entry's own (F1, F2) is classified as that entry, with confidence 1 |
| Vowels.CloseFrontExample | backend/audio_analyzer.py:31 | (280, 2300) gives "i" with confidence 1 |
| Vowels.DetectVowel | backend/audio_analyzer.py:285-303 | the loop over the catalogue, with `min_distance` starting at infinity, returns what `Detect` specifies |
| Analyzer.SilentResult | backend/audio_analyzer.py:220-221 | the silent result is unvoiced, has no vowel, and all its numbers are 0 |
| Analyzer.Smooth | backend/audio_analyzer.py:214-218 | a zero reading gives old*0.5; any other reading gives a value between old and new that keeps 30% of their difference |
| Analyzer.SmoothSteady | backend/audio_analyzer.py:214-218 | smoothing a steady non-zero reading leaves it unchanged |
| Analyzer.HighPassAt | backend/audio_analyzer.py:279-281 | sample i of the output, `audio[0]` for i = 0 and one `FilterStep` from sample i-1 otherwise; contract in `HighPass`, which returns these samples |
| Analyzer.FilterStep | backend/audio_analyzer.py:281 | one step of the recurrence, `alpha * (filtered[i-1] + audio[i] - audio[i-1])`, shared by the loop and the specification; its meaning is stated in `HighPass` and `HighPassUnique` |
| Analyzer.HighPass | backend/audio_analyzer.py:268-281 | same length; inputs under 2 samples come back unchanged; out[0] = in[0] and out[i] = alpha*(out[i-1] + in[i] - in[i-1]) |
| Analyzer.HighPassUnique | backend/audio_analyzer.py:278-281 | any signal that starts at in[0] and follows the recurrence is the filter's output |
| Analyzer.HighPassRemovesConstant | backend/audio_analyzer.py:278-281 | a constant input c gives the output c*alpha^i |
| Analyzer.HighPassFilter | backend/audio_analyzer.py:263-283 | the loop writing `filtered[i]` into a zeroed buffer computes `HighPass` |
| Analyzer.RmsThreshold | backend/audio_analyzer.py:148-155 | 0.04 before calibration; afterwards the larger of 0.03 and 2.5 x the RMS noise floor |
| Analyzer.IntensityThreshold | backend/audio_analyzer.py:165-171 | 45 dB before calibration; afterwards the larger of 40 dB and the noise floor + 10 dB |
| Analyzer.PercentileIndex | backend/audio_analyzer.py:113 | `int(n*0.9)` is an in-bounds index, the floor of 0.9n |
| Analyzer.MaxWindow | backend/audio_analyzer.py:105 | `int(sample_rate / 512)` is the number of whole 512-sample chunks in a second, and is 0 exactly below 512 Hz |
| Analyzer.NoiseFloorPick | backend/audio_analyzer.py:112-114 | the value at the 90th-percentile position of the sorted window; contract in `NoiseFloorInWindow` and `NoiseFloorIsPercentile` |
| Analyzer.NoiseFloorInWindow | backend/audio_analyzer.py:112-114 | the chosen RMS noise floor is one of the window's values |
| Analyzer.NoiseFloorIsPercentile | backend/audio_analyzer.py:111-114 | every sorted value up to the pick is at most the floor, and every later one is at least it |
| Analyzer.StreamWindow | backend/audio_analyzer.py:105-113 | at 16 kHz the window holds 31 values, calibration needs 15, and the percentile indices are 27 and 13 |
| Analyzer.IntensityFloor | backend/audio_analyzer.py:121 | the intensity floor is the larger of 20 dB and the intensity - 5 dB |
| Analyzer.Calibration | backend/audio_analyzer.py:92-129 | one call never touches the smoothing state and never undoes a calibration, and a True result leaves the analyzer calibrated; the rest of its contract is in `CalibrationSpec` |
| Analyzer.CalibrationSpec | backend/audio_analyzer.py:92-129 | short frames change nothing and return False; otherwise the RMS enters the bounded window; True iff the window holds at least `max_samples // 2`, and then the floors are the 90th-percentile pick, a window member, and `max(20, intensity - 5)`; otherwise only the window changes; the window bound is kept |
| Analyzer.CalibrationWindowIsRecent | backend/audio_analyzer.py:92-107 | after any sequence of calls, the window is the newest `max_samples` RMS values of all frames of at least 256 samples, in order, after the values it already held |
| Analyzer.Analysis | backend/audio_analyzer.py:131-208 | analysing a frame never touches the calibration: floors, window and `is_calibrated` stay as they were; the rest of its contract is in `AnalysisSpec` |
| Analyzer.AnalysisSpec | backend/audio_analyzer.py:134-208 | short or quiet frames give the silent result and change nothing; voiced iff RMS is strictly above and intensity above their thresholds; unvoiced frames scale only the held F1/F2 by 0.8 and report them with f3 = pitch = 0; voiced frames store the reported values, smoothed only if the held F1 > 0, and classify them |
| Analyzer.AnalysisConfidenceBounded | backend/audio_analyzer.py:202-207 | with a true root every reported confidence lies in [0, 1] |
| Analyzer.UnvoicedStep | backend/audio_analyzer.py:177-184 | a loud but unvoiced frame scales the held F1 and F2 by 0.8 and changes nothing else |
| Analyzer.DecayShrinks | backend/audio_analyzer.py:179-180 | a positive held formant times 0.8^n stays positive, and strictly shrinks once n > 0 |
| Analyzer.UnvoicedFramesDecay | backend/audio_analyzer.py:177-184 | after any n loud but unvoiced frames in a row, the held F1 and F2 are their old values times 0.8^n, and every other field is unchanged |
| Analyzer.AudioAnalyzer.constructor | backend/audio_analyzer.py:54-85 | a new analyzer has the given sample rate, zeroed smoothing state, floors 0.01 and 30, and an empty window, uncalibrated |
| Analyzer.AudioAnalyzer.CalibrateNoiseFloor | backend/audio_analyzer.py:87-129 | the method's new state and result are `Calibration` of the old state, and it keeps the window bound |
| Analyzer.AudioAnalyzer.Analyze | backend/audio_analyzer.py:131-208 | the method's new state and result are `Analysis` of the old state |
| Analyzer.AudioAnalyzer.Reset | backend/audio_analyzer.py:305-314 | every held value is 0, uncalibrated, the window is empty and the floors are 0.01 and 30 |
| Analyzer.AnalyzerCache.constructor | backend/audio_analyzer.py:317 | the module starts with no analyzer |
| Analyzer.AnalyzerCache.GetAnalyzer | backend/audio_analyzer.py:319-323 | returns the cached analyzer if its sample rate matches; otherwise a fresh analyzer in the initial state, which becomes the cached one |
| Ingest.StreamConstants | backend/main.py:27-29 | the buffer bound 3200 is a fifth of the 16 kHz rate, and 512 < 1024 <= 3200 |
| Ingest.DecodeInt16 | backend/main.py:77 | a little-endian byte pair decodes to an integer in [-32768, 32767], negative exactly when the high byte's top bit is set |
| Ingest.Int16RoundTrip | backend/main.py:77 | decoding inverts the reference encoder |
| Ingest.BytePairRoundTrip | backend/main.py:77 | the reference encoder inverts decoding for every byte pair |
| Ingest.ToSample | backend/main.py:78 | a scaled sample lies in [-1, 1), has the integer's sign, and times 32768 gives the integer back |
| Ingest.DecodeInts | backend/main.py:77 | one integer per byte pair, the i-th from bytes 2i and 2i+1 |
| Ingest.EncodeInts | backend/main.py:77 | the reference encoder writes two bytes per integer |
| Ingest.IntsRoundTrip | backend/main.py:77 | decoding an encoded integer sequence gives it back |
| Ingest.BytesRoundTrip | backend/main.py:77 | encoding the decoded integers of an even-length byte string gives the bytes back |
| Ingest.DecodePcm | backend/main.py:77-78 | fails exactly on an odd byte count; otherwise gives half as many samples, each the scaled decode of its byte pair, all in [-1, 1) |
| Ingest.PositionX | backend/main.py:44 | x is in [0, 1], 0.5 when f2 <= 0, 1 up to 800 Hz, linear down to 0 at 2400 Hz and 0 beyond |
| Ingest.PositionY | backend/main.py:45 | y is in [0, 1], 0.5 when f1 <= 0, 0 up to 250 Hz, linear up to 1 at 850 Hz and 1 beyond |
| Ingest.PositionMonotone | backend/main.py:44-45 | over positive formants, x is non-increasing in f2 and y is non-decreasing in f1 |
| Ingest.ResultToMessage | backend/main.py:32-47 | every field, including isVoiced and detectedVowel, is copied unchanged, and both position coordinates lie in [0, 1] |
| Ingest.SilentIsCentred | backend/main.py:44-45 | the silent result is placed at (0.5, 0.5) |
| Ingest.LastChunk | backend/main.py:94 | `audio_buffer[-MIN_CHUNK_SIZE:]` is the suffix of the buffer of exactly 1024 samples |
| Ingest.Trigger | backend/main.py:90-97 | the trigger never changes the buffer or ends the session; it replies iff the counter is at least 512 and 1024 samples are buffered, and then restarts the counter; otherwise nothing changes; afterwards no analysis is pending |
| Ingest.AudioStep | backend/main.py:77-97 | decoded audio leaves the session open, makes the buffer the newest 3200 samples of old ++ new, and leaves no analysis pending |
| Ingest.AudioStepSpec | backend/main.py:81-97 | the buffer is the newest min(3200, old + new) samples of old ++ new; a result is sent iff the counter reaches 512 with at least 1024 samples buffered, and then the counter is 0 and the analysed chunk is the newest 1024 samples of old ++ new; otherwise the counter grows by the sample count and the analyzer is untouched |
| Ingest.Step | backend/main.py:73-106 | a closed session ignores every message, and a closed session is never reopened; the per-message cases are in `BinaryStep` and `ControlStep` |
| Ingest.BinaryStep | backend/main.py:75-78 | an odd byte count ends the session; otherwise the decoded samples take `AudioStep` and the session stays open |
| Ingest.ControlStep | backend/main.py:99-111 | ping replies pong and changes nothing; reset empties the buffer, resets the analyzer, keeps the counter and replies reset_ack; other types do nothing; malformed text and a disconnect end the session and change nothing else |
| Ingest.StepInvariant | backend/main.py:81-95 | every step keeps the buffer within 3200 samples and leaves no analysis pending |
| Ingest.Run | backend/main.py:72-111 | a run sends at most one reply per message, never reopens a closed session, and does nothing on a session already closed |
| Ingest.StreamingStep | backend/main.py:81-87 | a decodable binary, ping or other text message keeps the session open and appends its samples to the trimmed buffer |
| Ingest.StreamingRun | backend/main.py:72-87 | a run of such messages keeps the session open and feeds the buffer chunk by chunk |
| Ingest.BufferIsRecentAudio | backend/main.py:81-87 | after any run of such messages, the buffer is the newest 3200 samples of the old buffer followed by everything received |
| Ingest.RunAfterClose | backend/main.py:108-111 | messages after the session has ended change neither the state nor the replies |
| Ingest.StepKeepsUncalibrated | backend/main.py:64-106 | no message calibrates an uncalibrated analyzer: the handler never calls `calibrate_noise_floor` |
| Ingest.RunKeepsUncalibrated | backend/main.py:64-106 | over any run from an uncalibrated analyzer, such as the one `reset` leaves, the gates stay at 0.04 RMS and 45 dB |
| Ingest.Session.constructor | backend/main.py:61-69 | a connection takes the analyzer from the cache: a cached 16 kHz analyzer is reused, so connections share it, and otherwise a fresh one is made; either way it is reset, and the session starts with an empty buffer and a zero counter |
| Ingest.Session.Receive | backend/main.py:73-106 | handling one message gives the state and reply of `Step` |
| Ingest.Session.ReceiveAudio | backend/main.py:77-95 | handling decoded audio gives the state and reply of the audio step |
| Ingest.Session.ProcessIfDue | backend/main.py:90-97 | the process trigger gives the state and reply of `Trigger` |
| Ingest.Session.Serve | backend/main.py:71-111 | the receive loop, which stops when the session ends, gives the state and replies of `Run` over the messages |

## Left out

- Praat and parselmouth (`_get_formants`, `_get_pitch`, `_get_intensity`, `parselmouth.Sound`) are a foreign DSP library. They are the uninterpreted `Dsp.measure`, together with their NaN-to-0 and failure-to-0 handling and the `or 0` of the intensity reading.
- NumPy's RMS, `np.sqrt` and `np.pi` are parameters, including the coefficient `alpha = rc / (rc + dt)` of the 80 Hz filter. Confidence bounds and the vowel round trip assume `IsSqrt`.
- Floating-point arithmetic is not modelled: values are exact reals. `astype(np.float64)` is then the identity.
- `round(..., 1)` and `round(..., 3)` in `result_to_dict` are decimal float rounding. The message carries the unrounded values.
- The analyzer fields used only by Praat calls or by nothing are not modelled: `max_formants`, `max_formant_freq`, `window_length`, `pre_emphasis`, `pitch_floor`, `pitch_ceiling`, `calibration_samples_needed`.
- The broad `except` of `analyze`, which returns the silent result, is not modelled. Here the library calls are total, so no exception can arise.
- The `try/except` around the intensity estimate in `calibrate_noise_floor` is only partly modelled. `_get_intensity` catches its own failures and returns 0, which `Dsp.measure` can report, giving a floor of 20 dB. Only a failing `parselmouth.Sound(...)` construction reaches the `except: pass` and leaves the intensity floor unchanged; the model has no such failure and always updates the floor.
- Exceptions in the handler are modelled only as the end of the session: an odd byte count, malformed JSON, and a received disconnect. A failing `send_json` is not modelled.
- FastAPI, CORS, the `/` endpoint, `uvicorn.run`, async receive/send and JSON parsing are not modelled. Text frames become the `Inbound` variants.
- Logging is left out.
- Concurrency is not modelled. Several connections share the one cached analyzer, and interleavings of their handlers are not covered. Each `Session` holds the analyzer by reference, and its methods state the analyzer's new state.
- `np.frombuffer` with `int16` reads the host byte order. The model decodes little-endian, the order of the usual hosts.
- The client-side code is not part of this model.
