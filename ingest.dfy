/** The streaming side of the backend (`websocket_audio` and
    `result_to_dict`): 16-bit PCM decoding, the rolling sample buffer, the
    counter that decides when the newest audio is analysed, the control
    messages, and the mapping of formants to a position on the vowel chart. */
module Ingest {
  import opened Common
  import opened Analyzer

  // ---------------------------------------------------------------------
  // Constants of the stream

  const SampleRate: nat := 16000
  /** Samples handed to the analyzer at a time (about 64 ms). */
  const MinChunkSize: nat := 1024
  /** New samples needed before the next analysis (about 32 ms). */
  const ProcessEvery: nat := 512
  /** `int(SAMPLE_RATE * 0.2)`: the buffer keeps about 200 ms of audio. */
  const MaxBuffer: nat := 3200

  /** The buffer bound is one fifth of a second at the stream's rate, and an
      analysed chunk always fits in it. */
  lemma StreamConstants()
    ensures MaxBuffer * 5 == SampleRate
    ensures ProcessEvery < MinChunkSize <= MaxBuffer
  {
  }

  // ---------------------------------------------------------------------
  // 16-bit PCM

  newtype byte = x: int | 0 <= x < 256

  predicate IsInt16(v: int)
  {
    -32768 <= v <= 32767
  }

  /** A little-endian two's-complement 16-bit integer from its low and high byte. */
  function DecodeInt16(lo: byte, hi: byte): (v: int)
    ensures IsInt16(v)
    ensures v < 0 <==> hi >= 128
  {
    var u := hi as int * 256 + lo as int;
    if u >= 32768 then u - 65536 else u
  }

  /** The two bytes, low first, of a 16-bit integer. */
  function EncodeInt16(v: int): (bytes: (byte, byte))
    requires IsInt16(v)
  {
    var u := if v < 0 then v + 65536 else v;
    ((u % 256) as byte, (u / 256) as byte)
  }

  /** Decoding inverts encoding. */
  lemma Int16RoundTrip(v: int)
    requires IsInt16(v)
    ensures DecodeInt16(EncodeInt16(v).0, EncodeInt16(v).1) == v
  {
  }

  /** Encoding inverts decoding: every byte pair is some integer's encoding. */
  lemma BytePairRoundTrip(lo: byte, hi: byte)
    ensures EncodeInt16(DecodeInt16(lo, hi)) == (lo, hi)
  {
  }

  /** `x / 32768.0`: a 16-bit integer as a sample in [-1, 1). */
  function ToSample(v: int): (x: real)
    requires IsInt16(v)
    ensures -1.0 <= x < 1.0
    ensures x < 0.0 <==> v < 0
    ensures x * 32768.0 == v as real
  {
    v as real / 32768.0
  }

  /** The integers of a byte string, one per byte pair; a trailing odd byte is ignored. */
  function DecodeInts(bytes: seq<byte>): (vs: seq<int>)
    ensures |vs| == |bytes| / 2
    ensures forall i :: 0 <= i < |vs| ==> vs[i] == DecodeInt16(bytes[2 * i], bytes[2 * i + 1])
    decreases |bytes|
  {
    if |bytes| < 2 then []
    else
      var rest := DecodeInts(bytes[2..]);
      assert forall i :: 1 <= i < |rest| + 1 ==> rest[i - 1] == DecodeInt16(bytes[2 * i], bytes[2 * i + 1]);
      [DecodeInt16(bytes[0], bytes[1])] + rest
  }

  /** The byte string of a sequence of 16-bit integers, low byte first. */
  function EncodeInts(vs: seq<int>): (bytes: seq<byte>)
    requires forall i :: 0 <= i < |vs| ==> IsInt16(vs[i])
    ensures |bytes| == 2 * |vs|
  {
    if vs == [] then []
    else
      var p := EncodeInt16(vs[0]);
      [p.0, p.1] + EncodeInts(vs[1..])
  }

  /** Decoding an encoded sequence gives the sequence back. */
  lemma {:induction false} IntsRoundTrip(vs: seq<int>)
    requires forall i :: 0 <= i < |vs| ==> IsInt16(vs[i])
    ensures DecodeInts(EncodeInts(vs)) == vs
  {
    if vs != [] {
      var bytes := EncodeInts(vs);
      IntsRoundTrip(vs[1..]);
      assert bytes[2..] == EncodeInts(vs[1..]);
      Int16RoundTrip(vs[0]);
    }
  }

  /** Encoding the decoded integers of an even-length byte string gives it back. */
  lemma {:induction false} BytesRoundTrip(bytes: seq<byte>)
    requires |bytes| % 2 == 0
    ensures EncodeInts(DecodeInts(bytes)) == bytes
  {
    if bytes != [] {
      var vs := DecodeInts(bytes);
      assert vs[1..] == DecodeInts(bytes[2..]);
      BytesRoundTrip(bytes[2..]);
      BytePairRoundTrip(bytes[0], bytes[1]);
      assert bytes == [bytes[0], bytes[1]] + bytes[2..];
    }
  }

  /** `np.frombuffer(data, dtype=np.int16) / 32768.0`. A byte string of odd
      length is not a whole number of 16-bit values: NumPy raises, which ends
      the session, and the model returns `None`. */
  function DecodePcm(bytes: seq<byte>): (r: Option<seq<real>>)
    ensures r.None? <==> |bytes| % 2 == 1
    ensures r.Some? ==> |r.value| == |bytes| / 2
    ensures r.Some? ==> forall i :: 0 <= i < |r.value| ==>
      r.value[i] == ToSample(DecodeInt16(bytes[2 * i], bytes[2 * i + 1]))
    ensures r.Some? ==> forall i :: 0 <= i < |r.value| ==> -1.0 <= r.value[i] < 1.0
  {
    if |bytes| % 2 == 1 then None
    else
      var vs := DecodeInts(bytes);
      Some(seq(|vs|, i requires 0 <= i < |vs| => ToSample(vs[i])))
  }

  // ---------------------------------------------------------------------
  // Position on the vowel chart

  /** Horizontal position from F2: 1 at 800 Hz, falling linearly to 0 at
      2400 Hz, clamped to [0, 1]; 0.5 when no F2 was found. */
  function PositionX(f2: real): (x: real)
    ensures 0.0 <= x <= 1.0
    ensures f2 <= 0.0 ==> x == 0.5
    ensures 0.0 < f2 <= 800.0 ==> x == 1.0
    ensures 800.0 <= f2 <= 2400.0 ==> x * 1600.0 == 2400.0 - f2
    ensures f2 >= 2400.0 ==> x == 0.0
  {
    if f2 > 0.0 then Min(1.0, Max(0.0, 1.0 - (f2 - 800.0) / 1600.0)) else 0.5
  }

  /** Vertical position from F1: 0 at 250 Hz, rising linearly to 1 at
      850 Hz, clamped to [0, 1]; 0.5 when no F1 was found. */
  function PositionY(f1: real): (y: real)
    ensures 0.0 <= y <= 1.0
    ensures f1 <= 0.0 ==> y == 0.5
    ensures 0.0 < f1 <= 250.0 ==> y == 0.0
    ensures 250.0 <= f1 <= 850.0 ==> y * 600.0 == f1 - 250.0
    ensures f1 >= 850.0 ==> y == 1.0
  {
    if f1 > 0.0 then Min(1.0, Max(0.0, (f1 - 250.0) / 600.0)) else 0.5
  }

  /** Over found formants, a higher F2 never moves the point right and a
      higher F1 never moves it up. */
  lemma PositionMonotone(a: real, b: real)
    requires 0.0 < a <= b
    ensures PositionX(b) <= PositionX(a)
    ensures PositionY(a) <= PositionY(b)
  {
  }

  datatype Position = Position(x: real, y: real)

  /** The JSON object sent for an analysis result (before decimal rounding). */
  datatype ResultMessage = ResultMessage(
    f1: real, f2: real, f3: real, pitch: real, intensity: real,
    isVoiced: bool, detectedVowel: Option<string>, confidence: real,
    position: Position)

  /** `result_to_dict`: the result's fields with the formants' chart position. */
  function ResultToMessage(r: AnalysisResult): (m: ResultMessage)
    ensures m.isVoiced == r.isVoiced && m.detectedVowel == r.detectedVowel
    ensures m.f1 == r.f1 && m.f2 == r.f2 && m.f3 == r.f3 && m.pitch == r.pitch
    ensures m.intensity == r.intensity && m.confidence == r.confidence
    ensures 0.0 <= m.position.x <= 1.0 && 0.0 <= m.position.y <= 1.0
    ensures m.position == Position(PositionX(r.f2), PositionY(r.f1))
  {
    ResultMessage(r.f1, r.f2, r.f3, r.pitch, r.intensity, r.isVoiced, r.detectedVowel, r.confidence,
                  Position(PositionX(r.f2), PositionY(r.f1)))
  }

  /** A silent result is drawn in the middle of the chart. */
  lemma SilentIsCentred()
    ensures ResultToMessage(SilentResult()).position == Position(0.5, 0.5)
  {
  }

  // ---------------------------------------------------------------------
  // Messages and the per-message step

  /** What `websocket.receive()` can deliver. A text frame is JSON whose
      `type` is "ping", "reset" or anything else; `Malformed` is a text frame
      that is not a JSON object, on which parsing or `.get` raises. */
  datatype Inbound =
    | Binary(bytes: seq<byte>)
    | Ping
    | Reset
    | OtherText
    | Malformed
    | Disconnect

  datatype Outbound = Pong | ResetAck | Result(message: ResultMessage)

  /** The per-connection state: the rolling buffer, the count of samples
      since the last analysis, whether the receive loop still runs, and the
      analyzer's state. */
  datatype SessionState = SessionState(buffer: seq<real>, counter: nat, open: bool, analyzer: AnalyzerState)

  /** The state right after `accept`: empty buffer, zero counter, reset analyzer. */
  const Connected: SessionState := SessionState([], 0, true, InitialState)

  /** The newest `MinChunkSize` samples: the chunk that completes the buffer. */
  function LastChunk(b: seq<real>): (c: seq<real>)
    requires |b| >= MinChunkSize
    ensures |c| == MinChunkSize
    ensures c == b[|b| - |c|..]
  {
    b[|b| - MinChunkSize..]
  }

  /** What the stream does with a chunk: the analyzer's state and the
      chunk in, the new analyzer state and the result out. The stream logic
      below holds for any such function; the handler uses `analyze`. */
  type FrameAnalysis = (AnalyzerState, seq<real>) -> (AnalyzerState, AnalysisResult)

  /** `AudioAnalyzer.analyze` with the given library calls. */
  function AnalysisOf(dsp: Dsp): FrameAnalysis
  {
    (a: AnalyzerState, chunk: seq<real>) => Analysis(a, chunk, dsp)
  }

  /** Decoded audio: appended to the buffer, which keeps the newest samples,
      and counted; then the process trigger runs. */
  function AudioStep(st: SessionState, samples: seq<real>, analyse: FrameAnalysis): (out: (SessionState, Option<Outbound>))
    ensures out.0.open == st.open
    ensures out.0.buffer == KeepLast(st.buffer + samples, MaxBuffer) && |out.0.buffer| <= MaxBuffer
    ensures Settled(out.0)
  {
    Trigger(st.(buffer := KeepLast(st.buffer + samples, MaxBuffer), counter := st.counter + |samples|), analyse)
  }

  /** The process trigger: once at least 512 new samples have arrived and the
      buffer holds a whole chunk, the newest chunk is analysed, the counter
      restarts and the result is sent. */
  function Trigger(st: SessionState, analyse: FrameAnalysis): (out: (SessionState, Option<Outbound>))
    ensures out.0.buffer == st.buffer && out.0.open == st.open
    ensures out.1.Some? <==> st.counter >= ProcessEvery && |st.buffer| >= MinChunkSize
    ensures out.1.Some? ==> out.0.counter == 0 && out.1.value.Result?
    ensures out.1.None? ==> out.0 == st
    ensures Settled(out.0)
  {
    if st.counter >= ProcessEvery && |st.buffer| >= MinChunkSize then
      var out := analyse(st.analyzer, LastChunk(st.buffer));
      (st.(counter := 0, analyzer := out.0), Some(Result(ResultToMessage(out.1))))
    else
      (st, None)
  }

  /** One iteration of the receive loop. A closed session ignores everything. */
  function Step(st: SessionState, msg: Inbound, analyse: FrameAnalysis): (out: (SessionState, Option<Outbound>))
    ensures !st.open ==> out == (st, None)
    ensures out.0.open ==> st.open
  {
    if !st.open then (st, None)
    else
      match msg
      case Binary(bytes) =>
        if |bytes| % 2 == 1 then (st.(open := false), None)
        else AudioStep(st, DecodePcm(bytes).value, analyse)
      case Ping => (st, Some(Pong))
      case Reset => (st.(buffer := [], analyzer := InitialState), Some(ResetAck))
      case OtherText => (st, None)
      case Malformed => (st.(open := false), None)
      case Disconnect => (st.(open := false), None)
  }

  /** Decoded audio is appended to the buffer, which keeps the newest 3200
      samples; the counter grows by the number of samples, and once it reaches
      512 with at least 1024 samples buffered the newest 1024 samples of
      everything received are analysed, the counter restarts and the result
      is sent. */
  lemma AudioStepSpec(st: SessionState, samples: seq<real>, analyse: FrameAnalysis)
    ensures var out := AudioStep(st, samples, analyse);
      var all := st.buffer + samples;
      var fired := st.counter + |samples| >= ProcessEvery && |out.0.buffer| >= MinChunkSize;
      && out.0.open == st.open
      && out.0.buffer == KeepLast(all, MaxBuffer)
      && |out.0.buffer| == (if |all| > MaxBuffer then MaxBuffer else |all|)
      && (out.1.Some? <==> fired)
      && (fired ==>
            && |all| >= MinChunkSize
            && var analysed := analyse(st.analyzer, all[|all| - MinChunkSize..]);
            && out.0.counter == 0
            && out.0.analyzer == analysed.0
            && out.1 == Some(Result(ResultToMessage(analysed.1))))
      && (!fired ==> out.0.counter == st.counter + |samples| && out.0.analyzer == st.analyzer)
  {
    var all := st.buffer + samples;
    var buffer := KeepLast(all, MaxBuffer);
    if |buffer| >= MinChunkSize {
      SuffixOfSuffix(buffer, all, MinChunkSize);
    }
  }

  /** A binary message: audio that does not decode ends the session; decoded
      samples take the audio step. */
  lemma BinaryStep(st: SessionState, bytes: seq<byte>, analyse: FrameAnalysis)
    requires st.open
    ensures var out := Step(st, Binary(bytes), analyse);
      |bytes| % 2 == 1 ==> out == (st.(open := false), None)
    ensures var out := Step(st, Binary(bytes), analyse);
      |bytes| % 2 == 0 ==> out == AudioStep(st, DecodePcm(bytes).value, analyse) && out.0.open
  {
  }

  /** Text messages and the end of the stream: a ping is answered and changes
      nothing; a reset empties the buffer and resets the analyzer but keeps
      the counter; other types are ignored; anything else ends the session
      without touching the rest of the state. */
  lemma ControlStep(st: SessionState, analyse: FrameAnalysis)
    requires st.open
    ensures Step(st, Ping, analyse) == (st, Some(Pong))
    ensures Step(st, Reset, analyse).1 == Some(ResetAck)
    ensures var s' := Step(st, Reset, analyse).0;
      s'.buffer == [] && s'.counter == st.counter && s'.open && s'.analyzer == InitialState
    ensures Step(st, OtherText, analyse) == (st, None)
    ensures Step(st, Malformed, analyse) == (st.(open := false), None)
    ensures Step(st, Disconnect, analyse) == (st.(open := false), None)
  {
  }

  /** No analysis is left pending: either fewer than 512 new samples have
      arrived or fewer than 1024 are buffered. */
  ghost predicate Settled(st: SessionState)
  {
    !(st.counter >= ProcessEvery && |st.buffer| >= MinChunkSize)
  }

  /** Every step keeps the buffer within its bound and leaves no analysis pending. */
  lemma StepInvariant(st: SessionState, msg: Inbound, analyse: FrameAnalysis)
    requires |st.buffer| <= MaxBuffer && Settled(st)
    ensures |Step(st, msg, analyse).0.buffer| <= MaxBuffer
    ensures Settled(Step(st, msg, analyse).0)
  {
  }

  /** The reply of one step as a list of sent messages. */
  function Emit(reply: Option<Outbound>): seq<Outbound>
  {
    if reply.Some? then [reply.value] else []
  }

  /** A session fed a sequence of messages in order, with the replies sent. */
  function Run(st: SessionState, msgs: seq<Inbound>, analyse: FrameAnalysis): (out: (SessionState, seq<Outbound>))
    ensures |out.1| <= |msgs|
    ensures out.0.open ==> st.open
    ensures !st.open ==> out == (st, [])
  {
    if msgs == [] then (st, [])
    else
      var before := Run(st, msgs[..|msgs| - 1], analyse);
      var out := Step(before.0, msgs[|msgs| - 1], analyse);
      (out.0, before.1 + Emit(out.1))
  }

  /** Running one more message is one more step. */
  lemma RunStep(st: SessionState, msgs: seq<Inbound>, i: nat, analyse: FrameAnalysis)
    requires i < |msgs|
    ensures var before := Run(st, msgs[..i], analyse);
      var out := Step(before.0, msgs[i], analyse);
      Run(st, msgs[..i + 1], analyse) == (out.0, before.1 + Emit(out.1))
  {
    var next := msgs[..i + 1];
    assert next[..|next| - 1] == msgs[..i];
    assert next[|next| - 1] == msgs[i];
  }

  /** The message neither resets the buffer nor ends the session. */
  predicate Streams(msg: Inbound)
  {
    match msg
    case Binary(bytes) => |bytes| % 2 == 0
    case Ping => true
    case OtherText => true
    case _ => false
  }

  /** The samples a message carries: those of a decodable binary message, none otherwise. */
  function Samples(msg: Inbound): seq<real>
  {
    if msg.Binary? && |msg.bytes| % 2 == 0 then DecodePcm(msg.bytes).value else []
  }

  /** The samples of each message, in order. */
  function Chunks(msgs: seq<Inbound>): (cs: seq<seq<real>>)
    ensures |cs| == |msgs|
  {
    if msgs == [] then [] else Chunks(msgs[..|msgs| - 1]) + [Samples(msgs[|msgs| - 1])]
  }

  /** All the samples the messages carry, in order. */
  function Received(msgs: seq<Inbound>): seq<real>
  {
    Concat(Chunks(msgs))
  }

  /** A message that streams keeps the session open and appends its samples to the buffer. */
  lemma StreamingStep(st: SessionState, msg: Inbound, analyse: FrameAnalysis)
    requires st.open && |st.buffer| <= MaxBuffer && Streams(msg)
    ensures Step(st, msg, analyse).0.open
    ensures Step(st, msg, analyse).0.buffer == KeepLast(st.buffer + Samples(msg), MaxBuffer)
  {
    if !msg.Binary? {
      assert st.buffer + Samples(msg) == st.buffer;
    }
  }

  /** The last message of a run, when it streams, appends its samples to the buffer. */
  lemma StreamingRunStep(st: SessionState, msgs: seq<Inbound>, analyse: FrameAnalysis)
    requires msgs != []
    requires var before := Run(st, msgs[..|msgs| - 1], analyse).0;
      before.open && |before.buffer| <= MaxBuffer
    requires Streams(msgs[|msgs| - 1])
    ensures var before := Run(st, msgs[..|msgs| - 1], analyse).0;
      && Run(st, msgs, analyse).0.open
      && Run(st, msgs, analyse).0.buffer == KeepLast(before.buffer + Samples(msgs[|msgs| - 1]), MaxBuffer)
  {
    StreamingStep(Run(st, msgs[..|msgs| - 1], analyse).0, msgs[|msgs| - 1], analyse);
  }

  /** Streaming messages keep the session open and feed their samples to the buffer chunk by chunk. */
  lemma {:induction false} StreamingRun(st: SessionState, msgs: seq<Inbound>, analyse: FrameAnalysis)
    requires st.open && |st.buffer| <= MaxBuffer
    requires forall i :: 0 <= i < |msgs| ==> Streams(msgs[i])
    ensures Run(st, msgs, analyse).0.open
    ensures Run(st, msgs, analyse).0.buffer == Chunked(st.buffer, Chunks(msgs), MaxBuffer)
  {
    if msgs != [] {
      var prefix := msgs[..|msgs| - 1];
      StreamingRun(st, prefix, analyse);
      StreamingRunStep(st, msgs, analyse);
      var cs := Chunks(msgs);
      assert cs[..|cs| - 1] == Chunks(prefix);
    }
  }

  /** However the audio is split into messages, the buffer holds the newest
      3200 samples of everything received since it was last emptied. */
  lemma BufferIsRecentAudio(st: SessionState, msgs: seq<Inbound>, analyse: FrameAnalysis)
    requires st.open && |st.buffer| <= MaxBuffer
    requires forall i :: 0 <= i < |msgs| ==> Streams(msgs[i])
    ensures Run(st, msgs, analyse).0.open
    ensures Run(st, msgs, analyse).0.buffer == KeepLast(st.buffer + Received(msgs), MaxBuffer)
  {
    StreamingRun(st, msgs, analyse);
    ChunkedIsRecent(st.buffer, Chunks(msgs), MaxBuffer);
  }

  // ---------------------------------------------------------------------
  // The connection handler

  /** One websocket connection: the buffer and the counter of
      `websocket_audio`, and the shared analyzer it feeds. */
  class Session {
    var buffer: seq<real>
    var counter: nat
    var open: bool
    const analyzer: AudioAnalyzer

    ghost predicate Valid()
      reads this, analyzer
    {
      analyzer.Valid() && analyzer.sampleRate == SampleRate && |buffer| <= MaxBuffer
    }

    function State(): SessionState
      reads this, analyzer
    {
      SessionState(buffer, counter, open, analyzer.State())
    }

    /** Accepting a connection: fetches the analyzer for 16 kHz from the
        cache, resets it, and starts with an empty buffer. */
    constructor (cache: AnalyzerCache)
      requires cache.Valid()
      modifies cache, cache.current
      ensures Valid() && State() == Connected
      ensures cache.Valid() && cache.current == analyzer
      // a cached 16 kHz analyzer is the one taken, and reset: connections share it
      ensures old(cache.current) != null && old(cache.current).sampleRate == SampleRate ==>
        analyzer == old(cache.current)
      ensures old(cache.current) == null || old(cache.current).sampleRate != SampleRate ==> fresh(analyzer)
    {
      var a := cache.GetAnalyzer(SampleRate);
      a.Reset();
      analyzer := a;
      buffer := [];
      counter := 0;
      open := true;
    }

    /** Handles one message and returns the reply, if any. */
    method Receive(msg: Inbound, dsp: Dsp) returns (reply: Option<Outbound>)
      requires Valid()
      modifies this, analyzer
      ensures Valid()
      ensures (State(), reply) == Step(old(State()), msg, AnalysisOf(dsp))
    {
      if !open {
        return None;
      }
      match msg {
        case Binary(bytes) =>
          var decoded := DecodePcm(bytes);
          if decoded.None? {
            open := false;
            return None;
          }
          reply := ReceiveAudio(decoded.value, dsp);
        case Ping =>
          reply := Some(Pong);
        case Reset =>
          buffer := [];
          analyzer.Reset();
          reply := Some(ResetAck);
        case OtherText =>
          reply := None;
        case Malformed =>
          open := false;
          reply := None;
        case Disconnect =>
          open := false;
          reply := None;
      }
    }

    /** Buffers and counts decoded samples and analyses the newest chunk when it is due. */
    method ReceiveAudio(samples: seq<real>, dsp: Dsp) returns (reply: Option<Outbound>)
      requires Valid()
      modifies this, analyzer
      ensures Valid()
      ensures (State(), reply) == AudioStep(old(State()), samples, AnalysisOf(dsp))
    {
      var b := buffer + samples;
      counter := counter + |samples|;
      if |b| > MaxBuffer {
        b := b[|b| - MaxBuffer..];
      }
      assert b == KeepLast(buffer + samples, MaxBuffer);
      buffer := b;
      reply := ProcessIfDue(dsp);
    }

    /** Analyses the newest chunk when enough new audio has arrived. */
    method ProcessIfDue(dsp: Dsp) returns (reply: Option<Outbound>)
      requires Valid()
      modifies this, analyzer
      ensures Valid()
      ensures (State(), reply) == Trigger(old(State()), AnalysisOf(dsp))
    {
      reply := None;
      if counter >= ProcessEvery && |buffer| >= MinChunkSize {
        counter := 0;
        var chunk := buffer[|buffer| - MinChunkSize..];
        var result := analyzer.Analyze(chunk, dsp);
        reply := Some(Result(ResultToMessage(result)));
      }
    }

    /** The receive loop: handles messages in order until the session ends. */
    method Serve(msgs: seq<Inbound>, dsp: Dsp) returns (replies: seq<Outbound>)
      requires Valid()
      modifies this, analyzer
      ensures Valid()
      ensures (State(), replies) == Run(old(State()), msgs, AnalysisOf(dsp))
    {
      ghost var start := State();
      replies := [];
      var i := 0;
      while i < |msgs| && open
        invariant 0 <= i <= |msgs|
        invariant Valid()
        invariant (State(), replies) == Run(start, msgs[..i], AnalysisOf(dsp))
      {
        var reply := Receive(msgs[i], dsp);
        RunStep(start, msgs, i, AnalysisOf(dsp));
        replies := replies + Emit(reply);
        i := i + 1;
      }
      if i < |msgs| {
        RunAfterClose(start, msgs, i, AnalysisOf(dsp));
      } else {
        assert msgs[..i] == msgs;
      }
    }
  }

  /** The handler never calls `calibrate_noise_floor`: an analyzer that is
      not calibrated stays so on every message. */
  lemma StepKeepsUncalibrated(st: SessionState, msg: Inbound, dsp: Dsp)
    requires !st.analyzer.isCalibrated
    ensures !Step(st, msg, AnalysisOf(dsp)).0.analyzer.isCalibrated
  {
    if st.open && msg.Binary? && |msg.bytes| % 2 == 0 {
      var grown := st.(buffer := KeepLast(st.buffer + DecodePcm(msg.bytes).value, MaxBuffer),
                       counter := st.counter + |DecodePcm(msg.bytes).value|);
      if grown.counter >= ProcessEvery && |grown.buffer| >= MinChunkSize {
        var analysed := Analysis(grown.analyzer, LastChunk(grown.buffer), dsp);
        assert Step(st, msg, AnalysisOf(dsp)).0.analyzer == analysed.0;
      }
    }
  }

  /** A streaming session therefore gates every frame on the uncalibrated
      thresholds, 0.04 RMS and 45 dB, for as long as it runs. */
  lemma {:induction false} RunKeepsUncalibrated(st: SessionState, msgs: seq<Inbound>, dsp: Dsp)
    requires !st.analyzer.isCalibrated
    ensures var a := Run(st, msgs, AnalysisOf(dsp)).0.analyzer;
      && !a.isCalibrated
      && RmsThreshold(a.isCalibrated, a.noiseFloorRms) == UncalibratedRmsThreshold
      && IntensityThreshold(a.isCalibrated, a.noiseFloorIntensity) == UncalibratedIntensityThreshold
  {
    if msgs != [] {
      var prefix := msgs[..|msgs| - 1];
      RunKeepsUncalibrated(st, prefix, dsp);
      StepKeepsUncalibrated(Run(st, prefix, AnalysisOf(dsp)).0, msgs[|msgs| - 1], dsp);
    }
  }

  /** Messages after the session has ended do not change the outcome of a run. */
  lemma RunAfterClose(st: SessionState, msgs: seq<Inbound>, i: nat, analyse: FrameAnalysis)
    requires i <= |msgs|
    requires !Run(st, msgs[..i], analyse).0.open
    ensures Run(st, msgs, analyse) == Run(st, msgs[..i], analyse)
    decreases |msgs| - i
  {
    if i < |msgs| {
      RunStep(st, msgs, i, analyse);
      var before := Run(st, msgs[..i], analyse);
      assert Step(before.0, msgs[i], analyse) == (before.0, None);
      assert before.1 + Emit(None) == before.1;
      RunAfterClose(st, msgs, i + 1, analyse);
    } else {
      assert msgs[..i] == msgs;
    }
  }
}
