/** Streaming voice capture: `read_voice_window` of `eibrain/body/ear_stream.py`, over an abstract stream of frames. */
module EarStream {
  import opened Basics
  import Vad = VadPolicy

  /** A frame as read from the recorder, with the level `pcm_signal_stats` gives it. */
  datatype AudioFrame = AudioFrame(payload: seq<Byte>, rms: real)

  datatype Config = Config(
    frameMs: int, rmsThreshold: real, minVoiceMs: int, endSilenceMs: int, preRollMs: int, minCaptureMs: int,
    missRmsThreshold: real, endpointPolicy: bool)

  function Frames(ms: int, c: Config): int {
    CeilDiv(ms, Max(1, c.frameMs))
  }

  function MaxFrames(c: Config, maxDurationS: int): nat {
    Max(1, Frames(maxDurationS * 1000, c))
  }

  function PreRollFrames(c: Config): nat {
    Max(1, Frames(c.preRollMs, c))
  }

  function MinVoiceFrames(c: Config): nat {
    Max(1, Frames(c.minVoiceMs, c))
  }

  function EndSilenceFrames(c: Config): nat {
    Max(1, Frames(c.endSilenceMs, c))
  }

  function MinCaptureFrames(c: Config): nat {
    Max(0, Frames(c.minCaptureMs, c))
  }

  /** The policy `_endpoint_policy` builds; its speech-probability threshold keeps the default. */
  function PolicyConfig(c: Config, maxDurationS: int): Vad.Config {
    Vad.Config(c.rmsThreshold, 0.55, c.frameMs, c.minVoiceMs, c.endSilenceMs, c.minCaptureMs,
               Max(1, maxDurationS * 1000), c.missRmsThreshold)
  }

  function ToVad(f: AudioFrame): Vad.Frame {
    Vad.Frame(f.rms, None)
  }

  function AllToVad(h: seq<AudioFrame>): (v: seq<Vad.Frame>)
    ensures |v| == |h| && forall k :: 0 <= k < |h| ==> v[k] == ToVad(h[k])
  {
    seq(|h|, k requires 0 <= k < |h| => ToVad(h[k]))
  }

  lemma AllToVadAppend(h: seq<AudioFrame>, f: AudioFrame)
    ensures AllToVad(h + [f]) == AllToVad(h) + [ToVad(f)]
  {
  }

  // ----- what a sequence of frames amounts to -----

  predicate Voiced(c: Config, f: AudioFrame) {
    f.rms >= c.rmsThreshold
  }

  /** How many frames at the end hold voice. */
  function VoiceRun(c: Config, h: seq<AudioFrame>): (n: nat)
    ensures n <= |h|
  {
    if h == [] || !Voiced(c, h[|h| - 1]) then 0 else 1 + VoiceRun(c, h[..|h| - 1])
  }

  /** How many frames at the end hold no voice. */
  function SilentRun(c: Config, h: seq<AudioFrame>): (n: nat)
    ensures n <= |h|
  {
    if h == [] || Voiced(c, h[|h| - 1]) then 0 else 1 + SilentRun(c, h[..|h| - 1])
  }

  function VoicedIn(c: Config, h: seq<AudioFrame>): nat {
    if h == [] then 0 else VoicedIn(c, h[..|h| - 1]) + if Voiced(c, h[|h| - 1]) then 1 else 0
  }

  /** The frames without voice, in order. */
  function Unvoiced(c: Config, h: seq<AudioFrame>): seq<AudioFrame> {
    if h == [] then []
    else if Voiced(c, h[|h| - 1]) then Unvoiced(c, h[..|h| - 1])
    else Unvoiced(c, h[..|h| - 1]) + [h[|h| - 1]]
  }

  function LastOf(s: seq<AudioFrame>, k: nat): seq<AudioFrame> {
    if |s| <= k then s else s[|s| - k..]
  }

  // ----- when capture starts, what it holds, when it stops -----

  /** The frame read last starts the capture, if nothing did before. */
  predicate Fires(c: Config, d: int, h: seq<AudioFrame>) {
    && h != [] && Voiced(c, h[|h| - 1])
    && if c.endpointPolicy then
         var decision := Vad.Decide(PolicyConfig(c, d), AllToVad(h));
         decision.shouldStart && !decision.shouldForceDecode
       else VoiceRun(c, h) >= MinVoiceFrames(c)
  }

  /** How many frames had been read when the capture started. */
  function Trigger(c: Config, d: int, h: seq<AudioFrame>): (t: Option<nat>)
    ensures t.Some? ==> 1 <= t.value <= |h|
  {
    if h == [] then None
    else
      var earlier := Trigger(c, d, h[..|h| - 1]);
      if earlier.Some? then earlier else if Fires(c, d, h) then Some(|h|) else None
  }

  /** Where the voice run that ends after `t` frames begins. */
  function RunStart(c: Config, h: seq<AudioFrame>, t: nat): (s: nat)
    requires t <= |h|
    ensures s <= t
  {
    t - VoiceRun(c, h[..t])
  }

  /** What a capture started by frame number `t` holds: the last frames without voice before that frame's voice run,
      however far apart they were, and everything from the run on. */
  function Captured(c: Config, h: seq<AudioFrame>, t: nat): seq<AudioFrame>
    requires t <= |h|
  {
    var s := RunStart(c, h, t);
    LastOf(Unvoiced(c, h[..s]), PreRollFrames(c)) + h[s..]
  }

  /** Enough has been captured, and enough silence at its end. */
  predicate Ended(c: Config, captured: seq<AudioFrame>) {
    |captured| >= MinCaptureFrames(c) && VoicedIn(c, captured) >= MinVoiceFrames(c) && SilentRun(c, captured) >= EndSilenceFrames(c)
  }

  /** Reading ends with the frame read last. */
  predicate Stops(c: Config, d: int, h: seq<AudioFrame>)
    requires h != []
  {
    var earlier := Trigger(c, d, h[..|h| - 1]);
    if c.endpointPolicy then
      var decision := Vad.Decide(PolicyConfig(c, d), AllToVad(h));
      decision.shouldForceDecode || (earlier.Some? && decision.shouldStop)
    else
      earlier.Some? && Ended(c, Captured(c, h, earlier.value))
  }

  predicate EndOfStream(stream: seq<AudioFrame>, k: nat) {
    k >= |stream| || stream[k].payload == []
  }

  /** Reading takes the first `n` frames of the stream: as many as permitted, up to its end or the first stop. */
  ghost predicate ReadsUpTo(c: Config, d: int, stream: seq<AudioFrame>, n: nat) {
    && n <= |stream| && n <= MaxFrames(c, d)
    && (forall k :: 0 <= k < n ==> !EndOfStream(stream, k))
    && (forall m :: 1 <= m < n ==> !Stops(c, d, stream[..m]))
    && (n == MaxFrames(c, d) || EndOfStream(stream, n) || (n >= 1 && Stops(c, d, stream[..n])))
  }

  /** The first `n` frames have been read, and none but possibly the last was a stop. */
  ghost predicate ReadsOn(c: Config, d: int, stream: seq<AudioFrame>, n: nat, stop: bool) {
    && n <= |stream| && n <= MaxFrames(c, d)
    && (forall k :: 0 <= k < n ==> !EndOfStream(stream, k))
    && (forall m :: 1 <= m < n ==> !Stops(c, d, stream[..m]))
    && (if n == 0 then !stop else stop == Stops(c, d, stream[..n]))
  }

  lemma ReadsOnGrows(c: Config, d: int, stream: seq<AudioFrame>, n: nat)
    requires ReadsOn(c, d, stream, n, false) && n < MaxFrames(c, d) && !EndOfStream(stream, n)
    ensures stream[..n + 1] == stream[..n] + [stream[n]]
    ensures ReadsOn(c, d, stream, n + 1, Stops(c, d, stream[..n + 1]))
  {
  }

  // ----- payloads -----

  function Joined(frames: seq<AudioFrame>): seq<Byte> {
    if frames == [] then [] else Joined(frames[..|frames| - 1]) + frames[|frames| - 1].payload
  }

  function Flatten(chunks: seq<seq<Byte>>): seq<Byte> {
    if chunks == [] then [] else chunks[0] + Flatten(chunks[1..])
  }

  /** Consecutive pieces of the given size, the last one possibly shorter. */
  function Chunked(payload: seq<Byte>, size: int): (chunks: seq<seq<Byte>>)
    requires size > 0
    ensures Flatten(chunks) == payload
    ensures forall k :: 0 <= k < |chunks| ==> 1 <= |chunks[k]| <= size && (k < |chunks| - 1 ==> |chunks[k]| == size)
  {
    if payload == [] then []
    else if |payload| <= size then
      assert Flatten([payload]) == payload + Flatten([]);
      [payload]
    else
      var rest := Chunked(payload[size..], size);
      assert ([payload[..size]] + rest)[1..] == rest;
      [payload[..size]] + rest
  }

  // ----- the capture object -----

  /** The variables of the reading loop that depend on the trigger. */
  datatype Loop = Loop(
    triggered: bool, captured: seq<AudioFrame>, preRoll: seq<AudioFrame>, pending: seq<AudioFrame>, voice: int, silence: int)

  /** The capture begins with the pre-roll and the pending run. */
  function Started(state: Loop): Loop {
    Loop(true, state.captured + state.preRoll + state.pending, state.preRoll, [], |state.pending|, 0)
  }

  class ArecordStreamCapture {
    const config: Config
    var lastVadTriggered: bool
    var lastVadFrameCount: nat
    var lastVadVoiceFrameCount: nat
    var lastStdoutBytes: nat
    var lastChunks: seq<seq<Byte>>

    constructor (config: Config)
      ensures this.config == config
    {
      this.config := config;
      lastVadTriggered, lastVadFrameCount, lastVadVoiceFrameCount, lastStdoutBytes, lastChunks := false, 0, 0, 0, [];
    }

    method ReadVoiceWindow(stream: seq<AudioFrame>, maxDurationS: int, chunkBytes: int) returns (chunks: seq<seq<Byte>>)
      requires chunkBytes > 0
      modifies this
      ensures ReadsUpTo(config, maxDurationS, stream, lastVadFrameCount)
      ensures var read := stream[..lastVadFrameCount];
        && var trigger := Trigger(config, maxDurationS, read);
        && lastVadTriggered == trigger.Some?
        && lastVadVoiceFrameCount == (if trigger.Some? then VoicedIn(config, Captured(config, read, trigger.value)) else 0)
        && chunks == Chunked(Joined(if trigger.Some? then Captured(config, read, trigger.value) else read), chunkBytes)
      ensures lastChunks == chunks && lastStdoutBytes == |Flatten(chunks)|
    {
      var allFrames, state := ReadFrames(stream, maxDurationS);
      var payload := Joined(if state.triggered then state.captured else allFrames);
      lastStdoutBytes := |payload|;
      lastVadTriggered, lastVadFrameCount, lastVadVoiceFrameCount := state.triggered, |allFrames|, state.voice;
      chunks := Chunked(payload, chunkBytes);
      lastChunks := chunks;
    }

    /** The reading loop. */
    method ReadFrames(stream: seq<AudioFrame>, maxDurationS: int) returns (allFrames: seq<AudioFrame>, state: Loop)
      ensures ReadsUpTo(config, maxDurationS, stream, |allFrames|) && allFrames == stream[..|allFrames|]
      ensures Holds(config, allFrames, Trigger(config, maxDurationS, allFrames), state)
    {
      var maxFrames := MaxFrames(config, maxDurationS);
      var policy: Vad.VadEndpointPolicy? := null;
      if config.endpointPolicy {
        policy := new Vad.VadEndpointPolicy(PolicyConfig(config, maxDurationS));
      }
      allFrames, state := [], Loop(false, [], [], [], 0, 0);
      var stop := false;
      while !stop && |allFrames| < maxFrames && !EndOfStream(stream, |allFrames|)
        invariant Reading(config, maxDurationS, stream, allFrames, state, stop)
        invariant config.endpointPolicy <==> policy != null
        invariant policy != null ==> fresh(policy) && policy.Valid() && policy.config == PolicyConfig(config, maxDurationS)
        invariant policy != null ==> policy.history == AllToVad(allFrames)
        decreases maxFrames - |allFrames|, !stop
      {
        var frame := stream[|allFrames|];
        var decision := None;
        if policy != null {
          var observed := Consult(policy, frame, allFrames, maxDurationS);
          decision := Some(observed);
        }
        ghost var before := state;
        state, stop := TakeFrame(frame, decision, state, allFrames, maxDurationS);
        ReadingGrows(config, maxDurationS, stream, allFrames, before, frame, state, stop);
        allFrames := allFrames + [frame];
      }
    }

    method Consult(policy: Vad.VadEndpointPolicy, frame: AudioFrame, ghost h: seq<AudioFrame>, ghost d: int) returns (decision: Vad.Decision)
      requires policy.Valid() && policy.config == PolicyConfig(config, d) && policy.history == AllToVad(h)
      modifies policy
      ensures policy.Valid() && policy.history == AllToVad(h + [frame])
      ensures decision == Vad.Decide(PolicyConfig(config, d), AllToVad(h + [frame]))
    {
      AllToVadAppend(h, frame);
      decision := policy.Observe(ToVad(frame));
    }

    /** One turn of the reading loop once its frame is read and the policy, if any, has decided. */
    method TakeFrame(frame: AudioFrame, decision: Option<Vad.Decision>, state: Loop, ghost h: seq<AudioFrame>, ghost d: int)
      returns (next: Loop, stop: bool)
      requires Holds(config, h, Trigger(config, d, h), state) && Waits(config, h, state)
      requires decision.Some? <==> config.endpointPolicy
      requires decision.Some? ==> decision.value == Vad.Decide(PolicyConfig(config, d), AllToVad(h + [frame]))
      ensures Holds(config, h + [frame], Trigger(config, d, h + [frame]), next)
      ensures !stop ==> Waits(config, h + [frame], next)
      ensures stop == Stops(config, d, h + [frame])
    {
      TriggerGrows(config, d, h, frame);
      assert (h + [frame])[..|h|] == h;
      if state.triggered {
        next, stop := Capture(frame, decision, state, h, d);
      } else if decision.Some? && decision.value.shouldForceDecode {
        next, stop := state, true;
      } else {
        next := AwaitVoice(frame, decision, state, h, d);
        stop := false;
      }
    }

    /** A frame before the trigger. */
    method AwaitVoice(frame: AudioFrame, decision: Option<Vad.Decision>, state: Loop, ghost h: seq<AudioFrame>, ghost d: int)
      returns (next: Loop)
      requires Holds(config, h, None, state) && Waits(config, h, state)
      requires decision.Some? <==> config.endpointPolicy
      requires decision.Some? ==>
        decision.value == Vad.Decide(PolicyConfig(config, d), AllToVad(h + [frame])) && !decision.value.shouldForceDecode
      ensures Holds(config, h + [frame], if Fires(config, d, h + [frame]) then Some(|h| + 1) else None, next)
      ensures Waits(config, h + [frame], next)
    {
      var isVoice := if decision.Some? then decision.value.isVoice else Voiced(config, frame);
      assert isVoice == Voiced(config, frame);
      FiresOn(config, d, h, frame, decision);
      if !isVoice {
        UnvoicedFrame(config, h, frame, state);
        return state.(preRoll := LastOf(state.preRoll + [frame], PreRollFrames(config)), pending := []);
      }
      VoicedFrame(config, h, frame, state);
      var pending := state.pending + [frame];
      var shouldStart := if decision.Some? then decision.value.shouldStart else |pending| >= MinVoiceFrames(config);
      if !shouldStart {
        return state.(pending := pending);
      }
      FiringFrame(config, h + [frame], state.(pending := pending));
      return Started(state.(pending := pending));
    }

    /** A frame after the trigger. */
    method Capture(frame: AudioFrame, decision: Option<Vad.Decision>, state: Loop, ghost h: seq<AudioFrame>, ghost d: int)
      returns (next: Loop, stop: bool)
      requires state.triggered && Holds(config, h, Trigger(config, d, h), state)
      requires decision.Some? <==> config.endpointPolicy
      requires decision.Some? ==> decision.value == Vad.Decide(PolicyConfig(config, d), AllToVad(h + [frame]))
      ensures next.triggered && Holds(config, h + [frame], Trigger(config, d, h), next)
      ensures stop == Stops(config, d, h + [frame])
    {
      ghost var t := Trigger(config, d, h).value;
      assert (h + [frame])[..|h|] == h;
      CapturedFrame(config, h, frame, t, state);
      var isVoice := if decision.Some? then decision.value.isVoice else Voiced(config, frame);
      assert isVoice == Voiced(config, frame);
      next := state.(captured := state.captured + [frame]);
      if isVoice {
        next := next.(voice := next.voice + 1, silence := 0);
      } else {
        next := next.(silence := next.silence + 1);
      }
      stop := if decision.Some? then decision.value.shouldStop || decision.value.shouldForceDecode
              else |next.captured| >= MinCaptureFrames(config) && next.voice >= MinVoiceFrames(config)
                   && next.silence >= EndSilenceFrames(config);
    }
  }

  // ----- the loop's state against the frames read -----

  /** What the loop's variables hold once `h` has been read and the capture, if any, was started by frame `trigger`. */
  ghost predicate Holds(c: Config, h: seq<AudioFrame>, trigger: Option<nat>, state: Loop) {
    && state.triggered == trigger.Some?
    && if state.triggered then
         && trigger.value <= |h| && state.captured == Captured(c, h, trigger.value)
         && state.voice == VoicedIn(c, state.captured) && state.silence == SilentRun(c, state.captured)
       else state.captured == [] && state.voice == 0
  }

  /** Before the trigger: the pre-roll, and the voice run still pending. */
  ghost predicate Waits(c: Config, h: seq<AudioFrame>, state: Loop) {
    !state.triggered ==>
      state.preRoll == LastOf(Unvoiced(c, h), PreRollFrames(c)) && state.pending == h[|h| - VoiceRun(c, h)..]
  }

  /** The loop has read these frames, and its variables hold what they call for. */
  ghost predicate Reading(c: Config, d: int, stream: seq<AudioFrame>, read: seq<AudioFrame>, state: Loop, stop: bool) {
    && |read| <= |stream| && read == stream[..|read|]
    && ReadsOn(c, d, stream, |read|, stop)
    && Holds(c, read, Trigger(c, d, read), state)
    && (!stop ==> Waits(c, read, state))
  }

  lemma ReadingGrows(c: Config, d: int, stream: seq<AudioFrame>, read: seq<AudioFrame>, before: Loop, frame: AudioFrame, next: Loop, stop: bool)
    requires Reading(c, d, stream, read, before, false)
    requires |read| < MaxFrames(c, d) && !EndOfStream(stream, |read|) && frame == stream[|read|]
    requires Holds(c, read + [frame], Trigger(c, d, read + [frame]), next) && (!stop ==> Waits(c, read + [frame], next))
    requires stop == Stops(c, d, read + [frame])
    ensures Reading(c, d, stream, read + [frame], next, stop)
  {
    ReadsOnGrows(c, d, stream, |read|);
  }

  lemma TriggerGrows(c: Config, d: int, h: seq<AudioFrame>, f: AudioFrame)
    ensures Trigger(c, d, h + [f])
         == if Trigger(c, d, h).Some? then Trigger(c, d, h) else if Fires(c, d, h + [f]) then Some(|h| + 1) else None
  {
    assert (h + [f])[..|h|] == h;
  }

  /** Whether a frame fires, from what the policy decided or the length of the run. */
  lemma FiresOn(c: Config, d: int, h: seq<AudioFrame>, f: AudioFrame, decision: Option<Vad.Decision>)
    requires decision.Some? <==> c.endpointPolicy
    requires decision.Some? ==> decision.value == Vad.Decide(PolicyConfig(c, d), AllToVad(h + [f]))
    ensures Fires(c, d, h + [f])
       <==> Voiced(c, f) && if decision.Some? then decision.value.shouldStart && !decision.value.shouldForceDecode
                            else VoiceRun(c, h + [f]) >= MinVoiceFrames(c)
  {
  }

  lemma RunsGrow(c: Config, h: seq<AudioFrame>, f: AudioFrame)
    ensures VoiceRun(c, h + [f]) == if Voiced(c, f) then VoiceRun(c, h) + 1 else 0
    ensures SilentRun(c, h + [f]) == if Voiced(c, f) then 0 else SilentRun(c, h) + 1
    ensures VoicedIn(c, h + [f]) == VoicedIn(c, h) + if Voiced(c, f) then 1 else 0
    ensures Unvoiced(c, h + [f]) == if Voiced(c, f) then Unvoiced(c, h) else Unvoiced(c, h) + [f]
  {
    assert (h + [f])[..|h|] == h;
  }

  lemma DropAppend(h: seq<AudioFrame>, f: AudioFrame, s: nat)
    requires s <= |h|
    ensures (h + [f])[s..] == h[s..] + [f]
  {
  }

  /** A frame without voice before the trigger joins the pre-roll and drops the voice run still pending. */
  lemma UnvoicedFrame(c: Config, h: seq<AudioFrame>, f: AudioFrame, state: Loop)
    requires Holds(c, h, None, state) && Waits(c, h, state) && !Voiced(c, f)
    ensures var next := state.(preRoll := LastOf(state.preRoll + [f], PreRollFrames(c)), pending := []);
      Holds(c, h + [f], None, next) && Waits(c, h + [f], next)
  {
    RunsGrow(c, h, f);
    LastOfAppend(Unvoiced(c, h), f, PreRollFrames(c));
  }

  /** A frame with voice before the trigger lengthens the pending run. */
  lemma VoicedFrame(c: Config, h: seq<AudioFrame>, f: AudioFrame, state: Loop)
    requires Holds(c, h, None, state) && Waits(c, h, state) && Voiced(c, f)
    ensures var next := state.(pending := state.pending + [f]);
      VoiceRun(c, h + [f]) == |next.pending| && Holds(c, h + [f], None, next) && Waits(c, h + [f], next)
  {
    RunsGrow(c, h, f);
    DropAppend(h, f, |h| - VoiceRun(c, h));
  }

  /** Once the run read so far fires, pre-roll and run become the capture. */
  lemma FiringFrame(c: Config, g: seq<AudioFrame>, state: Loop)
    requires g != [] && Voiced(c, g[|g| - 1])
    requires Waits(c, g, state) && Holds(c, g, None, state)
    ensures Holds(c, g, Some(|g|), Started(state)) && Waits(c, g, Started(state))
  {
    CaptureStarts(c, g);
    StartedIs(c, g, state);
    assert Started(state).captured == Captured(c, g, |g|);
  }

  lemma StartedIs(c: Config, g: seq<AudioFrame>, state: Loop)
    requires Waits(c, g, state) && Holds(c, g, None, state)
    ensures var r := Started(state);
      r.captured == LastOf(Unvoiced(c, g), PreRollFrames(c)) + g[|g| - VoiceRun(c, g)..] && r.voice == VoiceRun(c, g) && r.silence == 0
  {
    assert state.captured + state.preRoll == state.preRoll;
  }

  /** Every frame after the trigger is captured. */
  lemma CapturedFrame(c: Config, h: seq<AudioFrame>, f: AudioFrame, t: nat, state: Loop)
    requires state.triggered && Holds(c, h, Some(t), state)
    ensures Holds(c, h + [f], Some(t), state.(captured := state.captured + [f],
                    voice := state.voice + (if Voiced(c, f) then 1 else 0), silence := if Voiced(c, f) then 0 else state.silence + 1))
  {
    CaptureGrows(c, h, f, t);
    RunsGrow(c, state.captured, f);
  }

  lemma LastOfAppend(s: seq<AudioFrame>, f: AudioFrame, k: nat)
    requires k >= 1
    ensures LastOf(LastOf(s, k) + [f], k) == LastOf(s + [f], k)
  {
  }

  lemma CaptureGrows(c: Config, h: seq<AudioFrame>, f: AudioFrame, t: nat)
    requires t <= |h|
    ensures Captured(c, h + [f], t) == Captured(c, h, t) + [f]
  {
    var g, s := h + [f], RunStart(c, h, t);
    assert g[..t] == h[..t];
    assert g[..s] == h[..s] && g[s..] == h[s..] + [f];
    var roll := LastOf(Unvoiced(c, h[..s]), PreRollFrames(c));
    assert (roll + h[s..]) + [f] == roll + (h[s..] + [f]);
  }

  /** The run at the end is all voice, and reaches back as far as it can. */
  lemma {:induction false} VoiceRunMaximal(c: Config, h: seq<AudioFrame>)
    ensures var s := |h| - VoiceRun(c, h);
      (forall k :: s <= k < |h| ==> Voiced(c, h[k])) && (s > 0 ==> !Voiced(c, h[s - 1]))
  {
    if h != [] && Voiced(c, h[|h| - 1]) {
      VoiceRunMaximal(c, h[..|h| - 1]);
    }
  }

  /** A capture that starts with the frame read last. */
  lemma CaptureStarts(c: Config, g: seq<AudioFrame>)
    requires g != [] && Voiced(c, g[|g| - 1])
    ensures var n, captured := VoiceRun(c, g), Captured(c, g, |g|);
      && captured == LastOf(Unvoiced(c, g), PreRollFrames(c)) + g[|g| - n..]
      && VoicedIn(c, captured) == n
      && SilentRun(c, captured) == 0
  {
    var n := VoiceRun(c, g);
    assert g[..|g|] == g;
    VoiceRunMaximal(c, g);
    UnvoicedBeforeRun(c, g, n);
    UnvoicedOnly(c, g);
    QuietThenLoud(c, LastOf(Unvoiced(c, g), PreRollFrames(c)), g[|g| - n..]);
  }

  lemma {:induction false} UnvoicedBeforeRun(c: Config, g: seq<AudioFrame>, n: nat)
    requires n <= |g| && forall k :: |g| - n <= k < |g| ==> Voiced(c, g[k])
    ensures Unvoiced(c, g) == Unvoiced(c, g[..|g| - n])
  {
    if n == 0 {
      assert g[..|g|] == g;
    } else {
      var rest := g[..|g| - 1];
      UnvoicedBeforeRun(c, rest, n - 1);
      assert rest[..|rest| - (n - 1)] == g[..|g| - n];
    }
  }

  lemma {:induction false} UnvoicedOnly(c: Config, g: seq<AudioFrame>)
    ensures forall f :: f in Unvoiced(c, g) ==> !Voiced(c, f)
  {
    if g != [] {
      UnvoicedOnly(c, g[..|g| - 1]);
    }
  }

  /** Frames without voice followed by frames with voice. */
  lemma {:induction false} QuietThenLoud(c: Config, quiet: seq<AudioFrame>, loud: seq<AudioFrame>)
    requires forall f :: f in quiet ==> !Voiced(c, f)
    requires forall f :: f in loud ==> Voiced(c, f)
    ensures VoicedIn(c, quiet + loud) == |loud|
    ensures loud != [] ==> SilentRun(c, quiet + loud) == 0
  {
    if loud != [] {
      var n := |loud| - 1;
      assert quiet + loud == (quiet + loud[..n]) + [loud[n]];
      QuietThenLoud(c, quiet, loud[..n]);
      RunsGrow(c, quiet + loud[..n], loud[n]);
    } else if quiet != [] {
      var n := |quiet| - 1;
      assert quiet + loud == quiet[..n] + [quiet[n]] && quiet[..n] + [] == quiet[..n];
      QuietThenLoud(c, quiet[..n], []);
      RunsGrow(c, quiet[..n], quiet[n]);
    }
  }

  // ----- what the capture means -----

  /** The trigger is the first frame that fires. */
  lemma {:induction false} TriggerIsFirst(c: Config, d: int, h: seq<AudioFrame>, n: nat)
    ensures Trigger(c, d, h) == Some(n)
       <==> 1 <= n <= |h| && Fires(c, d, h[..n]) && forall m :: 1 <= m < n ==> !Fires(c, d, h[..m])
  {
    if h != [] {
      var rest := h[..|h| - 1];
      TriggerIsFirst(c, d, rest, n);
      assert h[..|h|] == h && forall m :: 0 <= m <= |rest| ==> rest[..m] == h[..m];
      if Trigger(c, d, rest).Some? {
        var t := Trigger(c, d, rest).value;
        TriggerIsFirst(c, d, rest, t);
        assert Fires(c, d, h[..t]);
      } else if Trigger(c, d, h) == Some(n) {
        NoneFired(c, d, rest);
      } else if n == |h| {
        assert !Fires(c, d, h);
      }
    }
  }

  lemma {:induction false} NoneFired(c: Config, d: int, h: seq<AudioFrame>)
    requires Trigger(c, d, h).None?
    ensures forall m :: 1 <= m <= |h| ==> !Fires(c, d, h[..m])
  {
    if h != [] {
      var rest := h[..|h| - 1];
      NoneFired(c, d, rest);
      assert h[..|h|] == h && forall m :: 0 <= m <= |rest| ==> rest[..m] == h[..m];
    }
  }

  /** A triggered capture starts with the last pre-roll frames without voice read before frame `s` and goes on with every
      frame from `s`; `s` is where the voice run that triggered begins, so a shorter run before it is in neither part. */
  lemma CaptureSlices(c: Config, d: int, h: seq<AudioFrame>)
    requires Trigger(c, d, h).Some?
    ensures var t := Trigger(c, d, h).value;
      var s := RunStart(c, h, t);
      && s < t
      && (forall k :: s <= k < t ==> Voiced(c, h[k])) && (s > 0 ==> !Voiced(c, h[s - 1]))
      && Captured(c, h, t) == LastOf(Unvoiced(c, h[..s]), PreRollFrames(c)) + h[s..]
      && VoicedIn(c, Captured(c, h, t)) == VoicedIn(c, h[s..])
      && SilentRun(c, Captured(c, h, t)) == SilentRun(c, h)
  {
    var t := Trigger(c, d, h).value;
    TriggerIsFirst(c, d, h, t);
    assert Voiced(c, h[..t][t - 1]);
    RunStartMaximal(c, h, t);
    CaptureCounts(c, h, t);
  }

  lemma RunStartMaximal(c: Config, h: seq<AudioFrame>, t: nat)
    requires 1 <= t <= |h| && Voiced(c, h[t - 1])
    ensures var s := RunStart(c, h, t);
      s < t && (forall k :: s <= k < t ==> Voiced(c, h[k])) && (s > 0 ==> !Voiced(c, h[s - 1]))
  {
    var g, s := h[..t], RunStart(c, h, t);
    VoiceRunMaximal(c, g);
    forall k | s <= k < t ensures Voiced(c, h[k]) {
      assert Voiced(c, g[k]);
    }
  }

  lemma CaptureCounts(c: Config, h: seq<AudioFrame>, t: nat)
    requires 1 <= t <= |h| && Voiced(c, h[t - 1]) && RunStart(c, h, t) < t
    ensures VoicedIn(c, Captured(c, h, t)) == VoicedIn(c, h[RunStart(c, h, t)..])
    ensures SilentRun(c, Captured(c, h, t)) == SilentRun(c, h)
  {
    var s := RunStart(c, h, t);
    var front, rest, k := h[..s], h[s..], t - 1 - s;
    var roll := LastOf(Unvoiced(c, front), PreRollFrames(c));
    assert rest[k] == h[t - 1];
    UnvoicedOnly(c, front);
    RunAfterQuiet(c, roll, rest);
    SilentRunOfSuffix(c, roll, rest, k);
    SilentRunOfSuffix(c, front, rest, k);
    assert front + rest == h;
  }

  lemma {:induction false} RunAfterQuiet(c: Config, quiet: seq<AudioFrame>, rest: seq<AudioFrame>)
    requires forall f :: f in quiet ==> !Voiced(c, f)
    ensures VoicedIn(c, quiet + rest) == VoicedIn(c, rest)
  {
    if rest == [] {
      QuietThenLoud(c, quiet, rest);
    } else {
      var n := |rest| - 1;
      assert quiet + rest == (quiet + rest[..n]) + [rest[n]];
      RunAfterQuiet(c, quiet, rest[..n]);
      RunsGrow(c, quiet + rest[..n], rest[n]);
    }
  }

  lemma {:induction false} SilentRunOfSuffix(c: Config, front: seq<AudioFrame>, rest: seq<AudioFrame>, k: nat)
    requires k < |rest| && Voiced(c, rest[k])
    ensures SilentRun(c, front + rest) == SilentRun(c, rest)
  {
    var n := |rest| - 1;
    assert front + rest == (front + rest[..n]) + [rest[n]] && rest == rest[..n] + [rest[n]];
    RunsGrow(c, front + rest[..n], rest[n]);
    RunsGrow(c, rest[..n], rest[n]);
    if !Voiced(c, rest[n]) {
      SilentRunOfSuffix(c, front, rest[..n], k);
    }
  }

  /** In the inline mode the triggering run has just reached the required length. */
  lemma InlineTriggerRun(c: Config, d: int, h: seq<AudioFrame>)
    requires !c.endpointPolicy && Trigger(c, d, h).Some?
    ensures VoiceRun(c, h[..Trigger(c, d, h).value]) == MinVoiceFrames(c)
  {
    var t := Trigger(c, d, h).value;
    TriggerIsFirst(c, d, h, t);
    assert h[..t][..t - 1] == h[..t - 1];
    assert VoiceRun(c, h[..t]) == VoiceRun(c, h[..t - 1]) + 1;
    assert VoiceRun(c, h[..t - 1]) > 0 ==> Voiced(c, h[..t - 1][t - 2]);
  }

  // ----- the policy and the loop -----

  /** The policy's capture limit is reached exactly with the last frame the loop may read. */
  lemma MaxedOnLastFrame(c: Config, d: int, h: seq<AudioFrame>)
    requires |h| <= MaxFrames(c, d)
    ensures Vad.CapturedMs(PolicyConfig(c, d), AllToVad(h)) >= PolicyConfig(c, d).maxCaptureMs <==> |h| == MaxFrames(c, d)
  {
    var ms, n := Max(1, c.frameMs), |h|;
    var q := CeilDiv(d * 1000, ms);
    assert (q - 1) * ms < d * 1000 <= q * ms;
    if n >= 1 {
      AtLeastCeil(n, q, d * 1000, ms);
    }
  }

  lemma AtLeastCeil(n: int, q: int, a: int, ms: int)
    requires ms >= 1 && (q - 1) * ms < a <= q * ms
    ensures n * ms >= a <==> n >= q
  {
    if n >= q {
      Difference(n, q, ms);
      NotNegative(n - q, ms);
    } else {
      Difference(q - 1, n, ms);
      NotNegative(q - 1 - n, ms);
    }
  }

  lemma Difference(x: int, y: int, ms: int)
    ensures (x - y) * ms == x * ms - y * ms
  {
  }

  lemma NotNegative(x: int, ms: int)
    requires x >= 0 && ms >= 0
    ensures x * ms >= 0
  {
  }

  predicate FlagsAgree(c: Config, d: int, h: seq<AudioFrame>) {
    Trigger(c, d, h).Some? <==> Vad.Triggered(PolicyConfig(c, d), AllToVad(h))
  }

  lemma AllToVadPrefix(h: seq<AudioFrame>, n: nat)
    requires n <= |h|
    ensures AllToVad(h[..n]) == AllToVad(h)[..n]
  {
  }

  /** Short of the last permitted frame, and with a positive minimum, the loop's trigger flag is the policy's. */
  lemma {:induction false} FlagsAgreeBeforeLimit(c: Config, d: int, h: seq<AudioFrame>)
    requires c.endpointPolicy && c.minVoiceMs > 0 && |h| < MaxFrames(c, d)
    ensures FlagsAgree(c, d, h)
  {
    if h != [] {
      var p, rest, f := PolicyConfig(c, d), h[..|h| - 1], h[|h| - 1];
      FlagsAgreeBeforeLimit(c, d, rest);
      assert h == rest + [f];
      AllToVadAppend(rest, f);
      TriggerGrows(c, d, rest, f);
      Vad.HistoryGrows(p, AllToVad(rest), ToVad(f));
      MaxedOnLastFrame(c, d, h);
      Vad.VoiceMsGrows(p, AllToVad(rest), ToVad(f));
    }
  }

  /** Without a positive minimum the policy triggers on the first frame whatever it holds, while the loop only listens to
      it on a voiced frame: exactly when the first frame holds no voice the loop misses the start for good. */
  lemma {:induction false} FlagsAgreeIff(c: Config, d: int, h: seq<AudioFrame>)
    requires c.endpointPolicy && |h| < MaxFrames(c, d)
    ensures FlagsAgree(c, d, h) <==> c.minVoiceMs > 0 || h == [] || Voiced(c, h[0])
  {
    if c.minVoiceMs > 0 {
      FlagsAgreeBeforeLimit(c, d, h);
    } else if h != [] {
      var p, rest, f := PolicyConfig(c, d), h[..|h| - 1], h[|h| - 1];
      FlagsAgreeIff(c, d, rest);
      assert h == rest + [f];
      AllToVadAppend(rest, f);
      TriggerGrows(c, d, rest, f);
      Vad.VoiceMsGrows(p, AllToVad(rest), ToVad(f));
      Vad.VoiceMsGrows(p, AllToVad(h), ToVad(f));
      MaxedOnLastFrame(c, d, h);
      assert AllToVad(h)[..|h| - 1] == AllToVad(rest);
    }
  }

  /** An announced start is taken exactly when its frame is not the last permitted one and holds voice; with a positive
      minimum it always does, without one it is the first frame, whatever that holds. */
  lemma StartFiresIff(c: Config, d: int, g: seq<AudioFrame>)
    requires c.endpointPolicy && 1 <= |g| <= MaxFrames(c, d)
    requires Vad.Decide(PolicyConfig(c, d), AllToVad(g)).shouldStart
    ensures Fires(c, d, g) <==> |g| < MaxFrames(c, d) && (c.minVoiceMs > 0 || Voiced(c, g[0]))
    ensures c.minVoiceMs <= 0 ==> |g| == 1
  {
    Vad.AnnouncedBy(PolicyConfig(c, d), AllToVad(g));
    VoicedIsVoice(c, d, g[|g| - 1]);
    MaxedOnLastFrame(c, d, g);
  }

  lemma VoicedIsVoice(c: Config, d: int, f: AudioFrame)
    ensures Vad.IsVoice(PolicyConfig(c, d), ToVad(f)) == Voiced(c, f)
  {
  }

  /** The policy announces a start at most once; from that announcement on, the capture has started with it, or never
      will. A start announced with the last permitted frame is lost, as the loop has already decided to stop. */
  lemma AnnouncedStartIff(c: Config, d: int, h: seq<AudioFrame>, n: nat)
    requires c.endpointPolicy && 1 <= n <= |h| <= MaxFrames(c, d)
    requires Vad.Decide(PolicyConfig(c, d), AllToVad(h[..n])).shouldStart
    ensures Trigger(c, d, h)
         == if n < MaxFrames(c, d) && (c.minVoiceMs > 0 || Voiced(c, h[0])) then Some(n) else None
  {
    StartFiresIff(c, d, h[..n]);
    if Trigger(c, d, h).Some? {
      var t := Trigger(c, d, h).value;
      TriggerIsFirst(c, d, h, t);
      OneStart(c, d, h, t, n);
    } else {
      NoneFired(c, d, h);
    }
  }

  lemma OneStart(c: Config, d: int, h: seq<AudioFrame>, m: nat, n: nat)
    requires 1 <= m <= |h| && 1 <= n <= |h|
    requires Vad.Decide(PolicyConfig(c, d), AllToVad(h[..m])).shouldStart
    requires Vad.Decide(PolicyConfig(c, d), AllToVad(h[..n])).shouldStart
    ensures m == n
  {
    AllToVadPrefix(h, m);
    AllToVadPrefix(h, n);
    Vad.StartsOnce(PolicyConfig(c, d), AllToVad(h), m, n);
  }
}
