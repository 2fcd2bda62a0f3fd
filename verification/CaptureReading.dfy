/** When voice capture starts and stops, told from the frames of the stream themselves, in both modes of the loop. */
module CaptureReading {
  import opened Basics
  import opened EarStream
  import Vad = VadPolicy

  // ----- durations and levels -----

  /** How long so many frames last. */
  function Lasting(n: int, c: Config): int {
    n * Max(1, c.frameMs)
  }

  /** The fewest frames, one at least, that last so long. */
  predicate Fewest(n: int, ms: int, c: Config) {
    n >= 1 && Lasting(n, c) >= ms && (n > 1 ==> Lasting(n - 1, c) < ms)
  }

  /** The same, but none will do for no time. */
  predicate FewestOrNone(n: int, ms: int, c: Config) {
    n >= 0 && Lasting(n, c) >= ms && (n > 0 ==> Lasting(n - 1, c) < ms)
  }

  lemma LastingGrows(m: int, n: int, c: Config)
    ensures m < n ==> Lasting(m, c) < Lasting(n, c)
    ensures Lasting(0, c) == 0
  {
    if m < n {
      var ms := Max(1, c.frameMs);
      assert n * ms == m * ms + (n - m) * ms;
      Positive(n - m, ms);
    }
  }

  lemma Positive(x: int, y: int)
    requires x >= 1 && y >= 1
    ensures x * y >= 1
  {
  }

  lemma FewestUnique(m: int, n: int, ms: int, c: Config)
    ensures Fewest(m, ms, c) && Fewest(n, ms, c) ==> m == n
    ensures FewestOrNone(m, ms, c) && FewestOrNone(n, ms, c) ==> m == n
  {
    LastingGrows(m, n, c);
    LastingGrows(n, m, c);
    LastingGrows(m, n - 1, c);
    LastingGrows(n, m - 1, c);
  }

  lemma FramesFewest(ms: int, c: Config)
    ensures Fewest(Max(1, Frames(ms, c)), ms, c) && FewestOrNone(Max(0, Frames(ms, c)), ms, c)
  {
    var q := Frames(ms, c);
    assert Lasting(q - 1, c) < ms <= Lasting(q, c);
    LastingGrows(q, 0, c);
    LastingGrows(q, 1, c);
  }

  /** The loop's numbers of frames, each from its own number of milliseconds. */
  lemma FrameCounts(c: Config, d: int)
    ensures Fewest(MaxFrames(c, d), d * 1000, c) && Fewest(PreRollFrames(c), c.preRollMs, c)
    ensures Fewest(MinVoiceFrames(c), c.minVoiceMs, c) && Fewest(EndSilenceFrames(c), c.endSilenceMs, c)
    ensures FewestOrNone(MinCaptureFrames(c), c.minCaptureMs, c)
  {
    FramesFewest(d * 1000, c);
    FramesFewest(c.preRollMs, c);
    FramesFewest(c.minVoiceMs, c);
    FramesFewest(c.endSilenceMs, c);
    FramesFewest(c.minCaptureMs, c);
  }

  ghost predicate AllLoud(c: Config, h: seq<AudioFrame>, from: int) {
    0 <= from <= |h| && forall k :: from <= k < |h| ==> h[k].rms >= c.rmsThreshold
  }

  ghost predicate AllQuiet(c: Config, h: seq<AudioFrame>, from: int) {
    0 <= from <= |h| && forall k :: from <= k < |h| ==> h[k].rms < c.rmsThreshold
  }

  function LoudCount(h: seq<AudioFrame>, threshold: real): nat {
    if h == [] then 0 else LoudCount(h[..|h| - 1], threshold) + if h[|h| - 1].rms >= threshold then 1 else 0
  }

  /** The frames below the threshold, in order. */
  function QuietFrames(h: seq<AudioFrame>, threshold: real): seq<AudioFrame> {
    if h == [] then []
    else QuietFrames(h[..|h| - 1], threshold) + if h[|h| - 1].rms >= threshold then [] else [h[|h| - 1]]
  }

  lemma {:induction false} RunReaches(c: Config, h: seq<AudioFrame>, n: int)
    requires n >= 0
    ensures VoiceRun(c, h) >= n <==> AllLoud(c, h, |h| - n)
    ensures SilentRun(c, h) >= n <==> AllQuiet(c, h, |h| - n)
  {
    if n > 0 && h != [] {
      var rest := h[..|h| - 1];
      RunReaches(c, rest, n - 1);
      assert h == rest + [h[|h| - 1]];
    }
  }

  lemma {:induction false} CountsAre(c: Config, h: seq<AudioFrame>)
    ensures VoicedIn(c, h) == LoudCount(h, c.rmsThreshold) <= |h|
    ensures Unvoiced(c, h) == QuietFrames(h, c.rmsThreshold) && |QuietFrames(h, c.rmsThreshold)| == |h| - LoudCount(h, c.rmsThreshold)
  {
    if h != [] {
      CountsAre(c, h[..|h| - 1]);
      assert QuietFrames(h[..|h| - 1], c.rmsThreshold) + [] == QuietFrames(h[..|h| - 1], c.rmsThreshold);
    }
  }

  // ----- the inline mode -----

  /** The last `v` frames are loud. */
  ghost predicate LoudRun(c: Config, h: seq<AudioFrame>, v: int) {
    v >= 1 && AllLoud(c, h, |h| - v)
  }

  /** Capture has started with frame number `t`: the first to complete `v` loud frames in a row. */
  ghost predicate FirstRun(c: Config, h: seq<AudioFrame>, v: int, t: int) {
    0 <= t <= |h| && LoudRun(c, h[..t], v) && forall u :: 0 <= u < t ==> !LoudRun(c, h[..u], v)
  }

  lemma InlineFires(c: Config, d: int, h: seq<AudioFrame>)
    requires !c.endpointPolicy
    ensures Fires(c, d, h) <==> LoudRun(c, h, MinVoiceFrames(c))
  {
    RunReaches(c, h, MinVoiceFrames(c));
  }

  lemma InlineTriggerIff(c: Config, d: int, h: seq<AudioFrame>, t: nat)
    requires !c.endpointPolicy
    ensures Trigger(c, d, h) == Some(t) <==> FirstRun(c, h, MinVoiceFrames(c), t)
  {
    TriggerIsFirst(c, d, h, t);
    forall u: nat | u <= |h| ensures Fires(c, d, h[..u]) <==> LoudRun(c, h[..u], MinVoiceFrames(c)) {
      InlineFires(c, d, h[..u]);
    }
  }

  /** How many frames a capture holds whose run of `v` loud frames ends with frame number `t`: up to `p` quiet ones from
      before the run, and all from the run on. */
  function Held(h: seq<AudioFrame>, threshold: real, t: int, v: int, p: int): int
    requires 0 <= t - v <= |h|
  {
    Min(p, |QuietFrames(h[..t - v], threshold)|) + |h| - (t - v)
  }

  /** Reading stops here: a capture had started before this frame, it holds `m` frames by now, and the last `e` frames of the
      stream are quiet. */
  ghost predicate InlineStop(c: Config, h: seq<AudioFrame>, v: int, p: int, m: int, e: int) {
    exists t :: v <= t < |h| && FirstRun(c, h, v, t) && Held(h, c.rmsThreshold, t, v, p) >= m && AllQuiet(c, h, |h| - e)
  }

  lemma TriggerBefore(c: Config, d: int, h: seq<AudioFrame>, t: nat)
    requires h != []
    ensures Trigger(c, d, h[..|h| - 1]) == Some(t) <==> Trigger(c, d, h) == Some(t) && t < |h|
  {
  }

  function LastUpTo(frames: seq<AudioFrame>, p: int): seq<AudioFrame>
    requires p >= 0
  {
    frames[|frames| - Min(p, |frames|)..]
  }

  lemma InlineStart(c: Config, d: int, h: seq<AudioFrame>)
    requires !c.endpointPolicy && Trigger(c, d, h).Some?
    ensures var t := Trigger(c, d, h).value; MinVoiceFrames(c) <= t && RunStart(c, h, t) == t - MinVoiceFrames(c)
  {
    InlineTriggerRun(c, d, h);
  }

  /** What an inline capture is made of: the last of the quiet frames before the run, and everything from the run on. */
  lemma InlineCapture(c: Config, d: int, h: seq<AudioFrame>)
    requires !c.endpointPolicy && Trigger(c, d, h).Some?
    ensures var t, v, p := Trigger(c, d, h).value, MinVoiceFrames(c), PreRollFrames(c);
      && v <= t <= |h|
      && Captured(c, h, t) == LastUpTo(QuietFrames(h[..t - v], c.rmsThreshold), p) + h[t - v..]
      && |Captured(c, h, t)| == Held(h, c.rmsThreshold, t, v, p)
  {
    InlineStart(c, d, h);
    CapturedIs(c, h, Trigger(c, d, h).value);
  }

  lemma InlineVoice(c: Config, d: int, h: seq<AudioFrame>)
    requires !c.endpointPolicy && Trigger(c, d, h).Some?
    ensures VoicedIn(c, Captured(c, h, Trigger(c, d, h).value)) >= MinVoiceFrames(c)
  {
    InlineStart(c, d, h);
    CaptureSlices(c, d, h);
    RunCounted(c, h, RunStart(c, h, Trigger(c, d, h).value), Trigger(c, d, h).value);
  }

  lemma CapturedIs(c: Config, h: seq<AudioFrame>, t: nat)
    requires t <= |h|
    ensures Captured(c, h, t)
         == LastUpTo(QuietFrames(h[..RunStart(c, h, t)], c.rmsThreshold), PreRollFrames(c)) + h[RunStart(c, h, t)..]
  {
    CountsAre(c, h[..RunStart(c, h, t)]);
  }

  lemma RunCounted(c: Config, h: seq<AudioFrame>, from: nat, to: nat)
    requires from <= to <= |h| && forall k :: from <= k < to ==> Voiced(c, h[k])
    ensures VoicedIn(c, h[from..]) >= to - from
  {
    PrefixCounted(c, h[from..], to - from);
  }

  lemma {:induction false} PrefixCounted(c: Config, h: seq<AudioFrame>, n: nat)
    requires n <= |h| && forall k :: 0 <= k < n ==> Voiced(c, h[k])
    ensures VoicedIn(c, h) >= n
  {
    if h != [] {
      PrefixCounted(c, h[..|h| - 1], if n == |h| then n - 1 else n);
    }
  }

  lemma InlineStopIff(c: Config, d: int, h: seq<AudioFrame>)
    requires !c.endpointPolicy && h != []
    ensures Stops(c, d, h) <==> InlineStop(c, h, MinVoiceFrames(c), PreRollFrames(c), MinCaptureFrames(c), EndSilenceFrames(c))
  {
    if Trigger(c, d, h).Some? && Trigger(c, d, h).value < |h| {
      StopFrom(c, d, h);
    }
    forall t: nat ensures FirstRun(c, h, MinVoiceFrames(c), t) <==> Trigger(c, d, h) == Some(t) {
      InlineTriggerIff(c, d, h, t);
    }
    StopsAfterTrigger(c, d, h);
  }

  lemma StopsAfterTrigger(c: Config, d: int, h: seq<AudioFrame>)
    requires !c.endpointPolicy && h != []
    ensures Stops(c, d, h)
       <==> Trigger(c, d, h).Some? && Trigger(c, d, h).value < |h| && Ended(c, Captured(c, h, Trigger(c, d, h).value))
  {
    if Trigger(c, d, h).Some? {
      TriggerBefore(c, d, h, Trigger(c, d, h).value);
    }
  }

  lemma StopFrom(c: Config, d: int, h: seq<AudioFrame>)
    requires !c.endpointPolicy && Trigger(c, d, h).Some?
    ensures var t, v := Trigger(c, d, h).value, MinVoiceFrames(c);
      v <= t && (Ended(c, Captured(c, h, t))
      <==> Held(h, c.rmsThreshold, t, v, PreRollFrames(c)) >= MinCaptureFrames(c) && AllQuiet(c, h, |h| - EndSilenceFrames(c)))
  {
    InlineCapture(c, d, h);
    InlineVoice(c, d, h);
    CaptureSlices(c, d, h);
    RunReaches(c, h, EndSilenceFrames(c));
  }

  /** Reading takes the first `n` frames: at most `x`, up to the end of the stream or the first stop. */
  ghost predicate ReadsBy(stream: seq<AudioFrame>, n: int, x: int, stop: int -> bool) {
    && 0 <= n <= |stream| && n <= x
    && (forall k :: 0 <= k < n ==> stream[k].payload != [])
    && (forall j :: 1 <= j < n ==> !stop(j))
    && (n == x || n == |stream| || stream[n].payload == [] || (n >= 1 && stop(n)))
  }

  lemma ReadsBySame(stream: seq<AudioFrame>, n: int, x: int, stop: int -> bool, same: int -> bool)
    requires forall j :: 1 <= j <= |stream| && j < x ==> stop(j) == same(j)
    ensures ReadsBy(stream, n, x, stop) <==> ReadsBy(stream, n, x, same)
  {
  }

  ghost function LoopStops(c: Config, d: int, stream: seq<AudioFrame>): int -> bool {
    j => 1 <= j <= |stream| && Stops(c, d, stream[..j])
  }

  lemma ReadsUpToBy(c: Config, d: int, stream: seq<AudioFrame>, n: nat)
    ensures ReadsUpTo(c, d, stream, n) <==> ReadsBy(stream, n, MaxFrames(c, d), LoopStops(c, d, stream))
  {
    var stop := LoopStops(c, d, stream);
    assert forall k: int :: 0 <= k < |stream| ==> EndOfStream(stream, k) == (stream[k].payload == []);
    assert forall j :: 1 <= j <= |stream| ==> stop(j) == Stops(c, d, stream[..j]);
  }

  ghost predicate ReadsInline(c: Config, stream: seq<AudioFrame>, n: int, x: int, v: int, p: int, m: int, e: int) {
    ReadsBy(stream, n, x, InlineStops(c, stream, v, p, m, e))
  }

  ghost function InlineStops(c: Config, stream: seq<AudioFrame>, v: int, p: int, m: int, e: int): int -> bool {
    j => 1 <= j <= |stream| && InlineStop(c, stream[..j], v, p, m, e)
  }

  /** The inline mode from the stream alone: with the fewest frames that last as long as each setting asks, reading ends where
      it should and nowhere else. */
  lemma InlineReadingIff(c: Config, d: int, stream: seq<AudioFrame>, n: nat, x: int, v: int, p: int, m: int, e: int)
    requires !c.endpointPolicy
    requires Fewest(x, d * 1000, c) && Fewest(v, c.minVoiceMs, c) && Fewest(p, c.preRollMs, c)
    requires FewestOrNone(m, c.minCaptureMs, c) && Fewest(e, c.endSilenceMs, c)
    ensures ReadsUpTo(c, d, stream, n) <==> ReadsInline(c, stream, n, x, v, p, m, e)
  {
    FrameCounts(c, d);
    FewestUnique(x, MaxFrames(c, d), d * 1000, c);
    FewestUnique(v, MinVoiceFrames(c), c.minVoiceMs, c);
    FewestUnique(p, PreRollFrames(c), c.preRollMs, c);
    FewestUnique(m, MinCaptureFrames(c), c.minCaptureMs, c);
    FewestUnique(e, EndSilenceFrames(c), c.endSilenceMs, c);
    ReadsUpToBy(c, d, stream, n);
    var stop, same := LoopStops(c, d, stream), InlineStops(c, stream, v, p, m, e);
    forall j | 1 <= j <= |stream| ensures stop(j) == same(j) {
      InlineStopIff(c, d, stream[..j]);
    }
    ReadsBySame(stream, n, x, stop, same);
  }

  // ----- the policy mode -----

  /** The loop has started capturing: enough loud time in all; without a positive minimum, a loud first frame. */
  predicate PolicyStarted(c: Config, h: seq<AudioFrame>) {
    if c.minVoiceMs > 0 then Lasting(LoudCount(h, c.rmsThreshold), c) >= c.minVoiceMs
    else h != [] && h[0].rms >= c.rmsThreshold
  }

  /** Reading stops here: capture had started before this frame, enough time has been read, and enough of it at the end is
      quiet. */
  ghost predicate PolicyStop(c: Config, h: seq<AudioFrame>) {
    && h != [] && PolicyStarted(c, h[..|h| - 1])
    && Lasting(|h|, c) >= c.minCaptureMs
    && exists q :: q >= 0 && AllQuiet(c, h, |h| - q) && Lasting(q, c) >= c.endSilenceMs
  }

  lemma {:induction false} PolicyCounts(c: Config, d: int, h: seq<AudioFrame>)
    ensures var p, v := PolicyConfig(c, d), AllToVad(h);
      Vad.VoicedCount(p, v) == LoudCount(h, c.rmsThreshold) && Vad.TrailingUnvoiced(p, v) == SilentRun(c, h)
  {
    if h != [] {
      var rest := h[..|h| - 1];
      PolicyCounts(c, d, rest);
      assert h == rest + [h[|h| - 1]];
      AllToVadAppend(rest, h[|h| - 1]);
      assert AllToVad(h)[..|rest|] == AllToVad(rest);
    }
  }

  lemma PolicyTriggered(c: Config, d: int, h: seq<AudioFrame>)
    requires c.endpointPolicy && |h| < MaxFrames(c, d)
    ensures Trigger(c, d, h).Some? <==> PolicyStarted(c, h)
  {
    FlagsAgreeIff(c, d, h);
    PolicyCounts(c, d, h);
    LastingGrows(0, LoudCount(h, c.rmsThreshold), c);
    if c.minVoiceMs <= 0 && h != [] && !Voiced(c, h[0]) {
      QuietFirstNeverStarts(c, d, h);
    }
  }

  /** Without a positive minimum only the first frame is announced. */
  lemma QuietFirstNeverStarts(c: Config, d: int, h: seq<AudioFrame>)
    requires c.endpointPolicy && c.minVoiceMs <= 0 && 1 <= |h| < MaxFrames(c, d) && !Voiced(c, h[0])
    ensures Trigger(c, d, h).None?
  {
    if Trigger(c, d, h).Some? {
      var t := Trigger(c, d, h).value;
      TriggerIsFirst(c, d, h, t);
      StartFiresIff(c, d, h[..t]);
    }
  }

  lemma SilenceReaches(c: Config, h: seq<AudioFrame>, ms: int)
    ensures Lasting(SilentRun(c, h), c) >= ms <==> exists q :: q >= 0 && AllQuiet(c, h, |h| - q) && Lasting(q, c) >= ms
  {
    var n := SilentRun(c, h);
    RunReaches(c, h, n);
    forall q | q >= 0 && AllQuiet(c, h, |h| - q) ensures Lasting(q, c) <= Lasting(n, c) {
      RunReaches(c, h, q);
      LastingGrows(q, n, c);
    }
  }

  /** A loud first frame keeps the silence within the rest. */
  lemma {:induction false} SilentTail(c: Config, h: seq<AudioFrame>)
    requires |h| >= 1 && Voiced(c, h[0])
    ensures SilentRun(c, h[1..]) == SilentRun(c, h)
  {
    if |h| > 1 && !Voiced(c, h[|h| - 1]) {
      SilentTail(c, h[..|h| - 1]);
      assert h[1..][..|h| - 2] == h[..|h| - 1][1..];
    }
  }

  lemma PolicySilence(c: Config, d: int, h: seq<AudioFrame>)
    requires h != [] && (c.minVoiceMs > 0 || Voiced(c, h[0])) && Vad.Triggered(PolicyConfig(c, d), AllToVad(h))
    ensures Vad.SilenceMs(PolicyConfig(c, d), AllToVad(h)) == Lasting(SilentRun(c, h), c)
  {
    PolicyCounts(c, d, h);
    if c.minVoiceMs <= 0 {
      PolicyCounts(c, d, h[1..]);
      SilentTail(c, h);
      assert AllToVad(h)[1..] == AllToVad(h[1..]);
    }
  }

  lemma PolicyStopIff(c: Config, d: int, h: seq<AudioFrame>)
    requires c.endpointPolicy && 1 <= |h| < MaxFrames(c, d)
    ensures Stops(c, d, h) <==> PolicyStop(c, h)
  {
    var rest := h[..|h| - 1];
    PolicyTriggered(c, d, rest);
    MaxedOnLastFrame(c, d, h);
    SilenceReaches(c, h, c.endSilenceMs);
    if Trigger(c, d, rest).Some? {
      FlagsAgreeIff(c, d, rest);
      FlagsAgreeIff(c, d, h);
      TriggerBefore(c, d, h, Trigger(c, d, rest).value);
      PolicySilence(c, d, h);
    }
  }

  ghost predicate ReadsByPolicy(c: Config, stream: seq<AudioFrame>, n: int, x: int) {
    ReadsBy(stream, n, x, PolicyStops(c, stream))
  }

  ghost function PolicyStops(c: Config, stream: seq<AudioFrame>): int -> bool {
    j => 1 <= j <= |stream| && PolicyStop(c, stream[..j])
  }

  /** The policy mode from the stream alone. */
  lemma PolicyReadingIff(c: Config, d: int, stream: seq<AudioFrame>, n: nat, x: int)
    requires c.endpointPolicy && Fewest(x, d * 1000, c)
    ensures ReadsUpTo(c, d, stream, n) <==> ReadsByPolicy(c, stream, n, x)
  {
    FrameCounts(c, d);
    FewestUnique(x, MaxFrames(c, d), d * 1000, c);
    ReadsUpToBy(c, d, stream, n);
    var stop, same := LoopStops(c, d, stream), PolicyStops(c, stream);
    forall j | 1 <= j <= |stream| && j < x ensures stop(j) == same(j) {
      PolicyStopIff(c, d, stream[..j]);
    }
    ReadsBySame(stream, n, x, stop, same);
  }

  /** The trigger by the policy: the first frame that brings the loud time to the minimum; without a positive minimum the
      first frame of all, if it is loud. */
  lemma PolicyTriggerIff(c: Config, d: int, h: seq<AudioFrame>, t: nat)
    requires c.endpointPolicy && |h| < MaxFrames(c, d)
    ensures Trigger(c, d, h) == Some(t)
       <==> 1 <= t <= |h| && PolicyStarted(c, h[..t]) && forall u :: 0 <= u < t ==> !PolicyStarted(c, h[..u])
  {
    TriggeredBy(c, d, h, t);
    forall u: nat | u <= |h| ensures Trigger(c, d, h[..u]).Some? <==> PolicyStarted(c, h[..u]) {
      PolicyTriggered(c, d, h[..u]);
    }
  }

  lemma {:induction false} TriggerStays(c: Config, d: int, h: seq<AudioFrame>, u: nat)
    requires u <= |h|
    ensures Trigger(c, d, h[..u]) == if Trigger(c, d, h).Some? && Trigger(c, d, h).value <= u then Trigger(c, d, h) else None
  {
    if u == |h| {
      assert h[..u] == h;
    } else {
      var rest := h[..|h| - 1];
      TriggerStays(c, d, rest, u);
      assert rest[..u] == h[..u];
    }
  }

  lemma TriggeredBy(c: Config, d: int, h: seq<AudioFrame>, t: nat)
    ensures Trigger(c, d, h) == Some(t)
       <==> 1 <= t <= |h| && Trigger(c, d, h[..t]).Some? && forall u :: 0 <= u < t ==> Trigger(c, d, h[..u]).None?
  {
    forall u: nat | u <= |h|
      ensures Trigger(c, d, h[..u]) == if Trigger(c, d, h).Some? && Trigger(c, d, h).value <= u then Trigger(c, d, h) else None
    {
      TriggerStays(c, d, h, u);
    }
    if Trigger(c, d, h).Some? {
      assert Trigger(c, d, h[..Trigger(c, d, h).value]).Some?;
    }
  }

  // ----- the bytes -----

  function BytesIn(frames: seq<AudioFrame>): nat {
    if frames == [] then 0 else BytesIn(frames[..|frames| - 1]) + |frames[|frames| - 1].payload|
  }

  /** The payload of every frame stands in the joined bytes right after those of the frames before it. */
  lemma {:induction false} JoinedAt(frames: seq<AudioFrame>, k: nat)
    requires k < |frames|
    ensures |Joined(frames)| == BytesIn(frames)
    ensures BytesIn(frames[..k]) + |frames[k].payload| <= |Joined(frames)|
    ensures Joined(frames)[BytesIn(frames[..k])..][..|frames[k].payload|] == frames[k].payload
  {
    var rest, last := frames[..|frames| - 1], frames[|frames| - 1];
    if k < |rest| {
      JoinedAt(rest, k);
      assert rest[..k] == frames[..k];
      assert Joined(frames) == Joined(rest) + last.payload;
    } else {
      JoinedLength(rest);
      assert Joined(frames)[BytesIn(rest)..] == last.payload;
    }
  }

  lemma {:induction false} JoinedLength(frames: seq<AudioFrame>)
    ensures |Joined(frames)| == BytesIn(frames)
  {
    if frames != [] {
      JoinedLength(frames[..|frames| - 1]);
    }
  }
}
