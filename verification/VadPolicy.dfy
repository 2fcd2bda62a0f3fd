/** Voice endpointing: `eibrain/body/vad_policy.py`.

    The policy keeps running totals; here they are proved to be what one would compute from the whole history of
    frames since the last reset. */
module VadPolicy {
  import opened Basics

  datatype Frame = Frame(rms: real, speechProbability: Option<real>)

  datatype Config = Config(
    rmsThreshold: real, probabilityThreshold: real, frameMs: int, minVoiceMs: int, endSilenceMs: int,
    minCaptureMs: int, maxCaptureMs: int, fallbackRms: real)

  datatype Reason = EndpointSilence | MaxCaptureForceDecode | SpeechStarted | SpeechCandidate | Silence

  datatype Decision = Decision(isVoice: bool, shouldStart: bool, shouldStop: bool, shouldForceDecode: bool, reason: Reason)

  function FrameMs(c: Config): (ms: int)
    ensures ms >= 1
  {
    Max(1, c.frameMs)
  }

  predicate IsVoice(c: Config, f: Frame) {
    if f.speechProbability.Some? then f.speechProbability.value >= c.probabilityThreshold else f.rms >= c.rmsThreshold
  }

  // ----- what a history of frames amounts to -----

  /** How many of the frames hold voice. */
  function VoicedCount(c: Config, h: seq<Frame>): (n: nat)
    ensures n <= |h|
  {
    if h == [] then 0 else VoicedCount(c, h[..|h| - 1]) + if IsVoice(c, h[|h| - 1]) then 1 else 0
  }

  /** How many frames at the end hold no voice. */
  function TrailingUnvoiced(c: Config, h: seq<Frame>): (n: nat)
    ensures n <= |h|
  {
    if h == [] || IsVoice(c, h[|h| - 1]) then 0 else 1 + TrailingUnvoiced(c, h[..|h| - 1])
  }

  /** The loudest level, at least zero. */
  function Peak(h: seq<Frame>): (p: real)
    ensures p >= 0.0
  {
    if h == [] then 0.0 else MaxReal(Peak(h[..|h| - 1]), h[|h| - 1].rms)
  }

  function VoiceMs(c: Config, h: seq<Frame>): int {
    VoicedCount(c, h) * FrameMs(c)
  }

  function CapturedMs(c: Config, h: seq<Frame>): int {
    |h| * FrameMs(c)
  }

  /** Speech has started: some frame was seen and enough of them, consecutive or not, held voice. */
  predicate Triggered(c: Config, h: seq<Frame>) {
    h != [] && VoiceMs(c, h) >= c.minVoiceMs
  }

  /** Silence since the last voice, counted only after the trigger. With a positive minimum the triggering frame holds
      voice itself; without one the first frame triggers, voice or not, and is not counted. */
  function SilenceMs(c: Config, h: seq<Frame>): int {
    if !Triggered(c, h) then 0
    else TrailingUnvoiced(c, if c.minVoiceMs > 0 then h else h[1..]) * FrameMs(c)
  }

  /** What to do when the totals stand like this after a frame. */
  function DecisionAt(c: Config, voice: bool, start: bool, triggered: bool, capturedMs: int, silenceMs: int, peak: real): Decision {
    var stop := triggered && capturedMs >= c.minCaptureMs && silenceMs >= c.endSilenceMs;
    var force := capturedMs >= c.maxCaptureMs && (triggered || peak >= c.fallbackRms);
    Decision(voice, start, stop, force,
             if stop then EndpointSilence else if force then MaxCaptureForceDecode
             else if start then SpeechStarted else if voice then SpeechCandidate else Silence)
  }

  /** The decision a whole history calls for. */
  function Decide(c: Config, h: seq<Frame>): Decision
    requires h != []
  {
    DecisionAt(c, IsVoice(c, h[|h| - 1]), Triggered(c, h) && !Triggered(c, h[..|h| - 1]), Triggered(c, h),
               CapturedMs(c, h), SilenceMs(c, h), Peak(h))
  }

  /** The running totals of the policy. */
  datatype Totals = Totals(voiceMs: int, silenceMs: int, capturedMs: int, triggered: bool, peak: real)

  function TotalsOf(c: Config, h: seq<Frame>): Totals {
    Totals(VoiceMs(c, h), SilenceMs(c, h), CapturedMs(c, h), Triggered(c, h), Peak(h))
  }

  // ----- the policy object -----

  class VadEndpointPolicy {
    const config: Config
    var voiceMs: int
    var silenceAfterVoiceMs: int
    var capturedMs: int
    var triggered: bool
    var peakRms: real
    /** The frames observed since the last reset. */
    ghost var history: seq<Frame>

    ghost function View(): Totals
      reads this
    {
      Totals(voiceMs, silenceAfterVoiceMs, capturedMs, triggered, peakRms)
    }

    /** The running totals are those of the history. */
    ghost predicate Valid()
      reads this
    {
      View() == TotalsOf(config, history)
    }

    constructor (config: Config)
      ensures this.config == config && history == [] && Valid()
    {
      this.config := config;
      voiceMs, silenceAfterVoiceMs, capturedMs, triggered, peakRms := 0, 0, 0, false, 0.0;
      history := [];
    }

    method Observe(frame: Frame) returns (decision: Decision)
      requires Valid()
      modifies this
      ensures Valid() && history == old(history) + [frame]
      ensures decision == Decide(config, history)
    {
      HistoryGrows(config, history, frame);
      decision := Update(frame);
      history := history + [frame];
    }

    /** The arithmetic of `observe`. */
    method Update(frame: Frame) returns (decision: Decision)
      modifies this
      ensures history == old(history) && View() == Grown(config, old(View()), frame)
      ensures decision == DecisionAt(config, IsVoice(config, frame), triggered && !old(triggered), triggered,
                                     capturedMs, silenceAfterVoiceMs, peakRms)
    {
      var frameMs := Max(1, config.frameMs);
      capturedMs := capturedMs + frameMs;
      peakRms := MaxReal(peakRms, frame.rms);
      var isVoice := IsVoice(config, frame);
      if isVoice {
        voiceMs := voiceMs + frameMs;
        silenceAfterVoiceMs := 0;
      } else if triggered {
        silenceAfterVoiceMs := silenceAfterVoiceMs + frameMs;
      }
      var shouldStart := !triggered && voiceMs >= config.minVoiceMs;
      if shouldStart {
        triggered := true;
      }
      var shouldStop := triggered && capturedMs >= config.minCaptureMs && silenceAfterVoiceMs >= config.endSilenceMs;
      var maxed := capturedMs >= config.maxCaptureMs;
      var force := maxed && (triggered || peakRms >= config.fallbackRms);
      var reason := if shouldStop then EndpointSilence else if force then MaxCaptureForceDecode
                    else if shouldStart then SpeechStarted else if isVoice then SpeechCandidate else Silence;
      decision := Decision(isVoice, shouldStart, shouldStop, force, reason);
    }

    method Reset()
      modifies this
      ensures Valid() && history == []
    {
      voiceMs, silenceAfterVoiceMs, capturedMs, triggered, peakRms := 0, 0, 0, false, 0.0;
      history := [];
    }
  }

  lemma CountsGrow(c: Config, h: seq<Frame>, f: Frame)
    ensures var g, voice := h + [f], IsVoice(c, f);
      && VoicedCount(c, g) == VoicedCount(c, h) + (if voice then 1 else 0)
      && TrailingUnvoiced(c, g) == (if voice then 0 else TrailingUnvoiced(c, h) + 1)
      && Peak(g) == MaxReal(Peak(h), f.rms)
  {
    assert (h + [f])[..|h|] == h;
  }

  lemma OneMore(n: nat, ms: int)
    requires ms >= 1
    ensures (n + 1) * ms == n * ms + ms && n * ms >= 0
  {
  }

  lemma VoiceMsGrows(c: Config, h: seq<Frame>, f: Frame)
    ensures VoiceMs(c, h + [f]) == VoiceMs(c, h) + (if IsVoice(c, f) then FrameMs(c) else 0)
    ensures VoiceMs(c, h) >= 0
  {
    CountsGrow(c, h, f);
    OneMore(VoicedCount(c, h), FrameMs(c));
  }

  lemma NoVoiceMs(c: Config)
    ensures VoiceMs(c, []) == 0
  {
  }

  /** A start is announced by a voiced frame if the minimum is positive, else by the first frame; and then reaching the
      limit is enough to force a decode. */
  lemma AnnouncedBy(c: Config, h: seq<Frame>)
    requires h != [] && Decide(c, h).shouldStart
    ensures c.minVoiceMs > 0 ==> IsVoice(c, h[|h| - 1])
    ensures c.minVoiceMs <= 0 ==> |h| == 1
    ensures Decide(c, h).shouldForceDecode <==> CapturedMs(c, h) >= c.maxCaptureMs
  {
    var rest, last := h[..|h| - 1], h[|h| - 1];
    assert h == rest + [last];
    VoiceMsGrows(c, rest, last);
    NoVoiceMs(c);
  }

  lemma SilenceMsGrows(c: Config, h: seq<Frame>, f: Frame)
    ensures SilenceMs(c, h + [f])
         == if IsVoice(c, f) then 0 else if Triggered(c, h) then SilenceMs(c, h) + FrameMs(c) else SilenceMs(c, h)
  {
    VoiceMsGrows(c, h, f);
    CountsGrow(c, h, f);
    OneMore(TrailingUnvoiced(c, h), FrameMs(c));
    if h != [] {
      assert (h + [f])[1..] == h[1..] + [f];
      CountsGrow(c, h[1..], f);
      OneMore(TrailingUnvoiced(c, h[1..]), FrameMs(c));
    }
  }

  /** The totals after one more frame, computed from the totals before it. */
  function Grown(c: Config, t: Totals, f: Frame): Totals {
    var ms, voice := FrameMs(c), IsVoice(c, f);
    var voiceMs := if voice then t.voiceMs + ms else t.voiceMs;
    Totals(voiceMs, if voice then 0 else if t.triggered then t.silenceMs + ms else t.silenceMs, t.capturedMs + ms,
           t.triggered || voiceMs >= c.minVoiceMs, MaxReal(t.peak, f.rms))
  }

  /** Keeping totals frame by frame is the same as computing them from the history, decision included. */
  lemma HistoryGrows(c: Config, h: seq<Frame>, f: Frame)
    ensures TotalsOf(c, h + [f]) == Grown(c, TotalsOf(c, h), f)
    ensures var t, g := TotalsOf(c, h), Grown(c, TotalsOf(c, h), f);
      Decide(c, h + [f]) == DecisionAt(c, IsVoice(c, f), g.triggered && !t.triggered, g.triggered, g.capturedMs, g.silenceMs, g.peak)
  {
    assert (h + [f])[..|h|] == h;
    CountsGrow(c, h, f);
    OneMore(|h|, FrameMs(c));
    VoiceMsGrows(c, h, f);
    SilenceMsGrows(c, h, f);
  }

  // ----- consequences over whole histories -----

  /** The peak bounds every level, and is one of them unless none is above zero. */
  lemma {:induction false} PeakIsMaximum(h: seq<Frame>)
    ensures forall f :: f in h ==> f.rms <= Peak(h)
    ensures Peak(h) == 0.0 || exists f :: f in h && f.rms == Peak(h)
  {
    if h != [] {
      var rest, last := h[..|h| - 1], h[|h| - 1];
      PeakIsMaximum(rest);
      assert h == rest + [last] && last in h;
      if Peak(rest) > 0.0 {
        var f :| f in rest && f.rms == Peak(rest);
        assert f in h;
      }
    }
  }

  lemma {:induction false} TriggeredStays(c: Config, h: seq<Frame>, m: nat, n: nat)
    requires m <= n <= |h| && Triggered(c, h[..m])
    ensures Triggered(c, h[..n])
    decreases n - m
  {
    if m < n {
      assert h[..m + 1] == h[..m] + [h[m]];
      HistoryGrows(c, h[..m], h[m]);
      TriggeredStays(c, h, m + 1, n);
    }
  }

  /** Enough voiced time in all. */
  predicate EnoughVoice(c: Config, h: seq<Frame>) {
    h != [] && VoicedCount(c, h) * Max(1, c.frameMs) >= c.minVoiceMs
  }

  /** What a decision says, told from the frames: voice by probability where there is one, else by level; a stop once there
      is enough voice, enough in all and enough silence at the end; a forced decode once the limit is reached, if there is
      enough voice or some level reaches the fallback; and the reason that goes first. */
  lemma DecisionMeans(c: Config, h: seq<Frame>)
    requires h != []
    ensures var d, last, ms := Decide(c, h), h[|h| - 1], Max(1, c.frameMs);
      && (d.isVoice <==> if last.speechProbability.Some? then last.speechProbability.value >= c.probabilityThreshold
                         else last.rms >= c.rmsThreshold)
      && (d.shouldStart <==> EnoughVoice(c, h) && !EnoughVoice(c, h[..|h| - 1]))
      && (c.minVoiceMs > 0 ==>
            (d.shouldStop <==> EnoughVoice(c, h) && |h| * ms >= c.minCaptureMs && TrailingUnvoiced(c, h) * ms >= c.endSilenceMs))
      && (c.minVoiceMs <= 0 ==>
            (d.shouldStop <==> |h| * ms >= c.minCaptureMs && TrailingUnvoiced(c, h[1..]) * ms >= c.endSilenceMs))
      && (d.shouldForceDecode <==>
            |h| * ms >= c.maxCaptureMs && (EnoughVoice(c, h) || c.fallbackRms <= 0.0 || exists f :: f in h && f.rms >= c.fallbackRms))
  {
    PeakIsMaximum(h);
    VoiceMsGrows(c, h[..|h| - 1], h[|h| - 1]);
    assert h == h[..|h| - 1] + [h[|h| - 1]];
  }

  lemma ReasonMeans(c: Config, h: seq<Frame>)
    requires h != []
    ensures var d := Decide(c, h);
      && (d.reason == EndpointSilence <==> d.shouldStop)
      && (d.reason == MaxCaptureForceDecode <==> !d.shouldStop && d.shouldForceDecode)
      && (d.reason == SpeechStarted <==> !d.shouldStop && !d.shouldForceDecode && d.shouldStart)
      && (d.reason == SpeechCandidate <==> !d.shouldStop && !d.shouldForceDecode && !d.shouldStart && d.isVoice)
      && (d.reason == Silence <==> !d.shouldStop && !d.shouldForceDecode && !d.shouldStart && !d.isVoice)
  {
  }

  /** The silence at the end: the last frames without voice, as many as there are. */
  lemma {:induction false} TrailingMeans(c: Config, h: seq<Frame>)
    ensures var n := TrailingUnvoiced(c, h);
      (forall k :: |h| - n <= k < |h| ==> !IsVoice(c, h[k])) && (n < |h| ==> IsVoice(c, h[|h| - n - 1]))
  {
    if h != [] && !IsVoice(c, h[|h| - 1]) {
      TrailingMeans(c, h[..|h| - 1]);
    }
  }

  /** The start is announced at most once between resets, and at exactly the frame where the voiced time first suffices. */
  lemma StartsOnce(c: Config, h: seq<Frame>, m: nat, n: nat)
    requires 1 <= m <= |h| && 1 <= n <= |h|
    requires Decide(c, h[..m]).shouldStart && Decide(c, h[..n]).shouldStart
    ensures m == n
  {
    assert h[..m][..m - 1] == h[..m - 1] && h[..n][..n - 1] == h[..n - 1];
    if m < n {
      TriggeredStays(c, h, m, n - 1);
    } else if n < m {
      TriggeredStays(c, h, n, m - 1);
    }
  }

  lemma StartedTriggers(c: Config, h: seq<Frame>, n: nat)
    requires 1 <= n <= |h| && Decide(c, h[..n]).shouldStart
    ensures Triggered(c, h)
  {
    TriggeredStays(c, h, n, |h|);
    assert h[..|h|] == h;
  }

  lemma {:induction false} TriggeredHasStart(c: Config, h: seq<Frame>)
    requires Triggered(c, h)
    ensures exists n :: 1 <= n <= |h| && Decide(c, h[..n]).shouldStart
  {
    var rest := h[..|h| - 1];
    assert h[..|h|] == h;
    if Triggered(c, rest) {
      TriggeredHasStart(c, rest);
      var n :| 1 <= n <= |rest| && Decide(c, rest[..n]).shouldStart;
      assert rest[..n] == h[..n];
    } else {
      assert Decide(c, h[..|h|]).shouldStart;
    }
  }

  /** A history has triggered exactly when some prefix of it announced the start. */
  lemma TriggeredIffStarted(c: Config, h: seq<Frame>)
    ensures Triggered(c, h) <==> exists n :: 1 <= n <= |h| && Decide(c, h[..n]).shouldStart
  {
    if Triggered(c, h) {
      TriggeredHasStart(c, h);
    }
    forall n | 1 <= n <= |h| && Decide(c, h[..n]).shouldStart ensures Triggered(c, h) {
      StartedTriggers(c, h, n);
    }
  }
}
