/** The latencies a session keeps itself against those recomputed from its event log: exactly when they agree. */
module LatencyAgreement {
  import opened Basics
  import opened RealtimeVoice
  import opened EventMetrics

  /** The event types whose first time the session marks itself. */
  const MARKED: set<EventType> := {AudioDetected, AsrPartial, MicrofeedbackGiven, AgentThink, TtsStarted}

  /** Those of them the scan reports as well. */
  const SCANNED: set<EventType> := {AsrPartial, AgentThink, TtsStarted}

  /** The mark kept for an event type. */
  function MarkFor(m: Marks, kind: EventType): Option<real> {
    match kind
    case AudioDetected => m.firstAudio
    case AsrPartial => m.firstPartial
    case MicrofeedbackGiven => m.firstMicrofeedback
    case AgentThink => m.firstReply
    case TtsStarted => m.firstSpeech
    case _ => None
  }

  /** The round has begun: the log opens with a start. */
  ghost predicate Opened(s: Session) {
    s.events != [] && s.events[0].eventType == ListeningStarted && s.marks.started.Some?
  }

  /** The marks for these event types are the times of the first such events of the log. */
  ghost predicate Agrees(s: Session, kinds: set<EventType>) {
    Opened(s) && forall kind :: kind in kinds ==> MarkFor(s.marks, kind) == FirstAt(s.events, kind)
  }

  predicate Accepts(s: Session, i: Input) {
    Step(s, i).outcome.Accepted?
  }

  /** The round is started over without a fresh one: the marks are forgotten, the log stays. */
  predicate Restarts(s: Session, i: Input) {
    i.call.StartListening? && !i.call.freshRound && Accepts(s, i)
  }

  /** An accepted stream event goes under the name of one of these event types while that has no mark yet. */
  predicate Poses(s: Session, i: Input, kinds: set<EventType>) {
    i.call.RecordStream? && Accepts(s, i) && i.call.eventType in kinds && MarkFor(s.marks, i.call.eventType).None?
  }

  /** A restart that forgets one of these marks. */
  predicate Forgets(s: Session, i: Input, kinds: set<EventType>) {
    Restarts(s, i) && exists kind :: kind in kinds && MarkFor(s.marks, kind).Some?
  }

  // ----- what a call does to the log and the first-time marks -----

  /** What an interruption logs. */
  predicate Aside(kind: EventType) {
    kind.InterruptNoted? || kind.StepNoted?
  }

  /** `r` has the log of `s` with more entries, all of them logged at the given time. */
  ghost predicate LoggedAt(s: Session, r: Session, at: real) {
    s.events <= r.events && forall k :: |s.events| <= k < |r.events| ==> r.events[k].at == at
  }

  /** Nothing but asides has been logged since, and of the marks only the phase's has changed. */
  ghost predicate Quiet(s: Session, r: Session, at: real) {
    && LoggedAt(s, r, at)
    && (forall k :: |s.events| <= k < |r.events| ==> Aside(r.events[k].eventType))
    && r.marks == s.marks.(phaseStarted := r.marks.phaseStarted)
  }

  lemma QuietTransitive(s: Session, m: Session, r: Session, at: real)
    requires Quiet(s, m, at) && Quiet(m, r, at)
    ensures Quiet(s, r, at)
  {
  }

  lemma CancelledQuiet(s: Session, t: Target, reason: string, at: real)
    ensures Quiet(s, Cancelled(s, t, reason, at), at)
  {
  }

  lemma InterruptNotedQuiet(s: Session, reason: string, now: real)
    ensures var stopped := s.(stage := s.stage.(interrupted := true, interruptReason := reason));
      Quiet(s, Transitioned(stopped, BargeIn, InterruptedStatus, now, InterruptLane, InterruptNoted, "", "", reason, ReasonPayload(reason)), now)
  {
  }

  lemma InterruptedQuiet(s: Session, reason: string, now: real)
    ensures Quiet(s, Interrupted(s, reason, now), now)
  {
    var stopped := s.(stage := s.stage.(interrupted := true, interruptReason := reason));
    var s0 := Transitioned(stopped, BargeIn, InterruptedStatus, now, InterruptLane, InterruptNoted, "", "", reason, ReasonPayload(reason));
    var s1 := Cancelled(s0, Generation, reason, now);
    var s2 := Cancelled(s1, Tts, reason, now);
    InterruptNotedQuiet(s, reason, now);
    CancelledQuiet(s0, Generation, reason, now);
    CancelledQuiet(s1, Tts, reason, now);
    CancelledQuiet(s2, ActionPlan, reason, now);
    QuietTransitive(s, s0, s1, now);
    QuietTransitive(s, s1, s2, now);
    QuietTransitive(s, s2, Interrupted(s, reason, now), now);
  }

  predicate Interrupts(c: Call) {
    c.Interrupt? || c.MarkCancelled?
  }

  lemma InterruptsQuiet(s: Session, i: Input)
    requires Interrupts(i.call)
    ensures Quiet(s, Effect(s, i), i.now)
  {
    if i.call.Interrupt? {
      InterruptedQuiet(s, i.call.reason, i.now);
    } else {
      CancelledQuiet(s, i.call.target, i.call.reason, i.now);
    }
  }

  lemma QuietFirst(s: Session, r: Session, at: real, kind: EventType)
    requires Quiet(s, r, at) && kind in MARKED
    ensures FirstAt(r.events, kind) == FirstAt(s.events, kind) && MarkFor(r.marks, kind) == MarkFor(s.marks, kind)
  {
    var added := r.events[|s.events|..];
    assert r.events == s.events + added;
    FirstAtQuiet(s.events, added, kind);
  }

  lemma PlainEffectIs(s: Session, i: Input)
    requires Plain(i.call)
    ensures var r := Effect(s, i); r.events == s.events + [EntryOf(s, i.call, i.now)] && r.marks == MarksAfter(s.marks, i.call, i.now)
  {
  }

  lemma EntryIs(s: Session, c: Call, now: real)
    requires Plain(c)
    ensures EntryOf(s, c, now).at == now && EntryOf(s, c, now).eventType == EventTypeOf(c)
  {
  }

  /** A plain call marks what it logs, a stream event marks nothing. */
  lemma MarksNoted(m: Marks, c: Call, now: real, kind: EventType)
    requires Plain(c) && kind in MARKED
    ensures MarkFor(MarksAfter(m, c, now), kind)
         == if !c.RecordStream? && EventTypeOf(c) == kind then FirstMark(MarkFor(m, kind), now) else MarkFor(m, kind)
    ensures MarksAfter(m, c, now).started == m.started
  {
  }

  lemma PlainFirst(s: Session, i: Input, kind: EventType)
    requires Plain(i.call) && kind in MARKED
    ensures var r := Effect(s, i);
      FirstAt(r.events, kind) == if EventTypeOf(i.call) == kind then FirstMark(FirstAt(s.events, kind), i.now) else FirstAt(s.events, kind)
  {
    PlainEffectIs(s, i);
    EntryIs(s, i.call, i.now);
    FirstAtAppend(s.events, EntryOf(s, i.call, i.now), kind);
  }

  /** A restart forgets the marks and adds a start to the log. */
  lemma ListenedFirst(s: Session, now: real, kind: EventType)
    requires kind in MARKED
    ensures var r := Listened(s, now);
      && MarkFor(r.marks, kind) == None && FirstAt(r.events, kind) == FirstAt(s.events, kind)
      && s.events <= r.events && |r.events| == |s.events| + 1 && r.events[|s.events|].eventType == ListeningStarted
      && r.events[|s.events|].at == now && r.marks.started == Some(now)
  {
    var r := Listened(s, now);
    FirstAtAppend(s.events, r.events[|s.events|], kind);
  }

  /** What a fresh start, or a start on an empty log, leaves. */
  lemma StartFirst(s: Session, start: Input, kind: EventType)
    requires start.call.StartListening? && Accepts(s, start)
    requires start.Fresh() || s.events == []
    requires kind in MARKED
    ensures var r := Step(s, start).session;
      && |r.events| == 1 && r.events[0].eventType == ListeningStarted && r.events[0].at == start.now
      && r.marks.started == Some(start.now) && MarkFor(r.marks, kind) == None && FirstAt(r.events, kind) == None
  {
    ListenedFirst(if start.Fresh() then s.(round := NextRound(s.names, s.round, start.roundId, start.token), events := []) else s,
                  start.now, kind);
  }

  lemma StartAgrees(s: Session, start: Input)
    requires start.call.StartListening? && Accepts(s, start)
    requires start.Fresh() || s.events == []
    ensures Agrees(Step(s, start).session, MARKED) && StartedAtOpening(Step(s, start).session)
  {
    StartFirst(s, start, AudioDetected);
    forall kind | kind in MARKED
      ensures MarkFor(Step(s, start).session.marks, kind) == FirstAt(Step(s, start).session.events, kind)
    {
      StartFirst(s, start, kind);
    }
  }

  lemma AgreesFewer(s: Session, kinds: set<EventType>, fewer: set<EventType>)
    requires Agrees(s, kinds) && fewer <= kinds
    ensures Agrees(s, fewer)
  {
  }

  /** A call that does not start anything keeps opening and start of the round. */
  lemma EffectOpened(s: Session, i: Input)
    requires s.events != [] && !i.call.StartListening?
    ensures var r := Effect(s, i); r.events != [] && r.events[0] == s.events[0] && r.marks.started == s.marks.started
  {
    if Interrupts(i.call) {
      InterruptsQuiet(s, i);
    } else {
      PlainEffectIs(s, i);
      MarksNoted(s.marks, i.call, i.now, AudioDetected);
    }
  }

  lemma StepOpened(s: Session, i: Input)
    requires Opened(s)
    ensures Opened(Step(s, i).session)
    ensures StartedAtOpening(s) && !Restarts(s, i) ==> StartedAtOpening(Step(s, i).session)
  {
    if i.Fresh() {
      StartFirst(s, i, AudioDetected);
    } else if Restarts(s, i) {
      ListenedFirst(s, i.now, AudioDetected);
    } else if Accepts(s, i) {
      EffectOpened(s, i);
    }
  }

  /** The present start of the round is the one the log opens with. */
  ghost predicate StartedAtOpening(s: Session) {
    Opened(s) && s.marks.started == Some(s.events[0].at)
  }

  lemma EffectAgrees(s: Session, i: Input, kind: EventType)
    requires kind in MARKED && MarkFor(s.marks, kind) == FirstAt(s.events, kind)
    requires !i.call.StartListening?
    ensures var r := Effect(s, i);
      MarkFor(r.marks, kind) == FirstAt(r.events, kind)
      <==> !(i.call.RecordStream? && i.call.eventType == kind && MarkFor(s.marks, kind).None?)
  {
    if Interrupts(i.call) {
      InterruptsQuiet(s, i);
      QuietFirst(s, Effect(s, i), i.now, kind);
    } else {
      PlainEffectIs(s, i);
      PlainFirst(s, i, kind);
      MarksNoted(s.marks, i.call, i.now, kind);
    }
  }

  lemma RestartAgrees(s: Session, i: Input, kind: EventType)
    requires Restarts(s, i) && kind in MARKED && MarkFor(s.marks, kind) == FirstAt(s.events, kind)
    ensures var r := Step(s, i).session; MarkFor(r.marks, kind) == FirstAt(r.events, kind) <==> MarkFor(s.marks, kind).None?
  {
    ListenedFirst(s, i.now, kind);
  }

  /** One call keeps any choice of marks in step with the log exactly when it is neither a stream event that poses as the
      first event of one of them, nor a restart that forgets one of them. */
  lemma StepAgreesIff(s: Session, i: Input, kinds: set<EventType>)
    requires kinds <= MARKED && Agrees(s, kinds)
    ensures Agrees(Step(s, i).session, kinds) <==> !Poses(s, i, kinds) && !Forgets(s, i, kinds)
  {
    StepOpened(s, i);
    if i.Fresh() {
      StartAgrees(s, i);
      AgreesFewer(Step(s, i).session, MARKED, kinds);
    } else if Restarts(s, i) {
      forall kind | kind in kinds
        ensures MarkFor(Step(s, i).session.marks, kind) == FirstAt(Step(s, i).session.events, kind) <==> MarkFor(s.marks, kind).None?
      {
        RestartAgrees(s, i, kind);
      }
    } else if Accepts(s, i) {
      forall kind | kind in kinds
        ensures MarkFor(Effect(s, i).marks, kind) == FirstAt(Effect(s, i).events, kind)
           <==> !(i.call.RecordStream? && i.call.eventType == kind && MarkFor(s.marks, kind).None?)
      {
        EffectAgrees(s, i, kind);
      }
    }
  }

  // ----- latencies from the marks, latencies from the log -----

  /** A session latency is the scanned offset, cut off at zero. */
  predicate Matches(latency: Option<real>, metric: Option<real>) {
    latency == if metric.Some? then Some(MaxReal(0.0, metric.value)) else None
  }

  ghost predicate LatenciesMatch(s: Session) {
    var l, m := LatencyMs(s.marks), SampleMetrics(s.events);
    && Matches(l.firstPartialAsr, m.firstAsrPartialMs)
    && Matches(l.firstReplyToken, m.firstTokenMs) && Matches(l.firstReplyToken, m.firstLlmDeltaMs)
    && Matches(l.firstSpeech, m.firstAudioMs)
  }

  /** A time as far from the start of the round as from the opening of the log, or before both. */
  predicate SameOffset(t: real, started: real, opening: real) {
    started == opening || (t <= started && t <= opening)
  }

  /** The first event of this type, if any, is where a restart makes no difference. */
  ghost predicate FirstUnmoved(s: Session, kind: EventType)
    requires Opened(s)
  {
    FirstAt(s.events, kind).Some? ==> SameOffset(FirstAt(s.events, kind).value, s.marks.started.value, s.events[0].at)
  }

  lemma MatchIff(s: Session)
    requires Agrees(s, SCANNED)
    ensures LatenciesMatch(s) <==> FirstUnmoved(s, AsrPartial) && FirstUnmoved(s, AgentThink) && FirstUnmoved(s, TtsStarted)
  {
    assert AsrPartial in SCANNED && AgentThink in SCANNED && TtsStarted in SCANNED;
    assert StartAt(s.events) == s.events[0].at;
  }

  /** An event the scan reports and the session has no mark for. */
  lemma UnmarkedMismatch(s: Session, kind: EventType)
    requires kind in SCANNED && s.events != []
    requires MarkFor(s.marks, kind).None? && FirstAt(s.events, kind).Some?
    ensures !LatenciesMatch(s)
  {
  }

  /** The call makes the first event of a type the scan reports, at a time from which the start of the round and the opening
      of the log are not equally far; that takes an earlier restart. */
  predicate Displaced(s: Session, i: Input) {
    && Accepts(s, i) && Plain(i.call) && !i.call.RecordStream?
    && EventTypeOf(i.call) in SCANNED && MarkFor(s.marks, EventTypeOf(i.call)).None?
    && s.events != [] && s.marks.started.Some? && !SameOffset(i.now, s.marks.started.value, s.events[0].at)
  }

  /** A call that puts the scanned latencies out of step with the session's. */
  predicate Breaks(s: Session, i: Input) {
    Poses(s, i, SCANNED) || Forgets(s, i, SCANNED) || Displaced(s, i)
  }

  predicate NeverBreaks(s: Session, inputs: seq<Input>)
    decreases |inputs|
  {
    inputs == [] || (!Breaks(s, inputs[0]) && NeverBreaks(Step(s, inputs[0]).session, inputs[1..]))
  }

  /** They match now and after each of the calls to come. */
  ghost predicate AlwaysMatch(s: Session, inputs: seq<Input>)
    decreases |inputs|
  {
    LatenciesMatch(s) && (inputs == [] || AlwaysMatch(Step(s, inputs[0]).session, inputs[1..]))
  }

  lemma PosedMismatch(s: Session, i: Input)
    requires Poses(s, i, SCANNED)
    ensures !LatenciesMatch(Step(s, i).session)
  {
    var kind := i.call.eventType;
    PlainEffectIs(s, i);
    PlainFirst(s, i, kind);
    MarksNoted(s.marks, i.call, i.now, kind);
    UnmarkedMismatch(Step(s, i).session, kind);
  }

  lemma ForgottenMismatch(s: Session, i: Input)
    requires Agrees(s, SCANNED) && Forgets(s, i, SCANNED)
    ensures !LatenciesMatch(Step(s, i).session)
  {
    var kind :| kind in SCANNED && MarkFor(s.marks, kind).Some?;
    ListenedFirst(s, i.now, kind);
    UnmarkedMismatch(Step(s, i).session, kind);
  }

  /** The call makes the first event of this type. */
  predicate MakesFirst(s: Session, i: Input, kind: EventType) {
    Accepts(s, i) && Plain(i.call) && EventTypeOf(i.call) == kind && MarkFor(s.marks, kind).None?
  }

  lemma StepUnmoved(s: Session, i: Input, kind: EventType)
    requires Agrees(s, SCANNED) && kind in SCANNED && FirstUnmoved(s, kind)
    requires !Poses(s, i, SCANNED) && !Forgets(s, i, SCANNED)
    ensures Opened(Step(s, i).session)
    ensures FirstUnmoved(Step(s, i).session, kind)
       <==> (MakesFirst(s, i, kind) ==> SameOffset(i.now, s.marks.started.value, s.events[0].at))
  {
    StepOpened(s, i);
    if i.Fresh() {
      StartFirst(s, i, kind);
    } else if Restarts(s, i) {
      ListenedFirst(s, i.now, kind);
    } else if Accepts(s, i) {
      EffectOpened(s, i);
      if Interrupts(i.call) {
        InterruptsQuiet(s, i);
        QuietFirst(s, Effect(s, i), i.now, kind);
      } else {
        PlainFirst(s, i, kind);
      }
    }
  }

  lemma StepMatchesIff(s: Session, i: Input)
    requires Agrees(s, SCANNED) && LatenciesMatch(s)
    ensures LatenciesMatch(Step(s, i).session) <==> !Breaks(s, i)
    ensures !Breaks(s, i) ==> Agrees(Step(s, i).session, SCANNED)
  {
    if Poses(s, i, SCANNED) {
      PosedMismatch(s, i);
    } else if Forgets(s, i, SCANNED) {
      ForgottenMismatch(s, i);
    } else {
      MatchIff(s);
      StepAgreesIff(s, i, SCANNED);
      MatchIff(Step(s, i).session);
      StepUnmoved(s, i, AsrPartial);
      StepUnmoved(s, i, AgentThink);
      StepUnmoved(s, i, TtsStarted);
      DisplacedIff(s, i);
    }
  }

  lemma DisplacedIff(s: Session, i: Input)
    requires Opened(s) && !Poses(s, i, SCANNED)
    ensures Displaced(s, i)
       <==> (MakesFirst(s, i, AsrPartial) || MakesFirst(s, i, AgentThink) || MakesFirst(s, i, TtsStarted))
            && !SameOffset(i.now, s.marks.started.value, s.events[0].at)
  {
  }

  /** Whatever calls are made, rejected ones, restarts and fresh rounds included: the latencies recomputed from the log are
      the session's own at every moment exactly when no call breaks them. A call does that in one of three ways: a stream
      event poses as the first partial transcript, reply or speech; a restart forgets the time of one of these; or one of
      them comes first after a restart that moved the start of the round. */
  lemma {:induction false} AlwaysMatchIff(s: Session, inputs: seq<Input>)
    requires Agrees(s, SCANNED) && LatenciesMatch(s)
    ensures AlwaysMatch(s, inputs) <==> NeverBreaks(s, inputs)
    decreases |inputs|
  {
    if inputs != [] {
      StepMatchesIff(s, inputs[0]);
      if !Breaks(s, inputs[0]) {
        AlwaysMatchIff(Step(s, inputs[0]).session, inputs[1..]);
      } else {
        MatchNow(Step(s, inputs[0]).session, inputs[1..]);
      }
    }
  }

  lemma MatchNow(s: Session, inputs: seq<Input>)
    ensures AlwaysMatch(s, inputs) ==> LatenciesMatch(s)
  {
  }

  lemma StartMatches(s: Session, start: Input)
    requires start.call.StartListening? && Accepts(s, start)
    requires start.Fresh() || s.events == []
    ensures var r := Step(s, start).session; Agrees(r, SCANNED) && StartedAtOpening(r) && LatenciesMatch(r)
  {
    StartAgrees(s, start);
    AgreesFewer(Step(s, start).session, MARKED, SCANNED);
    MatchIff(Step(s, start).session);
  }

  /** The same from the start of a round, on an empty log or fresh. */
  lemma ScannedLatencies(s: Session, start: Input, inputs: seq<Input>)
    requires start.call.StartListening? && Accepts(s, start)
    requires start.Fresh() || s.events == []
    ensures AlwaysMatch(Step(s, start).session, inputs) <==> NeverBreaks(Step(s, start).session, inputs)
  {
    StartMatches(s, start);
    AlwaysMatchIff(Step(s, start).session, inputs);
  }

  predicate NeverPoses(s: Session, inputs: seq<Input>)
    decreases |inputs|
  {
    inputs == [] || (!Poses(s, inputs[0], SCANNED) && NeverPoses(Step(s, inputs[0]).session, inputs[1..]))
  }

  predicate NeverRestarts(s: Session, inputs: seq<Input>)
    decreases |inputs|
  {
    inputs == [] || (!Restarts(s, inputs[0]) && NeverRestarts(Step(s, inputs[0]).session, inputs[1..]))
  }

  /** Without restarts only posing stream events break them. */
  lemma {:induction false} UnrestartedBreaksIff(s: Session, inputs: seq<Input>)
    requires StartedAtOpening(s) && NeverRestarts(s, inputs)
    ensures NeverBreaks(s, inputs) <==> NeverPoses(s, inputs)
    decreases |inputs|
  {
    if inputs != [] {
      StepOpened(s, inputs[0]);
      UnrestartedBreaksIff(Step(s, inputs[0]).session, inputs[1..]);
    }
  }

  // ----- with a clock that never runs back behind a round's start the cut-off at zero plays no part -----

  ghost predicate LatenciesEqual(s: Session) {
    var l, m := LatencyMs(s.marks), SampleMetrics(s.events);
    && l.firstPartialAsr == m.firstAsrPartialMs
    && l.firstReplyToken == m.firstTokenMs == m.firstLlmDeltaMs
    && l.firstSpeech == m.firstAudioMs
  }

  ghost predicate AlwaysEqual(s: Session, inputs: seq<Input>)
    decreases |inputs|
  {
    LatenciesEqual(s) && (inputs == [] || AlwaysEqual(Step(s, inputs[0]).session, inputs[1..]))
  }

  /** Nothing in the log is earlier than its opening. */
  ghost predicate Timely(s: Session) {
    && s.events != [] && s.events[0].eventType == ListeningStarted
    && forall e :: e in s.events ==> e.at >= s.events[0].at
  }

  /** No call reads the clock before the opening of the log it adds to. */
  predicate AfterOpening(s: Session, inputs: seq<Input>)
    decreases |inputs|
  {
    inputs == [] || (
      && (inputs[0].Fresh() || s.events == [] || inputs[0].now >= s.events[0].at)
      && AfterOpening(Step(s, inputs[0]).session, inputs[1..]))
  }

  lemma EffectLoggedAt(s: Session, i: Input)
    requires !i.Fresh()
    ensures LoggedAt(s, Effect(s, i), i.now)
  {
    if Interrupts(i.call) {
      InterruptsQuiet(s, i);
    } else if i.call.StartListening? {
      ListenedFirst(s, i.now, AudioDetected);
    } else {
      PlainEffectIs(s, i);
      EntryIs(s, i.call, i.now);
    }
  }

  lemma LoggedTimely(s: Session, r: Session, at: real)
    requires Timely(s) && LoggedAt(s, r, at) && at >= s.events[0].at
    ensures Timely(r)
  {
  }

  lemma StepTimely(s: Session, i: Input)
    requires Timely(s) && (i.Fresh() || i.now >= s.events[0].at)
    ensures Timely(Step(s, i).session)
  {
    if i.Fresh() {
      StartTimely(s, i);
    } else if Accepts(s, i) {
      EffectLoggedAt(s, i);
      LoggedTimely(s, Effect(s, i), i.now);
    }
  }

  lemma OffsetTimely(s: Session, kind: EventType)
    requires Timely(s)
    ensures StartAt(s.events) == s.events[0].at
    ensures Offset(s.events, kind, s.events[0].at).Some? ==> Offset(s.events, kind, s.events[0].at).value >= 0.0
  {
    FirstAtIs(s.events, kind);
  }

  lemma TimelyEqual(s: Session)
    requires Timely(s)
    ensures LatenciesMatch(s) <==> LatenciesEqual(s)
  {
    OffsetTimely(s, AsrPartial);
    OffsetTimely(s, AgentThink);
    OffsetTimely(s, TtsStarted);
  }

  lemma {:induction false} AlwaysEqualIff(s: Session, inputs: seq<Input>)
    requires Timely(s) && AfterOpening(s, inputs)
    ensures AlwaysMatch(s, inputs) <==> AlwaysEqual(s, inputs)
    decreases |inputs|
  {
    TimelyEqual(s);
    if inputs != [] {
      StepTimely(s, inputs[0]);
      AlwaysEqualIff(Step(s, inputs[0]).session, inputs[1..]);
    }
  }

  lemma StartTimely(s: Session, start: Input)
    requires start.call.StartListening? && Accepts(s, start)
    requires start.Fresh() || s.events == []
    ensures Timely(Step(s, start).session)
  {
    StartFirst(s, start, AudioDetected);
  }

  /** No reading of the clock precedes the opening of its log: then the session's latencies and the scanned ones are
      equal, keys included, under exactly the same condition. */
  lemma ScannedLatenciesExact(s: Session, start: Input, inputs: seq<Input>)
    requires start.call.StartListening? && Accepts(s, start)
    requires start.Fresh() || s.events == []
    requires AfterOpening(Step(s, start).session, inputs)
    ensures AlwaysEqual(Step(s, start).session, inputs) <==> NeverBreaks(Step(s, start).session, inputs)
  {
    ScannedLatencies(s, start, inputs);
    StartTimely(s, start);
    AlwaysEqualIff(Step(s, start).session, inputs);
  }

  // ----- the marks that are overwritten -----

  /** The final transcript, overwritten by each, and the end of the round, overwritten by completion and failure alike. */
  datatype Overwritten = TranscriptMark | EndingMark

  function LoggedAs(o: Overwritten): set<EventType> {
    match o
    case TranscriptMark => {AsrFinal}
    case EndingMark => {CompleteNoted, ErrorNoted}
  }

  function LastMark(m: Marks, o: Overwritten): Option<real> {
    match o
    case TranscriptMark => m.finalAsr
    case EndingMark => m.completed
  }

  /** The mark is the time of the last such event of the round. */
  ghost predicate LastAgrees(s: Session, o: Overwritten) {
    StartedAtOpening(s) && LastMark(s.marks, o) == LastAt(s.events, LoggedAs(o))
  }

  /** The calls neither restart the round nor log such an event as a mere stream event. */
  predicate Genuine(s: Session, inputs: seq<Input>, o: Overwritten)
    decreases |inputs|
  {
    inputs == [] || (
      && !Restarts(s, inputs[0])
      && (inputs[0].call.RecordStream? && Accepts(s, inputs[0]) ==> inputs[0].call.eventType !in LoggedAs(o))
      && Genuine(Step(s, inputs[0]).session, inputs[1..], o))
  }

  lemma MarksOverwritten(m: Marks, c: Call, now: real, o: Overwritten)
    requires Plain(c)
    requires c.RecordStream? ==> c.eventType !in LoggedAs(o)
    ensures LastMark(MarksAfter(m, c, now), o) == if EventTypeOf(c) in LoggedAs(o) then Some(now) else LastMark(m, o)
  {
  }

  lemma QuietLast(s: Session, r: Session, at: real, o: Overwritten)
    requires Quiet(s, r, at)
    ensures LastAt(r.events, LoggedAs(o)) == LastAt(s.events, LoggedAs(o)) && LastMark(r.marks, o) == LastMark(s.marks, o)
  {
    var added := r.events[|s.events|..];
    assert r.events == s.events + added;
    LastAtQuiet(s.events, added, LoggedAs(o));
  }

  lemma EffectLast(s: Session, i: Input, o: Overwritten)
    requires LastMark(s.marks, o) == LastAt(s.events, LoggedAs(o))
    requires !i.call.StartListening? && (i.call.RecordStream? ==> i.call.eventType !in LoggedAs(o))
    ensures var r := Effect(s, i); LastMark(r.marks, o) == LastAt(r.events, LoggedAs(o))
  {
    if Interrupts(i.call) {
      InterruptsQuiet(s, i);
      QuietLast(s, Effect(s, i), i.now, o);
    } else {
      PlainEffectIs(s, i);
      EntryIs(s, i.call, i.now);
      MarksOverwritten(s.marks, i.call, i.now, o);
      LastAtAppend(s.events, EntryOf(s, i.call, i.now), LoggedAs(o));
    }
  }

  lemma StartLast(s: Session, start: Input, o: Overwritten)
    requires start.call.StartListening? && Accepts(s, start)
    requires start.Fresh() || s.events == []
    ensures LastAgrees(Step(s, start).session, o)
  {
    StartAgrees(s, start);
    var r := Step(s, start).session;
    StartFirst(s, start, AudioDetected);
    assert r.events[..0] == [] && LastAt(r.events[..0], LoggedAs(o)) == None;
  }

  lemma StepLast(s: Session, i: Input, o: Overwritten)
    requires LastAgrees(s, o) && Genuine(s, [i], o)
    ensures LastAgrees(Step(s, i).session, o)
  {
    StepOpened(s, i);
    if i.Fresh() {
      StartLast(s, i, o);
    } else if Accepts(s, i) {
      EffectLast(s, i, o);
    }
  }

  lemma {:induction false} RunLast(s: Session, inputs: seq<Input>, o: Overwritten)
    requires LastAgrees(s, o) && Genuine(s, inputs, o)
    ensures LastAgrees(Run(s, inputs), o)
    decreases |inputs|
  {
    if inputs != [] {
      StepLast(s, inputs[0], o);
      RunLast(Step(s, inputs[0]).session, inputs[1..], o);
    }
  }

  /** The clock moves on between any two events of these types. */
  ghost predicate Advancing(events: seq<Event>, kinds: set<EventType>) {
    forall j, k :: 0 <= j < k < |events| && events[j].eventType in kinds && events[k].eventType in kinds ==> events[j].at < events[k].at
  }

  lemma FirstLastTimes(events: seq<Event>, kind: EventType, kinds: set<EventType>, k: int)
    requires FirstIs(events, kind, k) && LastIs(events, kinds, k)
    ensures FirstAt(events, kind) == Some(events[k].at) == LastAt(events, kinds)
  {
    FirstAtIs(events, kind);
    LastAtIs(events, kinds);
  }

  /** First and last time are the same exactly when they are those of the same event. */
  lemma FirstLastIff(events: seq<Event>, kind: EventType, kinds: set<EventType>)
    requires Advancing(events, kinds) && kind in kinds
    ensures LastAt(events, kinds).Some? ==>
      (FirstAt(events, kind) == LastAt(events, kinds) <==> exists k :: FirstIs(events, kind, k) && LastIs(events, kinds, k))
  {
    forall k | FirstIs(events, kind, k) && LastIs(events, kinds, k) ensures FirstAt(events, kind) == LastAt(events, kinds) {
      FirstLastTimes(events, kind, kinds, k);
    }
    if FirstAt(events, kind).Some? && FirstAt(events, kind) == LastAt(events, kinds) {
      FirstAtIs(events, kind);
      LastAtIs(events, kinds);
      var j :| FirstIs(events, kind, j) && events[j].at == FirstAt(events, kind).value;
      var k :| LastIs(events, kinds, k) && events[k].at == LastAt(events, kinds).value;
      assert j == k;
    }
  }

  /** Both the scan and the session measure from the opening of the log. */
  lemma LastLatency(s: Session, o: Overwritten, kind: EventType)
    requires LastAgrees(s, o) && Timely(s)
    ensures var latency, offset := ElapsedMs(s.marks.started, LastMark(s.marks, o)), Offset(s.events, kind, StartAt(s.events));
      && (latency.Some? <==> LastAt(s.events, LoggedAs(o)).Some?) && (offset.Some? <==> FirstAt(s.events, kind).Some?)
      && (latency.Some? ==> (latency == offset <==> FirstAt(s.events, kind) == LastAt(s.events, LoggedAs(o))))
  {
    LastNotBefore(s.events, LoggedAs(o), s.events[0].at);
    assert StartAt(s.events) == s.events[0].at;
  }

  lemma LastNotBefore(events: seq<Event>, kinds: set<EventType>, t: real)
    requires forall e :: e in events ==> e.at >= t
    ensures LastAt(events, kinds).Some? ==> LastAt(events, kinds).value >= t
  {
    LastAtIs(events, kinds);
  }

  lemma {:induction false} CountNone(events: seq<Event>, kind: EventType)
    ensures CountOf(events, kind) == 0 <==> forall j :: 0 <= j < |events| ==> events[j].eventType != kind
  {
    if events != [] {
      var n := |events| - 1;
      CountNone(events[..n], kind);
      assert forall j :: 0 <= j < n ==> events[j] == events[..n][j];
    }
  }

  /** The only event of its kind. */
  predicate OnlyIs(events: seq<Event>, kind: EventType, k: int) {
    FirstIs(events, kind, k) && LastIs(events, {kind}, k)
  }

  lemma OnlyAppend(events: seq<Event>, e: Event, kind: EventType, k: int)
    requires e.eventType != kind
    ensures OnlyIs(events + [e], kind, k) <==> OnlyIs(events, kind, k)
  {
    assert forall j :: 0 <= j < |events| ==> (events + [e])[j] == events[j];
  }

  lemma OnlyLast(events: seq<Event>, e: Event, kind: EventType)
    requires e.eventType == kind
    ensures (exists k :: OnlyIs(events + [e], kind, k)) <==> forall j :: 0 <= j < |events| ==> events[j].eventType != kind
  {
    var r := events + [e];
    if forall j :: 0 <= j < |events| ==> events[j].eventType != kind {
      assert OnlyIs(r, kind, |events|);
    }
    forall k | OnlyIs(r, kind, k) ensures k == |events| {
      assert r[|events|].eventType == kind;
    }
    assert forall j :: 0 <= j < |events| ==> r[j] == events[j];
  }

  lemma {:induction false} CountOne(events: seq<Event>, kind: EventType)
    ensures CountOf(events, kind) == 1 <==> exists k :: OnlyIs(events, kind, k)
  {
    if events != [] {
      var n := |events| - 1;
      var rest := events[..n];
      assert events == rest + [events[n]];
      if events[n].eventType == kind {
        OnlyLast(rest, events[n], kind);
        CountNone(rest, kind);
      } else {
        CountOne(rest, kind);
        forall k ensures OnlyIs(events, kind, k) <==> OnlyIs(rest, kind, k) {
          OnlyAppend(rest, events[n], kind, k);
        }
      }
    }
  }

  /** The final-transcript latency is an exception: its mark is overwritten, so after any run of a round with a clock that
      advances between finalizations the scanned value is the session's exactly when the round was finalized once. */
  lemma FinalLatencyMatchesIff(s: Session, inputs: seq<Input>)
    requires LastAgrees(s, TranscriptMark) && Genuine(s, inputs, TranscriptMark)
    requires Timely(Run(s, inputs)) && Advancing(Run(s, inputs).events, {AsrFinal})
    ensures var r := Run(s, inputs);
      var l, m, n := LatencyMs(r.marks).finalAsr, SampleMetrics(r.events).asrFinalMs, CountOf(r.events, AsrFinal);
      && (m.Some? <==> l.Some?) && (m.Some? <==> n >= 1)
      && (n >= 1 ==> (l == m <==> n == 1))
  {
    RunLast(s, inputs, TranscriptMark);
    LastLatency(Run(s, inputs), TranscriptMark, AsrFinal);
    FinalTimes(Run(s, inputs).events);
  }

  lemma FinalTimes(events: seq<Event>)
    requires Advancing(events, {AsrFinal})
    ensures var first, last, n := FirstAt(events, AsrFinal), LastAt(events, {AsrFinal}), CountOf(events, AsrFinal);
      (first.Some? <==> n >= 1) && (last.Some? <==> n >= 1) && (n >= 1 ==> (first == last <==> n == 1))
  {
    FirstAtIs(events, AsrFinal);
    LastAtIs(events, {AsrFinal});
    CountNone(events, AsrFinal);
    CountOne(events, AsrFinal);
    FirstLastIff(events, AsrFinal, {AsrFinal});
    assert forall k :: OnlyIs(events, AsrFinal, k) <==> FirstIs(events, AsrFinal, k) && LastIs(events, {AsrFinal}, k);
  }

  /** So is the total: completion and failure both overwrite its mark, while the scan reports the first completion. The two
      are equal exactly when the first completion of the round is also its last completion or failure. */
  lemma TotalLatencyMatchesIff(s: Session, inputs: seq<Input>)
    requires LastAgrees(s, EndingMark) && Genuine(s, inputs, EndingMark)
    requires Timely(Run(s, inputs)) && Advancing(Run(s, inputs).events, {CompleteNoted, ErrorNoted})
    ensures var r := Run(s, inputs);
      var l, m := LatencyMs(r.marks).total, SampleMetrics(r.events).totalMs;
      && (l.Some? <==> exists j :: 0 <= j < |r.events| && r.events[j].eventType in {CompleteNoted, ErrorNoted})
      && (l.Some? ==> (l == m <==> exists k :: FirstIs(r.events, CompleteNoted, k) && LastIs(r.events, {CompleteNoted, ErrorNoted}, k)))
      && (l.None? ==> m.None?)
  {
    RunLast(s, inputs, EndingMark);
    LastLatency(Run(s, inputs), EndingMark, CompleteNoted);
    EndingTimes(Run(s, inputs).events);
  }

  lemma EndingTimes(events: seq<Event>)
    requires Advancing(events, {CompleteNoted, ErrorNoted})
    ensures var first, last := FirstAt(events, CompleteNoted), LastAt(events, {CompleteNoted, ErrorNoted});
      && (last.Some? <==> exists j :: 0 <= j < |events| && events[j].eventType in {CompleteNoted, ErrorNoted})
      && (last.Some? ==>
            (first == last <==> exists k :: FirstIs(events, CompleteNoted, k) && LastIs(events, {CompleteNoted, ErrorNoted}, k)))
      && (last.None? ==> first.None?)
  {
    FirstLastIff(events, CompleteNoted, {CompleteNoted, ErrorNoted});
    FirstAtIs(events, CompleteNoted);
    LastAtIs(events, {CompleteNoted, ErrorNoted});
  }
}
