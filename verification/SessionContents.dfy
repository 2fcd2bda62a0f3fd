/** What a session holds after any run of calls, told from the calls it took alone: texts, phase, flags, marks and log. */
module SessionContents {
  import opened Basics
  import opened Text
  import opened RealtimeVoice
  import RoundProtocol

  /** The calls of a run that were accepted, in order. */
  function Taken(s: Session, inputs: seq<Input>): seq<Input>
    decreases |inputs|
  {
    if inputs == [] then []
    else
      var r := Step(s, inputs[0]);
      (if r.outcome.Accepted? then [inputs[0]] else []) + Taken(r.session, inputs[1..])
  }

  // ----- read from the last call backwards; `before` is what there was at first -----

  /** The text of the last final transcript since the last start. */
  function FinalText(taken: seq<Input>, before: string): string {
    if taken == [] then before
    else match taken[|taken| - 1].call
      case StartListening(_) => ""
      case Finalize(text) => text
      case _ => FinalText(taken[..|taken| - 1], before)
  }

  function PartialText(taken: seq<Input>, before: string): string {
    if taken == [] then before
    else match taken[|taken| - 1].call
      case StartListening(_) => ""
      case UpdatePartial(text) => text
      case _ => PartialText(taken[..|taken| - 1], before)
  }

  function FeedbackText(taken: seq<Input>, before: string): string {
    if taken == [] then before
    else match taken[|taken| - 1].call
      case StartListening(_) => ""
      case UpdateMicrofeedback(text) => text
      case _ => FeedbackText(taken[..|taken| - 1], before)
  }

  /** The deltas since the last start, joined. */
  function ReplyText(taken: seq<Input>, before: string): string {
    if taken == [] then before
    else match taken[|taken| - 1].call
      case StartListening(_) => ""
      case AppendReply(delta) => ReplyText(taken[..|taken| - 1], before) + delta
      case _ => ReplyText(taken[..|taken| - 1], before)
  }

  /** The phase of the last call that moves. */
  function PhaseLeft(taken: seq<Input>, before: Phase): Phase {
    if taken == [] then before
    else match taken[|taken| - 1].call
      case StartListening(_) => Listening
      case UpdatePartial(_) => PartialAsr
      case Finalize(_) => ThinkingStream
      case AppendReply(_) => ThinkingStream
      case StartSpeaking => SpeakingStream
      case Interrupt(_) => BargeIn
      case Complete(_) => Completed
      case Fail(_) => Failed
      case _ => PhaseLeft(taken[..|taken| - 1], before)
  }

  function StatusLeft(taken: seq<Input>, before: Status): Status {
    if taken == [] then before
    else match taken[|taken| - 1].call
      case StartListening(_) => WaitingForAudio
      case UpdatePartial(_) => PartialTranscript
      case Finalize(_) => FinalTranscript
      case AppendReply(_) => ReplyDelta
      case StartSpeaking => SpeechStarted
      case Interrupt(_) => InterruptedStatus
      case Complete(status) => GivenStatus(status)
      case Fail(_) => ErrorStatus
      case _ => StatusLeft(taken[..|taken| - 1], before)
  }

  /** The reason of the last interruption since the last start, if any. */
  function Interruption(taken: seq<Input>, before: Option<string>): Option<string> {
    if taken == [] then before
    else match taken[|taken| - 1].call
      case StartListening(_) => None
      case Interrupt(reason) => Some(reason)
      case _ => Interruption(taken[..|taken| - 1], before)
  }

  /** Whether a cancellation step has been taken since the last start, by an interruption or for itself. */
  function CancelledSince(taken: seq<Input>, t: Target, before: bool): bool {
    if taken == [] then before
    else match taken[|taken| - 1].call
      case StartListening(_) => false
      case Interrupt(_) => true
      case MarkCancelled(target, _) => target == t || CancelledSince(taken[..|taken| - 1], t, before)
      case _ => CancelledSince(taken[..|taken| - 1], t, before)
  }

  /** The calls whose first time is marked. */
  datatype First = FirstAudio | FirstPartial | FirstFeedback | FirstReply | FirstSpeech

  predicate Starts(c: Call, f: First) {
    match f
    case FirstAudio => c.NoteAudio?
    case FirstPartial => c.UpdatePartial?
    case FirstFeedback => c.UpdateMicrofeedback?
    case FirstReply => c.AppendReply?
    case FirstSpeech => c.StartSpeaking?
  }

  /** The time of the first such call since the last start. */
  function FirstTime(taken: seq<Input>, f: First, before: Option<real>): Option<real> {
    if taken == [] then before
    else
      var last, earlier := taken[|taken| - 1], FirstTime(taken[..|taken| - 1], f, before);
      if last.call.StartListening? then None
      else if Starts(last.call, f) && earlier.None? then Some(last.now) else earlier
  }

  /** The calls whose last time is marked. */
  datatype Latest = LatestFinal | LatestEnd | LatestMove

  predicate Counts(c: Call, l: Latest) {
    match l
    case LatestFinal => c.Finalize?
    case LatestEnd => c.Complete? || c.Fail?
    case LatestMove => !c.NoteAudio? && !c.UpdateMicrofeedback? && !c.MarkCancelled? && !c.RecordStream?
  }

  /** The time of the last such call since the last start, the start itself included where it counts. */
  function LatestTime(taken: seq<Input>, l: Latest, before: Option<real>): Option<real> {
    if taken == [] then before
    else
      var last := taken[|taken| - 1];
      if Counts(last.call, l) then Some(last.now)
      else if last.call.StartListening? then None
      else LatestTime(taken[..|taken| - 1], l, before)
  }

  function StartTime(taken: seq<Input>, before: Option<real>): Option<real> {
    if taken == [] then before
    else if taken[|taken| - 1].call.StartListening? then Some(taken[|taken| - 1].now)
    else StartTime(taken[..|taken| - 1], before)
  }

  // ----- the theorem -----

  predicate TextsTold(first: Words, taken: seq<Input>, w: Words) {
    && w.transcriptFinal == FinalText(taken, first.transcriptFinal)
    && w.transcriptPartial == PartialText(taken, first.transcriptPartial)
    && w.microfeedback == FeedbackText(taken, first.microfeedback)
    && w.replyText == ReplyText(taken, first.replyText)
  }

  function ReasonOf(g: Stage): Option<string> {
    if g.interrupted then Some(g.interruptReason) else None
  }

  predicate StageTold(first: Stage, taken: seq<Input>, g: Stage) {
    && g.phase == PhaseLeft(taken, first.phase)
    && g.status == StatusLeft(taken, first.status)
    && ReasonOf(g) == Interruption(taken, ReasonOf(first))
  }

  predicate FlagsTold(first: Cancellation, taken: seq<Input>, c: Cancellation) {
    && c.generation == CancelledSince(taken, Generation, first.generation)
    && c.tts == CancelledSince(taken, Tts, first.tts)
    && c.actionPlan == CancelledSince(taken, ActionPlan, first.actionPlan)
  }

  predicate FirstsTold(first: Marks, taken: seq<Input>, m: Marks) {
    && m.firstAudio == FirstTime(taken, FirstAudio, first.firstAudio)
    && m.firstPartial == FirstTime(taken, FirstPartial, first.firstPartial)
    && m.firstMicrofeedback == FirstTime(taken, FirstFeedback, first.firstMicrofeedback)
    && m.firstReply == FirstTime(taken, FirstReply, first.firstReply)
    && m.firstSpeech == FirstTime(taken, FirstSpeech, first.firstSpeech)
  }

  predicate LatestTold(first: Marks, taken: seq<Input>, m: Marks) {
    && m.started == StartTime(taken, first.started)
    && m.phaseStarted == LatestTime(taken, LatestMove, first.phaseStarted)
    && m.finalAsr == LatestTime(taken, LatestFinal, first.finalAsr)
    && m.completed == LatestTime(taken, LatestEnd, first.completed)
  }

  /** Everything but the identifiers, the chain and the log. */
  predicate Told(first: Session, taken: seq<Input>, s: Session) {
    && TextsTold(first.words, taken, s.words)
    && StageTold(first.stage, taken, s.stage)
    && FlagsTold(first.cancellation, taken, s.cancellation)
    && FirstsTold(first.marks, taken, s.marks)
    && LatestTold(first.marks, taken, s.marks)
  }

  lemma InterruptedFields(s: Session, reason: string, now: real)
    ensures var r := Interrupted(s, reason, now);
      && r.words == s.words && r.stage == Stage(BargeIn, InterruptedStatus, true, reason)
      && r.cancellation.generation && r.cancellation.tts && r.cancellation.actionPlan
      && r.marks == s.marks.(phaseStarted := Some(now))
  {
  }

  lemma CancelledFields(s: Session, t: Target, reason: string, now: real)
    ensures var r := Cancelled(s, t, reason, now);
      && r.words == s.words && r.stage == s.stage && r.marks == s.marks
      && forall u: Target :: r.cancellation.Flag(u) <==> u == t || s.cancellation.Flag(u)
  {
  }

  lemma StartedFields(s: Session, i: Input)
    requires i.call.StartListening?
    ensures var r := Effect(s, i);
      && r.words == NO_WORDS && r.stage == Stage(Listening, WaitingForAudio, false, "")
      && r.cancellation == NOTHING_CANCELLED && r.marks == NO_MARKS.(started := Some(i.now), phaseStarted := Some(i.now))
  {
  }

  lemma PlainFields(s: Session, i: Input)
    requires Plain(i.call)
    ensures var r := Effect(s, i);
      && r.words == WordsAfter(s.words, i.call) && r.stage == StageAfter(s.stage, i.call)
      && r.cancellation == s.cancellation && r.marks == MarksAfter(s.marks, i.call, i.now)
  {
  }

  /** The texts after a call. */
  predicate WordsNext(w: Words, i: Input, r: Words) {
    if i.call.StartListening? then r == NO_WORDS else if Plain(i.call) then r == WordsAfter(w, i.call) else r == w
  }

  lemma FinalTells(first: string, taken: seq<Input>, w: Words, i: Input, r: Words)
    requires w.transcriptFinal == FinalText(taken, first) && WordsNext(w, i, r)
    ensures r.transcriptFinal == FinalText(taken + [i], first)
  {
    assert (taken + [i])[..|taken|] == taken;
  }

  lemma PartialTells(first: string, taken: seq<Input>, w: Words, i: Input, r: Words)
    requires w.transcriptPartial == PartialText(taken, first) && WordsNext(w, i, r)
    ensures r.transcriptPartial == PartialText(taken + [i], first)
  {
    assert (taken + [i])[..|taken|] == taken;
  }

  lemma FeedbackTells(first: string, taken: seq<Input>, w: Words, i: Input, r: Words)
    requires w.microfeedback == FeedbackText(taken, first) && WordsNext(w, i, r)
    ensures r.microfeedback == FeedbackText(taken + [i], first)
  {
    assert (taken + [i])[..|taken|] == taken;
  }

  lemma ReplyTells(first: string, taken: seq<Input>, w: Words, i: Input, r: Words)
    requires w.replyText == ReplyText(taken, first) && WordsNext(w, i, r)
    ensures r.replyText == ReplyText(taken + [i], first)
  {
    assert (taken + [i])[..|taken|] == taken;
  }

  lemma TextsTell(first: Words, taken: seq<Input>, w: Words, i: Input, r: Words)
    requires TextsTold(first, taken, w) && WordsNext(w, i, r)
    ensures TextsTold(first, taken + [i], r)
  {
    FinalTells(first.transcriptFinal, taken, w, i, r);
    PartialTells(first.transcriptPartial, taken, w, i, r);
    FeedbackTells(first.microfeedback, taken, w, i, r);
    ReplyTells(first.replyText, taken, w, i, r);
  }

  /** The stage after a call. */
  predicate StageNext(g: Stage, i: Input, r: Stage) {
    match i.call
    case StartListening(_) => r == Stage(Listening, WaitingForAudio, false, "")
    case Interrupt(reason) => r == Stage(BargeIn, InterruptedStatus, true, reason)
    case MarkCancelled(_, _) => r == g
    case _ => r == StageAfter(g, i.call)
  }

  lemma PhaseTells(first: Phase, taken: seq<Input>, g: Stage, i: Input, r: Stage)
    requires g.phase == PhaseLeft(taken, first) && StageNext(g, i, r)
    ensures r.phase == PhaseLeft(taken + [i], first)
  {
    assert (taken + [i])[..|taken|] == taken;
  }

  lemma StatusTells(first: Status, taken: seq<Input>, g: Stage, i: Input, r: Stage)
    requires g.status == StatusLeft(taken, first) && StageNext(g, i, r)
    ensures r.status == StatusLeft(taken + [i], first)
  {
    assert (taken + [i])[..|taken|] == taken;
  }

  lemma InterruptionTells(first: Option<string>, taken: seq<Input>, g: Stage, i: Input, r: Stage)
    requires ReasonOf(g) == Interruption(taken, first) && StageNext(g, i, r)
    ensures ReasonOf(r) == Interruption(taken + [i], first)
  {
    assert (taken + [i])[..|taken|] == taken;
  }

  lemma StageTells(first: Stage, taken: seq<Input>, g: Stage, i: Input, r: Stage)
    requires StageTold(first, taken, g) && StageNext(g, i, r)
    ensures StageTold(first, taken + [i], r)
  {
    PhaseTells(first.phase, taken, g, i, r);
    StatusTells(first.status, taken, g, i, r);
    InterruptionTells(ReasonOf(first), taken, g, i, r);
  }

  /** The flag of one target after a call. */
  predicate FlagAfter(before: bool, c: Call, t: Target, after: bool) {
    match c
    case StartListening(_) => !after
    case Interrupt(_) => after
    case MarkCancelled(target, _) => after <==> target == t || before
    case _ => after <==> before
  }

  lemma FlagTells(first: bool, taken: seq<Input>, t: Target, before: bool, i: Input, after: bool)
    requires before == CancelledSince(taken, t, first) && FlagAfter(before, i.call, t, after)
    ensures after == CancelledSince(taken + [i], t, first)
  {
    assert (taken + [i])[..|taken|] == taken;
  }

  lemma FirstTells(f: First, first: Option<real>, taken: seq<Input>, before: Option<real>, i: Input, after: Option<real>)
    requires before == FirstTime(taken, f, first)
    requires after == if i.call.StartListening? then None else if Starts(i.call, f) && before.None? then Some(i.now) else before
    ensures after == FirstTime(taken + [i], f, first)
  {
    assert (taken + [i])[..|taken|] == taken;
  }

  lemma LatestTells(first: Marks, taken: seq<Input>, m: Marks, i: Input, r: Marks)
    requires LatestTold(first, taken, m)
    requires match i.call
      case StartListening(_) => r == NO_MARKS.(started := Some(i.now), phaseStarted := Some(i.now))
      case Interrupt(_) => r == m.(phaseStarted := Some(i.now))
      case MarkCancelled(_, _) => r == m
      case _ => r == MarksAfter(m, i.call, i.now)
    ensures LatestTold(first, taken + [i], r)
  {
    assert (taken + [i])[..|taken|] == taken;
  }

  lemma FirstsTell(first: Marks, taken: seq<Input>, m: Marks, i: Input, r: Marks)
    requires FirstsTold(first, taken, m)
    requires match i.call
      case StartListening(_) => r == NO_MARKS.(started := Some(i.now), phaseStarted := Some(i.now))
      case Interrupt(_) => r == m.(phaseStarted := Some(i.now))
      case MarkCancelled(_, _) => r == m
      case _ => r == MarksAfter(m, i.call, i.now)
    ensures FirstsTold(first, taken + [i], r)
  {
    FirstTells(FirstAudio, first.firstAudio, taken, m.firstAudio, i, r.firstAudio);
    FirstTells(FirstPartial, first.firstPartial, taken, m.firstPartial, i, r.firstPartial);
    FirstTells(FirstFeedback, first.firstMicrofeedback, taken, m.firstMicrofeedback, i, r.firstMicrofeedback);
    FirstTells(FirstReply, first.firstReply, taken, m.firstReply, i, r.firstReply);
    FirstTells(FirstSpeech, first.firstSpeech, taken, m.firstSpeech, i, r.firstSpeech);
  }

  /** What an accepted call leaves in every group of fields. */
  lemma EffectFields(s: Session, i: Input)
    ensures var r := Effect(s, i);
      match i.call
      case StartListening(_) =>
        && r.words == NO_WORDS && r.stage == Stage(Listening, WaitingForAudio, false, "")
        && r.cancellation == NOTHING_CANCELLED && r.marks == NO_MARKS.(started := Some(i.now), phaseStarted := Some(i.now))
      case Interrupt(reason) =>
        && r.words == s.words && r.stage == Stage(BargeIn, InterruptedStatus, true, reason)
        && r.cancellation.generation && r.cancellation.tts && r.cancellation.actionPlan && r.marks == s.marks.(phaseStarted := Some(i.now))
      case MarkCancelled(t, _) =>
        && r.words == s.words && r.stage == s.stage && r.marks == s.marks
        && forall u: Target :: r.cancellation.Flag(u) <==> u == t || s.cancellation.Flag(u)
      case _ =>
        && r.words == WordsAfter(s.words, i.call) && r.stage == StageAfter(s.stage, i.call)
        && r.cancellation == s.cancellation && r.marks == MarksAfter(s.marks, i.call, i.now)
  {
    if i.call.StartListening? {
      StartedFields(s, i);
    } else if i.call.Interrupt? {
      InterruptedFields(s, i.call.reason, i.now);
    } else if i.call.MarkCancelled? {
      CancelledFields(s, i.call.target, i.call.reason, i.now);
    } else {
      PlainFields(s, i);
    }
  }

  lemma FlagsAfter(s: Session, i: Input)
    ensures var c, r := s.cancellation, Effect(s, i).cancellation;
      FlagAfter(c.generation, i.call, Generation, r.generation) && FlagAfter(c.tts, i.call, Tts, r.tts)
      && FlagAfter(c.actionPlan, i.call, ActionPlan, r.actionPlan)
  {
    EffectFields(s, i);
    var c, r := s.cancellation, Effect(s, i).cancellation;
    assert r.Flag(Generation) == r.generation && r.Flag(Tts) == r.tts && r.Flag(ActionPlan) == r.actionPlan;
    assert c.Flag(Generation) == c.generation && c.Flag(Tts) == c.tts && c.Flag(ActionPlan) == c.actionPlan;
  }

  lemma FlagsTell(first: Cancellation, taken: seq<Input>, s: Session, i: Input)
    requires FlagsTold(first, taken, s.cancellation)
    ensures FlagsTold(first, taken + [i], Effect(s, i).cancellation)
  {
    var c, r := s.cancellation, Effect(s, i).cancellation;
    FlagsAfter(s, i);
    FlagTells(first.generation, taken, Generation, c.generation, i, r.generation);
    FlagTells(first.tts, taken, Tts, c.tts, i, r.tts);
    FlagTells(first.actionPlan, taken, ActionPlan, c.actionPlan, i, r.actionPlan);
  }

  lemma StepTells(first: Session, taken: seq<Input>, s: Session, i: Input)
    requires Told(first, taken, s)
    ensures Told(first, if Step(s, i).outcome.Accepted? then taken + [i] else taken, Step(s, i).session)
  {
    if Step(s, i).outcome.Accepted? {
      var r := Effect(s, i);
      EffectFields(s, i);
      TextsTell(first.words, taken, s.words, i, r.words);
      StageTells(first.stage, taken, s.stage, i, r.stage);
      FlagsTell(first.cancellation, taken, s, i);
      FirstsTell(first.marks, taken, s.marks, i, r.marks);
      LatestTells(first.marks, taken, s.marks, i, r.marks);
    }
  }

  lemma {:induction false} RunTells(first: Session, taken: seq<Input>, s: Session, inputs: seq<Input>)
    requires Told(first, taken, s)
    ensures Told(first, taken + Taken(s, inputs), Run(s, inputs))
    decreases |inputs|
  {
    if inputs == [] {
      assert taken + [] == taken;
    } else {
      var i, r := inputs[0], Step(s, inputs[0]);
      StepTells(first, taken, s, i);
      if r.outcome.Accepted? {
        RunTells(first, taken + [i], r.session, inputs[1..]);
        TakenMore(taken, i, Taken(r.session, inputs[1..]));
      } else {
        RunTells(first, taken, r.session, inputs[1..]);
        assert Taken(s, inputs) == Taken(r.session, inputs[1..]);
      }
    }
  }

  lemma TakenMore(taken: seq<Input>, i: Input, rest: seq<Input>)
    ensures (taken + [i]) + rest == taken + ([i] + rest)
  {
  }

  /** After any run, from any state: transcripts, feedback and reply, phase and status, interruption and cancellation flags
      and all time marks are what the accepted calls say, a start having wiped what came before it. */
  lemma RunTold(s: Session, inputs: seq<Input>)
    ensures Told(s, Taken(s, inputs), Run(s, inputs))
  {
    RunTells(s, [], s, inputs);
    assert [] + Taken(s, inputs) == Taken(s, inputs);
  }

  // ----- the log -----

  /** Phase, status, lane and type of an entry. */
  predicate Heads(e: Event, phase: Phase, status: Status, lane: Lane, eventType: EventType) {
    e.phase == phase && e.status == status && e.lane == lane && e.eventType == eventType
  }

  /** The texts of an entry. */
  predicate Says(e: Event, transcript: string, replyDelta: string, detail: string, payload: Payload) {
    e.transcript == transcript && e.replyDelta == replyDelta && e.detail == detail && e.payload == payload
  }

  /** The lane of a stream event that names none. */
  function OwnLane(p: Phase): Lane {
    if p in {Idle, Listening, PartialAsr} then ListeningLane
    else if p == ThinkingStream then SlowThinkingLane
    else if p == SpeakingStream then SpeakingLane
    else if p == BargeIn then InterruptLane
    else CompleteLane
  }

  /** What an accepted call that does not cancel anything adds to the log. */
  predicate EntryTold(p: Phase, c: Call, e: Event) {
    match c
    case StartListening(_) => Heads(e, Listening, WaitingForAudio, ListeningLane, ListeningStarted) && Says(e, "", "", "", NoPayload)
    case NoteAudio => Heads(e, Listening, AudioStatus, ListeningLane, AudioDetected) && Says(e, "", "", "", NoPayload)
    case UpdatePartial(text) => Heads(e, PartialAsr, PartialTranscript, ListeningLane, AsrPartial) && Says(e, text, "", "", NoPayload)
    case Finalize(text) => Heads(e, ThinkingStream, FinalTranscript, ListeningLane, AsrFinal) && Says(e, text, "", "", NoPayload)
    case UpdateMicrofeedback(text) =>
      Heads(e, p, MicrofeedbackStatus, FastThinkLane, MicrofeedbackGiven) && Says(e, "", "", text, TextPayload(text))
    case AppendReply(delta) => Heads(e, ThinkingStream, ReplyDelta, SlowThinkingLane, AgentThink) && Says(e, "", delta, "", NoPayload)
    case StartSpeaking => Heads(e, SpeakingStream, SpeechStarted, SpeakingLane, TtsStarted) && Says(e, "", "", "", NoPayload)
    case RecordStream(eventType, status, lane, content, detail) =>
      Heads(e, p, GivenStatus(status), if lane.KnownLane? then lane.lane else OwnLane(p), eventType)
      && Says(e, "", "", detail, GivenPayload(content))
    case Complete(status) => Heads(e, Completed, GivenStatus(status), CompleteLane, CompleteNoted) && Says(e, "", "", "", NoPayload)
    case Fail(error) => Heads(e, Failed, ErrorStatus, CompleteLane, ErrorNoted) && Says(e, "", "", error, NoPayload)
    case Interrupt(reason) => Heads(e, BargeIn, InterruptedStatus, InterruptLane, InterruptNoted) && Says(e, "", "", reason, ReasonPayload(reason))
    case MarkCancelled(_, _) => true
  }

  /** What taking a missing cancellation step adds. */
  predicate StepTold(p: Phase, t: Target, reason: string, e: Event) {
    Heads(e, p, StepStatus(t), InterruptLane, StepNoted(t)) && Says(e, "", "", reason, CancelPayload(t, reason))
  }

  /** One entry for an accepted call that cancels nothing, stamped with its time; a fresh start empties the log first. */
  lemma PlainLogs(s: Session, i: Input)
    requires Step(s, i).outcome.Accepted? && !i.call.Interrupt? && !i.call.MarkCancelled?
    ensures var before, after := if i.Fresh() then [] else s.events, Step(s, i).session.events;
      && |after| == |before| + 1 && before <= after
      && after[|before|].at == i.now && EntryTold(s.stage.phase, i.call, after[|before|])
  {
  }

  /** A cancellation step: one entry and one link of the chain, or nothing if it was taken already. */
  lemma CancelLogs(s: Session, t: Target, reason: string, now: real)
    ensures var r := Cancelled(s, t, reason, now);
      if s.cancellation.Flag(t) then r == s else
        && |r.events| == |s.events| + 1 && s.events <= r.events
        && r.events[|s.events|].at == now && StepTold(s.stage.phase, t, reason, r.events[|s.events|])
        && r.cancellation.chain == s.cancellation.chain + [CancelStep(t, reason, now, s.round.id, s.round.token)]
  {
  }

  /** An interruption: its own entry, then the missing steps for generation, speech and plan, in that order. */
  lemma InterruptLogs(s: Session, reason: string, now: real)
    ensures var r := Interrupted(s, reason, now);
      && |r.events| > |s.events| && s.events <= r.events
      && r.events[|s.events|].at == now && EntryTold(s.stage.phase, Call.Interrupt(reason), r.events[|s.events|])
      && s.cancellation.chain <= r.cancellation.chain
      && Targets(r.cancellation.chain[|s.cancellation.chain|..])
         == Missing(s.cancellation, Generation) + Missing(s.cancellation, Tts) + Missing(s.cancellation, ActionPlan)
  {
    var stopped := s.(stage := s.stage.(interrupted := true, interruptReason := reason));
    var s0 := Transitioned(stopped, BargeIn, InterruptedStatus, now, InterruptLane, InterruptNoted, "", "", reason, ReasonPayload(reason));
    var s1 := Cancelled(s0, Generation, reason, now);
    var s2 := Cancelled(s1, Tts, reason, now);
    CancelAdds(s0, Generation, reason, now);
    CancelAdds(s1, Tts, reason, now);
    CancelAdds(s2, ActionPlan, reason, now);
    var n, c0, c1, c2, c3 := |s.cancellation.chain|, s0.cancellation.chain, s1.cancellation.chain, s2.cancellation.chain,
                             Interrupted(s, reason, now).cancellation.chain;
    TargetsMore(c0, c1, c2);
    TargetsMore(c0, c2, c3);
    assert c0[n..] == [];
  }

  lemma CancelAdds(s: Session, t: Target, reason: string, now: real)
    ensures var r := Cancelled(s, t, reason, now);
      && s.events <= r.events && s.cancellation.chain <= r.cancellation.chain
      && Targets(r.cancellation.chain[|s.cancellation.chain|..]) == Missing(s.cancellation, t)
      && forall u: Target :: u != t ==> r.cancellation.Flag(u) == s.cancellation.Flag(u)
  {
    CancelLogs(s, t, reason, now);
  }

  lemma TargetsMore(a: seq<CancelStep>, b: seq<CancelStep>, c: seq<CancelStep>)
    requires a <= b <= c
    ensures Targets(c[|a|..]) == Targets(b[|a|..]) + Targets(c[|b|..])
  {
    assert c[|a|..] == b[|a|..] + c[|b|..];
  }

  function Missing(c: Cancellation, t: Target): seq<Target> {
    if c.Flag(t) then [] else [t]
  }

  function Targets(chain: seq<CancelStep>): seq<Target> {
    seq(|chain|, k requires 0 <= k < |chain| => chain[k].target)
  }

  // ----- latencies -----

  /** The time from one mark to another in milliseconds, nothing less than zero; missing if either mark is. */
  predicate Between(latency: Option<real>, from: Option<real>, to: Option<real>) {
    if from.None? || to.None? then latency == None
    else latency == Some(if to.value <= from.value then 0.0 else (to.value - from.value) * 1000.0)
  }

  /** What each latency of the report measures, from which mark to which. */
  lemma LatenciesMeasure(m: Marks)
    ensures var l := LatencyMs(m);
      && Between(l.audioDetect, m.started, m.firstAudio) && Between(l.firstPartialAsr, m.started, m.firstPartial)
      && Between(l.firstMicrofeedback, m.started, m.firstMicrofeedback) && Between(l.finalAsr, m.started, m.finalAsr)
      && Between(l.firstReplyToken, m.started, m.firstReply) && Between(l.firstSpeech, m.started, m.firstSpeech)
      && Between(l.total, m.started, m.completed)
      && (m.started.Some? ==>
            Between(l.finalAsrToFirstReply, m.finalAsr, m.firstReply) && Between(l.firstReplyToFirstSpeech, m.firstReply, m.firstSpeech)
            && Between(l.firstSpeechToComplete, m.firstSpeech, m.completed))
      && (m.started.None? ==>
            l.finalAsrToFirstReply == l.firstReplyToFirstSpeech == l.firstSpeechToComplete == None)
  {
  }

  // ----- identifiers -----

  lemma BaseNamed(names: Names)
    ensures var base := IdentifierBase("", names);
      && (!Blank(names.sessionId) ==> base == Strip(names.sessionId))
      && (names.sessionId == "" && !Blank(names.actorId) ==> base == Strip(names.actorId))
      && (names.sessionId == "" && names.actorId == "" ==> base == "voice")
  {
    StripEmptyIff(names.sessionId);
    StripEmptyIff(names.actorId);
    StripTrims("voice");
  }

  lemma RoundNamed(base: string)
    ensures (base + "-") + "round" == base + "-round"
  {
  }

  lemma GeneratedFirst(names: Names)
    ensures var first := NewSession(names, None, None).round;
      first.id == IdentifierBase("", names) + "-round" && first.token == first.id + "-token" && first.sequence == 1
  {
    RoundProtocol.NewRoundIsGenerated(names, None, None, 1);
    RoundNamed(IdentifierBase("", names));
  }

  /** Where generated identifiers come from: the session id, else the actor id, else "voice", trimmed. */
  lemma IdentifiersNamed(names: Names)
    ensures var first := NewSession(names, None, None).round;
      && (!Blank(names.sessionId) ==> first.id == Strip(names.sessionId) + "-round")
      && (names.sessionId == "" && !Blank(names.actorId) ==> first.id == Strip(names.actorId) + "-round")
      && (names.sessionId == "" && names.actorId == "" ==> first.id == "voice" + "-round")
      && first.token == first.id + "-token" && first.sequence == 1
  {
    GeneratedFirst(names);
    BaseNamed(names);
  }

  // ----- names -----

  /** The lanes by name. */
  lemma LanesNamed()
    ensures LaneNamed("") == LaneOfPhase
    ensures LaneNamed("listening") == KnownLane(ListeningLane) && LaneNamed("fast_think") == KnownLane(FastThinkLane)
    ensures LaneNamed("slow_thinking") == KnownLane(SlowThinkingLane) && LaneNamed("speaking") == KnownLane(SpeakingLane)
    ensures LaneNamed("interrupt") == KnownLane(InterruptLane) && LaneNamed("complete") == KnownLane(CompleteLane)
    ensures forall name :: (LaneNamed(name) == NotALane
                            <==> name !in {"", "listening", "fast_think", "slow_thinking", "speaking", "interrupt", "complete"})
  {
  }

  /** The event types of the listening part of a round by name. */
  lemma ListeningTypesNamed()
    ensures EventTypeNamed("listening_started") == ListeningStarted && EventTypeNamed("audio_detected") == AudioDetected
    ensures EventTypeNamed("asr_partial") == AsrPartial && EventTypeNamed("asr_final") == AsrFinal
    ensures EventTypeNamed("microfeedback") == MicrofeedbackGiven
  {
  }

  lemma SpeakingTypesNamed()
    ensures EventTypeNamed("agent_think") == AgentThink && EventTypeNamed("tts_started") == TtsStarted
    ensures EventTypeNamed("tts_chunk") == TtsChunk
  {
  }

  lemma EndTypesNamed()
    ensures EventTypeNamed("complete") == CompleteNoted && EventTypeNamed("error") == ErrorNoted
    ensures EventTypeNamed("voice_heartbeat") == VoiceHeartbeat
  {
  }

  lemma InterruptTypesNamed()
    ensures EventTypeNamed("interrupt") == InterruptNoted && EventTypeNamed("generation_cancelled") == StepNoted(Generation)
  {
  }

  lemma StepTypesNamed()
    ensures EventTypeNamed("tts_stopped") == StepNoted(Tts) && EventTypeNamed("action_plan_cancelled") == StepNoted(ActionPlan)
  {
  }

  /** A stream event without a type of its own goes by its status. */
  lemma TypeOrStatus(eventType: string, status: string)
    ensures StreamEventType(eventType, status) == if eventType != "" then EventTypeNamed(eventType) else EventTypeNamed(status)
  {
  }
}
