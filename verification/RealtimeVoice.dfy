/** One realtime voice turn: `eibrain/body/realtime_voice.py`.

    `Session` is the session's state as a value and `Step` is what one call does to it, rejection included.
    The class `RealtimeVoiceSession` at the end updates its fields in place and is proved against `Step`;
    the properties of whole runs are in the module `RoundProtocol`. */
module RealtimeVoice {
  import opened Basics
  import opened Text

  datatype Phase = Idle | Listening | PartialAsr | ThinkingStream | SpeakingStream | BargeIn | Completed | Failed

  /** `VOICE_LANES`. */
  datatype Lane = ListeningLane | FastThinkLane | SlowThinkingLane | SpeakingLane | InterruptLane | CompleteLane

  predicate Terminal(p: Phase) {
    p in {BargeIn, Completed, Failed}
  }

  function LaneForPhase(p: Phase): Lane {
    match p
    case Idle | Listening | PartialAsr => ListeningLane
    case ThinkingStream => SlowThinkingLane
    case SpeakingStream => SpeakingLane
    case BargeIn => InterruptLane
    case Completed | Failed => CompleteLane
  }

  /** A lane as a caller names it. */
  datatype LaneName = LaneOfPhase | KnownLane(lane: Lane) | NotALane

  function LaneNamed(name: string): LaneName {
    if name == "" then LaneOfPhase
    else if name == "listening" then KnownLane(ListeningLane)
    else if name == "fast_think" then KnownLane(FastThinkLane)
    else if name == "slow_thinking" then KnownLane(SlowThinkingLane)
    else if name == "speaking" then KnownLane(SpeakingLane)
    else if name == "interrupt" then KnownLane(InterruptLane)
    else if name == "complete" then KnownLane(CompleteLane)
    else NotALane
  }

  datatype Target = Generation | Tts | ActionPlan

  /** The event types of the log; `OtherType` is any name the session itself never logs. */
  datatype EventType =
    | ListeningStarted | AudioDetected | AsrPartial | AsrFinal | MicrofeedbackGiven | AgentThink | TtsStarted
    | InterruptNoted | StepNoted(target: Target) | CompleteNoted | ErrorNoted
    | TtsChunk | VoiceHeartbeat | OtherType(name: string)

  function EventTypeNamed(name: string): EventType {
    if name == "listening_started" then ListeningStarted
    else if name == "audio_detected" then AudioDetected
    else if name == "asr_partial" then AsrPartial
    else if name == "asr_final" then AsrFinal
    else if name == "microfeedback" then MicrofeedbackGiven
    else if name == "agent_think" then AgentThink
    else if name == "tts_started" then TtsStarted
    else if name == "interrupt" then InterruptNoted
    else if name == "generation_cancelled" then StepNoted(Generation)
    else if name == "tts_stopped" then StepNoted(Tts)
    else if name == "action_plan_cancelled" then StepNoted(ActionPlan)
    else if name == "complete" then CompleteNoted
    else if name == "error" then ErrorNoted
    else if name == "tts_chunk" then TtsChunk
    else if name == "voice_heartbeat" then VoiceHeartbeat
    else OtherType(name)
  }

  /** `event_type or status`. */
  function StreamEventType(eventType: string, status: string): EventType {
    EventTypeNamed(if eventType == "" then status else eventType)
  }

  datatype Status =
    | IdleStatus | WaitingForAudio | AudioStatus | PartialTranscript | FinalTranscript | MicrofeedbackStatus
    | ReplyDelta | SpeechStarted | InterruptedStatus | StepStatus(target: Target) | ErrorStatus | GivenStatus(text: string)

  datatype Payload =
    | NoPayload | TextPayload(text: string) | ReasonPayload(reason: string)
    | CancelPayload(target: Target, reason: string) | GivenPayload(content: map<string, string>)

  /** A log entry; of `transcript`, `replyDelta` and `detail` the unused ones are empty. */
  datatype Event = Event(
    phase: Phase, status: Status, transcript: string, replyDelta: string, detail: string, at: real,
    lane: Lane, eventType: EventType, payload: Payload, roundId: string, token: string)

  datatype CancelStep = CancelStep(target: Target, reason: string, at: real, roundId: string, token: string)

  /** The time marks of a round; `None` until the mark is set. */
  datatype Marks = Marks(
    started: Option<real>, phaseStarted: Option<real>, firstAudio: Option<real>, firstPartial: Option<real>,
    firstMicrofeedback: Option<real>, finalAsr: Option<real>, firstReply: Option<real>,
    firstSpeech: Option<real>, completed: Option<real>)

  const NO_MARKS := Marks(None, None, None, None, None, None, None, None, None)

  datatype Names = Names(sessionId: string, actorId: string)
  datatype Round = Round(id: string, token: string, sequence: nat)
  datatype Stage = Stage(phase: Phase, status: Status, interrupted: bool, interruptReason: string)
  datatype Words = Words(transcriptPartial: string, transcriptFinal: string, replyText: string, microfeedback: string)
  datatype Cancellation = Cancellation(generation: bool, tts: bool, actionPlan: bool, chain: seq<CancelStep>) {
    predicate Flag(t: Target) {
      match t
      case Generation => generation
      case Tts => tts
      case ActionPlan => actionPlan
    }

    function Marked(t: Target, step: CancelStep): Cancellation {
      match t
      case Generation => this.(generation := true, chain := chain + [step])
      case Tts => this.(tts := true, chain := chain + [step])
      case ActionPlan => this.(actionPlan := true, chain := chain + [step])
    }
  }

  const NO_WORDS := Words("", "", "", "")
  const NOTHING_CANCELLED := Cancellation(false, false, false, [])

  /** The fields of the session, in groups that change together. */
  datatype Session = Session(
    names: Names, round: Round, stage: Stage, words: Words, marks: Marks, cancellation: Cancellation, events: seq<Event>)

  // ----- identifiers -----

  /** The text identifiers are generated from: seed, else session id, else actor id, else "voice". */
  function IdentifierBase(seed: string, names: Names): string {
    var text := if seed != "" then seed else if names.sessionId != "" then names.sessionId
                else if names.actorId != "" then names.actorId else "voice";
    if Strip(text) != "" then Strip(text) else "voice"
  }

  function StableIdentifier(value: Option<string>, suffix: string, seed: string, names: Names): string {
    var text := Strip(value.GetOr(""));
    if text != "" then text else IdentifierBase(seed, names) + "-" + suffix
  }

  /** A round of the given number: identifiers supplied by the caller are kept, missing ones are generated. */
  function NewRound(names: Names, roundId: Option<string>, token: Option<string>, suffix: string, sequence: nat): Round {
    var id := StableIdentifier(roundId, suffix, "", names);
    Round(id, StableIdentifier(token, "token", id, names), sequence)
  }

  function NewSession(names: Names, roundId: Option<string>, token: Option<string>): Session {
    Session(names, NewRound(names, roundId, token, "round", 1), Stage(Idle, IdleStatus, false, ""),
            NO_WORDS, NO_MARKS, NOTHING_CANCELLED, [])
  }

  function NextRound(names: Names, last: Round, roundId: Option<string>, token: Option<string>): Round {
    NewRound(names, roundId, token, "round-" + Decimal(last.sequence + 1), last.sequence + 1)
  }

  // ----- the log -----

  /** An entry stamped with the identifiers of the round. */
  function Entry(round: Round, phase: Phase, status: Status, at: real, lane: Lane, eventType: EventType,
                 transcript: string := "", replyDelta: string := "", detail: string := "", payload: Payload := NoPayload): Event
  {
    Event(phase, status, transcript, replyDelta, detail, at, lane, eventType, payload, round.id, round.token)
  }

  function Logged(s: Session, e: Event): Session {
    s.(events := s.events + [e])
  }

  /** A move to a phase, with its log entry. */
  function Transitioned(s: Session, phase: Phase, status: Status, at: real, lane: Lane, eventType: EventType,
                        transcript: string := "", replyDelta: string := "", detail: string := "", payload: Payload := NoPayload): Session
  {
    var moved := s.(stage := s.stage.(phase := phase, status := status), marks := s.marks.(phaseStarted := Some(at)));
    Logged(moved, Entry(s.round, phase, status, at, lane, eventType, transcript, replyDelta, detail, payload))
  }

  function Cancelled(s: Session, t: Target, reason: string, at: real): Session {
    if s.cancellation.Flag(t) then s else
      Logged(s.(cancellation := s.cancellation.Marked(t, CancelStep(t, reason, at, s.round.id, s.round.token))),
             Entry(s.round, s.stage.phase, StepStatus(t), at, InterruptLane, StepNoted(t), "", "", reason, CancelPayload(t, reason)))
  }

  // ----- calls -----

  /** The calls on a session. Texts are already stripped, event types and lanes already looked up. */
  datatype Call =
    | StartListening(freshRound: bool)
    | NoteAudio
    | UpdatePartial(text: string)
    | Finalize(text: string)
    | UpdateMicrofeedback(text: string)
    | AppendReply(delta: string)
    | StartSpeaking
    | Interrupt(reason: string)
    | MarkCancelled(target: Target, reason: string)
    | RecordStream(eventType: EventType, status: string, lane: LaneName, content: map<string, string>, detail: string)
    | Complete(status: string)
    | Fail(error: string)

  /** A call with the identifiers it carries and the clock reading it is made at. */
  datatype Input = Input(call: Call, roundId: Option<string>, token: Option<string>, now: real) {
    predicate Identified() {
      roundId.Some? || token.Some?
    }

    predicate Fresh() {
      call.StartListening? && call.freshRound
    }
  }

  /** How a call ends: it takes effect, or it raises before touching anything. */
  datatype Outcome = Accepted | Stale | Mismatched | UnknownLane

  datatype StepResult = StepResult(session: Session, outcome: Outcome)

  predicate Current(s: Session, roundId: string, token: string) {
    s.round.id == roundId && s.round.token == token && !s.stage.interrupted && !Terminal(s.stage.phase)
  }

  predicate SuppliedStale(s: Session, roundId: Option<string>, token: Option<string>) {
    (roundId.Some? || token.Some?) && !Current(s, roundId.GetOr(s.round.id), token.GetOr(s.round.token))
  }

  predicate SuppliedMismatch(s: Session, roundId: Option<string>, token: Option<string>) {
    (roundId.Some? && roundId.value != s.round.id) || (token.Some? && token.value != s.round.token)
  }

  function Verdict(s: Session, i: Input): Outcome {
    if i.Fresh() then Accepted
    else if i.call.MarkCancelled? then
      if SuppliedMismatch(s, i.roundId, i.token) then Mismatched else Accepted
    else if SuppliedStale(s, i.roundId, i.token) then Stale
    else if i.call.RecordStream? && i.call.lane.NotALane? then UnknownLane
    else Accepted
  }

  function FirstMark(mark: Option<real>, now: real): Option<real> {
    if mark.None? then Some(now) else mark
  }

  /** Everything of a round that `start_listening` forgets. */
  function Cleared(s: Session, now: real): Session {
    s.(words := NO_WORDS, stage := s.stage.(interrupted := false, interruptReason := ""),
       cancellation := NOTHING_CANCELLED, marks := NO_MARKS.(started := Some(now)))
  }

  function Listened(s: Session, now: real): Session {
    Transitioned(Cleared(s, now), Listening, WaitingForAudio, now, ListeningLane, ListeningStarted)
  }

  function Interrupted(s: Session, reason: string, now: real): Session {
    var stopped := s.(stage := s.stage.(interrupted := true, interruptReason := reason));
    var noted := Transitioned(stopped, BargeIn, InterruptedStatus, now, InterruptLane, InterruptNoted, "", "", reason, ReasonPayload(reason));
    Cancelled(Cancelled(Cancelled(noted, Generation, reason, now), Tts, reason, now), ActionPlan, reason, now)
  }

  // ----- the calls that log exactly one entry -----

  predicate Plain(c: Call) {
    !c.StartListening? && !c.Interrupt? && !c.MarkCancelled?
  }

  /** The calls that move the session to another phase. */
  predicate Moves(c: Call) {
    c.UpdatePartial? || c.Finalize? || c.AppendReply? || c.StartSpeaking? || c.Complete? || c.Fail?
  }

  function PhaseAfter(p: Phase, c: Call): Phase {
    match c
    case UpdatePartial(_) => PartialAsr
    case Finalize(_) | AppendReply(_) => ThinkingStream
    case StartSpeaking => SpeakingStream
    case Complete(_) => Completed
    case Fail(_) => Failed
    case _ => p
  }

  function StatusOf(c: Call): Status
    requires Plain(c)
  {
    match c
    case NoteAudio => AudioStatus
    case UpdatePartial(_) => PartialTranscript
    case Finalize(_) => FinalTranscript
    case UpdateMicrofeedback(_) => MicrofeedbackStatus
    case AppendReply(_) => ReplyDelta
    case StartSpeaking => SpeechStarted
    case RecordStream(_, status, _, _, _) => GivenStatus(status)
    case Complete(status) => GivenStatus(status)
    case Fail(_) => ErrorStatus
  }

  function EventTypeOf(c: Call): EventType
    requires Plain(c)
  {
    match c
    case NoteAudio => AudioDetected
    case UpdatePartial(_) => AsrPartial
    case Finalize(_) => AsrFinal
    case UpdateMicrofeedback(_) => MicrofeedbackGiven
    case AppendReply(_) => AgentThink
    case StartSpeaking => TtsStarted
    case RecordStream(eventType, _, _, _, _) => eventType
    case Complete(_) => CompleteNoted
    case Fail(_) => ErrorNoted
  }

  function LaneOf(c: Call, p: Phase): Lane
    requires Plain(c)
  {
    match c
    case NoteAudio | UpdatePartial(_) | Finalize(_) => ListeningLane
    case UpdateMicrofeedback(_) => FastThinkLane
    case AppendReply(_) => SlowThinkingLane
    case StartSpeaking => SpeakingLane
    case RecordStream(_, _, lane, _, _) => if lane.KnownLane? then lane.lane else LaneForPhase(p)
    case Complete(_) | Fail(_) => CompleteLane
  }

  /** The entry logged; `note_audio` writes the phase "listening" whatever the session's own phase is. */
  function EntryOf(s: Session, c: Call, now: real): Event
    requires Plain(c)
  {
    Entry(s.round, if c.NoteAudio? then Listening else PhaseAfter(s.stage.phase, c), StatusOf(c), now,
          LaneOf(c, s.stage.phase), EventTypeOf(c),
          if c.UpdatePartial? || c.Finalize? then c.text else "",
          if c.AppendReply? then c.delta else "",
          if c.UpdateMicrofeedback? then c.text else if c.RecordStream? then c.detail else if c.Fail? then c.error else "",
          if c.UpdateMicrofeedback? then TextPayload(c.text) else if c.RecordStream? then GivenPayload(c.content) else NoPayload)
  }

  function StageAfter(g: Stage, c: Call): Stage
    requires Plain(c)
  {
    if Moves(c) then g.(phase := PhaseAfter(g.phase, c), status := StatusOf(c)) else g
  }

  function WordsAfter(w: Words, c: Call): Words {
    match c
    case UpdatePartial(text) => w.(transcriptPartial := text)
    case Finalize(text) => w.(transcriptFinal := text)
    case UpdateMicrofeedback(text) => w.(microfeedback := text)
    case AppendReply(delta) => w.(replyText := w.replyText + delta)
    case _ => w
  }

  /** Most marks keep the first time; the final transcript and the completion overwrite theirs. */
  function MarksAfter(m: Marks, c: Call, now: real): Marks {
    var moved := if Moves(c) then m.(phaseStarted := Some(now)) else m;
    match c
    case NoteAudio => moved.(firstAudio := FirstMark(m.firstAudio, now))
    case UpdatePartial(_) => moved.(firstPartial := FirstMark(m.firstPartial, now))
    case Finalize(_) => moved.(finalAsr := Some(now))
    case UpdateMicrofeedback(_) => moved.(firstMicrofeedback := FirstMark(m.firstMicrofeedback, now))
    case AppendReply(_) => moved.(firstReply := FirstMark(m.firstReply, now))
    case StartSpeaking => moved.(firstSpeech := FirstMark(m.firstSpeech, now))
    case Complete(_) | Fail(_) => moved.(completed := Some(now))
    case _ => moved
  }

  function PlainEffect(s: Session, c: Call, now: real): Session
    requires Plain(c)
  {
    Session(s.names, s.round, StageAfter(s.stage, c), WordsAfter(s.words, c), MarksAfter(s.marks, c, now),
            s.cancellation, s.events + [EntryOf(s, c, now)])
  }

  // ----- steps and runs -----

  /** What an accepted call does. */
  function Effect(s: Session, i: Input): Session {
    match i.call
    case StartListening(freshRound) =>
      Listened(if freshRound then s.(round := NextRound(s.names, s.round, i.roundId, i.token), events := []) else s, i.now)
    case Interrupt(reason) => Interrupted(s, reason, i.now)
    case MarkCancelled(target, reason) => Cancelled(s, target, reason, i.now)
    case _ => PlainEffect(s, i.call, i.now)
  }

  function Step(s: Session, i: Input): StepResult {
    var verdict := Verdict(s, i);
    StepResult(if verdict.Accepted? then Effect(s, i) else s, verdict)
  }

  function Run(s: Session, inputs: seq<Input>): Session
    decreases |inputs|
  {
    if inputs == [] then s else Run(Step(s, inputs[0]).session, inputs[1..])
  }

  lemma RunFrom(s: Session, first: Input, inputs: seq<Input>)
    ensures Run(s, [first] + inputs) == Run(Step(s, first).session, inputs)
  {
    assert ([first] + inputs)[1..] == inputs;
  }

  // ----- latencies -----

  /** The latency report; a key the report leaves out is `None`. */
  datatype Latencies = Latencies(
    audioDetect: Option<real>, firstPartialAsr: Option<real>, firstMicrofeedback: Option<real>, finalAsr: Option<real>,
    firstReplyToken: Option<real>, firstSpeech: Option<real>, total: Option<real>,
    finalAsrToFirstReply: Option<real>, firstReplyToFirstSpeech: Option<real>, firstSpeechToComplete: Option<real>)

  /** Elapsed milliseconds between two marks, without the rounding to two digits; never negative. */
  function ElapsedMs(start: Option<real>, end: Option<real>): Option<real> {
    if start.Some? && end.Some? then Some(MaxReal(0.0, end.value - start.value) * 1000.0) else None
  }

  /** `latency_ms`: nothing before the round has started. */
  function LatencyMs(m: Marks): Latencies {
    if m.started.None? then Latencies(None, None, None, None, None, None, None, None, None, None) else
      Latencies(ElapsedMs(m.started, m.firstAudio), ElapsedMs(m.started, m.firstPartial), ElapsedMs(m.started, m.firstMicrofeedback),
                ElapsedMs(m.started, m.finalAsr), ElapsedMs(m.started, m.firstReply), ElapsedMs(m.started, m.firstSpeech),
                ElapsedMs(m.started, m.completed), ElapsedMs(m.finalAsr, m.firstReply), ElapsedMs(m.firstReply, m.firstSpeech),
                ElapsedMs(m.firstSpeech, m.completed))
  }

  // ----- the session object -----

  class RealtimeVoiceSession {
    const names: Names
    var round: Round
    var stage: Stage
    var words: Words
    var marks: Marks
    var cancellation: Cancellation
    var events: seq<Event>

    ghost function View(): Session
      reads this
    {
      Session(names, round, stage, words, marks, cancellation, events)
    }

    constructor (names: Names, roundId: Option<string> := None, token: Option<string> := None)
      ensures View() == NewSession(names, roundId, token)
    {
      this.names := names;
      round := NewRound(names, roundId, token, "round", 1);
      stage := Stage(Idle, IdleStatus, false, "");
      words, marks, cancellation, events := NO_WORDS, NO_MARKS, NOTHING_CANCELLED, [];
    }

    method RotateRound(roundId: Option<string>, token: Option<string>)
      modifies this`round
      ensures round == NextRound(names, old(round), roundId, token)
    {
      var sequence := round.sequence + 1;
      var id := StableIdentifier(roundId, "round-" + Decimal(sequence), "", names);
      round := Round(id, StableIdentifier(token, "token", id, names), sequence);
    }

    method Record(phase: Phase, status: Status, at: real, lane: Lane, eventType: EventType,
                  transcript: string := "", replyDelta: string := "", detail: string := "", payload: Payload := NoPayload)
      modifies this`events
      ensures View() == Logged(old(View()), Entry(round, phase, status, at, lane, eventType, transcript, replyDelta, detail, payload))
    {
      events := events + [Event(phase, status, transcript, replyDelta, detail, at, lane, eventType, payload, round.id, round.token)];
    }

    method Transition(phase: Phase, status: Status, at: real, lane: Lane, eventType: EventType,
                      transcript: string := "", replyDelta: string := "", detail: string := "", payload: Payload := NoPayload)
      modifies this`stage, this`marks, this`events
      ensures View() == Transitioned(old(View()), phase, status, at, lane, eventType, transcript, replyDelta, detail, payload)
    {
      stage := stage.(phase := phase, status := status);
      marks := marks.(phaseStarted := Some(at));
      Record(phase, status, at, lane, eventType, transcript, replyDelta, detail, payload);
    }

    method MarkCancellationStep(target: Target, reason: string, at: real)
      modifies this`cancellation, this`events
      ensures View() == Cancelled(old(View()), target, reason, at)
    {
      if cancellation.Flag(target) {
        return;
      }
      cancellation := cancellation.Marked(target, CancelStep(target, reason, at, round.id, round.token));
      Record(stage.phase, StepStatus(target), at, InterruptLane, StepNoted(target), "", "", reason, CancelPayload(target, reason));
    }

    predicate IsCurrent(roundId: string, token: string)
      reads this
      ensures IsCurrent(roundId, token) == Current(View(), roundId, token)
    {
      round.id == roundId && round.token == token && !stage.interrupted && stage.phase !in {BargeIn, Completed, Failed}
    }

    /** `_reject_if_supplied_stale`: a call is refused for an identifier of another round, or for carrying any once the
        round is over; a call that carries none never is. */
    predicate RejectsSupplied(roundId: Option<string>, token: Option<string>)
      reads this
      ensures RejectsSupplied(roundId, token)
         <==> || (roundId.Some? && roundId.value != round.id) || (token.Some? && token.value != round.token)
              || ((roundId.Some? || token.Some?) && (stage.interrupted || Terminal(stage.phase)))
      ensures RejectsSupplied(roundId, token) == SuppliedStale(View(), roundId, token)
    {
      (roundId.Some? || token.Some?) && !IsCurrent(roundId.GetOr(round.id), token.GetOr(round.token))
    }

    method StartListening(now: real, roundId: Option<string>, token: Option<string>, freshRound: bool) returns (outcome: Outcome)
      modifies this
      ensures StepResult(View(), outcome) == Step(old(View()), Input(Call.StartListening(freshRound), roundId, token, now))
    {
      if freshRound {
        RotateRound(roundId, token);
      } else if RejectsSupplied(roundId, token) {
        return Stale;
      }
      marks := NO_MARKS.(started := Some(now));
      words := NO_WORDS;
      stage := stage.(interrupted := false, interruptReason := "");
      cancellation := NOTHING_CANCELLED;
      if freshRound {
        events := [];
      }
      Transition(Listening, WaitingForAudio, now, ListeningLane, ListeningStarted);
      return Accepted;
    }

    method NoteAudio(now: real, roundId: Option<string>, token: Option<string>) returns (outcome: Outcome)
      modifies this
      ensures StepResult(View(), outcome) == Step(old(View()), Input(Call.NoteAudio, roundId, token, now))
    {
      if RejectsSupplied(roundId, token) { return Stale; }
      if marks.firstAudio.None? {
        marks := marks.(firstAudio := Some(now));
      }
      Record(Listening, AudioStatus, now, ListeningLane, AudioDetected);
      return Accepted;
    }

    method UpdatePartialTranscript(text: string, now: real, roundId: Option<string>, token: Option<string>) returns (outcome: Outcome)
      modifies this
      ensures StepResult(View(), outcome) == Step(old(View()), Input(UpdatePartial(Strip(text)), roundId, token, now))
    {
      if RejectsSupplied(roundId, token) { return Stale; }
      if marks.firstPartial.None? {
        marks := marks.(firstPartial := Some(now));
      }
      words := words.(transcriptPartial := Strip(text));
      Transition(PartialAsr, PartialTranscript, now, ListeningLane, AsrPartial, words.transcriptPartial);
      return Accepted;
    }

    method FinalizeTranscript(text: string, now: real, roundId: Option<string>, token: Option<string>) returns (outcome: Outcome)
      modifies this
      ensures StepResult(View(), outcome) == Step(old(View()), Input(Finalize(Strip(text)), roundId, token, now))
    {
      if RejectsSupplied(roundId, token) { return Stale; }
      marks := marks.(finalAsr := Some(now));
      words := words.(transcriptFinal := Strip(text));
      Transition(ThinkingStream, FinalTranscript, now, ListeningLane, AsrFinal, words.transcriptFinal);
      return Accepted;
    }

    method UpdateMicrofeedback(text: string, now: real, roundId: Option<string>, token: Option<string>) returns (outcome: Outcome)
      modifies this
      ensures StepResult(View(), outcome) == Step(old(View()), Input(Call.UpdateMicrofeedback(Strip(text)), roundId, token, now))
    {
      if RejectsSupplied(roundId, token) { return Stale; }
      if marks.firstMicrofeedback.None? {
        marks := marks.(firstMicrofeedback := Some(now));
      }
      words := words.(microfeedback := Strip(text));
      Record(stage.phase, MicrofeedbackStatus, now, FastThinkLane, MicrofeedbackGiven, "", "", words.microfeedback, TextPayload(words.microfeedback));
      return Accepted;
    }

    method AppendReplyDelta(delta: string, now: real, roundId: Option<string>, token: Option<string>) returns (outcome: Outcome)
      modifies this
      ensures StepResult(View(), outcome) == Step(old(View()), Input(AppendReply(delta), roundId, token, now))
    {
      if RejectsSupplied(roundId, token) { return Stale; }
      if marks.firstReply.None? {
        marks := marks.(firstReply := Some(now));
      }
      words := words.(replyText := words.replyText + delta);
      Transition(ThinkingStream, ReplyDelta, now, SlowThinkingLane, AgentThink, "", delta);
      return Accepted;
    }

    method StartSpeaking(now: real, roundId: Option<string>, token: Option<string>) returns (outcome: Outcome)
      modifies this
      ensures StepResult(View(), outcome) == Step(old(View()), Input(Call.StartSpeaking, roundId, token, now))
    {
      if RejectsSupplied(roundId, token) { return Stale; }
      if marks.firstSpeech.None? {
        marks := marks.(firstSpeech := Some(now));
      }
      Transition(SpeakingStream, SpeechStarted, now, SpeakingLane, TtsStarted);
      return Accepted;
    }

    method Interrupt(reason: string, now: real, roundId: Option<string>, token: Option<string>) returns (outcome: Outcome)
      modifies this
      ensures StepResult(View(), outcome) == Step(old(View()), Input(Call.Interrupt(reason), roundId, token, now))
    {
      if RejectsSupplied(roundId, token) { return Stale; }
      stage := stage.(interrupted := true, interruptReason := reason);
      Transition(BargeIn, InterruptedStatus, now, InterruptLane, InterruptNoted, "", "", reason, ReasonPayload(reason));
      MarkCancellationStep(Generation, reason, now);
      MarkCancellationStep(Tts, reason, now);
      MarkCancellationStep(ActionPlan, reason, now);
      return Accepted;
    }

    /** `mark_generation_cancelled`, `mark_tts_stopped` and `mark_action_plan_cancelled`, one per target. */
    method MarkCancelled(target: Target, reason: string, now: real, roundId: Option<string>, token: Option<string>)
      returns (outcome: Outcome)
      modifies this
      ensures StepResult(View(), outcome) == Step(old(View()), Input(Call.MarkCancelled(target, reason), roundId, token, now))
    {
      if roundId.Some? && roundId.value != round.id { return Mismatched; }
      if token.Some? && token.value != round.token { return Mismatched; }
      MarkCancellationStep(target, reason, now);
      return Accepted;
    }

    method RecordStreamEvent(eventType: string, status: string, lane: string, content: map<string, string>, detail: string,
                             now: real, roundId: Option<string>, token: Option<string>) returns (outcome: Outcome)
      modifies this
      ensures StepResult(View(), outcome)
           == Step(old(View()), Input(RecordStream(StreamEventType(eventType, status), status, LaneNamed(lane), content, detail),
                                        roundId, token, now))
    {
      if RejectsSupplied(roundId, token) { return Stale; }
      var named := LaneNamed(lane);
      if named.NotALane? { return UnknownLane; }
      var eventLane := if named.KnownLane? then named.lane else LaneForPhase(stage.phase);
      Record(stage.phase, GivenStatus(status), now, eventLane, StreamEventType(eventType, status), "", "", detail, GivenPayload(content));
      return Accepted;
    }

    method Complete(status: string, now: real, roundId: Option<string>, token: Option<string>) returns (outcome: Outcome)
      modifies this
      ensures StepResult(View(), outcome) == Step(old(View()), Input(Call.Complete(status), roundId, token, now))
    {
      if RejectsSupplied(roundId, token) { return Stale; }
      marks := marks.(completed := Some(now));
      Transition(Completed, GivenStatus(status), now, CompleteLane, CompleteNoted);
      return Accepted;
    }

    method Fail(error: string, now: real, roundId: Option<string>, token: Option<string>) returns (outcome: Outcome)
      modifies this
      ensures StepResult(View(), outcome) == Step(old(View()), Input(Call.Fail(error), roundId, token, now))
    {
      if RejectsSupplied(roundId, token) { return Stale; }
      marks := marks.(completed := Some(now));
      Transition(Failed, ErrorStatus, now, CompleteLane, ErrorNoted, "", "", error);
      return Accepted;
    }
  }
}
