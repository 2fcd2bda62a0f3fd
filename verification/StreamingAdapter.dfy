/** Voice-streaming events applied to a session: `apps/body_runtime/voice_streaming_adapter.py`. */
module StreamingAdapter {
  import opened Basics
  import opened Text
  import opened RealtimeVoice
  import opened EventMetrics
  import opened LatencyAgreement
  import SessionContents

  // ----- reading an event -----

  /** What an event's name asks for. */
  datatype Kind =
    | AudioFrame | AsrPartialEvent | AsrFinalEvent | AgentDelta | SpeakingStart(playback: bool) | TtsChunkEvent
    | PlaybackStop | InterruptEvent | Heartbeat | Unknown

  function KindOf(name: string): Kind {
    if name == "ei.voice.audio.frame" then AudioFrame
    else if name == "ei.voice.asr.partial" || name == "ei.dialogue.asr.partial" then AsrPartialEvent
    else if name == "ei.voice.asr.final" || name == "ei.dialogue.asr.final" then AsrFinalEvent
    else if name == "ei.dialogue.agent.delta" then AgentDelta
    else if name == "ei.voice.playback.started" then SpeakingStart(true)
    else if name == "ei.voice.tts.sentence_start" then SpeakingStart(false)
    else if name == "ei.voice.tts.chunk" then TtsChunkEvent
    else if name == "ei.voice.playback.stopped" then PlaybackStop
    else if name == "ei.voice.barge_in.detected" || name == "ei.dialogue.interrupt.requested" then InterruptEvent
    else if name == "ei.voice.session.heartbeat" then Heartbeat
    else Unknown
  }

  type Content = map<string, string>

  function Field(content: Content, key: string, default: string): string {
    if key in content && content[key] != "" then content[key] else default
  }

  /** The delta of an agent event: its "delta" field, else its "text" field. */
  function DeltaField(content: Content): string {
    Field(content, "delta", Field(content, "text", ""))
  }

  const COMPLETED_PLAYBACK_REASONS: set<string> := {"", "complete", "completed", "done", "ended", "eof"}

  predicate CompletedReason(reason: string) {
    Lower(Strip(reason)) in COMPLETED_PLAYBACK_REASONS
  }

  /** An event, its identifiers already picked out of payload and content, and the clock reading it is applied at. */
  datatype Message = Message(kind: Kind, content: Content, roundId: Option<string>, token: Option<string>, now: real) {
    /** The reason of a stopped playback; it is never empty. */
    function StopReason(): string {
      Field(content, "reason", "completed")
    }
  }

  datatype Tally = Tally(
    audioFrames: nat, ttsChunks: nat, partialTrace: nat, finalTrace: nat,
    partialSignals: nat, finalSignals: nat, deltaSignals: nat, chunkSignals: nat, playbackSignals: nat)

  const NO_TALLY := Tally(0, 0, 0, 0, 0, 0, 0, 0, 0)

  /** What the trace keeps of the last transcript event. */
  datatype AsrTrace = AsrTrace(
    name: string, sessionId: Option<string>, roundId: Option<string>, latencyMs: Option<int>, frameIndex: Option<int>,
    framesReceived: Option<int>, framesProcessed: Option<int>, framesDropped: Option<int>, providerState: Option<string>)

  /** The first of two entries that is there and reads as a number. */
  function FirstInt(content: Content, toInt: string -> Option<int>, key: string, other: string): Option<int> {
    if key in content && content[key] != "" && toInt(content[key]).Some? then toInt(content[key])
    else if other in content && content[other] != "" then toInt(content[other])
    else None
  }

  /** The first of two entries that is there and not empty. */
  function FirstText(content: Content, key: string, other: string): Option<string> {
    var text := Field(content, key, Field(content, other, ""));
    if text == "" then None else Some(text)
  }

  function TraceOf(name: string, sessionId: Option<string>, roundId: Option<string>, content: Content, toInt: string -> Option<int>): AsrTrace {
    AsrTrace(name, sessionId, roundId, FirstInt(content, toInt, "latencyMs", "latency_ms"),
             FirstInt(content, toInt, "frameIndex", "frame_index"), FirstInt(content, toInt, "framesReceived", "frames_received"),
             FirstInt(content, toInt, "framesProcessed", "frames_processed"), FirstInt(content, toInt, "framesDropped", "frames_dropped"),
             FirstText(content, "providerState", "provider_state"))
  }

  /** A number under the first of two keys that holds one. */
  predicate ReadsInt(r: Option<int>, content: Content, toInt: string -> Option<int>, key: string, other: string) {
    if TextAt(content, key) != "" && toInt(TextAt(content, key)).Some? then r == toInt(TextAt(content, key))
    else r == if TextAt(content, other) != "" then toInt(TextAt(content, other)) else None
  }

  /** Which keys the trace of a transcript event reads. */
  lemma TraceReads(name: string, sessionId: Option<string>, roundId: Option<string>, content: Content, toInt: string -> Option<int>)
    ensures var t := TraceOf(name, sessionId, roundId, content, toInt);
      && t.name == name && t.sessionId == sessionId && t.roundId == roundId
      && ReadsInt(t.latencyMs, content, toInt, "latencyMs", "latency_ms")
      && ReadsInt(t.frameIndex, content, toInt, "frameIndex", "frame_index")
      && ReadsInt(t.framesReceived, content, toInt, "framesReceived", "frames_received")
      && ReadsInt(t.framesProcessed, content, toInt, "framesProcessed", "frames_processed")
      && ReadsInt(t.framesDropped, content, toInt, "framesDropped", "frames_dropped")
  {
  }

  predicate Transcribes(kind: Kind) {
    kind.AsrPartialEvent? || kind.AsrFinalEvent?
  }

  /** How applying an event ends; a stopped playback either completes the session or only stops its speech. */
  datatype Operation = Applied(kind: Kind) | CompletedPlayback | DuplicatePlaybackStop | Ignored | Raised(outcome: Outcome)

  /** A completed-playback stop that arrives once the session is completed already. */
  predicate DuplicateStop(s: Session, roundId: Option<string>, token: Option<string>) {
    s.stage.phase == Completed && !SuppliedMismatch(s, roundId, token)
  }

  /** The session call an event turns into; the heartbeat's carries no identifiers. */
  function CallOf(s: Session, m: Message): Option<Input> {
    match m.kind
    case AudioFrame => Some(Input(NoteAudio, m.roundId, m.token, m.now))
    case AsrPartialEvent => Some(Input(UpdatePartial(Strip(Field(m.content, "text", ""))), m.roundId, m.token, m.now))
    case AsrFinalEvent => Some(Input(Finalize(Strip(Field(m.content, "text", ""))), m.roundId, m.token, m.now))
    case AgentDelta => Some(Input(AppendReply(DeltaField(m.content)), m.roundId, m.token, m.now))
    case SpeakingStart(_) => Some(Input(StartSpeaking, m.roundId, m.token, m.now))
    case TtsChunkEvent =>
      Some(Input(RecordStream(TtsChunk, "tts_chunk_observed", KnownLane(SpeakingLane), m.content, ""), m.roundId, m.token, m.now))
    case PlaybackStop =>
      if CompletedReason(m.StopReason()) && !s.stage.interrupted then
        if DuplicateStop(s, m.roundId, m.token) then None else Some(Input(Complete("playback_completed"), m.roundId, m.token, m.now))
      else Some(Input(MarkCancelled(Tts, m.StopReason()), m.roundId, m.token, m.now))
    case InterruptEvent => Some(Input(Interrupt(Field(m.content, "reason", "user_barge_in")), m.roundId, m.token, m.now))
    case Heartbeat =>
      Some(Input(RecordStream(VoiceHeartbeat, "voice_heartbeat_observed", KnownLane(ListeningLane), m.content, ""), None, None, m.now))
    case Unknown => None
  }

  function Delivered(s: Session, m: Message): Session {
    var c := CallOf(s, m);
    if c.None? then s else Step(s, c.value).session
  }

  /** The turn signals, counted before the session is asked. */
  function Signalled(t: Tally, kind: Kind): Tally {
    match kind
    case AsrPartialEvent => t.(partialSignals := t.partialSignals + 1)
    case AsrFinalEvent => t.(finalSignals := t.finalSignals + 1)
    case AgentDelta => t.(deltaSignals := t.deltaSignals + 1)
    case SpeakingStart(playback) => if playback then t.(playbackSignals := t.playbackSignals + 1) else t
    case TtsChunkEvent => t.(chunkSignals := t.chunkSignals + 1)
    case _ => t
  }

  /** The other counters, once it has accepted. */
  function Counted(t: Tally, kind: Kind): Tally {
    match kind
    case AudioFrame => t.(audioFrames := t.audioFrames + 1)
    case AsrPartialEvent => t.(partialTrace := t.partialTrace + 1)
    case AsrFinalEvent => t.(finalTrace := t.finalTrace + 1)
    case TtsChunkEvent => t.(ttsChunks := t.ttsChunks + 1)
    case _ => t
  }

  function Tallied(t: Tally, kind: Kind, accepted: bool): Tally {
    if accepted then Counted(Signalled(t, kind), kind) else Signalled(t, kind)
  }

  function OperationOf(s: Session, m: Message): Operation {
    var c := CallOf(s, m);
    if m.kind.Unknown? then Ignored
    else if c.None? then DuplicatePlaybackStop
    else if Step(s, c.value).outcome.Accepted? then if c.value.call.Complete? then CompletedPlayback else Applied(m.kind)
    else Raised(Step(s, c.value).outcome)
  }

  datatype Bridge = Bridge(session: Session, tally: Tally)

  function Apply(b: Bridge, m: Message): Bridge {
    var c := CallOf(b.session, m);
    Bridge(Delivered(b.session, m), Tallied(b.tally, m.kind, c.Some? && Step(b.session, c.value).outcome.Accepted?))
  }

  function ApplyAll(b: Bridge, messages: seq<Message>): Bridge
    decreases |messages|
  {
    if messages == [] then b else ApplyAll(Apply(b, messages[0]), messages[1..])
  }

  // ----- what an event does to the session, name by name -----

  /** The event carries no identifiers, or those of the session's live round. */
  predicate Welcome(s: Session, roundId: Option<string>, token: Option<string>) {
    || (roundId.None? && token.None?)
    || ((roundId.Some? ==> roundId.value == s.round.id) && (token.Some? ==> token.value == s.round.token)
        && !s.stage.interrupted && s.stage.phase !in {BargeIn, Completed, Failed})
  }

  function TextAt(content: Content, key: string): string {
    if key in content then content[key] else ""
  }

  /** One more entry, of this type and lane, logged now; texts, stage and flags are as before. */
  ghost predicate OnlyLogs(s: Session, r: Session, eventType: EventType, lane: Lane, content: Content, now: real) {
    && r.stage == s.stage && r.words == s.words && r.cancellation == s.cancellation && r.round == s.round && r.marks == s.marks
    && |r.events| == |s.events| + 1 && s.events <= r.events
    && var e := r.events[|s.events|]; e.eventType == eventType && e.lane == lane && e.at == now && e.payload == GivenPayload(content)
  }

  ghost predicate AudioNoted(s: Session, r: Session, now: real) {
    && r.stage == s.stage && r.words == s.words && r.cancellation == s.cancellation
    && r.marks == s.marks.(firstAudio := if s.marks.firstAudio.Some? then s.marks.firstAudio else Some(now))
  }

  ghost predicate PartialHeard(s: Session, r: Session, text: string) {
    r.words == s.words.(transcriptPartial := text) && r.stage.phase == PartialAsr
  }

  ghost predicate FinalHeard(s: Session, r: Session, text: string, now: real) {
    r.words == s.words.(transcriptFinal := text) && r.stage.phase == ThinkingStream && r.marks.finalAsr == Some(now)
  }

  ghost predicate ReplyGrew(s: Session, r: Session, delta: string) {
    r.words == s.words.(replyText := s.words.replyText + delta) && r.stage.phase == ThinkingStream
  }

  ghost predicate SpeechBegun(s: Session, r: Session) {
    r.words == s.words && r.stage.phase == SpeakingStream && r.marks.firstSpeech.Some?
  }

  ghost predicate BargedIn(s: Session, r: Session, reason: string) {
    && r.words == s.words && r.stage.phase == BargeIn && r.stage.interrupted && r.stage.interruptReason == reason
    && r.cancellation.generation && r.cancellation.tts && r.cancellation.actionPlan
  }

  /** Completed, unless it was already; or only its speech stopped. */
  ghost predicate StoppedAs(completes: bool, s: Session, r: Session, now: real) {
    if completes then
      if s.stage.phase == Completed then r == s
      else r.stage.phase == Completed && r.stage.status == GivenStatus("playback_completed") && r.marks.completed == Some(now)
           && r.words == s.words && r.cancellation == s.cancellation
    else
      && r.stage == s.stage && r.words == s.words && r.marks == s.marks && r.cancellation.tts
      && r.cancellation.generation == s.cancellation.generation && r.cancellation.actionPlan == s.cancellation.actionPlan
  }

  /** An interrupted session, or one stopped for another reason than the end of its playback, is not completed. */
  ghost predicate PlaybackStopped(s: Session, r: Session, reason: string, now: real) {
    StoppedAs(!s.stage.interrupted && Lower(Strip(reason)) in {"", "complete", "completed", "done", "ended", "eof"}, s, r, now)
  }

  /** What an event of this name leaves of a session that takes it. */
  ghost predicate EventDoes(name: string, content: Content, now: real, s: Session, r: Session) {
    && (name == "ei.voice.audio.frame" ==> AudioNoted(s, r, now))
    && (name in {"ei.voice.asr.partial", "ei.dialogue.asr.partial"} ==> PartialHeard(s, r, Strip(TextAt(content, "text"))))
    && (name in {"ei.voice.asr.final", "ei.dialogue.asr.final"} ==> FinalHeard(s, r, Strip(TextAt(content, "text")), now))
    && (name == "ei.dialogue.agent.delta" ==>
          ReplyGrew(s, r, if TextAt(content, "delta") != "" then TextAt(content, "delta") else TextAt(content, "text")))
    && (name in {"ei.voice.playback.started", "ei.voice.tts.sentence_start"} ==> SpeechBegun(s, r))
    && (name == "ei.voice.tts.chunk" ==> OnlyLogs(s, r, TtsChunk, SpeakingLane, content, now))
    && (name == "ei.voice.playback.stopped" ==>
          PlaybackStopped(s, r, if TextAt(content, "reason") != "" then TextAt(content, "reason") else "completed", now))
    && (name in {"ei.voice.barge_in.detected", "ei.dialogue.interrupt.requested"} ==>
          BargedIn(s, r, if TextAt(content, "reason") != "" then TextAt(content, "reason") else "user_barge_in"))
    && (name == "ei.voice.session.heartbeat" ==> OnlyLogs(s, r, VoiceHeartbeat, ListeningLane, content, now))
    && (name !in NAMES ==> r == s)
  }

  const TRANSCRIPT_NAMES: set<string> :=
    {"ei.voice.asr.partial", "ei.dialogue.asr.partial", "ei.voice.asr.final", "ei.dialogue.asr.final"}

  const NAMES: set<string> :=
    {"ei.voice.audio.frame", "ei.voice.asr.partial", "ei.dialogue.asr.partial", "ei.voice.asr.final", "ei.dialogue.asr.final",
     "ei.dialogue.agent.delta", "ei.voice.playback.started", "ei.voice.tts.sentence_start", "ei.voice.tts.chunk",
     "ei.voice.playback.stopped", "ei.voice.barge_in.detected", "ei.dialogue.interrupt.requested", "ei.voice.session.heartbeat"}

  /** The same by kind. */
  ghost predicate KindDoes(kind: Kind, content: Content, now: real, s: Session, r: Session) {
    match kind
    case AudioFrame => AudioNoted(s, r, now)
    case AsrPartialEvent => PartialHeard(s, r, Strip(Field(content, "text", "")))
    case AsrFinalEvent => FinalHeard(s, r, Strip(Field(content, "text", "")), now)
    case AgentDelta => ReplyGrew(s, r, DeltaField(content))
    case SpeakingStart(_) => SpeechBegun(s, r)
    case TtsChunkEvent => OnlyLogs(s, r, TtsChunk, SpeakingLane, content, now)
    case PlaybackStop => PlaybackStopped(s, r, Field(content, "reason", "completed"), now)
    case InterruptEvent => BargedIn(s, r, Field(content, "reason", "user_barge_in"))
    case Heartbeat => OnlyLogs(s, r, VoiceHeartbeat, ListeningLane, content, now)
    case Unknown => r == s
  }

  lemma WelcomeAccepted(s: Session, m: Message)
    requires Welcome(s, m.roundId, m.token) && CallOf(s, m).Some?
    ensures Step(s, CallOf(s, m).value).outcome.Accepted?
  {
  }

  lemma StreamLogs(s: Session, i: Input)
    requires i.call.RecordStream? && i.call.lane.KnownLane?
    ensures OnlyLogs(s, Effect(s, i), i.call.eventType, i.call.lane.lane, i.call.content, i.now)
  {
  }

  lemma StopDoes(s: Session, m: Message)
    requires m.kind == PlaybackStop && Welcome(s, m.roundId, m.token)
    ensures StoppedAs(!s.stage.interrupted && CompletedReason(m.StopReason()), s, Delivered(s, m), m.now)
  {
    if CallOf(s, m).Some? {
      WelcomeAccepted(s, m);
      SessionContents.EffectFields(s, CallOf(s, m).value);
      SessionContents.FlagsAfter(s, CallOf(s, m).value);
    }
  }

  lemma ChunkOrBeatDoes(s: Session, m: Message)
    requires (m.kind == TtsChunkEvent || m.kind == Heartbeat) && Welcome(s, m.roundId, m.token)
    ensures KindDoes(m.kind, m.content, m.now, s, Delivered(s, m))
  {
    WelcomeAccepted(s, m);
    StreamLogs(s, CallOf(s, m).value);
  }

  lemma StopDoesIt(s: Session, m: Message)
    requires m.kind == PlaybackStop && Welcome(s, m.roundId, m.token)
    ensures KindDoes(m.kind, m.content, m.now, s, Delivered(s, m))
  {
    StopDoes(s, m);
  }

  lemma TalkDoes(s: Session, m: Message)
    requires m.kind.AudioFrame? || m.kind.AsrPartialEvent? || m.kind.AsrFinalEvent? || m.kind.AgentDelta?
             || m.kind.SpeakingStart? || m.kind.InterruptEvent?
    requires Welcome(s, m.roundId, m.token)
    ensures KindDoes(m.kind, m.content, m.now, s, Delivered(s, m))
  {
    WelcomeAccepted(s, m);
    SessionContents.EffectFields(s, CallOf(s, m).value);
  }

  lemma KindDoesIt(s: Session, m: Message)
    requires Welcome(s, m.roundId, m.token)
    ensures KindDoes(m.kind, m.content, m.now, s, Delivered(s, m))
  {
    match m.kind
    case PlaybackStop => StopDoesIt(s, m);
    case TtsChunkEvent => ChunkOrBeatDoes(s, m);
    case Heartbeat => ChunkOrBeatDoes(s, m);
    case Unknown =>
    case _ => TalkDoes(s, m);
  }

  lemma KindsNamed(name: string)
    ensures name == "ei.voice.audio.frame" <==> KindOf(name) == AudioFrame
    ensures name in {"ei.voice.asr.partial", "ei.dialogue.asr.partial"} <==> KindOf(name) == AsrPartialEvent
    ensures name in {"ei.voice.asr.final", "ei.dialogue.asr.final"} <==> KindOf(name) == AsrFinalEvent
    ensures name == "ei.dialogue.agent.delta" <==> KindOf(name) == AgentDelta
    ensures name in {"ei.voice.playback.started", "ei.voice.tts.sentence_start"} <==> KindOf(name).SpeakingStart?
    ensures name == "ei.voice.tts.chunk" <==> KindOf(name) == TtsChunkEvent
    ensures name == "ei.voice.playback.stopped" <==> KindOf(name) == PlaybackStop
    ensures name in {"ei.voice.barge_in.detected", "ei.dialogue.interrupt.requested"} <==> KindOf(name) == InterruptEvent
    ensures name == "ei.voice.session.heartbeat" <==> KindOf(name) == Heartbeat
    ensures name !in NAMES <==> KindOf(name) == Unknown
    ensures name in TRANSCRIPT_NAMES <==> Transcribes(KindOf(name))
    ensures name == "ei.voice.playback.started" <==> KindOf(name) == SpeakingStart(true)
  {
  }

  /** Heartbeats, and they alone, replace the last heartbeat. */
  ghost predicate BeatTold(name: string, content: Content, before: Content, after: Content) {
    after == if name == "ei.voice.session.heartbeat" then content else before
  }

  /** Transcript events that took effect, and they alone, replace the trace; events of other names are ignored. */
  ghost predicate TraceTold(name: string, operation: Operation, trace: AsrTrace, before: Option<AsrTrace>, after: Option<AsrTrace>) {
    && (operation == Ignored <==> name !in NAMES)
    && after == if name in TRANSCRIPT_NAMES && operation.Applied? then Some(trace) else before
  }

  lemma TracesNamed(name: string)
    ensures forall content, before, after ::
      BeatTold(name, content, before, after) <==> after == if KindOf(name).Heartbeat? then content else before
    ensures forall operation, trace, before, after ::
      TraceTold(name, operation, trace, before, after)
      <==> (operation == Ignored <==> KindOf(name) == Unknown)
           && after == if Transcribes(KindOf(name)) && operation.Applied? then Some(trace) else before
  {
    KindsNamed(name);
  }

  /** From the name of an event to the session it leaves. */
  lemma NamedEventDoes(s: Session, name: string, content: Content, roundId: Option<string>, token: Option<string>, now: real)
    requires Welcome(s, roundId, token)
    ensures EventDoes(name, content, now, s, Delivered(s, Message(KindOf(name), content, roundId, token, now)))
  {
    KindsNamed(name);
    KindDoesIt(s, Message(KindOf(name), content, roundId, token, now));
  }

  // ----- the adapter object -----

  class VoiceStreamingAdapter {
    const session: RealtimeVoiceSession
    /** How text reads as a number, if it does. */
    const toInt: string -> Option<int>
    var tally: Tally
    var lastHeartbeat: Content
    var lastTranscript: Option<AsrTrace>

    constructor (session: RealtimeVoiceSession, toInt: string -> Option<int>)
      ensures this.session == session && this.toInt == toInt && tally == NO_TALLY && lastHeartbeat == map[] && lastTranscript == None
    {
      this.session, this.toInt := session, toInt;
      tally, lastHeartbeat, lastTranscript := NO_TALLY, map[], None;
    }

    /** `_apply_named_event`; a rejected session call raises out of it, which is the operation `Raised`. */
    method ApplyNamedEvent(name: string, content: Content, sessionId: Option<string>, roundId: Option<string>, token: Option<string>,
                           now: real)
      returns (operation: Operation)
      modifies this, session
      ensures Bridge(session.View(), tally)
           == Apply(Bridge(old(session.View()), old(tally)), Message(KindOf(name), content, roundId, token, now))
      ensures operation == OperationOf(old(session.View()), Message(KindOf(name), content, roundId, token, now))
      ensures BeatTold(name, content, old(lastHeartbeat), lastHeartbeat)
      ensures TraceTold(name, operation, TraceOf(name, sessionId, roundId, content, toInt), old(lastTranscript), lastTranscript)
      ensures Welcome(old(session.View()), roundId, token) ==> EventDoes(name, content, now, old(session.View()), session.View())
    {
      TracesNamed(name);
      if Welcome(session.View(), roundId, token) {
        NamedEventDoes(session.View(), name, content, roundId, token, now);
      }
      operation := ApplyTraced(KindOf(name), name, content, sessionId, roundId, token, now);
    }

    /** The event applied, and traced if it is a transcript that took effect. */
    method ApplyTraced(kind: Kind, name: string, content: Content, sessionId: Option<string>, roundId: Option<string>,
                       token: Option<string>, now: real)
      returns (operation: Operation)
      modifies this, session
      ensures Bridge(session.View(), tally)
           == Apply(Bridge(old(session.View()), old(tally)), Message(kind, content, roundId, token, now))
      ensures operation == OperationOf(old(session.View()), Message(kind, content, roundId, token, now))
      ensures operation == Ignored <==> kind == Unknown
      ensures lastHeartbeat == if kind.Heartbeat? then content else old(lastHeartbeat)
      ensures lastTranscript == if Transcribes(kind) && operation.Applied?
                                then Some(TraceOf(name, sessionId, roundId, content, toInt)) else old(lastTranscript)
    {
      operation := ApplyKind(kind, content, roundId, token, now);
      if Transcribes(kind) && operation.Applied? {
        lastTranscript := Some(TraceOf(name, sessionId, roundId, content, toInt));
      }
    }

    method ApplyKind(kind: Kind, content: Content, roundId: Option<string>, token: Option<string>, now: real)
      returns (operation: Operation)
      modifies this`tally, this`lastHeartbeat, session
      ensures Bridge(session.View(), tally)
           == Apply(Bridge(old(session.View()), old(tally)), Message(kind, content, roundId, token, now))
      ensures operation == OperationOf(old(session.View()), Message(kind, content, roundId, token, now))
      ensures lastHeartbeat == if kind.Heartbeat? then content else old(lastHeartbeat)
      ensures operation == Ignored <==> kind == Unknown
    {
      if kind.Unknown? {
        return Ignored;
      }
      if kind.PlaybackStop? {
        operation := StopPlayback(content, roundId, token, now);
        return;
      }
      NoteTurnSignal(kind);
      var outcome := CallSession(kind, content, roundId, token, now);
      if kind.Heartbeat? {
        lastHeartbeat := content;
      }
      if outcome.Accepted? {
        CountAccepted(kind);
      }
      operation := if outcome.Accepted? then Applied(kind) else Raised(outcome);
    }

    method NoteTurnSignal(kind: Kind)
      modifies this`tally
      ensures tally == Signalled(old(tally), kind)
    {
      match kind {
        case AsrPartialEvent => tally := tally.(partialSignals := tally.partialSignals + 1);
        case AsrFinalEvent => tally := tally.(finalSignals := tally.finalSignals + 1);
        case AgentDelta => tally := tally.(deltaSignals := tally.deltaSignals + 1);
        case SpeakingStart(playback) =>
          if playback {
            tally := tally.(playbackSignals := tally.playbackSignals + 1);
          }
        case TtsChunkEvent => tally := tally.(chunkSignals := tally.chunkSignals + 1);
        case _ =>
      }
    }

    method CountAccepted(kind: Kind)
      modifies this`tally
      ensures tally == Counted(old(tally), kind)
    {
      match kind {
        case AudioFrame => tally := tally.(audioFrames := tally.audioFrames + 1);
        case AsrPartialEvent => tally := tally.(partialTrace := tally.partialTrace + 1);
        case AsrFinalEvent => tally := tally.(finalTrace := tally.finalTrace + 1);
        case TtsChunkEvent => tally := tally.(ttsChunks := tally.ttsChunks + 1);
        case _ =>
      }
    }

    /** The session call of an event that always makes one. */
    method CallSession(kind: Kind, content: Content, roundId: Option<string>, token: Option<string>, now: real) returns (outcome: Outcome)
      requires !kind.Unknown? && !kind.PlaybackStop?
      modifies session
      ensures var m := Message(kind, content, roundId, token, now);
        CallOf(old(session.View()), m).Some? && !CallOf(old(session.View()), m).value.call.Complete?
        && StepResult(session.View(), outcome) == Step(old(session.View()), CallOf(old(session.View()), m).value)
    {
      match kind {
        case AudioFrame => outcome := session.NoteAudio(now, roundId, token);
        case AsrPartialEvent => outcome := session.UpdatePartialTranscript(Field(content, "text", ""), now, roundId, token);
        case AsrFinalEvent => outcome := session.FinalizeTranscript(Field(content, "text", ""), now, roundId, token);
        case AgentDelta => outcome := session.AppendReplyDelta(DeltaField(content), now, roundId, token);
        case SpeakingStart(_) => outcome := session.StartSpeaking(now, roundId, token);
        case TtsChunkEvent => outcome := ObserveChunk(content, roundId, token, now);
        case InterruptEvent => outcome := session.Interrupt(Field(content, "reason", "user_barge_in"), now, roundId, token);
        case Heartbeat => outcome := ObserveHeartbeat(content, now);
      }
    }

    method ObserveChunk(content: Content, roundId: Option<string>, token: Option<string>, now: real) returns (outcome: Outcome)
      modifies session
      ensures StepResult(session.View(), outcome)
           == Step(old(session.View()), CallOf(old(session.View()), Message(TtsChunkEvent, content, roundId, token, now)).value)
    {
      outcome := session.RecordStreamEvent("tts_chunk", "tts_chunk_observed", "speaking", content, "", now, roundId, token);
    }

    method ObserveHeartbeat(content: Content, now: real) returns (outcome: Outcome)
      modifies session
      ensures StepResult(session.View(), outcome)
           == Step(old(session.View()), CallOf(old(session.View()), Message(Heartbeat, content, None, None, now)).value)
    {
      outcome := session.RecordStreamEvent("voice_heartbeat", "voice_heartbeat_observed", "listening", content, "", now, None, None);
    }

    method StopPlayback(content: Content, roundId: Option<string>, token: Option<string>, now: real) returns (operation: Operation)
      modifies session
      ensures session.View() == Delivered(old(session.View()), Message(PlaybackStop, content, roundId, token, now))
      ensures operation == OperationOf(old(session.View()), Message(PlaybackStop, content, roundId, token, now))
    {
      var reason, outcome := Field(content, "reason", "completed"), Accepted;
      if CompletedReason(reason) && !session.stage.interrupted {
        if IsDuplicateCompletedStop(roundId, token) {
          return DuplicatePlaybackStop;
        }
        outcome := session.Complete("playback_completed", now, roundId, token);
        return if outcome.Accepted? then CompletedPlayback else Raised(outcome);
      }
      outcome := session.MarkCancelled(Tts, reason, now, roundId, token);
      return if outcome.Accepted? then Applied(PlaybackStop) else Raised(outcome);
    }

    predicate IsDuplicateCompletedStop(roundId: Option<string>, token: Option<string>)
      reads session
      ensures IsDuplicateCompletedStop(roundId, token) == DuplicateStop(session.View(), roundId, token)
    {
      && session.stage.phase == Completed
      && (roundId.Some? ==> roundId.value == session.round.id)
      && (token.Some? ==> token.value == session.round.token)
    }
  }

  // ----- counters against the log -----

  lemma {:induction false} CountAppend(events: seq<Event>, e: Event, kind: EventType)
    ensures CountOf(events + [e], kind) == CountOf(events, kind) + if e.eventType == kind then 1 else 0
  {
    assert (events + [e])[..|events|] == events;
  }

  predicate Tracked(kind: EventType) {
    kind in {AudioDetected, AsrPartial, AsrFinal, AgentThink, TtsChunk}
  }

  lemma CancelledCount(s: Session, t: Target, reason: string, at: real, kind: EventType)
    requires Tracked(kind)
    ensures CountOf(Cancelled(s, t, reason, at).events, kind) == CountOf(s.events, kind)
  {
    var r := Cancelled(s, t, reason, at);
    if r != s {
      CountAppend(s.events, r.events[|s.events|], kind);
    }
  }

  lemma InterruptedCount(s: Session, reason: string, now: real, kind: EventType)
    requires Tracked(kind)
    ensures CountOf(Interrupted(s, reason, now).events, kind) == CountOf(s.events, kind)
  {
    var stopped := s.(stage := s.stage.(interrupted := true, interruptReason := reason));
    var s0 := Transitioned(stopped, BargeIn, InterruptedStatus, now, InterruptLane, InterruptNoted, "", "", reason, ReasonPayload(reason));
    CountAppend(s.events, s0.events[|s.events|], kind);
    var s1 := Cancelled(s0, Generation, reason, now);
    CancelledCount(s0, Generation, reason, now, kind);
    CancelledCount(s1, Tts, reason, now, kind);
    CancelledCount(Cancelled(s1, Tts, reason, now), ActionPlan, reason, now, kind);
  }

  predicate SessionAccepts(s: Session, m: Message) {
    CallOf(s, m).Some? && Step(s, CallOf(s, m).value).outcome.Accepted?
  }

  /** Which logged type an event kind shows up as. */
  predicate ShowsAs(kind: Kind, logged: EventType) {
    match kind
    case AudioFrame => logged == AudioDetected
    case AsrPartialEvent => logged == AsrPartial
    case AsrFinalEvent => logged == AsrFinal
    case AgentDelta => logged == AgentThink
    case TtsChunkEvent => logged == TtsChunk
    case _ => false
  }

  lemma EffectCount(s: Session, i: Input, kind: EventType)
    requires Tracked(kind) && !i.call.StartListening?
    ensures CountOf(Effect(s, i).events, kind)
         == CountOf(s.events, kind) + if Plain(i.call) && EventTypeOf(i.call) == kind then 1 else 0
  {
    if i.call.Interrupt? {
      InterruptedCount(s, i.call.reason, i.now, kind);
    } else if i.call.MarkCancelled? {
      CancelledCount(s, i.call.target, i.call.reason, i.now, kind);
    } else {
      CountAppend(s.events, EntryOf(s, i.call, i.now), kind);
    }
  }

  lemma CallShowsAs(s: Session, m: Message, kind: EventType)
    requires Tracked(kind) && CallOf(s, m).Some?
    ensures var c := CallOf(s, m).value.call;
      !c.StartListening? && (Plain(c) && EventTypeOf(c) == kind <==> ShowsAs(m.kind, kind))
  {
  }

  lemma DeliveredCount(s: Session, m: Message, kind: EventType)
    requires Tracked(kind)
    ensures CountOf(Delivered(s, m).events, kind) == CountOf(s.events, kind) + if SessionAccepts(s, m) && ShowsAs(m.kind, kind) then 1 else 0
  {
    if SessionAccepts(s, m) {
      CallShowsAs(s, m, kind);
      EffectCount(s, CallOf(s, m).value, kind);
    }
  }

  function KindCount(messages: seq<Message>, kind: Kind): nat {
    if messages == [] then 0 else (if messages[0].kind == kind then 1 else 0) + KindCount(messages[1..], kind)
  }

  /** The accepted-event counters grew by as much as the log did. */
  ghost predicate InStep(b: Bridge, r: Bridge) {
    && r.tally.audioFrames - b.tally.audioFrames == CountOf(r.session.events, AudioDetected) - CountOf(b.session.events, AudioDetected)
    && r.tally.ttsChunks - b.tally.ttsChunks == CountOf(r.session.events, TtsChunk) - CountOf(b.session.events, TtsChunk)
    && r.tally.partialTrace - b.tally.partialTrace == CountOf(r.session.events, AsrPartial) - CountOf(b.session.events, AsrPartial)
    && r.tally.finalTrace - b.tally.finalTrace == CountOf(r.session.events, AsrFinal) - CountOf(b.session.events, AsrFinal)
    && r.tally.deltaSignals - b.tally.deltaSignals >= CountOf(r.session.events, AgentThink) - CountOf(b.session.events, AgentThink)
  }

  ghost predicate LogGrew(b: Bridge, r: Bridge, kind: EventType, byOne: bool) {
    CountOf(r.session.events, kind) == CountOf(b.session.events, kind) + if byOne then 1 else 0
  }

  lemma ApplyInStep(b: Bridge, m: Message)
    ensures InStep(b, Apply(b, m))
  {
    DeliveredCount(b.session, m, AudioDetected);
    DeliveredCount(b.session, m, TtsChunk);
    DeliveredCount(b.session, m, AsrPartial);
    DeliveredCount(b.session, m, AsrFinal);
    DeliveredCount(b.session, m, AgentThink);
    TallyInStep(b, Apply(b, m), m.kind, SessionAccepts(b.session, m));
  }

  lemma TallyInStep(b: Bridge, r: Bridge, kind: Kind, accepted: bool)
    requires r.tally == Tallied(b.tally, kind, accepted)
    requires LogGrew(b, r, AudioDetected, accepted && ShowsAs(kind, AudioDetected))
    requires LogGrew(b, r, TtsChunk, accepted && ShowsAs(kind, TtsChunk))
    requires LogGrew(b, r, AsrPartial, accepted && ShowsAs(kind, AsrPartial))
    requires LogGrew(b, r, AsrFinal, accepted && ShowsAs(kind, AsrFinal))
    requires LogGrew(b, r, AgentThink, accepted && ShowsAs(kind, AgentThink))
    ensures InStep(b, r)
  {
  }

  lemma InStepTransitive(b: Bridge, m: Bridge, r: Bridge)
    requires InStep(b, m) && InStep(m, r)
    ensures InStep(b, r)
  {
  }

  /** The turn signals count every event of their kind, accepted or not, and so are never behind the traces. */
  ghost predicate SignalsSeen(t: Tally, r: Tally, messages: seq<Message>) {
    && r.partialSignals == t.partialSignals + KindCount(messages, AsrPartialEvent)
    && r.finalSignals == t.finalSignals + KindCount(messages, AsrFinalEvent)
    && r.deltaSignals == t.deltaSignals + KindCount(messages, AgentDelta)
    && r.chunkSignals == t.chunkSignals + KindCount(messages, TtsChunkEvent)
    && r.playbackSignals == t.playbackSignals + KindCount(messages, SpeakingStart(true))
    && r.partialSignals - t.partialSignals >= r.partialTrace - t.partialTrace
    && r.finalSignals - t.finalSignals >= r.finalTrace - t.finalTrace
    && r.chunkSignals - t.chunkSignals >= r.ttsChunks - t.ttsChunks
  }

  lemma SignalsStep(t: Tally, m: Message, accepted: bool, r: Tally, rest: seq<Message>)
    requires SignalsSeen(Tallied(t, m.kind, accepted), r, rest)
    ensures SignalsSeen(t, r, [m] + rest)
  {
    assert ([m] + rest)[1..] == rest;
  }

  /** Whatever the session's state and whichever events are rejected, the counters advance with the log of a session
      the adapter drives. */
  lemma {:induction false} CountersFollowLog(b: Bridge, messages: seq<Message>)
    ensures InStep(b, ApplyAll(b, messages))
    ensures SignalsSeen(b.tally, ApplyAll(b, messages).tally, messages)
    decreases |messages|
  {
    if messages != [] {
      var m, rest := messages[0], messages[1..];
      var next := Apply(b, m);
      ApplyInStep(b, m);
      CountersFollowLog(next, rest);
      InStepTransitive(b, next, ApplyAll(next, rest));
      SignalsStep(b.tally, m, SessionAccepts(b.session, m), ApplyAll(next, rest).tally, rest);
      assert [m] + rest == messages;
    }
  }

  /** A fresh adapter on a session with an empty log: the counters are the counts of the log. */
  lemma CountersEqualLog(s: Session, messages: seq<Message>)
    requires s.events == []
    ensures var r := ApplyAll(Bridge(s, NO_TALLY), messages);
      && r.tally.audioFrames == CountOf(r.session.events, AudioDetected)
      && r.tally.ttsChunks == CountOf(r.session.events, TtsChunk) <= r.tally.chunkSignals
      && r.tally.partialTrace == CountOf(r.session.events, AsrPartial) <= r.tally.partialSignals
      && r.tally.finalTrace == CountOf(r.session.events, AsrFinal) <= r.tally.finalSignals
      && CountOf(r.session.events, AgentThink) <= r.tally.deltaSignals
  {
    CountersFollowLog(Bridge(s, NO_TALLY), messages);
  }

  /** A stopped playback reported twice, at whatever times, leaves session and counters as reported once. */
  lemma StopTwice(b: Bridge, first: Message, second: Message)
    requires first.kind == PlaybackStop && second == first.(now := second.now)
    ensures Apply(Apply(b, first), second) == Apply(b, first)
  {
    DeliveredTwice(b.session, first, second);
  }

  lemma DeliveredTwice(s: Session, first: Message, second: Message)
    requires first.kind == PlaybackStop && second == first.(now := second.now)
    ensures Delivered(Delivered(s, first), second) == Delivered(s, first)
  {
    var c, reason := CallOf(s, first), first.StopReason();
    if c.Some? {
      if c.value.call.Complete? {
        CompletedTwice(s, c.value, CallOf(s, second).value);
      } else {
        CancelledTwice(s, c.value, CallOf(s, second).value);
      }
    }
  }

  lemma CancelledTwice(s: Session, i: Input, j: Input)
    requires i.call.MarkCancelled? && j == i.(now := j.now)
    ensures var r := Step(s, i).session;
      r.stage == s.stage && r.round == s.round && Step(r, j).session == r
  {
  }

  /** A completed session takes the second completion for a duplicate; one that rejected the first rejects the second. */
  lemma CompletedTwice(s: Session, i: Input, j: Input)
    requires i.call.Complete? && j == i.(now := j.now)
    ensures var r := Step(s, i).session;
      && r.round == s.round && r.stage.interrupted == s.stage.interrupted
      && (if Step(s, i).outcome.Accepted? then r.stage.phase == Completed && !SuppliedMismatch(s, i.roundId, i.token)
          else r == s && !Step(s, j).outcome.Accepted?)
  {
  }

  // ----- latencies of a session the adapter drives -----

  /** The adapter never starts a round, and its stream events have names of their own. */
  lemma CallNeverBreaks(s: Session, m: Message)
    requires CallOf(s, m).Some? && StartedAtOpening(s)
    ensures var i := CallOf(s, m).value; !Restarts(s, i) && !Breaks(s, i)
  {
  }

  lemma DeliveredMatches(s: Session, m: Message)
    requires Agrees(s, SCANNED) && StartedAtOpening(s) && LatenciesMatch(s)
    ensures var r := Delivered(s, m); Agrees(r, SCANNED) && StartedAtOpening(r) && LatenciesMatch(r)
  {
    if CallOf(s, m).Some? {
      CallNeverBreaks(s, m);
      StepMatchesIff(s, CallOf(s, m).value);
      StepOpened(s, CallOf(s, m).value);
    }
  }

  lemma {:induction false} ApplyAllMatches(b: Bridge, messages: seq<Message>)
    requires Agrees(b.session, SCANNED) && StartedAtOpening(b.session) && LatenciesMatch(b.session)
    ensures LatenciesMatch(ApplyAll(b, messages).session)
    decreases |messages|
  {
    if messages != [] {
      DeliveredMatches(b.session, messages[0]);
      ApplyAllMatches(Apply(b, messages[0]), messages[1..]);
    }
  }

  /** A session that the adapter alone drives from the start of a round: after any events, the latencies recomputed from
      the log are the session's own, without any further condition. */
  lemma AdapterLatencies(s: Session, start: Input, tally: Tally, messages: seq<Message>)
    requires start.call.StartListening? && Step(s, start).outcome.Accepted?
    requires start.Fresh() || s.events == []
    ensures LatenciesMatch(ApplyAll(Bridge(Step(s, start).session, tally), messages).session)
  {
    StartMatches(s, start);
    ApplyAllMatches(Bridge(Step(s, start).session, tally), messages);
  }
}
