# Verified core of the eibrain body runtime

A Dafny 4.11 model of the state machines and streaming algorithms in eibrain, a Python runtime for an embodied voice and
vision robot, with proofs of what they keep over whole runs.

- **Realtime voice rounds** (`RealtimeVoice`, `SessionContents`, `RoundProtocol`, `EventMetrics`,
  `LatencyAgreement`, `StreamingAdapter`). A session takes calls
  that may carry a round id and a cancellation token. It rejects stale ones, moves through phases, logs events, keeps time
  marks and a cancellation chain. Proved: what texts, phase, flags and marks any run of calls
  leaves, told from the calls alone; the invariant of every reachable state; that a finished round stays frozen under
  identified calls; that earlier rounds stay rejected across any number of fresh rounds; exactly when latencies recomputed
  from the event log are the session's own; that the streaming adapter keeps them so and its counters follow the log.
- **Voice capture** (`VadPolicy`, `EarStream`, `CaptureReading`). The endpoint policy keeps running totals, which are those of the whole frame
  history. The capture loop keeps a pre-roll, a pending voice run and a capture; what it returns, and where it stops
  reading, is given exactly by the frames of the stream, in both of its modes.
- **Audio ring buffer** (`RingBuffer`, `WakeDetector`). The duration-capped buffer is the longest fitting suffix of
  everything ever appended; a snapshot is the shortest suffix covering a request; wake words are decoded no more often than
  chunks arrive.
- **Neck control** (`NeckControl`, `NeckRuns`, `NeckFusion`). Spacing, step and range limits over runs of commands, a bound
  on travel in any window of time, convergence on a target held off centre; and exactly when the fusion policy pans and
  recenters.
- **Logs and samples** (`Statistics`, `VisionSoak`, `VoiceChainBenchmark`, `ReplyStream`). Nearest-rank percentiles against
  counting, one-pass counters against their definitions, the soak collection loop, the acceptance gates, and the splitting
  of a reply into deltas that join to the reply again.

Objects that the program updates in place are classes whose methods are proved against functions on values
(`RealtimeVoice.Step`, `StreamingAdapter.Apply`, `NeckControl.Decided`, `WakeDetector.Polled`) or against a history of inputs
kept as ghost state (`VadEndpointPolicy`, `PcmRingBuffer`). Run properties are lemmas over sequences of inputs.

Modelling conventions: clock readings are parameters, times and levels are reals, and display rounding is left out. Python's
`round` of a number is the nearest integer, ties to even. Event types, statuses, lanes and action names that the program
writes as fixed strings are datatype constructors, with an extra constructor where a caller may supply any other string.
Raised exceptions are outcomes (`Stale`, `Mismatched`, `UnknownLane`). A frame holding no bytes ends the audio stream.

Where the code does not do what its names or its documentation suggest, the code is followed and the exact condition proved:

- A call that carries neither round id nor token skips the stale check, so it can take a finished round back to a live
  phase (`RoundProtocol.LeavesTerminalIff`) or change its texts and marks (`RoundProtocol.TerminalKeptIff`).
- An identifier or token chosen by the caller for a session's first round can coincide with one generated later, which makes
  calls for the first round acceptable again (`RoundProtocol.SuppliedIdReadmittedIff`,
  `RoundProtocol.SuppliedTokenReadmittedIff`, `RoundProtocol.SuppliedReadmitted`).
- Three things put the latencies scanned from the log out of step with the session's: a stream event recorded under the name
  of a first partial transcript, reply or speech; a restart that is no fresh round, once one of these has been marked; and
  one of these coming first after a restart that moved the start of the round (`LatencyAgreement.AlwaysMatchIff`). No event
  that comes through the adapter is one of them (`StreamingAdapter.AdapterLatencies`). Finalizing twice, completing twice or
  failing after completion overwrites a mark whose first value the scan reports (`LatencyAgreement.FinalLatencyMatchesIff`,
  `LatencyAgreement.TotalLatencyMatchesIff`).
- With no positive minimum of voice, the capture loop and its policy disagree about the trigger for good when the first frame
  holds no voice (`EarStream.FlagsAgreeIff`). An announced start is taken exactly when it does not come with the last
  permitted frame and, without a positive minimum, its frame holds voice (`EarStream.AnnouncedStartIff`).
- A wake-word poll looks back over its whole request, so audio can be decoded twice: the snapshots of two polls share a chunk
  exactly when what arrived after the first is shorter than the look-back and, with the last chunk of the first, still fits
  the buffer (`WakeDetector.DecodedAgainIff`, both ways at concrete sizes in `WakeDetector.DecodedAgainOrPushedOut`).
- The step limit of `NeckPolicy` covers target positions only. An intent with an angle of its own, or with no target, which
  sends the neck home, stays within a step exactly when its destination is that close (`NeckRuns.StepLimitIff`,
  `NeckRuns.RunLimitIff`, `NeckRuns.AngleAndHomeJump`).
- In `NeckFusionPolicy` any held call, even one held by the rate limit, ends the rate limit
  (`NeckFusion.LimitActiveIff`, `NeckFusion.HoldResetsLimit`), and the cooldown can never take effect
  (`NeckFusion.CooldownNeverActive`).

## Model

| member | source | states |
|---|---|---|
| RealtimeVoice.RealtimeVoiceSession.constructor | eibrain/body/realtime_voice.py:99-105 | a new session is idle, has an empty log, and has its identifiers kept if supplied and generated if not |
| RealtimeVoice.RealtimeVoiceSession.StartListening | eibrain/body/realtime_voice.py:107-145 | the whole new state of a start, fresh or not, or its rejection, is that of the step function |
| RealtimeVoice.RealtimeVoiceSession.NoteAudio | eibrain/body/realtime_voice.py:147-157 | the first audio time is kept, one event is logged under the listening phase, a stale call changes nothing |
| RealtimeVoice.RealtimeVoiceSession.UpdatePartialTranscript | eibrain/body/realtime_voice.py:159-178 | phase, transcript, first-partial mark and log after a partial transcript, or rejection without change |
| RealtimeVoice.RealtimeVoiceSession.FinalizeTranscript | eibrain/body/realtime_voice.py:180-198 | the same for a final transcript, whose mark is overwritten each time |
| RealtimeVoice.RealtimeVoiceSession.UpdateMicrofeedback | eibrain/body/realtime_voice.py:200-220 | microfeedback is logged on its own lane and leaves the phase alone |
| RealtimeVoice.RealtimeVoiceSession.AppendReplyDelta | eibrain/body/realtime_voice.py:222-241 | the reply text grows by the delta, the first-reply mark keeps the first time |
| RealtimeVoice.RealtimeVoiceSession.StartSpeaking | eibrain/body/realtime_voice.py:243-259 | the session speaks and the first-speech mark keeps the first time |
| RealtimeVoice.RealtimeVoiceSession.Interrupt | eibrain/body/realtime_voice.py:261-283 | an interruption ends the round and takes the three cancellation steps that are still missing, in order |
| RealtimeVoice.RealtimeVoiceSession.MarkCancelled | eibrain/body/realtime_voice.py:285-313 | a cancellation step is taken once; only identifiers of another round are refused |
| RealtimeVoice.RealtimeVoiceSession.RecordStreamEvent | eibrain/body/realtime_voice.py:315-335 | an event under the caller's type and lane, or the status and the phase's lane if empty; an unknown lane changes nothing |
| RealtimeVoice.RealtimeVoiceSession.Complete | eibrain/body/realtime_voice.py:337-347 | the round is completed under the given status |
| RealtimeVoice.RealtimeVoiceSession.Fail | eibrain/body/realtime_voice.py:349-359 | the round ends in error and the error is logged |
| RealtimeVoice.RealtimeVoiceSession.RejectsSupplied | eibrain/body/realtime_voice.py:568-579 | a call is refused exactly for an identifier that is not the current one, or for carrying any once the round is over |
| SessionContents.RunTold | eibrain/body/realtime_voice.py:107-373 | after any run from any state, each text, the phase and status, the interruption, the cancellation flags and every time mark are those the accepted calls say, a start wiping what came before: the last transcript, the deltas joined, the phase of the last call that moves, the first or last time |
| SessionContents.PlainLogs | eibrain/body/realtime_voice.py:505-535 | each accepted call that cancels nothing logs one entry with its own phase, status, lane, type and texts, a fresh start on an empty log |
| SessionContents.CancelLogs | eibrain/body/realtime_voice.py:537-566 | a cancellation step logs one entry and adds one link to the chain, or does nothing if taken already |
| SessionContents.InterruptLogs | eibrain/body/realtime_voice.py:261-283 | an interruption logs itself and takes the missing steps for generation, speech and plan in that order |
| SessionContents.LatenciesMeasure | eibrain/body/realtime_voice.py:408-424 | between which two marks each reported latency lies |
| SessionContents.IdentifiersNamed | eibrain/body/realtime_voice.py:599-604 | generated identifiers come from the session id, else the actor id, else a fixed word, trimmed |
| SessionContents.LanesNamed | eibrain/body/realtime_voice.py:315-335 | the lane each name stands for, and that other names stand for none |
| SessionContents.TypeOrStatus | eibrain/body/realtime_voice.py:315-335 | a stream event without a type of its own goes by its status |
| SessionContents.ListeningTypesNamed | eibrain/body/realtime_voice.py:107-220 | the names of the event types a session logs while it listens |
| SessionContents.SpeakingTypesNamed | eibrain/body/realtime_voice.py:222-259 | those while it replies and speaks |
| SessionContents.EndTypesNamed | eibrain/body/realtime_voice.py:337-359 | those of the end of a round, and of a heartbeat |
| SessionContents.InterruptTypesNamed | eibrain/body/realtime_voice.py:261-283 | those of an interruption and of cancelled generation |
| SessionContents.StepTypesNamed | eibrain/body/realtime_voice.py:285-313 | those of stopped speech and a cancelled plan |
| Text.StripIs | eibrain/body/realtime_voice.py:599-604 | trimming a text takes whitespace off its ends and nothing else |
| RoundProtocol.ReachableInv | eibrain/body/realtime_voice.py:521-566 | in every reachable state: one chain step per set cancel flag and none twice, an interruption sets all three flags, every event and step carries the current identifiers |
| RoundProtocol.TerminalFrozen | eibrain/body/realtime_voice.py:361-373 | after the end of a round, identified calls change nothing but missing cancellation steps, at most three, each with its event at the end of the log |
| RoundProtocol.LeavesTerminalIff | eibrain/body/realtime_voice.py:568-579 | a finished round becomes live again exactly by a fresh start or by one of five calls that carry no identifier |
| RoundProtocol.TerminalKeptIff | eibrain/body/realtime_voice.py:147-359 | a call leaves a finished round as it is, cancellation and log apart, exactly when it is refused or has nothing new for it |
| RoundProtocol.LogAppendOnly | eibrain/body/realtime_voice.py:505-535 | between fresh rounds the log only grows at its end |
| RoundProtocol.EarlierRoundRejected | eibrain/body/realtime_voice.py:444-459 | with generated identifiers, every call that carries an earlier round's id or token is rejected and changes nothing, across any number of fresh rounds |
| RoundProtocol.TakenIff | eibrain/body/realtime_voice.py:444-459 | whatever identifiers came before, after fresh rounds with generated ones a live session takes any call but a fresh start, a known lane given, exactly when the identifiers it carries are those generated for its round |
| RoundProtocol.SuppliedIdReadmittedIff | eibrain/body/realtime_voice.py:599-604 | such a call for a caller's own first identifier is accepted again in a later live round exactly when it is spelled like that round's generated one |
| RoundProtocol.SuppliedTokenReadmittedIff | eibrain/body/realtime_voice.py:599-604 | the same for a caller's own first cancellation token |
| RoundProtocol.SuppliedReadmitted | eibrain/body/realtime_voice.py:99-115 | every session has such an identifier and such a token |
| EventMetrics.EventSampleMetrics | apps/body_runtime/voice_dialogue_loop.py:933-964 | the one-pass scan gives, for each metric, the offset of the first event of its kind from the start of the log |
| EventMetrics.MetricsMeasure | apps/body_runtime/voice_dialogue_loop.py:933-964 | which event type each metric measures the first event of, and that measuring starts with the first start of the log |
| LatencyAgreement.StepAgreesIff | eibrain/body/realtime_voice.py:315-335 | one call keeps any choice of first-time marks in step with the log exactly when it is neither an accepted stream event that poses as the first event of one of them nor a restart that forgets one |
| LatencyAgreement.AlwaysMatchIff | eibrain/body/realtime_voice.py:408-424 | for every interleaving of calls, restarts, fresh rounds and rejected calls included, the first-partial, first-reply and first-speech latencies are the scanned offsets, cut off at zero, key for key, at every moment exactly when no call breaks them |
| LatencyAgreement.ScannedLatencies | apps/body_runtime/voice_dialogue_loop.py:933-964 | the same from the start of a round, on an empty log or fresh |
| LatencyAgreement.UnrestartedBreaksIff | eibrain/body/realtime_voice.py:107-145 | without a restart inside a round, only a stream event that poses as a first partial transcript, reply or speech breaks them |
| LatencyAgreement.ScannedLatenciesExact | apps/body_runtime/voice_dialogue_loop.py:946-963 | with no clock reading before the opening of its log, they are equal at every moment under exactly the same condition |
| LatencyAgreement.FinalLatencyMatchesIff | eibrain/body/realtime_voice.py:187-190 | after any run of a round in which no stream event poses as a final transcript, the final-transcript latency is the scanned one exactly when the round was finalized once |
| LatencyAgreement.TotalLatencyMatchesIff | eibrain/body/realtime_voice.py:337-359 | after any run of a round in which no stream event poses as its end, the total latency is the scanned one exactly when the first completion is also the last completion or failure |
| StreamingAdapter.VoiceStreamingAdapter.ApplyNamedEvent | apps/body_runtime/voice_streaming_adapter.py:124-241 | for every event name, the session call made, the counters, the last heartbeat and transcript traced, and the operation reported, rejections included |
| StreamingAdapter.NamedEventDoes | apps/body_runtime/voice_streaming_adapter.py:137-204 | name by name, what a welcome event leaves of the session: transcripts and their phases, the reply extended, speech begun, a barge-in that ends the round with its reason and all cancellation flags, a stop that completes it or only ends its speech, a lone log entry, or nothing |
| StreamingAdapter.TraceReads | apps/body_runtime/voice_streaming_adapter.py:221-241 | which keys the numbers in the trace of a transcript event are read from |
| StreamingAdapter.VoiceStreamingAdapter.StopPlayback | apps/body_runtime/voice_streaming_adapter.py:180-188 | a stopped playback completes the session, is a duplicate, or stops its speech |
| StreamingAdapter.CountersFollowLog | apps/body_runtime/voice_streaming_adapter.py:137-179 | from any state and over any events, the counters grow with the log and the turn signals count every event seen |
| StreamingAdapter.CountersEqualLog | apps/body_runtime/voice_streaming_adapter.py:49-65 | on an empty log, the counters of a new adapter are the event counts of the log and never above the turn signals |
| StreamingAdapter.StopTwice | apps/body_runtime/voice_streaming_adapter.py:245-256 | the same stopped playback applied twice leaves session and counters as once |
| StreamingAdapter.AdapterLatencies | apps/body_runtime/voice_streaming_adapter.py:124-204 | after any events, the scanned latencies of a session that the adapter alone drives from the start of a round are the session's own, with no further condition |
| VadPolicy.VadEndpointPolicy.Observe | eibrain/body/vad_policy.py:42-83 | the running totals stay those of the frame history, and the decision is the one the history calls for |
| VadPolicy.VadEndpointPolicy.Reset | eibrain/body/vad_policy.py:85-90 | a reset starts an empty history |
| VadPolicy.HistoryGrows | eibrain/body/vad_policy.py:43-64 | totals kept frame by frame equal totals computed from the history, decision included |
| VadPolicy.DecisionMeans | eibrain/body/vad_policy.py:47-64 | voice, start, stop and forced decode told from the frames: probability before level, voiced, captured and silent time, and the fallback level |
| VadPolicy.ReasonMeans | eibrain/body/vad_policy.py:65-83 | which reason is given when several hold |
| VadPolicy.TrailingMeans | eibrain/body/vad_policy.py:47-52 | the silence counted is that of all the frames without voice at the end |
| VadPolicy.PeakIsMaximum | eibrain/body/vad_policy.py:43-48 | the peak bounds every level observed, and is one of them unless none is above zero |
| VadPolicy.StartsOnce | eibrain/body/vad_policy.py:54-56 | the start is announced at most once between resets |
| VadPolicy.TriggeredIffStarted | eibrain/body/vad_policy.py:54-56 | the policy is triggered exactly when some earlier or present frame announced the start |
| EarStream.ArecordStreamCapture.ReadVoiceWindow | eibrain/body/ear_stream.py:83-191 | how many frames are read, whether a capture triggered, its voiced-frame count, and the exact bytes returned |
| EarStream.ArecordStreamCapture.ReadFrames | eibrain/body/ear_stream.py:112-164 | the loop reads to the first stop, the end of the stream or the limit, and holds the capture its frames determine |
| EarStream.ArecordStreamCapture.TakeFrame | eibrain/body/ear_stream.py:123-164 | one turn of the loop keeps pre-roll, pending run, capture and counters, and stops exactly when it should |
| EarStream.Chunked | eibrain/body/ear_stream.py:187-191 | the returned pieces join to the payload and are full except possibly the last |
| EarStream.TriggerIsFirst | eibrain/body/ear_stream.py:128-148 | the trigger is the first frame that fires |
| EarStream.CaptureSlices | eibrain/body/ear_stream.py:128-154 | a capture is the last pre-roll frames without voice before its voice run and every frame from the run on; its counters are those of the frames |
| CaptureReading.InlineReadingIff | eibrain/body/ear_stream.py:83-164 | inline mode, from the stream alone: reading ends at the limit, at the end of the stream, or at the first frame after the start of capture with enough captured and the last frames of the stream all below the threshold, and nowhere else |
| CaptureReading.PolicyReadingIff | eibrain/body/ear_stream.py:83-164 | the same in policy mode, in milliseconds of the frames read and of those quiet at the end |
| CaptureReading.InlineTriggerIff | eibrain/body/ear_stream.py:134-141 | inline mode: capture starts with the first frame to complete enough loud frames in a row |
| CaptureReading.PolicyTriggerIff | eibrain/body/ear_stream.py:112-142 | policy mode, short of the limit: it starts with the first frame to bring the loud time to the minimum, without one with a loud first frame |
| CaptureReading.CapturedIs | eibrain/body/ear_stream.py:128-148 | the pre-roll part of a capture is the last of the quiet frames, as many as the pre-roll may hold |
| CaptureReading.FrameCounts | eibrain/body/ear_stream.py:86-91 | each number of frames is the fewest that last as long as its setting asks |
| CaptureReading.JoinedAt | eibrain/body/ear_stream.py:165-191 | the bytes of each frame stand right after those of the frames before it |
| EarStream.InlineTriggerRun | eibrain/body/ear_stream.py:134-141 | in the inline mode the triggering run has exactly the required length |
| EarStream.MaxedOnLastFrame | eibrain/body/ear_stream.py:193-202 | the policy's capture limit is reached exactly with the last frame the loop may read |
| EarStream.FlagsAgreeIff | eibrain/body/ear_stream.py:128-142 | short of the limit, loop and policy agree on the trigger exactly when a positive minimum is set or the first frame holds voice |
| EarStream.FlagsAgreeBeforeLimit | eibrain/body/ear_stream.py:118-148 | with a positive minimum the loop's trigger flag is the policy's at every loop head |
| EarStream.AnnouncedStartIff | eibrain/body/ear_stream.py:124-142 | once the policy has announced the start, the capture has started with that frame or never will; it has exactly when the frame is not the last permitted one and, without a positive minimum of voice, holds voice |
| RingBuffer.PcmRingBuffer.Append | eibrain/body/realtime_audio.py:51-67 | the buffer stays the longest fitting suffix of its history, which grows by the chunk unless that is empty |
| RingBuffer.PcmRingBuffer.Trim | eibrain/body/realtime_audio.py:104-109 | dropping from the front restores the longest fitting suffix |
| RingBuffer.PcmRingBuffer.TakeSnapshot | eibrain/body/realtime_audio.py:69-89 | the shortest suffix covering the request, or the whole buffer; without a request always the whole buffer |
| RingBuffer.StoreConserves | eibrain/body/realtime_audio.py:91-109 | stored and dropped chunks add up to the sequence number, stored and dropped time to all time ever appended |
| RingBuffer.SnapshotOfHistory | eibrain/body/realtime_audio.py:69-89 | when the buffer covers the request, the snapshot is the shortest covering suffix of the whole history |
| RingBuffer.AppendAll | eibrain/body/realtime_audio.py:40-67 | after any sequence of appends, empty payloads included, a new buffer holds the one longest fitting suffix of what they stored |
| WakeDetector.RealtimeWakeDetector.PollOnce | eibrain/body/realtime_audio.py:334-365 | what a poll counts and emits, from the snapshot it takes |
| WakeDetector.PollMeans | eibrain/body/realtime_audio.py:334-365 | a poll takes a new snapshot that is long enough, decodes it if loud and recognized, and emits the text if some wake word stands in it |
| WakeDetector.DecodesBounded | eibrain/body/realtime_audio.py:336-339 | however polls and new chunks interleave, there are no more decodes than new chunks and no more emissions than decodes |
| WakeDetector.DecodedAgainIff | eibrain/body/realtime_audio.py:334-365 | the snapshots of two polls of one buffer, whatever was appended in between, share a chunk exactly when what arrived after the first is shorter than the look-back and, with the last chunk of the first, still fits the buffer |
| WakeDetector.PollAgain | eibrain/body/realtime_audio.py:334-365 | two polls that both decode, with any appends in between, decode some chunk twice exactly then |
| WakeDetector.DecodedAgainOrPushedOut | eibrain/body/realtime_audio.py:104-109 | in a buffer of two seconds with the usual look-back, a short second chunk has the first decoded again, a long one pushes it out |
| WakeDetector.IdlePolls | eibrain/body/realtime_audio.py:336-338 | until a chunk arrives, further polls only count themselves |
| NeckControl.NeckPolicy.Decide | eibrain/body/neck_control.py:102-136 | the whole state after an intent, and the decision with its reason |
| NeckControl.NeckPolicy.MarkCommandStatus | eibrain/body/neck_control.py:138-141 | a driver's report becomes the last status, and a fault unless it is one of four |
| NeckRuns.CommandedIff | eibrain/body/neck_control.py:102-126 | exactly when an intent becomes a command, and which reason is given when several speak against it |
| NeckRuns.DecisionLeaves | eibrain/body/neck_control.py:127-136 | what a command and a suppressed intent leave of the state |
| NeckRuns.ModeLeft | eibrain/body/neck_control.py:164-175 | the mode each kind of intent puts the neck in |
| NeckRuns.UnsmoothedStep | eibrain/body/neck_control.py:148-157 | the step for a target's position is its signed distance from the centre times the gain, to the nearest degree, between one degree and the largest step |
| NeckRuns.SmoothedStep | eibrain/body/neck_control.py:158-162 | with a target seen before, the smoothed part of that step, to the nearest degree and one at least |
| NeckRuns.DesiredStays | eibrain/body/neck_control.py:151-152 | within the deadband the neck stays |
| NeckRuns.DesiredDestination | eibrain/body/neck_control.py:144-147 | an intent with an angle goes there, one without any target home, as far as the pan range allows |
| NeckRuns.DesiredBounds | eibrain/body/neck_control.py:143-162 | for a target position the desired angle stays in range and within a step of the last one |
| NeckRuns.SmoothedBetween | eibrain/body/neck_control.py:158-159 | smoothing ends between where it starts and where it was heading |
| NeckRuns.RunSpaced | eibrain/body/neck_control.py:120-126 | for any intents, consecutive commands are at least the minimum interval apart |
| NeckRuns.RunBounded | eibrain/body/neck_control.py:127-136 | for target positions, no command in a run moves further than a step or leaves the pan range |
| NeckRuns.TravelBound | eibrain/body/neck_control.py:102-136 | total travel in any window of time is at most one step more than the minimum intervals that fit in it |
| NeckRuns.StepLimitIff | eibrain/body/neck_control.py:143-162 | an intent of any kind stays in the pan range, and within a step exactly when it is refused, follows a target position, or has its destination that close |
| NeckRuns.RunLimitIff | eibrain/body/neck_control.py:102-147 | for any intents, every command of a run stays within a step exactly when no intent asks for a jump |
| NeckRuns.RunInRange | eibrain/body/neck_control.py:195-196 | for any intents, no command of a run leaves the pan range, and only commands move the neck |
| NeckRuns.AngleAndHomeJump | eibrain/body/neck_control.py:144-147 | an intent with an angle of its own, and one with no target, can each exceed the step limit |
| NeckRuns.DesiredTowards | eibrain/body/neck_control.py:143-162 | for a position right of the centre beyond the deadband the desired angle lies strictly above the last, for one left of it strictly below, the other way round if inverted, or stays at that pan limit |
| NeckRuns.Converges | eibrain/body/neck_control.py:123-136 | under a position held right or left of the centre every command moves to that side until its pan limit, no more are issued than degrees are left, and the limit is reached |
| NeckFusion.ReachableStorable | eibrain/body/neck_fusion.py:271-301 | every state a run reaches survives its dictionary form unchanged |
| NeckFusion.DictKeys | eibrain/body/neck_fusion.py:271-301 | what the dictionary form holds under each key, and what missing entries read as |
| NeckFusion.PanIff | eibrain/body/neck_fusion.py:121-164 | a pan is recommended exactly when the latest calls, as many as required, all qualify on that side and the last call did not just act |
| NeckFusion.StreakMeans | eibrain/body/neck_fusion.py:121-140 | a streak of n means that the latest n calls were confident and had the target that far right, or left, of the centre |
| NeckFusion.PanMoves | eibrain/body/neck_fusion.py:153-164 | a pan in a run goes to the side of the centre the position is on, stays in the pan range, and goes as far as the position asks, to the nearest degree between the smallest and the largest step |
| NeckFusion.StepSizeScales | eibrain/body/neck_fusion.py:153-159 | the step is the scaled error to the nearest degree between its limits, and grows with the error |
| NeckFusion.HeldMeans | eibrain/body/neck_fusion.py:84-151 | a call in a run is held by the rate limit exactly when its streak would do and is sent on to the target of the action just before, unless that is zero; every other held neck stays where it is |
| NeckFusion.HeldShort | eibrain/body/neck_fusion.py:84-119 | a call is held as too faint, within the deadband or within the hysteresis exactly by its score and its distance from the centre |
| NeckFusion.AdviseRecords | eibrain/body/neck_fusion.py:121-140 | what a call records of what it saw |
| NeckFusion.LimitActiveIff | eibrain/body/neck_fusion.py:242-247 | the rate limit is in force exactly when the call just before acted less than the interval ago |
| NeckFusion.PanAfterAction | eibrain/body/neck_fusion.py:145-151 | a pan right after a call that acted comes at least the interval later |
| NeckFusion.HoldResetsLimit | eibrain/body/neck_fusion.py:125-126 | with a held call in between, two pans can be closer than the interval |
| NeckFusion.RecenterIff | eibrain/body/neck_fusion.py:166-199 | a recentering happens exactly when the target is missing, the neck off home, and the last sighting, or the first call, long enough ago |
| NeckFusion.RecenterFindsNoRecentSighting | eibrain/body/neck_fusion.py:173-199 | with time moving forward, every sighting is then at least the waiting time old |
| Statistics.P95WithinIff | apps/body_runtime/voice_chain_benchmark.py:473-476 | the p95 is within a limit exactly when at least 95% of the samples, rounded up, are |
| Statistics.PercentileWithinIff | apps/body_runtime/vision_soak.py:933-937 | a percentile is within a limit exactly when as many values as its rank are, which for a fraction in range is that fraction of them, rounded up |
| VisionSoak.TrackIdSwitchCount | apps/body_runtime/vision_soak.py:451-464 | the one-pass count is the sum, over the subjects, of adjacent unequal identifiers in each subject's own sequence |
| VisionSoak.FrameDropTolerance | apps/body_runtime/vision_soak.py:509-519 | the length of the longest contiguous block of dropout rows |
| VisionSoak.CollectVisionSoak | apps/body_runtime/vision_soak.py:52-83 | the loop ends, takes at most one sample per interval, stops only at the deadline, and stamps each sample with the time since the start |
| VisionSoak.CollectedTimes | apps/body_runtime/vision_soak.py:60-83 | elapsed times rise and stay below the duration; the errors are the samples of failed readings, one each |
| VoiceChainBenchmark.InterruptStopSummary | apps/body_runtime/voice_chain_benchmark.py:241-270 | ready exactly when there is an interrupted turn and all of them are confirmed; the failures are the others |
| VoiceChainBenchmark.StreamingSummary | apps/body_runtime/voice_chain_benchmark.py:273-290 | ready exactly when there are turns and all of them stream |
| VoiceChainBenchmark.MetricFields | apps/body_runtime/voice_chain_benchmark.py:142-148 | the labelled fields, then in ascending order the others that have a threshold or, in some turn, a name in milliseconds |
| VoiceChainBenchmark.ReadinessSummary | apps/body_runtime/voice_chain_benchmark.py:350-391 | ready exactly when there are turns and all parts pass, which is when no reason is given |
| VoiceChainBenchmark.JoyinsideReadiness | apps/body_runtime/voice_chain_benchmark.py:394-464 | 25 points for each part that passes and the grade of that score, one blocking reason for each that does not, and for each failed metric; ready, score 100, grade A and no blocking reason are the same |
| VoiceChainBenchmark.FailedIff | apps/body_runtime/voice_chain_benchmark.py:342-347 | a metric fails exactly when it has a threshold and too few of its samples are within it |
| VoiceChainBenchmark.SummarizeVoiceChain | apps/body_runtime/voice_chain_benchmark.py:69-123 | both gates, score, grade and blocking list agree, and pass exactly the turns that meet the acceptance conditions themselves; each metric counts the turns with its field, and its p95 is within just the limits that 95% of them are |
| VoiceChainBenchmark.TurnMeans | apps/body_runtime/voice_chain_benchmark.py:241-290 | what makes a turn interrupted, leaking, streaming, and its stop confirmed |
| VoiceChainBenchmark.ThresholdsInForce | apps/body_runtime/voice_chain_benchmark.py:69-74 | the caller's thresholds, and a default for the four gated metrics |
| ReplyStream.SplitReplyDeltas | apps/cognitive_runtime/app.py:730-752 | the deltas join to the reply, each but possibly the last is one sentence with its whitespace; an all-whitespace reply has none |
| ReplyStream.SentenceEnds | apps/cognitive_runtime/app.py:735-738 | the six characters that end a sentence |
| ReplyStream.SplitUnique | apps/cognitive_runtime/app.py:730-752 | no other split of the text has that form |
| ReplyStream.AccumulateReply | apps/body_runtime/voice_dialogue_loop.py:1426-1447 | the accumulated reply is the join of the deltas that arrive while the turn is current, and the session takes each nonempty one as a call |
| ReplyStream.DeltasReachSession | apps/body_runtime/voice_dialogue_loop.py:1433-1436 | a current session has its reply text extended by the joined deltas, with one log entry each |
| ReplyStream.StreamReply | apps/cognitive_runtime/app.py:277-288 | a reply split, streamed and accumulated is the reply again, or a beginning of it if the turn ends before |

## Left out

- Subprocess, audio, camera, I2C, accelerator, HTTP and file input and output; locks and threads. Audio is a sequence of frames
  with their levels, the clock and the sleeper of the soak loop are a function from turns to readings.
- Rounding of reported numbers to two or three digits, and floating-point error in levels, times and percentile ranks.
- Reading event and turn dictionaries: key aliases, truth values of arbitrary objects and number parsing. Messages and turns
  come with their fields already picked out; dictionary payloads hold text only.
- StreamingAdapter.VoiceStreamingAdapter.ApplyNamedEvent: how a text of the trace reads as a number is a parameter.
- NeckControl.NeckPolicy.Decide: labels are lower-cased for letters that lower to ASCII only.
- EventMetrics.EventSampleMetrics: every event has a time, as the session's own events do.
- VoiceChainBenchmark.SummarizeVoiceChain: averages, stage latencies, per-round reports, the bottleneck and the texts of
  reasons and next actions, which only reshape the same values.
- ReplyStream.AccumulateReply: what the check before each item finds is a parameter, as it belongs to classes outside this
  model; publishing the state and the actions of stream items are left out.
- WakeDetector.RealtimeWakeDetector.PollOnce: what the recognizer returns for a snapshot is a parameter, and transcript
  replacement is part of it.
- The threaded dialogue loop as a whole, memory, scene graph, target lock, operator console, deployment and tuning scripts.
