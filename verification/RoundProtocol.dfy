/** What every run of calls on a realtime voice session keeps. */
module RoundProtocol {
  import opened Basics
  import opened Text
  import opened RealtimeVoice

  // ----- the invariant of every reachable state -----

  /** One step per set flag, and no target twice. */
  ghost predicate OneStepPerFlag(c: Cancellation) {
    && (forall t: Target :: c.Flag(t) <==> exists k :: 0 <= k < |c.chain| && c.chain[k].target == t)
    && (forall j, k :: 0 <= j < k < |c.chain| ==> c.chain[j].target != c.chain[k].target)
  }

  /** Every log entry and every chain step carries the current identifiers. */
  ghost predicate Stamped(s: Session) {
    && (forall e :: e in s.events ==> e.roundId == s.round.id && e.token == s.round.token)
    && (forall c :: c in s.cancellation.chain ==> c.roundId == s.round.id && c.token == s.round.token)
  }

  ghost predicate Inv(s: Session) {
    && s.round.id != "" && s.round.token != ""
    && OneStepPerFlag(s.cancellation)
    && Stamped(s)
    && (s.stage.interrupted ==> forall t: Target :: s.cancellation.Flag(t))
  }

  lemma CancelledKeeps(s: Session, t: Target, reason: string, at: real)
    requires OneStepPerFlag(s.cancellation) && Stamped(s)
    ensures var r := Cancelled(s, t, reason, at);
      OneStepPerFlag(r.cancellation) && Stamped(r) && r.cancellation.Flag(t)
      && (forall u: Target :: s.cancellation.Flag(u) ==> r.cancellation.Flag(u))
  {
    if !s.cancellation.Flag(t) {
      MarkedKeeps(s.cancellation, t, CancelStep(t, reason, at, s.round.id, s.round.token));
    }
  }

  lemma MarkedKeeps(c: Cancellation, t: Target, step: CancelStep)
    requires OneStepPerFlag(c) && !c.Flag(t) && step.target == t
    ensures var r := c.Marked(t, step); OneStepPerFlag(r) && r.Flag(t) && forall u: Target :: c.Flag(u) ==> r.Flag(u)
  {
    var r := c.Marked(t, step);
    assert r.chain[|c.chain|].target == t && r.chain[..|c.chain|] == c.chain;
    forall u: Target
      ensures r.Flag(u) <==> exists k :: 0 <= k < |r.chain| && r.chain[k].target == u
    {
      assert r.Flag(u) <==> c.Flag(u) || u == t;
      if c.Flag(u) {
        var k :| 0 <= k < |c.chain| && c.chain[k].target == u;
        assert r.chain[k].target == u;
      }
    }
  }

  lemma InterruptedKeeps(s: Session, reason: string, now: real)
    requires OneStepPerFlag(s.cancellation) && Stamped(s)
    ensures var r := Interrupted(s, reason, now);
      OneStepPerFlag(r.cancellation) && Stamped(r) && r.round == s.round && forall t: Target :: r.cancellation.Flag(t)
  {
    var stopped := s.(stage := s.stage.(interrupted := true, interruptReason := reason));
    var s0 := Transitioned(stopped, BargeIn, InterruptedStatus, now, InterruptLane, InterruptNoted, "", "", reason, ReasonPayload(reason));
    var s1 := Cancelled(s0, Generation, reason, now);
    var s2 := Cancelled(s1, Tts, reason, now);
    CancelledKeeps(s0, Generation, reason, now);
    CancelledKeeps(s1, Tts, reason, now);
    CancelledKeeps(s2, ActionPlan, reason, now);
  }

  lemma PlainKeeps(s: Session, c: Call, now: real)
    requires Plain(c) && Inv(s)
    ensures Inv(PlainEffect(s, c, now))
  {
  }

  lemma StepKeepsInv(s: Session, i: Input)
    requires Inv(s)
    ensures Inv(Step(s, i).session)
  {
    EffectKeepsInv(s, i);
  }

  lemma EffectKeepsInv(s: Session, i: Input)
    requires Inv(s)
    ensures Inv(Effect(s, i))
  {
    if i.call.Interrupt? {
      InterruptedKeeps(s, i.call.reason, i.now);
    } else if i.call.MarkCancelled? {
      CancelledKeeps(s, i.call.target, i.call.reason, i.now);
    } else if i.Fresh() {
      NextRoundNamed(s, i);
      ListenedKeeps(s.(round := NextRound(s.names, s.round, i.roundId, i.token), events := []), i.now);
    } else if i.call.StartListening? {
      ListenedKeeps(s, i.now);
    } else {
      PlainKeeps(s, i.call, i.now);
    }
  }

  lemma NextRoundNamed(s: Session, i: Input)
    ensures var r := NextRound(s.names, s.round, i.roundId, i.token); r.id != "" && r.token != ""
  {
  }

  lemma ListenedKeeps(s: Session, now: real)
    requires s.round.id != "" && s.round.token != ""
    requires forall e :: e in s.events ==> e.roundId == s.round.id && e.token == s.round.token
    ensures Inv(Listened(s, now))
  {
  }

  lemma {:induction false} RunKeepsInv(s: Session, inputs: seq<Input>)
    requires Inv(s)
    ensures Inv(Run(s, inputs))
    decreases |inputs|
  {
    if inputs != [] {
      StepKeepsInv(s, inputs[0]);
      RunKeepsInv(Step(s, inputs[0]).session, inputs[1..]);
    }
  }

  /** In every state a session can reach: one chain step per set flag, an interruption sets all three flags,
      and nothing in the log or the chain belongs to another round. */
  lemma ReachableInv(names: Names, roundId: Option<string>, token: Option<string>, inputs: seq<Input>)
    ensures Inv(Run(NewSession(names, roundId, token), inputs))
  {
    RunKeepsInv(NewSession(names, roundId, token), inputs);
  }

  lemma ChainAtMostThree(c: Cancellation)
    requires OneStepPerFlag(c)
    ensures |c.chain| <= 3
  {
    TwoAlike(c.chain);
  }

  lemma TwoAlike(chain: seq<CancelStep>)
    ensures |chain| > 3 ==> exists j, k :: 0 <= j < k < |chain| && chain[j].target == chain[k].target
  {
    if |chain| > 3 {
      var a, b, d, e := chain[0].target, chain[1].target, chain[2].target, chain[3].target;
      assert a == b || a == d || a == e || b == d || b == e || d == e;
    }
  }

  // ----- terminal rounds -----

  /** The session without its cancellation state and its log. */
  function Core(s: Session): Session {
    s.(cancellation := NOTHING_CANCELLED, events := [])
  }

  predicate Trailing(s: Session, r: Session)
  {
    && s.events <= r.events
    && forall k :: |s.events| <= k < |r.events| ==>
         r.events[k].lane == InterruptLane && r.events[k].eventType.StepNoted?
  }

  lemma TerminalStep(s: Session, i: Input)
    requires Terminal(s.stage.phase) && i.Identified() && !i.Fresh()
    ensures var r := Step(s, i).session;
      Core(r) == Core(s) && Trailing(s, r)
      && |r.events| - |s.events| == |r.cancellation.chain| - |s.cancellation.chain|
    ensures !i.call.MarkCancelled? ==> Step(s, i) == StepResult(s, Stale)
  {
  }

  /** Once a round is over, identified calls leave phase, transcripts, reply, marks and identifiers as they are,
      however many arrive and in whatever order; all they can add is the missing cancellation steps, three at most. */
  lemma {:induction false} TerminalFrozen(s: Session, inputs: seq<Input>)
    requires Inv(s) && Terminal(s.stage.phase)
    requires forall i :: i in inputs ==> i.Identified() && !i.Fresh()
    ensures var r := Run(s, inputs);
      Core(r) == Core(s) && Trailing(s, r)
      && |r.events| - |s.events| == |r.cancellation.chain| - |s.cancellation.chain| <= 3
    decreases |inputs|
  {
    if inputs == [] {
      ChainAtMostThree(s.cancellation);
    } else {
      var m := Step(s, inputs[0]).session;
      TerminalStep(s, inputs[0]);
      StepKeepsInv(s, inputs[0]);
      TerminalFrozen(m, inputs[1..]);
      RunKeepsInv(s, inputs);
      ChainAtMostThree(Run(s, inputs).cancellation);
    }
  }

  /** Exactly which calls take a finished round out of its terminal phase: a fresh round, or a call that names no round. */
  lemma LeavesTerminalIff(s: Session, i: Input)
    requires Terminal(s.stage.phase)
    ensures !Terminal(Step(s, i).session.stage.phase)
       <==> i.Fresh() || (!i.Identified() && (i.call.StartListening? || i.call.UpdatePartial? || i.call.Finalize?
                                              || i.call.AppendReply? || i.call.StartSpeaking?))
  {
    match i.call
    case Interrupt(reason) => InterruptedPhase(s, reason, i.now);
    case _ =>
  }

  /** An accepted call that only says again what the finished round already holds, or that only logs. */
  predicate Repeats(s: Session, i: Input) {
    match i.call
    case NoteAudio => s.marks.firstAudio.Some?
    case UpdateMicrofeedback(text) => s.marks.firstMicrofeedback.Some? && s.words.microfeedback == text
    case Interrupt(reason) =>
      s.stage == Stage(BargeIn, InterruptedStatus, true, reason) && s.marks.phaseStarted == Some(i.now)
    case Complete(status) =>
      s.stage.phase == Completed && s.stage.status == GivenStatus(status) && s.marks.phaseStarted == s.marks.completed == Some(i.now)
    case Fail(_) =>
      s.stage.phase == Failed && s.stage.status == ErrorStatus && s.marks.phaseStarted == s.marks.completed == Some(i.now)
    case MarkCancelled(_, _) | RecordStream(_, _, _, _, _) => true
    case _ => false
  }

  /** Exactly which calls leave a finished round as it is, cancellation and log apart: those refused, and those that have
      nothing new for it. Every call refused here carries an identifier or an unknown lane. */
  lemma TerminalKeptIff(s: Session, i: Input)
    requires Terminal(s.stage.phase)
    ensures Core(Step(s, i).session) == Core(s) <==> !Step(s, i).outcome.Accepted? || Repeats(s, i)
    ensures !Step(s, i).outcome.Accepted? ==> i.Identified() || (i.call.RecordStream? && i.call.lane.NotALane?)
  {
    LeavesTerminalIff(s, i);
    match i.call
    case Interrupt(reason) => InterruptedCore(s, reason, i.now);
    case _ =>
  }

  lemma InterruptedCore(s: Session, reason: string, now: real)
    ensures Core(Interrupted(s, reason, now))
         == Core(s).(stage := Stage(BargeIn, InterruptedStatus, true, reason), marks := s.marks.(phaseStarted := Some(now)))
  {
  }

  lemma InterruptedPhase(s: Session, reason: string, now: real)
    ensures Interrupted(s, reason, now).stage.phase == BargeIn
  {
  }

  lemma StepAppends(s: Session, i: Input)
    requires !i.Fresh()
    ensures s.events <= Step(s, i).session.events
  {
  }

  /** The log is append-only between fresh rounds. */
  lemma {:induction false} LogAppendOnly(s: Session, inputs: seq<Input>)
    requires forall i :: i in inputs ==> !i.Fresh()
    ensures s.events <= Run(s, inputs).events
    decreases |inputs|
  {
    if inputs != [] {
      StepAppends(s, inputs[0]);
      LogAppendOnly(Step(s, inputs[0]).session, inputs[1..]);
    }
  }

  // ----- stale calls across rounds -----

  function RoundSuffix(n: nat): string {
    if n == 1 then "round" else "round-" + Decimal(n)
  }

  function GeneratedId(names: Names, n: nat): string {
    IdentifierBase("", names) + "-" + RoundSuffix(n)
  }

  function GeneratedRound(names: Names, n: nat): Round {
    Round(GeneratedId(names, n), GeneratedId(names, n) + "-token", n)
  }

  /** No usable identifier was supplied, so one is generated. */
  predicate Unsupplied(value: Option<string>) {
    Strip(value.GetOr("")) == ""
  }

  predicate GeneratesIds(i: Input) {
    i.Fresh() ==> Unsupplied(i.roundId) && Unsupplied(i.token)
  }

  function FreshCount(inputs: seq<Input>): nat {
    if inputs == [] then 0 else (if inputs[0].Fresh() then 1 else 0) + FreshCount(inputs[1..])
  }

  lemma GeneratedIdTrimmed(names: Names, n: nat)
    ensures var id := GeneratedId(names, n); id != "" && Strip(id) == id
  {
    var text := if names.sessionId != "" then names.sessionId else if names.actorId != "" then names.actorId else "voice";
    StripTrims(text);
    var base, suffix, id := IdentifierBase("", names), RoundSuffix(n), GeneratedId(names, n);
    assert base != "" && !IsSpace(base[0]) && id[0] == base[0];
    assert suffix != "" && !IsSpace(suffix[|suffix| - 1]) && id[|id| - 1] == suffix[|suffix| - 1];
    StripTrims(id);
  }

  lemma GeneratedIdInjective(names: Names, m: nat, n: nat)
    requires 1 <= m && 1 <= n && GeneratedId(names, m) == GeneratedId(names, n)
    ensures m == n
  {
    var p := IdentifierBase("", names) + "-";
    assert GeneratedId(names, m)[|p|..] == RoundSuffix(m) && GeneratedId(names, n)[|p|..] == RoundSuffix(n);
    if m > 1 && n > 1 {
      assert RoundSuffix(m)[|"round-"|..] == Decimal(m) && RoundSuffix(n)[|"round-"|..] == Decimal(n);
      DecimalInjective(m, n);
    }
  }

  lemma DistinctRounds(names: Names, m: nat, n: nat)
    requires 1 <= m < n
    ensures GeneratedRound(names, m).id != GeneratedRound(names, n).id
    ensures GeneratedRound(names, m).token != GeneratedRound(names, n).token
  {
    var a, b := GeneratedRound(names, m), GeneratedRound(names, n);
    assert a.id == a.token[..|a.token| - 6] && b.id == b.token[..|b.token| - 6];
    if a.id == b.id || a.token == b.token {
      GeneratedIdInjective(names, m, n);
    }
  }

  lemma NewRoundIsGenerated(names: Names, roundId: Option<string>, token: Option<string>, n: nat)
    requires Unsupplied(roundId) && Unsupplied(token)
    ensures NewRound(names, roundId, token, RoundSuffix(n), n) == GeneratedRound(names, n)
  {
    GeneratedIdTrimmed(names, n);
  }

  /** How a call changes the round, whatever else it does. */
  function RoundStep(names: Names, r: Round, i: Input): Round {
    if i.Fresh() then NextRound(names, r, i.roundId, i.token) else r
  }

  function RoundAfter(names: Names, r: Round, inputs: seq<Input>): Round
    decreases |inputs|
  {
    if inputs == [] then r else RoundAfter(names, RoundStep(names, r, inputs[0]), inputs[1..])
  }

  lemma StepRound(s: Session, i: Input)
    ensures Step(s, i).session.names == s.names && Step(s, i).session.round == RoundStep(s.names, s.round, i)
  {
  }

  lemma {:induction false} RunRound(s: Session, inputs: seq<Input>)
    ensures Run(s, inputs).names == s.names && Run(s, inputs).round == RoundAfter(s.names, s.round, inputs)
    decreases |inputs|
  {
    if inputs != [] {
      StepRound(s, inputs[0]);
      RunRound(Step(s, inputs[0]).session, inputs[1..]);
    }
  }

  /** The round that follows a number of fresh starts with generated identifiers. */
  lemma {:induction false} GeneratedAfter(names: Names, r: Round, inputs: seq<Input>)
    requires r.sequence >= 1
    requires forall i :: i in inputs ==> GeneratesIds(i)
    ensures var n := FreshCount(inputs);
      RoundAfter(names, r, inputs) == if n == 0 then r else GeneratedRound(names, r.sequence + n)
    decreases |inputs|
  {
    if inputs != [] {
      var i := inputs[0];
      assert GeneratesIds(i);
      if i.Fresh() {
        NewRoundIsGenerated(names, i.roundId, i.token, r.sequence + 1);
      }
      GeneratedAfter(names, RoundStep(names, r, i), inputs[1..]);
    }
  }

  lemma LaterRoundDiffers(names: Names, m: nat, after: seq<Input>)
    requires m >= 1 && FreshCount(after) >= 1
    requires forall j :: j in after ==> GeneratesIds(j)
    ensures var earlier, later := GeneratedRound(names, m), RoundAfter(names, GeneratedRound(names, m), after);
      earlier.id != later.id && earlier.token != later.token
  {
    GeneratedAfter(names, GeneratedRound(names, m), after);
    DistinctRounds(names, m, m + FreshCount(after));
  }

  lemma OtherRoundRejected(s: Session, i: Input)
    requires !i.Fresh()
    requires (i.roundId.Some? && i.roundId.value != s.round.id) || (i.token.Some? && i.token.value != s.round.token)
    ensures Step(s, i).session == s && !Step(s, i).outcome.Accepted?
  {
  }

  /** Across any number of fresh rounds with generated identifiers, every call that carries the identifier or the
      token of an earlier round is rejected and changes nothing. */
  lemma EarlierRoundRejected(names: Names, before: seq<Input>, after: seq<Input>, i: Input)
    requires forall j :: j in before || j in after ==> GeneratesIds(j)
    requires FreshCount(after) >= 1 && !i.Fresh()
    requires var earlier := Run(NewSession(names, None, None), before).round;
      i.roundId == Some(earlier.id) || i.token == Some(earlier.token)
    ensures var now := Run(Run(NewSession(names, None, None), before), after);
      Step(now, i).session == now && !Step(now, i).outcome.Accepted?
  {
    var left := Run(NewSession(names, None, None), before);
    RoundReached(names, before);
    RunRound(left, after);
    LaterRoundDiffers(names, 1 + FreshCount(before), after);
    OtherRoundRejected(Run(left, after), i);
  }

  lemma RoundReached(names: Names, inputs: seq<Input>)
    requires forall j :: j in inputs ==> GeneratesIds(j)
    ensures var s := Run(NewSession(names, None, None), inputs);
      s.names == names && s.round == GeneratedRound(names, 1 + FreshCount(inputs))
  {
    NewRoundIsGenerated(names, None, None, 1);
    RunRound(NewSession(names, None, None), inputs);
    GeneratedAfter(names, GeneratedRound(names, 1), inputs);
  }

  /** A call that only its identifiers could get refused in a live round: it starts no fresh one and names no unknown lane. */
  predicate Ordinary(i: Input) {
    !i.Fresh() && !(i.call.RecordStream? && i.call.lane.NotALane?)
  }

  predicate CarriesOnly(i: Input, round: Round) {
    (i.roundId.Some? ==> i.roundId.value == round.id) && (i.token.Some? ==> i.token.value == round.token)
  }

  predicate Live(s: Session) {
    !s.stage.interrupted && !Terminal(s.stage.phase)
  }

  /** Whatever identifiers a session has had so far, once fresh rounds with generated ones have followed and the round is
      live, calls are taken exactly when the identifiers they carry are those generated for that round. */
  lemma TakenIff(s: Session, inputs: seq<Input>, i: Input)
    requires s.round.sequence >= 1 && FreshCount(inputs) >= 1
    requires forall j :: j in inputs ==> GeneratesIds(j)
    requires Live(Run(s, inputs)) && Ordinary(i)
    ensures Step(Run(s, inputs), i).outcome.Accepted?
       <==> CarriesOnly(i, GeneratedRound(s.names, s.round.sequence + FreshCount(inputs)))
  {
    RunRoundGenerated(s, inputs);
    LiveTakes(Run(s, inputs), i);
  }

  ghost predicate AllGenerate(inputs: seq<Input>) {
    forall j :: j in inputs ==> GeneratesIds(j)
  }

  lemma RunRoundGenerated(s: Session, inputs: seq<Input>)
    requires s.round.sequence >= 1 && FreshCount(inputs) >= 1 && AllGenerate(inputs)
    ensures Run(s, inputs).round == GeneratedRound(s.names, s.round.sequence + FreshCount(inputs))
  {
    RunRound(s, inputs);
    AfterIsGenerated(s.names, s.round, inputs);
  }

  lemma AfterIsGenerated(names: Names, r: Round, inputs: seq<Input>)
    requires r.sequence >= 1 && FreshCount(inputs) >= 1 && AllGenerate(inputs)
    ensures RoundAfter(names, r, inputs) == GeneratedRound(names, r.sequence + FreshCount(inputs))
  {
    GeneratedAfter(names, r, inputs);
  }

  lemma LiveTakes(s: Session, i: Input)
    requires Live(s) && Ordinary(i)
    ensures Step(s, i).outcome.Accepted? <==> CarriesOnly(i, s.round)
  {
  }

  /** So a first identifier chosen by the caller is not protected: a later live round takes calls for it again exactly when
      it is spelled like the identifier generated for that round. */
  lemma SuppliedIdReadmittedIff(names: Names, first: string, token: Option<string>, inputs: seq<Input>, i: Input)
    requires Strip(first) != "" && FreshCount(inputs) >= 1
    requires forall j :: j in inputs ==> GeneratesIds(j)
    requires Live(Run(NewSession(names, Some(first), token), inputs)) && Ordinary(i)
    requires i.roundId == Some(Strip(first)) && i.token == None
    ensures NewSession(names, Some(first), token).round.id == Strip(first)
    ensures Step(Run(NewSession(names, Some(first), token), inputs), i).outcome.Accepted?
       <==> Strip(first) == GeneratedId(names, FreshCount(inputs) + 1)
  {
    TakenIff(NewSession(names, Some(first), token), inputs, i);
  }

  /** Nor is a first cancellation token chosen by the caller. */
  lemma SuppliedTokenReadmittedIff(names: Names, id: Option<string>, first: string, inputs: seq<Input>, i: Input)
    requires Strip(first) != "" && FreshCount(inputs) >= 1
    requires forall j :: j in inputs ==> GeneratesIds(j)
    requires Live(Run(NewSession(names, id, Some(first)), inputs)) && Ordinary(i)
    requires i.roundId == None && i.token == Some(Strip(first))
    ensures NewSession(names, id, Some(first)).round.token == Strip(first)
    ensures Step(Run(NewSession(names, id, Some(first)), inputs), i).outcome.Accepted?
       <==> Strip(first) == GeneratedId(names, FreshCount(inputs) + 1) + "-token"
  {
    TakenIff(NewSession(names, id, Some(first)), inputs, i);
  }

  /** Every session has such identifiers: those its second round will be given, supplied for its first. A call that carries
      only one of them is taken by the second round, although it was meant for the first. */
  lemma SuppliedReadmitted(names: Names)
    ensures var second := GeneratedRound(names, 2);
      var start := Input(StartListening(true), None, None, 1.0);
      var byId, byToken := NewSession(names, Some(second.id), None), NewSession(names, None, Some(second.token));
      && byId.round.id == second.id && byToken.round.token == second.token
      && Step(Step(byId, start).session, Input(NoteAudio, Some(second.id), None, 2.0)).outcome.Accepted?
      && Step(Step(byToken, start).session, Input(NoteAudio, None, Some(second.token), 2.0)).outcome.Accepted?
  {
    var second, start := GeneratedRound(names, 2), Input(StartListening(true), None, None, 1.0);
    GeneratedIdTrimmed(names, 2);
    TokenTrimmed(second.id);
    SecondRound(NewSession(names, Some(second.id), None), start, Some(second.id), None);
    SecondRound(NewSession(names, None, Some(second.token)), start, None, Some(second.token));
  }

  lemma TokenTrimmed(id: string)
    requires id != "" && Strip(id) == id
    ensures Strip(id + "-token") == id + "-token"
  {
    var token := id + "-token";
    StripTrims(id);
    assert token[0] == id[0] && token[|token| - 1] == 'n';
    StripTrims(token);
  }

  lemma SecondRound(s: Session, start: Input, id: Option<string>, token: Option<string>)
    requires s.round.sequence == 1 && start == Input(StartListening(true), None, None, 1.0)
    requires id.Some? ==> id.value == GeneratedRound(s.names, 2).id
    requires token.Some? ==> token.value == GeneratedRound(s.names, 2).token
    ensures Step(Step(s, start).session, Input(NoteAudio, id, token, 2.0)).outcome.Accepted?
  {
    NewRoundIsGenerated(s.names, None, None, 2);
    StepRound(s, start);
    StartedLive(s, start);
    LiveTakes(Step(s, start).session, Input(NoteAudio, id, token, 2.0));
  }

  lemma StartedLive(s: Session, start: Input)
    requires start.Fresh()
    ensures Live(Step(s, start).session)
  {
  }
}
