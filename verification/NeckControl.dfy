/** Neck commands from intents: `eibrain/body/neck_control.py`. */
module NeckControl {
  import opened Basics
  import opened Text

  datatype Source = EyeTracking | SafetyHome | ManualSource | VoiceActivity | OtherSource(name: string)

  datatype Intent = Intent(
    source: Source, targetName: string, targetX: Option<real>, targetAngle: Option<int>,
    confidence: real, ttl: real, createdAt: real)

  datatype Config = Config(
    panMin: int, panMax: int, homeAngle: int, deadband: real, stepGain: real, maxStep: int, minInterval: real,
    alpha: real, minConfidence: real, allowedLabels: seq<string>, invert: bool)

  datatype Mode = IdleMode | ListeningMode | AttendingFace | TrackingFace | Holding | Recentering | ManualOverride | Fault

  datatype Reason = IntentExpired | LowConfidence | LabelNotTrackable | SameAngle | MinInterval

  datatype Status = IdleStatus | Command | Suppressed | Reported(text: string)

  datatype State = State(
    mode: Mode, lastAngle: int, desiredAngle: int, lastCommanded: Option<int>, lastCommandAt: Option<real>,
    lastTargetX: Option<real>, activeIntent: Option<Intent>, suppressedReason: Option<Reason>, status: Status, intentCount: nat)

  datatype Decision = Decision(shouldCommand: bool, angle: int, mode: Mode, reason: Option<Reason>)

  function Clip(c: Config, angle: int): int {
    Max(c.panMin, Min(c.panMax, angle))
  }

  function Label(i: Intent): string {
    Lower(Strip(i.targetName))
  }

  /** Why an intent is not even considered, if it is not. */
  function Refusal(c: Config, i: Intent, now: real): Option<Reason> {
    if i.ttl >= 0.0 && now - i.createdAt > i.ttl then Some(IntentExpired)
    else if i.confidence < c.minConfidence then Some(LowConfidence)
    else if i.source.EyeTracking? && Label(i) != "recenter" && c.allowedLabels != [] && Label(i) !in c.allowedLabels
    then Some(LabelNotTrackable)
    else None
  }

  function ModeFor(i: Intent): Mode {
    if i.source.ManualSource? then ManualOverride
    else if i.targetName == "recenter" || i.source.SafetyHome? then Recentering
    else if i.source.VoiceActivity? then ListeningMode
    else if i.source.EyeTracking? then if Label(i) == "face" then TrackingFace else AttendingFace
    else AttendingFace
  }

  /** How far off centre a target is, signed; never more than a half. */
  function Error(c: Config, x: real): real {
    var e := MaxReal(0.0, MinReal(1.0, x)) - 0.5;
    if c.invert then -e else e
  }

  function Scaled(e: real, gain: real): real {
    e * gain
  }

  function StepFor(c: Config, e: real): int {
    var delta := Round(Scaled(e, c.stepGain));
    var atLeastOne := if delta == 0 then if e > 0.0 then 1 else -1 else delta;
    Max(-c.maxStep, Min(c.maxStep, atLeastOne))
  }

  function Part(way: real, alpha: real): real {
    way * alpha
  }

  function Smoothed(last: int, target: int, alpha: real): int {
    Round(last as real + Part((target - last) as real, alpha))
  }

  /** The angle for a target off centre: a limited step, smoothed once a target has been seen before, of one degree at
      least. */
  function Steered(c: Config, e: real, last: int, smooth: bool): int {
    var stepped := Clip(c, last + StepFor(c, e));
    var raw := if smooth then Smoothed(last, stepped, c.alpha) else stepped;
    Clip(c, if raw == last then last + (if e > 0.0 then 1 else -1) else raw)
  }

  function DesiredAngle(c: Config, i: Intent, last: int, seen: bool): int {
    if i.targetAngle.Some? then Clip(c, i.targetAngle.value)
    else if i.targetX.None? then Clip(c, c.homeAngle)
    else
      var e := Error(c, i.targetX.value);
      if AbsReal(e) <= c.deadband then Clip(c, last) else Steered(c, e, last, seen)
  }

  // ----- deciding -----

  function Suppress(c: Config, s: State, i: Intent, reason: Reason, desired: int, mode: Mode): State {
    s.(mode := mode, desiredAngle := desired, activeIntent := Some(i), suppressedReason := Some(reason), status := Suppressed,
       lastTargetX := if i.targetX.Some? then i.targetX else s.lastTargetX)
  }

  function Accept(s: State, i: Intent, now: real, desired: int): State {
    s.(mode := ModeFor(i), desiredAngle := desired, lastAngle := desired, lastCommanded := Some(desired),
       lastCommandAt := Some(now), lastTargetX := i.targetX, activeIntent := Some(i), suppressedReason := None, status := Command)
  }

  function Desired(c: Config, s: State, i: Intent): int {
    DesiredAngle(c, i, s.lastAngle, s.lastTargetX.Some?)
  }

  /** Why an intent is not turned into a command, if it is not. */
  function Verdict(c: Config, s: State, i: Intent, now: real): Option<Reason> {
    if Refusal(c, i, now).Some? then Refusal(c, i, now)
    else if s.lastCommanded == Some(Desired(c, s, i)) then Some(SameAngle)
    else if s.lastCommandAt.Some? && now - s.lastCommandAt.value < c.minInterval then Some(MinInterval)
    else None
  }

  /** The state after an intent, its count apart. */
  function Resolved(c: Config, s: State, i: Intent, now: real): State {
    match Verdict(c, s, i, now)
    case None => Accept(s, i, now, Desired(c, s, i))
    case Some(reason) =>
      if Refusal(c, i, now).Some? then Suppress(c, s, i, reason, s.lastAngle, Holding)
      else Suppress(c, s, i, reason, Clip(c, Desired(c, s, i)), ModeFor(i))
  }

  function Decided(c: Config, s: State, i: Intent, now: real): State {
    Resolved(c, s.(intentCount := s.intentCount + 1), i, now)
  }

  function DecisionOf(c: Config, s: State, i: Intent, now: real): Decision {
    var next := Decided(c, s, i, now);
    Decision(Verdict(c, s, i, now).None?, next.desiredAngle, next.mode, Verdict(c, s, i, now))
  }

  class NeckControlState {
    var mode: Mode
    var lastAngle: int
    var desiredAngle: int
    var lastCommanded: Option<int>
    var lastCommandAt: Option<real>
    var lastTargetX: Option<real>
    var activeIntent: Option<Intent>
    var suppressedReason: Option<Reason>
    var status: Status
    var intentCount: nat

    ghost function View(): State
      reads this
    {
      State(mode, lastAngle, desiredAngle, lastCommanded, lastCommandAt, lastTargetX, activeIntent, suppressedReason, status, intentCount)
    }

    constructor (lastAngle: int := 90, desiredAngle: int := 90)
      ensures View() == State(IdleMode, lastAngle, desiredAngle, None, None, None, None, None, IdleStatus, 0)
    {
      this.lastAngle, this.desiredAngle := lastAngle, desiredAngle;
      mode, lastCommanded, lastCommandAt, lastTargetX := IdleMode, None, None, None;
      activeIntent, suppressedReason, status, intentCount := None, None, IdleStatus, 0;
    }
  }

  class NeckPolicy {
    const config: Config

    constructor (config: Config)
      ensures this.config == config
    {
      this.config := config;
    }

    method Decide(intent: Intent, state: NeckControlState, now: real) returns (decision: Decision)
      modifies state
      ensures state.View() == Decided(config, old(state.View()), intent, now)
      ensures decision == DecisionOf(config, old(state.View()), intent, now)
    {
      state.intentCount := state.intentCount + 1;
      var refusal := Refusal(config, intent, now);
      if refusal.Some? {
        decision := SuppressIntent(intent, state, refusal.value, None, Holding);
        return;
      }
      decision := DecideAngle(intent, state, now);
    }

    /** An intent that is not refused. */
    method DecideAngle(intent: Intent, state: NeckControlState, now: real) returns (decision: Decision)
      requires Refusal(config, intent, now).None?
      modifies state
      ensures state.View() == Resolved(config, old(state.View()), intent, now)
      ensures decision == Decision(Verdict(config, old(state.View()), intent, now).None?, state.desiredAngle, state.mode,
                                   Verdict(config, old(state.View()), intent, now))
    {
      var desired := DesiredAngle(config, intent, state.lastAngle, state.lastTargetX.Some?);
      var nextMode := ModeFor(intent);
      if state.lastCommanded == Some(desired) {
        decision := SuppressIntent(intent, state, SameAngle, Some(desired), nextMode);
        return;
      }
      if state.lastCommandAt.Some? && now - state.lastCommandAt.value < config.minInterval {
        decision := SuppressIntent(intent, state, MinInterval, Some(desired), nextMode);
        return;
      }
      state.mode, state.desiredAngle, state.lastAngle := nextMode, desired, desired;
      state.lastCommanded, state.lastCommandAt, state.lastTargetX := Some(desired), Some(now), intent.targetX;
      state.activeIntent, state.suppressedReason, state.status := Some(intent), None, Command;
      return Decision(true, desired, nextMode, None);
    }

    /** `mark_command_status`: what the driver reports; an empty report leaves the last status, and counts as a fault too. */
    method MarkCommandStatus(state: NeckControlState, status: string)
      modifies state
      ensures state.View() == old(state.View()).(
        status := if status == "" then old(state.status) else Reported(status),
        mode := if status in {"ok", "command", "suppressed", "idle"} then old(state.mode) else Fault)
    {
      if status != "" {
        state.status := Reported(status);
      }
      if status !in {"ok", "command", "suppressed", "idle"} {
        state.mode := Fault;
      }
    }

    method SuppressIntent(intent: Intent, state: NeckControlState, reason: Reason, desired: Option<int>, nextMode: Mode)
      returns (decision: Decision)
      modifies state
      ensures state.View() == Suppress(config, old(state.View()), intent, reason,
                                       if desired.None? then old(state.lastAngle) else Clip(config, desired.value), nextMode)
      ensures decision == Decision(false, state.desiredAngle, nextMode, Some(reason))
    {
      state.mode := nextMode;
      state.desiredAngle := if desired.None? then state.lastAngle else Clip(config, desired.value);
      state.activeIntent, state.suppressedReason, state.status := Some(intent), Some(reason), Suppressed;
      if intent.targetX.Some? {
        state.lastTargetX := intent.targetX;
      }
      return Decision(false, state.desiredAngle, state.mode, Some(reason));
    }
  }
}
