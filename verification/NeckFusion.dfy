/** Pan recommendations fused from target sightings: `eibrain/body/neck_fusion.py`. */
module NeckFusion {
  import opened Basics

  datatype Config = Config(
    homeAngle: int, panMin: int, panMax: int, minConfidence: real, deadband: real, hysteresis: real,
    consecutiveRequired: int, stepGain: real, minStep: int, maxStep: int, minInterval: real, cooldown: real,
    recenterAfter: real)

  /** The name of an action or of a bias direction; a dictionary may hold names the policy never writes. */
  datatype Action = Hold | PanLeft | PanRight | Recenter | OtherAction(name: string)
  datatype Direction = Center | Left | Right | OtherDirection(name: string)
  datatype Jitter = JitterLowConfidence | JitterDeadband | JitterHysteresis | JitterMissing | OtherJitter(name: string)

  datatype Reason =
    | LowConfidence | InsideDeadband | WithinHysteresis | BiasNotConfirmed | CooldownActive | RateLimited | OffsetConfirmed
    | TargetMissingCentered | TargetMissingHold | TargetMissingRecenter

  datatype State = State(
    action: Action, targetAngle: Option<int>, actedAt: Option<real>, bias: Direction, biasCount: int,
    missingSince: Option<real>, lastSeenAt: Option<real>, lastSeenX: Option<real>, lastScore: real, filteredError: real,
    stableCount: int, jitter: Option<Jitter>)

  const START := State(Hold, None, None, Center, 0, None, None, None, 0.0, 0.0, 0, None)

  datatype Recommendation = Recommendation(action: Action, targetAngle: int, reason: Reason, state: State)

  /** One call: the target's position if it is seen, its score, the angle the neck is at, and the time. */
  datatype Sight = Sight(targetX: Option<real>, score: real, currentAngle: int, now: real)

  function Clip(c: Config, angle: int): int {
    Max(c.panMin, Min(c.panMax, angle))
  }

  function TargetError(x: real): real {
    MaxReal(-0.5, MinReal(0.5, x - 0.5))
  }

  function HeldState(s: State, current: int, i: Sight, e: real, jitter: Jitter): State {
    State(Hold, Some(s.targetAngle.GetOr(current)), s.actedAt, Center, 0, None, Some(i.now), i.targetX, i.score, e, 0, Some(jitter))
  }

  predicate RateLimitActive(c: Config, s: State, now: real) {
    && s.actedAt.Some?
    && s.action in {PanLeft, PanRight, Recenter}
    && now - s.actedAt.value < c.minInterval
  }

  predicate CooldownHolds(c: Config, s: State, desired: Action, e: real, now: real) {
    && s.action in {PanLeft, PanRight} && s.action != desired
    && s.actedAt.Some? && now - s.actedAt.value < c.cooldown
    && AbsReal(e) <= c.deadband + c.hysteresis
  }

  function Recommend(c: Config, action: Action, target: int, reason: Reason, next: State): Recommendation {
    Recommendation(action, Clip(c, target), reason, next)
  }

  function MissingState(s: State, current: int, since: real): State {
    State(Hold, Some(s.targetAngle.GetOr(current)), s.actedAt, Center, 0, Some(since), s.lastSeenAt, s.lastSeenX,
          0.0, s.filteredError, 0, Some(JitterMissing))
  }

  function MissingSince(s: State, now: real): real {
    if s.missingSince.Some? then s.missingSince.value else s.lastSeenAt.GetOr(now)
  }

  function RecommendMissing(c: Config, s: State, current: int, home: int, now: real): Recommendation {
    var since := MissingSince(s, now);
    var next := MissingState(s, current, since);
    if current == home then Recommend(c, Hold, home, TargetMissingCentered, next)
    else if now - since < c.recenterAfter then Recommend(c, Hold, current, TargetMissingHold, next)
    else Recommend(c, Recenter, home, TargetMissingRecenter, next.(action := Recenter, targetAngle := Some(home), actedAt := Some(now)))
  }

  function SideOf(e: real): Direction {
    if e > 0.0 then Right else Left
  }

  function PanTo(d: Direction): Action {
    if d == Right then PanRight else PanLeft
  }

  function BiasedState(s: State, current: int, i: Sight, e: real): State {
    var n := if s.bias == SideOf(e) then s.stableCount + 1 else 1;
    State(Hold, Some(s.targetAngle.GetOr(current)), s.actedAt, SideOf(e), n, None, Some(i.now), i.targetX, i.score, e, n, None)
  }

  /** The degrees an error asks for. */
  function Asked(c: Config, e: real): real {
    AbsReal(e) * c.stepGain
  }

  function StepSize(c: Config, e: real): int {
    Max(c.minStep, Min(c.maxStep, Round(Asked(c, e))))
  }

  function RecommendPan(c: Config, s: State, current: int, i: Sight, e: real): Recommendation {
    var next := BiasedState(s, current, i, e);
    var action := PanTo(SideOf(e));
    if next.stableCount < Max(1, c.consecutiveRequired) then Recommend(c, Hold, current, BiasNotConfirmed, next)
    else if CooldownHolds(c, s, action, e, i.now) then Recommend(c, Hold, current, CooldownActive, next)
    else if RateLimitActive(c, s, i.now) then
      // An angle of zero counts as missing here.
      Recommend(c, Hold, if s.targetAngle.Some? && s.targetAngle.value != 0 then s.targetAngle.value else current, RateLimited, next)
    else
      var step := StepSize(c, e);
      var target := Clip(c, if SideOf(e) == Right then current + step else current - step);
      Recommend(c, action, target, OffsetConfirmed, next.(action := action, targetAngle := Some(target), actedAt := Some(i.now)))
  }

  /** `recommend`, on the state carried over from the last call. */
  function Advise(c: Config, s: State, i: Sight): Recommendation {
    var current, home := Clip(c, i.currentAngle), Clip(c, c.homeAngle);
    match i.targetX
    case None => RecommendMissing(c, s, current, home, i.now)
    case Some(x) =>
      var e := TargetError(x);
      if i.score < c.minConfidence then
        Recommend(c, Hold, current, LowConfidence, HeldState(s, current, i, e, JitterLowConfidence))
      else if AbsReal(e) <= c.deadband then
        Recommend(c, Hold, current, InsideDeadband, HeldState(s, current, i, e, JitterDeadband))
      else if AbsReal(e) <= c.deadband + c.hysteresis then
        Recommend(c, Hold, current, WithinHysteresis, HeldState(s, current, i, e, JitterHysteresis))
      else RecommendPan(c, s, current, i, e)
  }

  // ----- the state as a dictionary -----

  /** The dictionary form; a key that is missing or holds nothing is `None`. */
  datatype Dict = Dict(
    action: Option<Action>, targetAngle: Option<int>, actedAt: Option<real>, bias: Option<Direction>, biasCount: Option<int>,
    missingSince: Option<real>, lastSeenAt: Option<real>, lastSeenX: Option<real>, lastScore: Option<real>,
    filteredError: Option<real>, stableCount: Option<int>, jitter: Option<Jitter>)

  function ToDict(s: State): Dict {
    Dict(Some(s.action), s.targetAngle, s.actedAt, Some(s.bias), Some(s.biasCount), s.missingSince, s.lastSeenAt, s.lastSeenX,
         Some(s.lastScore), Some(s.filteredError), Some(s.stableCount), s.jitter)
  }

  /** Missing and empty entries take their defaults; counts are cut off at zero; an old dictionary without a stable
      count falls back on its bias count. */
  function StateFrom(d: Dict): State {
    var bias := d.biasCount.GetOr(0);
    State(if d.action.None? || d.action.value == OtherAction("") then Hold else d.action.value,
          d.targetAngle, d.actedAt,
          if d.bias.None? || d.bias.value == OtherDirection("") then Center else d.bias.value,
          Max(0, bias), d.missingSince, d.lastSeenAt, d.lastSeenX, d.lastScore.GetOr(0.0), d.filteredError.GetOr(0.0),
          Max(0, d.stableCount.GetOr(bias)), d.jitter)
  }

  // ----- runs that feed the state back through its dictionary -----

  function After(c: Config, calls: seq<Sight>): State {
    if calls == [] then START else Last(c, calls).state
  }

  /** The recommendation of the last call of a run from an empty start. */
  function Last(c: Config, calls: seq<Sight>): Recommendation
    requires calls != []
  {
    var n := |calls| - 1;
    Advise(c, if n == 0 then START else StateFrom(ToDict(Last(c, calls[..n]).state)), calls[n])
  }

  /** A state its dictionary form gives back unchanged: names are not empty, counts not negative. */
  predicate Storable(s: State) {
    s.action != OtherAction("") && s.bias != OtherDirection("") && s.biasCount >= 0 && s.stableCount >= 0
  }

  lemma RoundTripIff(s: State)
    ensures StateFrom(ToDict(s)) == s <==> Storable(s)
  {
  }

  /** What the dictionary form holds under each key, and what a form with nothing in it reads as; an old one without a
      stable count takes its bias count for it. */
  lemma DictKeys(s: State, d: Dict)
    ensures var r := ToDict(s);
      && r.action == Some(s.action) && r.targetAngle == s.targetAngle && r.actedAt == s.actedAt && r.bias == Some(s.bias)
      && r.biasCount == Some(s.biasCount) && r.missingSince == s.missingSince && r.lastSeenAt == s.lastSeenAt
      && r.lastSeenX == s.lastSeenX && r.lastScore == Some(s.lastScore) && r.filteredError == Some(s.filteredError)
      && r.stableCount == Some(s.stableCount) && r.jitter == s.jitter
    ensures StateFrom(Dict(None, None, None, None, None, None, None, None, None, None, None, None)) == START
    ensures d.stableCount == None && d.biasCount.Some? && d.biasCount.value >= 0 ==> StateFrom(d).stableCount == d.biasCount.value
  {
  }

  lemma AdviseStorable(c: Config, s: State, i: Sight)
    requires Storable(s)
    ensures Storable(Advise(c, s, i).state)
  {
  }

  /** Every state a run reaches survives the dictionary unchanged. */
  lemma {:induction false} ReachableStorable(c: Config, calls: seq<Sight>)
    ensures Storable(After(c, calls)) && StateFrom(ToDict(After(c, calls))) == After(c, calls)
  {
    if calls != [] {
      var rest := calls[..|calls| - 1];
      ReachableStorable(c, rest);
      AdviseStorable(c, After(c, rest), calls[|calls| - 1]);
    }
    RoundTripIff(After(c, calls));
  }

  lemma LastFromAfter(c: Config, calls: seq<Sight>, i: Sight)
    ensures Last(c, calls + [i]) == Advise(c, After(c, calls), i)
  {
    assert (calls + [i])[..|calls|] == calls;
    ReachableStorable(c, calls);
  }

  // ----- panning -----

  /** A confident sighting beyond deadband and hysteresis on the given side of the centre. */
  predicate Qualifies(c: Config, i: Sight, side: Direction) {
    && i.targetX.Some? && i.score >= c.minConfidence
    && c.deadband < 0.5 && c.deadband + c.hysteresis < 0.5
    && var x := i.targetX.value;
       match side
       case Right => x > 0.5 && x > 0.5 + c.deadband && x > 0.5 + c.deadband + c.hysteresis
       case Left => x <= 0.5 && x < 0.5 - c.deadband && x < 0.5 - c.deadband - c.hysteresis
       case _ => false
  }

  /** The same from the signed error the policy computes. */
  lemma QualifiesIs(c: Config, i: Sight, side: Direction)
    requires side == Left || side == Right
    ensures Qualifies(c, i, side)
       <==> i.targetX.Some? && i.score >= c.minConfidence
            && AbsReal(TargetError(i.targetX.value)) > c.deadband
            && AbsReal(TargetError(i.targetX.value)) > c.deadband + c.hysteresis
            && side == SideOf(TargetError(i.targetX.value))
  {
  }

  /** How many of the latest calls qualify on one side without interruption. */
  function Streak(c: Config, calls: seq<Sight>, side: Direction): (n: nat)
    ensures n <= |calls|
  {
    if calls == [] || !Qualifies(c, calls[|calls| - 1], side) then 0 else 1 + Streak(c, calls[..|calls| - 1], side)
  }

  /** The stable count is the streak on the side of the bias, and there is no streak on the other side. */
  ghost predicate CountsStreak(c: Config, calls: seq<Sight>, s: State) {
    && (s.bias == Center || s.bias == Left || s.bias == Right)
    && Streak(c, calls, Left) == (if s.bias == Left then s.stableCount else 0)
    && Streak(c, calls, Right) == (if s.bias == Right then s.stableCount else 0)
    && (s.bias == Center ==> s.stableCount == 0)
  }

  lemma StreakGrows(c: Config, calls: seq<Sight>, i: Sight, side: Direction)
    ensures Streak(c, calls + [i], side) == if Qualifies(c, i, side) then Streak(c, calls, side) + 1 else 0
  {
    assert (calls + [i])[..|calls|] == calls;
  }

  /** How a call changes bias and stable count. */
  lemma AdviseStreak(c: Config, s: State, i: Sight, side: Direction)
    requires side == Left || side == Right
    ensures var r := Advise(c, s, i).state;
      && (r.bias == side <==> Qualifies(c, i, side))
      && (Qualifies(c, i, side) ==> r.stableCount == if s.bias == side then s.stableCount + 1 else 1)
      && (r.bias == Center || r.bias == Left || r.bias == Right)
      && (r.bias == Center ==> r.stableCount == 0)
  {
    QualifiesIs(c, i, side);
  }

  lemma {:induction false} StreakCounted(c: Config, calls: seq<Sight>)
    ensures CountsStreak(c, calls, After(c, calls))
  {
    if calls != [] {
      var rest, i := calls[..|calls| - 1], calls[|calls| - 1];
      assert calls == rest + [i];
      StreakCounted(c, rest);
      LastFromAfter(c, rest, i);
      AdviseStreak(c, After(c, rest), i, Left);
      AdviseStreak(c, After(c, rest), i, Right);
      StreakGrows(c, rest, i, Left);
      StreakGrows(c, rest, i, Right);
    }
  }

  /** Exactly when a pan is recommended: the latest calls, this one included and as many as required, were all confident
      and beyond deadband and hysteresis on that side, and the last call did not act within the minimum interval. */
  lemma PanIff(c: Config, calls: seq<Sight>, i: Sight, side: Direction)
    requires side == Left || side == Right
    ensures Last(c, calls + [i]).action == PanTo(side)
       <==> Streak(c, calls + [i], side) >= Max(1, c.consecutiveRequired) && !RateLimitActive(c, After(c, calls), i.now)
  {
    LastFromAfter(c, calls, i);
    StreakCounted(c, calls);
    StreakGrows(c, calls, i, side);
  }

  /** What a streak is: the latest calls all qualify. */
  lemma {:induction false} StreakMeans(c: Config, calls: seq<Sight>, side: Direction, n: nat)
    requires n <= |calls|
    ensures Streak(c, calls, side) >= n <==> forall k :: |calls| - n <= k < |calls| ==> Qualifies(c, calls[k], side)
  {
    if n > 0 {
      var rest := calls[..|calls| - 1];
      StreakMeans(c, rest, side, n - 1);
      if Qualifies(c, calls[|calls| - 1], side) && Streak(c, rest, side) >= n - 1 {
        forall k | |calls| - n <= k < |calls| ensures Qualifies(c, calls[k], side) {
          assert k < |rest| ==> calls[k] == rest[k];
        }
      } else if Qualifies(c, calls[|calls| - 1], side) {
        var k :| |rest| - (n - 1) <= k < |rest| && !Qualifies(c, rest[k], side);
        assert calls[k] == rest[k];
      }
    }
  }

  /** The cooldown never holds anything back: it asks for an error within the very threshold that was just exceeded. */
  lemma CooldownNeverActive(c: Config, s: State, i: Sight)
    ensures Advise(c, s, i).reason != CooldownActive
  {
  }

  /** A confirmed pan takes the whole step its error asks for, unless the pan range ends before that. */
  lemma PanTakesStep(c: Config, s: State, i: Sight)
    requires c.panMin <= c.panMax && 0 <= c.minStep
    requires Advise(c, s, i).action == PanLeft || Advise(c, s, i).action == PanRight
    ensures i.targetX.Some? && Advise(c, s, i).action == PanTo(SideOf(TargetError(i.targetX.value)))
    ensures var r, current, step := Advise(c, s, i), Clip(c, i.currentAngle), StepSize(c, TargetError(i.targetX.value));
      r.targetAngle == if r.action == PanRight then Min(c.panMax, current + step) else Max(c.panMin, current - step)
  {
  }

  /** The step is what the error asks for, to the nearest degree, where that lies between the smallest and the largest
      step; a larger error never asks for a smaller step. */
  lemma StepSizeScales(c: Config, e: real, f: real)
    requires c.minStep <= c.maxStep && c.stepGain >= 0.0
    ensures c.minStep <= StepSize(c, e) <= c.maxStep
    ensures c.minStep as real <= Asked(c, e) <= c.maxStep as real ==> -0.5 <= StepSize(c, e) as real - Asked(c, e) <= 0.5
    ensures AbsReal(e) <= AbsReal(f) ==> StepSize(c, e) <= StepSize(c, f)
  {
    if AbsReal(e) <= AbsReal(f) {
      AskedMonotone(c, e, f);
      RoundMonotone(Asked(c, e), Asked(c, f));
    }
  }

  lemma AskedMonotone(c: Config, e: real, f: real)
    requires c.stepGain >= 0.0 && AbsReal(e) <= AbsReal(f)
    ensures Asked(c, e) <= Asked(c, f)
  {
    Times(AbsReal(f) - AbsReal(e), c.stepGain);
  }

  lemma Times(x: real, y: real)
    requires x >= 0.0 && y >= 0.0
    ensures x * y >= 0.0
  {
  }

  lemma RoundMonotone(x: real, y: real)
    requires x <= y
    ensures Round(x) <= Round(y)
  {
  }

  /** The degrees a position asks for, to the right of the centre positive. */
  function Pull(c: Config, x: real): real {
    ((if x < 0.0 then 0.0 else if x > 1.0 then 1.0 else x) - 0.5) * c.stepGain
  }

  /** A pan in a run: it stays in the pan range and goes to the side the target is on, by no more than a step; and where the
      range does not come in the way, it goes as far as the position asks, to the nearest degree between the smallest and
      the largest step. */
  lemma PanMoves(c: Config, calls: seq<Sight>, i: Sight)
    requires c.panMin <= c.panMax && 0 <= c.minStep <= c.maxStep && c.stepGain >= 0.0
    requires Last(c, calls + [i]).action == PanLeft || Last(c, calls + [i]).action == PanRight
    ensures i.targetX.Some?
    ensures var r, current, x := Last(c, calls + [i]), Clip(c, i.currentAngle), i.targetX.value;
      var move := r.targetAngle - current;
      && c.panMin <= r.targetAngle <= c.panMax
      && (r.action == PanRight <==> x > 0.5)
      && (if x > 0.5 then 0 <= move <= c.maxStep else -c.maxStep <= move <= 0)
      && (c.panMin < r.targetAngle < c.panMax ==>
            && (AbsReal(Pull(c, x)) <= c.minStep as real ==> move == if x > 0.5 then c.minStep else -c.minStep)
            && (c.minStep as real <= AbsReal(Pull(c, x)) <= c.maxStep as real ==> -0.5 <= move as real - Pull(c, x) <= 0.5)
            && (AbsReal(Pull(c, x)) >= c.maxStep as real ==> move == if x > 0.5 then c.maxStep else -c.maxStep))
  {
    LastFromAfter(c, calls, i);
    PanTakesStep(c, After(c, calls), i);
    var e := TargetError(i.targetX.value);
    StepSizeIs(c, e);
    PullIsAsked(c, i.targetX.value);
  }

  lemma StepSizeIs(c: Config, e: real)
    requires 0 <= c.minStep <= c.maxStep && c.stepGain >= 0.0
    ensures c.minStep <= StepSize(c, e) <= c.maxStep
    ensures Asked(c, e) <= c.minStep as real ==> StepSize(c, e) == c.minStep
    ensures Asked(c, e) >= c.maxStep as real ==> StepSize(c, e) == c.maxStep
    ensures c.minStep as real <= Asked(c, e) <= c.maxStep as real ==> -0.5 <= StepSize(c, e) as real - Asked(c, e) <= 0.5
  {
    StepSizeScales(c, e, e);
  }

  lemma PullIsAsked(c: Config, x: real)
    requires c.stepGain >= 0.0
    ensures AbsReal(Pull(c, x)) == Asked(c, TargetError(x))
    ensures x > 0.5 ==> Pull(c, x) == Asked(c, TargetError(x))
    ensures x <= 0.5 ==> Pull(c, x) == -Asked(c, TargetError(x))
  {
    Times(AbsReal(TargetError(x)), c.stepGain);
  }

  /** What a call records of what it saw: position, score and signed distance of a target, or the lack of one. */
  lemma AdviseRecords(c: Config, s: State, i: Sight)
    ensures var r := Advise(c, s, i);
      && r.state.biasCount == r.state.stableCount && r.state.action == r.action
      && (i.targetX.Some? ==>
            && r.state.lastSeenX == i.targetX && r.state.lastScore == i.score && r.state.lastSeenAt == Some(i.now)
            && r.state.filteredError == (if i.targetX.value >= 0.5 then OffBy(i) else -OffBy(i))
            && r.state.jitter == (if r.reason == LowConfidence then Some(JitterLowConfidence)
                                  else if r.reason == InsideDeadband then Some(JitterDeadband)
                                  else if r.reason == WithinHysteresis then Some(JitterHysteresis) else None))
      && (i.targetX.None? ==>
            && r.state.lastSeenX == s.lastSeenX && r.state.lastScore == 0.0 && r.state.lastSeenAt == s.lastSeenAt
            && r.state.filteredError == s.filteredError && r.state.jitter == Some(JitterMissing))
      && (r.action == Hold ==> r.state.actedAt == s.actedAt)
  {
  }

  /** Why a call is held short of panning, from what it sees: too faint, within the deadband, or within the hysteresis. */
  lemma HeldShort(c: Config, s: State, i: Sight)
    ensures var r, off := Advise(c, s, i), OffBy(i);
      && (r.reason == LowConfidence <==> i.targetX.Some? && i.score < c.minConfidence)
      && (r.reason == InsideDeadband <==> i.targetX.Some? && i.score >= c.minConfidence && off <= c.deadband)
      && (r.reason == WithinHysteresis <==>
            i.targetX.Some? && i.score >= c.minConfidence && c.deadband < off <= c.deadband + c.hysteresis)
      && (r.reason in {LowConfidence, InsideDeadband, WithinHysteresis} ==> r.action == Hold && r.state.stableCount == 0)
  {
  }

  /** How far from the centre a target is, at most a half. */
  function OffBy(i: Sight): real {
    if i.targetX.None? then 0.0
    else
      var x := i.targetX.value;
      if x <= 0.0 || x >= 1.0 then 0.5 else if x >= 0.5 then x - 0.5 else 0.5 - x
  }

  // ----- the rate limit -----

  predicate Acts(a: Action) {
    a == PanLeft || a == PanRight || a == Recenter
  }

  lemma ActedAt(c: Config, s: State, i: Sight)
    ensures var r := Advise(c, s, i);
      r.state.action == r.action
      && (Acts(r.action) ==> r.state.actedAt == Some(i.now) && r.state.targetAngle == Some(r.targetAngle))
  {
  }

  /** Exactly when the rate limit is in force: the call just before acted, less than the minimum interval ago. */
  lemma LimitActiveIff(c: Config, calls: seq<Sight>, now: real)
    ensures RateLimitActive(c, After(c, calls), now)
       <==> calls != [] && Acts(Last(c, calls).action) && now - calls[|calls| - 1].now < c.minInterval
  {
    if calls != [] {
      var rest, j := calls[..|calls| - 1], calls[|calls| - 1];
      assert calls == rest + [j];
      LastFromAfter(c, rest, j);
      ActedAt(c, After(c, rest), j);
    }
  }

  /** So a pan right after a call that acted comes at least the minimum interval later. */
  lemma PanAfterAction(c: Config, calls: seq<Sight>, i: Sight)
    requires calls != [] && Acts(Last(c, calls).action)
    requires Last(c, calls + [i]).action == PanLeft || Last(c, calls + [i]).action == PanRight
    ensures i.now - calls[|calls| - 1].now >= c.minInterval
  {
    PanIff(c, calls, i, Left);
    PanIff(c, calls, i, Right);
    LimitActiveIff(c, calls, i.now);
  }

  /** Whatever holds the neck, it is told to stay where it is; only the rate limit repeats the target of the last action. */
  lemma HoldKeepsAngle(c: Config, s: State, i: Sight)
    ensures var r := Advise(c, s, i);
      r.action == Hold ==>
        r.targetAngle == if r.reason == RateLimited && s.targetAngle.Some? && s.targetAngle.value != 0
                         then Clip(c, s.targetAngle.value) else Clip(c, i.currentAngle)
  {
  }

  /** What holds a call in a run, and what a held neck is told: a call is held by the rate limit exactly when its streak would
      do, and is then sent on to the target of the action just before, unless that is zero; all others stay put. */
  lemma HeldMeans(c: Config, calls: seq<Sight>, i: Sight)
    requires Last(c, calls + [i]).action == Hold
    ensures var r, needed := Last(c, calls + [i]), Max(1, c.consecutiveRequired);
      && (r.reason == RateLimited <==> Streak(c, calls + [i], Left) >= needed || Streak(c, calls + [i], Right) >= needed)
      && (r.reason == RateLimited ==> calls != [] && Acts(Last(c, calls).action) && i.now - calls[|calls| - 1].now < c.minInterval)
      && r.targetAngle == if r.reason == RateLimited && Last(c, calls).targetAngle != 0 then Last(c, calls).targetAngle
                          else Clip(c, i.currentAngle)
  {
    LimitedIff(c, calls, i);
    LimitActiveIff(c, calls, i.now);
    HeldTarget(c, calls, i);
  }

  lemma HeldTarget(c: Config, calls: seq<Sight>, i: Sight)
    requires Last(c, calls + [i]).action == Hold
    requires Last(c, calls + [i]).reason == RateLimited ==> calls != [] && Acts(Last(c, calls).action)
    ensures var r := Last(c, calls + [i]);
      r.targetAngle == if r.reason == RateLimited && Last(c, calls).targetAngle != 0 then Last(c, calls).targetAngle
                       else Clip(c, i.currentAngle)
  {
    LastFromAfter(c, calls, i);
    HoldKeepsAngle(c, After(c, calls), i);
    if calls != [] && Acts(Last(c, calls).action) {
      TargetKept(c, calls);
    }
  }

  /** The target of an action, already clipped, is what the next call finds in the state. */
  lemma TargetKept(c: Config, calls: seq<Sight>)
    requires calls != [] && Acts(Last(c, calls).action)
    ensures var target := Last(c, calls).targetAngle; After(c, calls).targetAngle == Some(target) && Clip(c, target) == target
  {
    var rest, j := calls[..|calls| - 1], calls[|calls| - 1];
    assert calls == rest + [j];
    LastFromAfter(c, rest, j);
    ActedAt(c, After(c, rest), j);
    ClippedTarget(c, After(c, rest), j);
  }

  lemma LimitedIff(c: Config, calls: seq<Sight>, i: Sight)
    ensures var r, needed := Last(c, calls + [i]), Max(1, c.consecutiveRequired);
      var confirmed := Streak(c, calls + [i], Left) >= needed || Streak(c, calls + [i], Right) >= needed;
      && (r.reason == RateLimited <==> confirmed && RateLimitActive(c, After(c, calls), i.now))
      && (r.action == Hold && r.reason != RateLimited ==> !confirmed)
  {
    LastFromAfter(c, calls, i);
    StreakCounted(c, calls);
    StreakGrows(c, calls, i, Left);
    StreakGrows(c, calls, i, Right);
    AdviseLimited(c, After(c, calls), i);
  }

  lemma AdviseLimited(c: Config, s: State, i: Sight)
    ensures var r, needed := Advise(c, s, i), Max(1, c.consecutiveRequired);
      var left, right := if s.bias == Left then s.stableCount + 1 else 1, if s.bias == Right then s.stableCount + 1 else 1;
      var confirmed := (Qualifies(c, i, Left) && left >= needed) || (Qualifies(c, i, Right) && right >= needed);
      && (r.reason == RateLimited <==> confirmed && RateLimitActive(c, s, i.now))
      && (r.action == Hold && r.reason != RateLimited ==> !confirmed)
  {
    CooldownNeverActive(c, s, i);
    QualifiesIs(c, i, Left);
    QualifiesIs(c, i, Right);
  }

  lemma ClippedTarget(c: Config, s: State, i: Sight)
    ensures Clip(c, Advise(c, s, i).targetAngle) == Advise(c, s, i).targetAngle
  {
  }

  /** It limits adjacent calls only: one held call, even one held by the limit itself, and the next pan is free to come. */
  lemma HoldResetsLimit()
    ensures exists c: Config, a: Sight, b: Sight, d: Sight ::
      && Last(c, [a]).action == PanRight && Last(c, [a, b]).reason == RateLimited && Last(c, [a, b, d]).action == PanRight
      && d.now - a.now < c.minInterval
  {
    var c := Config(90, 40, 140, 0.3, 0.08, 0.03, 1, 24.0, 2, 8, 0.45, 0.8, 0.75);
    var a, b, d := Sight(Some(0.9), 1.0, 90, 0.0), Sight(Some(0.9), 1.0, 90, 0.125), Sight(Some(0.9), 1.0, 90, 0.25);
    assert [a][..0] == [] && [a, b][..1] == [a] && [a, b, d][..2] == [a, b];
    assert Last(c, [a]).state.stableCount == 1;
    assert Last(c, [a, b]).state.stableCount == 2;
  }

  // ----- recentering -----

  /** When the target was last seen; `None` if it never was. */
  function LastSighting(calls: seq<Sight>): Option<real> {
    if calls == [] then None
    else if calls[|calls| - 1].targetX.Some? then Some(calls[|calls| - 1].now)
    else LastSighting(calls[..|calls| - 1])
  }

  /** The moment a missing target is timed from: its last sighting, else the first call. */
  function MissingFrom(calls: seq<Sight>): real
    requires calls != []
  {
    LastSighting(calls).GetOr(calls[0].now)
  }

  lemma SightingGrows(calls: seq<Sight>, i: Sight)
    ensures LastSighting(calls + [i]) == if i.targetX.Some? then Some(i.now) else LastSighting(calls)
  {
    assert (calls + [i])[..|calls|] == calls;
  }

  lemma AdviseTimes(c: Config, s: State, i: Sight)
    ensures var r := Advise(c, s, i).state;
      && r.lastSeenAt == (if i.targetX.Some? then Some(i.now) else s.lastSeenAt)
      && r.missingSince == (if i.targetX.Some? then None else Some(MissingSince(s, i.now)))
  {
  }

  lemma {:induction false} TimesMissing(c: Config, calls: seq<Sight>)
    ensures var s := After(c, calls);
      && s.lastSeenAt == LastSighting(calls)
      && s.missingSince == if calls == [] || calls[|calls| - 1].targetX.Some? then None else Some(MissingFrom(calls))
  {
    if calls != [] {
      var rest, i := calls[..|calls| - 1], calls[|calls| - 1];
      assert calls == rest + [i];
      TimesMissing(c, rest);
      LastFromAfter(c, rest, i);
      AdviseTimes(c, After(c, rest), i);
      SightingGrows(rest, i);
      assert rest != [] ==> calls[0] == rest[0];
    }
  }

  /** Exactly when the neck is recentered: the target is missing, the neck is off its home angle, and the moment the
      target has been missing from is long enough ago. */
  lemma RecenterIff(c: Config, calls: seq<Sight>, i: Sight)
    ensures Last(c, calls + [i]).action == Recenter
       <==> i.targetX.None? && Clip(c, i.currentAngle) != Clip(c, c.homeAngle)
            && i.now - MissingFrom(calls + [i]) >= c.recenterAfter
    ensures Last(c, calls + [i]).action == Recenter ==> Last(c, calls + [i]).targetAngle == Clip(c, c.homeAngle)
  {
    LastFromAfter(c, calls, i);
    TimesMissing(c, calls);
    SightingGrows(calls, i);
    assert calls != [] ==> (calls + [i])[0] == calls[0];
  }

  ghost predicate Chronological(calls: seq<Sight>) {
    forall j, k :: 0 <= j <= k < |calls| ==> calls[j].now <= calls[k].now
  }

  lemma {:induction false} LastIsLatest(calls: seq<Sight>, k: nat)
    requires Chronological(calls) && k < |calls| && calls[k].targetX.Some?
    ensures LastSighting(calls).Some? && calls[k].now <= LastSighting(calls).value
  {
    var rest := calls[..|calls| - 1];
    if calls[|calls| - 1].targetX.None? {
      LastIsLatest(rest, k);
    }
  }

  /** With time moving forward, a recentering call finds every sighting of the run at least the waiting time old. */
  lemma RecenterFindsNoRecentSighting(c: Config, calls: seq<Sight>, i: Sight, k: nat)
    requires Chronological(calls + [i]) && Last(c, calls + [i]).action == Recenter
    requires k < |calls| && calls[k].targetX.Some?
    ensures i.now - calls[k].now >= c.recenterAfter
  {
    RecenterIff(c, calls, i);
    LastIsLatest(calls + [i], k);
  }
}
