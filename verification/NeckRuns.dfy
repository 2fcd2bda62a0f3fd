/** What runs of neck decisions keep: spacing, limited travel, the pan range, and convergence on a fixed target. */
module NeckRuns {
  import opened Basics
  import opened Text
  import opened NeckControl

  datatype Request = Request(intent: Intent, now: real)

  /** An accepted command. */
  datatype Move = Move(at: real, from: int, to: int) {
    function Size(): int {
      if to >= from then to - from else from - to
    }
  }

  function Final(c: Config, s: State, requests: seq<Request>): State
    decreases |requests|
  {
    if requests == [] then s else Final(c, Decided(c, s, requests[0].intent, requests[0].now), requests[1..])
  }

  function Moves(c: Config, s: State, requests: seq<Request>): seq<Move>
    decreases |requests|
  {
    if requests == [] then []
    else
      var r := requests[0];
      var next := Decided(c, s, r.intent, r.now);
      (if Verdict(c, s, r.intent, r.now).None? then [Move(r.now, s.lastAngle, next.lastAngle)] else [])
      + Moves(c, next, requests[1..])
  }

  predicate Sane(c: Config) {
    c.panMin <= c.panMax && c.maxStep >= 1 && c.minInterval > 0.0 && 0.0 <= c.alpha <= 1.0
  }

  predicate InRange(c: Config, angle: int) {
    c.panMin <= angle <= c.panMax
  }

  predicate TracksTarget(r: Request) {
    r.intent.targetX.Some? && r.intent.targetAngle.None?
  }

  // ----- one step -----

  lemma RoundBetween(x: real, low: int, high: int)
    requires low as real <= x <= high as real
    ensures low <= Round(x) <= high
  {
  }

  /** Smoothing ends between where it starts and where it was heading. */
  lemma SmoothedBetween(last: int, target: int, alpha: real)
    requires 0.0 <= alpha <= 1.0
    ensures Min(last, target) <= Smoothed(last, target, alpha) <= Max(last, target)
  {
    PartBetween((target - last) as real, alpha);
    RoundBetween(last as real + Part((target - last) as real, alpha), Min(last, target), Max(last, target));
  }

  lemma PartBetween(way: real, alpha: real)
    requires 0.0 <= alpha <= 1.0
    ensures if way >= 0.0 then 0.0 <= Part(way, alpha) <= way else way <= Part(way, alpha) <= 0.0
  {
    var rest := 1.0 - alpha;
    assert way * alpha + way * rest == way;
    if way >= 0.0 {
      ProductSign(way, alpha);
      ProductSign(way, rest);
    } else {
      ProductSign(-way, alpha);
      ProductSign(-way, rest);
    }
  }

  lemma ProductSign(x: real, y: real)
    requires x >= 0.0 && y >= 0.0
    ensures x * y >= 0.0 && (-x) * y <= 0.0
  {
  }

  lemma SteeredBounds(c: Config, e: real, last: int, smooth: bool)
    requires Sane(c) && InRange(c, last)
    ensures var r := Steered(c, e, last, smooth); InRange(c, r) && -c.maxStep <= r - last <= c.maxStep
  {
    StepBounds(c, e);
    ClipBetween(c, last, last + StepFor(c, e));
    SmoothedBetween(last, Clip(c, last + StepFor(c, e)), c.alpha);
  }

  lemma StepBounds(c: Config, e: real)
    requires c.maxStep >= 1
    ensures -c.maxStep <= StepFor(c, e) <= c.maxStep
  {
  }

  /** Clipping moves an angle back towards any angle in range. */
  lemma ClipBetween(c: Config, last: int, target: int)
    requires InRange(c, last)
    ensures InRange(c, Clip(c, target)) && Min(last, target) <= Clip(c, target) <= Max(last, target)
  {
  }

  lemma DesiredBounds(c: Config, i: Intent, last: int, seen: bool)
    requires Sane(c) && InRange(c, last) && i.targetX.Some? && i.targetAngle.None?
    ensures var r := DesiredAngle(c, i, last, seen); InRange(c, r) && -c.maxStep <= r - last <= c.maxStep
  {
    SteeredBounds(c, Error(c, i.targetX.value), last, seen);
  }

  // ----- what a decision takes and leaves -----

  /** Exactly when an intent becomes a command, and which reason goes first when it does not. */
  lemma CommandedIff(c: Config, s: State, i: Intent, now: real)
    ensures var target := Lower(Strip(i.targetName));
      var expired, shy := i.ttl >= 0.0 && now > i.createdAt + i.ttl, i.confidence < c.minConfidence;
      var barred := i.source == EyeTracking && target != "recenter" && c.allowedLabels != [] && target !in c.allowedLabels;
      var same := s.lastCommanded == Some(DesiredAngle(c, i, s.lastAngle, s.lastTargetX.Some?));
      var early := s.lastCommandAt.Some? && now < s.lastCommandAt.value + c.minInterval;
      var d := DecisionOf(c, s, i, now);
      && (d.shouldCommand <==> !expired && !shy && !barred && !same && !early)
      && (d.reason == Some(IntentExpired) <==> expired)
      && (d.reason == Some(LowConfidence) <==> !expired && shy)
      && (d.reason == Some(LabelNotTrackable) <==> !expired && !shy && barred)
      && (d.reason == Some(SameAngle) <==> !expired && !shy && !barred && same)
      && (d.reason == Some(MinInterval) <==> !expired && !shy && !barred && !same && early)
  {
  }

  /** The state after a command, and after an intent that became none: only the first moves the neck. */
  lemma DecisionLeaves(c: Config, s: State, i: Intent, now: real)
    ensures var d, r, desired := DecisionOf(c, s, i, now), Decided(c, s, i, now), DesiredAngle(c, i, s.lastAngle, s.lastTargetX.Some?);
      && r.intentCount == s.intentCount + 1 && r.activeIntent == Some(i) && r.suppressedReason == d.reason
      && d.angle == r.desiredAngle && d.mode == r.mode
      && (if d.shouldCommand then
            && d.angle == r.lastAngle == desired && r.lastCommanded == Some(desired) && r.lastCommandAt == Some(now)
            && r.lastTargetX == i.targetX && r.status == Command
          else
            && r.lastAngle == s.lastAngle && r.lastCommanded == s.lastCommanded && r.lastCommandAt == s.lastCommandAt
            && r.lastTargetX == (if i.targetX.Some? then i.targetX else s.lastTargetX) && r.status == Suppressed
            && (d.reason in {Some(SameAngle), Some(MinInterval)} && InRange(c, desired) ==> d.angle == desired)
            && (d.reason !in {Some(SameAngle), Some(MinInterval)} ==> d.angle == s.lastAngle))
  {
  }

  /** The mode an intent puts the neck in. */
  lemma ModeLeft(c: Config, s: State, i: Intent, now: real)
    ensures var d := DecisionOf(c, s, i, now);
      var refused := d.reason in {Some(IntentExpired), Some(LowConfidence), Some(LabelNotTrackable)};
      && (refused ==> d.mode == Holding)
      && (!refused ==> match i.source
            case ManualSource => d.mode == ManualOverride
            case SafetyHome => d.mode == Recentering
            case VoiceActivity => d.mode == if i.targetName == "recenter" then Recentering else ListeningMode
            case EyeTracking =>
              d.mode == if i.targetName == "recenter" then Recentering else if Lower(Strip(i.targetName)) == "face" then TrackingFace
                        else AttendingFace
            case OtherSource(_) => d.mode == if i.targetName == "recenter" then Recentering else AttendingFace)
  {
  }

  // ----- spacing, step size and range over a run -----

  /** Consecutive commands are at least the minimum interval apart. */
  ghost predicate Spaced(c: Config, moves: seq<Move>) {
    forall k :: 0 <= k < |moves| - 1 ==> moves[k + 1].at >= moves[k].at + c.minInterval
  }

  /** The first command respects the one before the run. */
  ghost predicate After(c: Config, last: Option<real>, moves: seq<Move>) {
    last.Some? && moves != [] ==> moves[0].at >= last.value + c.minInterval
  }

  lemma SpacedCons(c: Config, first: Move, rest: seq<Move>)
    requires Spaced(c, rest) && After(c, Some(first.at), rest)
    ensures Spaced(c, [first] + rest)
  {
    var moves := [first] + rest;
    forall k | 0 <= k < |moves| - 1 ensures moves[k + 1].at >= moves[k].at + c.minInterval {
      assert k > 0 ==> moves[k] == rest[k - 1] && moves[k + 1] == rest[k];
    }
  }

  lemma CommandTimes(c: Config, s: State, r: Request)
    ensures Verdict(c, s, r.intent, r.now).None? ==>
      && Decided(c, s, r.intent, r.now).lastCommandAt == Some(r.now)
      && (s.lastCommandAt.Some? ==> r.now >= s.lastCommandAt.value + c.minInterval)
    ensures Verdict(c, s, r.intent, r.now).Some? ==> Decided(c, s, r.intent, r.now).lastCommandAt == s.lastCommandAt
  {
  }

  /** Any intents whatever: commands are spaced by the minimum interval even if the clock readings are not in order. */
  lemma {:induction false} RunSpaced(c: Config, s: State, requests: seq<Request>)
    ensures Spaced(c, Moves(c, s, requests)) && After(c, s.lastCommandAt, Moves(c, s, requests))
    decreases |requests|
  {
    if requests != [] {
      var r := requests[0];
      var next := Decided(c, s, r.intent, r.now);
      CommandTimes(c, s, r);
      RunSpaced(c, next, requests[1..]);
      if Verdict(c, s, r.intent, r.now).None? {
        SpacedCons(c, Move(r.now, s.lastAngle, next.lastAngle), Moves(c, next, requests[1..]));
      } else {
        assert Moves(c, s, requests) == Moves(c, next, requests[1..]);
      }
    }
  }

  /** Each command starts where the last one ended. */
  ghost predicate Chained(start: int, moves: seq<Move>, end: int) {
    && (moves == [] ==> end == start)
    && (moves != [] ==> moves[0].from == start && moves[|moves| - 1].to == end)
    && forall k :: 0 <= k < |moves| - 1 ==> moves[k + 1].from == moves[k].to
  }

  /** Where an intent that gives no target position sends the neck: its own angle, else home. */
  function Destination(c: Config, i: Intent): int {
    Clip(c, i.targetAngle.GetOr(c.homeAngle))
  }

  predicate WithinStep(c: Config, from: int, to: int) {
    -c.maxStep <= to - from <= c.maxStep
  }

  /** An accepted intent that does not follow a target position, for a destination more than a step away. */
  predicate Jumps(c: Config, s: State, r: Request) {
    Verdict(c, s, r.intent, r.now).None? && !TracksTarget(r) && !WithinStep(c, s.lastAngle, Destination(c, r.intent))
  }

  predicate NeverJumps(c: Config, s: State, requests: seq<Request>)
    decreases |requests|
  {
    requests == [] || (!Jumps(c, s, requests[0]) && NeverJumps(c, Decided(c, s, requests[0].intent, requests[0].now), requests[1..]))
  }

  /** An intent of any kind keeps the neck in the pan range, and a command stays within a step exactly when its intent
      follows a target position or its destination is that close. */
  lemma StepLimitIff(c: Config, s: State, r: Request)
    requires Sane(c) && InRange(c, s.lastAngle)
    ensures var next := Decided(c, s, r.intent, r.now);
      && InRange(c, next.lastAngle)
      && (WithinStep(c, s.lastAngle, next.lastAngle) <==> !Jumps(c, s, r))
  {
    if TracksTarget(r) {
      DesiredBounds(c, r.intent, s.lastAngle, s.lastTargetX.Some?);
    }
  }

  /** Any intents whatever: no command leaves the pan range, and the angle changes by commands alone. */
  lemma {:induction false} RunInRange(c: Config, s: State, requests: seq<Request>)
    requires Sane(c) && InRange(c, s.lastAngle)
    ensures forall m :: m in Moves(c, s, requests) ==> InRange(c, m.to)
    ensures InRange(c, Final(c, s, requests).lastAngle)
    ensures Chained(s.lastAngle, Moves(c, s, requests), Final(c, s, requests).lastAngle)
    decreases |requests|
  {
    if requests != [] {
      StepLimitIff(c, s, requests[0]);
      RunInRange(c, Decided(c, s, requests[0].intent, requests[0].now), requests[1..]);
    }
  }

  ghost predicate AllWithinStep(c: Config, moves: seq<Move>) {
    forall m :: m in moves ==> WithinStep(c, m.from, m.to)
  }

  lemma WithinStepCons(c: Config, first: Move, rest: seq<Move>)
    ensures AllWithinStep(c, [first] + rest) <==> WithinStep(c, first.from, first.to) && AllWithinStep(c, rest)
  {
    assert ([first] + rest)[0] == first && ([first] + rest)[1..] == rest;
  }

  /** Any intents whatever: every command of a run stays within a step exactly when no intent asks for a jump. */
  lemma {:induction false} RunLimitIff(c: Config, s: State, requests: seq<Request>)
    requires Sane(c) && InRange(c, s.lastAngle)
    ensures AllWithinStep(c, Moves(c, s, requests)) <==> NeverJumps(c, s, requests)
    decreases |requests|
  {
    if requests != [] {
      var r := requests[0];
      var next := Decided(c, s, r.intent, r.now);
      StepLimitIff(c, s, r);
      RunLimitIff(c, next, requests[1..]);
      WithinStepCons(c, Move(r.now, s.lastAngle, next.lastAngle), Moves(c, next, requests[1..]));
      assert Verdict(c, s, r.intent, r.now).Some? ==> Moves(c, s, requests) == Moves(c, next, requests[1..]);
    }
  }

  lemma {:induction false} TrackedNeverJump(c: Config, s: State, requests: seq<Request>)
    requires forall r :: r in requests ==> TracksTarget(r)
    ensures NeverJumps(c, s, requests)
    decreases |requests|
  {
    if requests != [] {
      assert TracksTarget(requests[0]);
      TrackedNeverJump(c, Decided(c, s, requests[0].intent, requests[0].now), requests[1..]);
    }
  }

  /** Intents that only give a target position: no command moves further than a step, none leaves the pan range, and the
      angle changes by commands alone. */
  lemma RunBounded(c: Config, s: State, requests: seq<Request>)
    requires Sane(c) && InRange(c, s.lastAngle)
    requires forall r :: r in requests ==> TracksTarget(r)
    ensures forall m :: m in Moves(c, s, requests) ==> m.Size() <= c.maxStep && InRange(c, m.to)
    ensures InRange(c, Final(c, s, requests).lastAngle)
    ensures Chained(s.lastAngle, Moves(c, s, requests), Final(c, s, requests).lastAngle)
  {
    TrackedNeverJump(c, s, requests);
    RunLimitIff(c, s, requests);
    RunInRange(c, s, requests);
    forall m | m in Moves(c, s, requests) ensures m.Size() <= c.maxStep {
      assert WithinStep(c, m.from, m.to);
    }
  }

  /** Two intents that jump: one with an angle of its own, and one with no target at all, which goes home. */
  lemma AngleAndHomeJump()
    ensures exists c: Config, s: State, byAngle: Request, home: Request ::
      && Sane(c) && InRange(c, s.lastAngle) && Jumps(c, s, byAngle) && Jumps(c, s, home)
      && byAngle.intent.targetAngle.Some? && home.intent.targetAngle.None? && home.intent.targetX.None?
  {
    var c := Config(40, 140, 90, 0.16, 18.0, 6, 0.75, 0.25, 0.3, [], false);
    var s := State(IdleMode, 130, 130, None, None, None, None, None, IdleStatus, 0);
    var byAngle := Request(Intent(ManualSource, "", None, Some(50), 1.0, 1.5, 0.0), 0.0);
    var home := Request(Intent(SafetyHome, "", None, None, 1.0, 1.5, 0.0), 0.0);
    assert Jumps(c, s, byAngle) && Jumps(c, s, home);
  }

  // ----- travel in a window of time -----

  function Travel(moves: seq<Move>, from: real, to: real): int {
    if moves == [] then 0 else (if from <= moves[0].at <= to then moves[0].Size() else 0) + Travel(moves[1..], from, to)
  }

  function CountIn(moves: seq<Move>, from: real, to: real): nat {
    if moves == [] then 0 else (if from <= moves[0].at <= to then 1 else 0) + CountIn(moves[1..], from, to)
  }

  lemma {:induction false} TravelByCount(moves: seq<Move>, from: real, to: real, maxStep: int)
    requires forall m :: m in moves ==> m.Size() <= maxStep
    ensures Travel(moves, from, to) <= CountIn(moves, from, to) * maxStep
  {
    if moves != [] {
      TravelByCount(moves[1..], from, to, maxStep);
      var n := CountIn(moves[1..], from, to);
      assert (n + 1) * maxStep == n * maxStep + maxStep;
    }
  }

  lemma SpacedTail(c: Config, moves: seq<Move>)
    requires Spaced(c, moves) && moves != []
    ensures Spaced(c, moves[1..]) && After(c, Some(moves[0].at), moves[1..])
  {
    var rest := moves[1..];
    forall k | 0 <= k < |rest| - 1 ensures rest[k + 1].at >= rest[k].at + c.minInterval {
      assert rest[k + 1] == moves[k + 2] && rest[k] == moves[k + 1];
    }
  }

  /** Minimum intervals, as elapsed time. */
  function Span(n: int, interval: real): real {
    n as real * interval
  }

  lemma OneMoreInterval(n: int, interval: real)
    ensures Span(0, interval) == 0.0 && Span(n + 1, interval) == Span(n, interval) + interval
  {
  }

  /** Spaced commands that all come late enough: only so many of them fit before the window closes. */
  lemma {:induction false} FewInWindow(c: Config, moves: seq<Move>, from: real, to: real)
    requires Spaced(c, moves) && c.minInterval > 0.0
    ensures CountIn(moves, from, to) >= 1 ==> Span(CountIn(moves, from, to) - 1, c.minInterval) <= to - from
  {
    if moves != [] {
      SpacedTail(c, moves);
      var rest, first := moves[1..], moves[0].at;
      if from <= first <= to {
        LaterCount(c, rest, first, from, to);
        FewInWindow(c, rest, first + c.minInterval, to);
        OneMoreInterval(CountIn(rest, first + c.minInterval, to) - 1, c.minInterval);
      } else {
        FewInWindow(c, rest, from, to);
      }
    }
  }

  lemma {:induction false} LaterCount(c: Config, moves: seq<Move>, last: real, from: real, to: real)
    requires Spaced(c, moves) && After(c, Some(last), moves) && c.minInterval > 0.0 && from <= last
    ensures CountIn(moves, from, to) == CountIn(moves, last + c.minInterval, to)
  {
    if moves != [] {
      SpacedTail(c, moves);
      var at := moves[0].at;
      LaterCount(c, moves[1..], at, from, to);
      LaterCount(c, moves[1..], at, last + c.minInterval, to);
    }
  }

  lemma CountAtMost(n: nat, window: real, interval: real)
    requires interval > 0.0 && window >= 0.0
    requires n >= 1 ==> Span(n - 1, interval) <= window
    ensures n <= (window / interval).Floor + 1
  {
    if n >= 1 {
      DivideBoth((n - 1) as real, window, interval);
    }
  }

  lemma DivideBoth(x: real, window: real, interval: real)
    requires interval > 0.0 && x * interval <= window
    ensures x <= window / interval
  {
    var q := window / interval;
    assert q * interval == window;
    PositiveProduct(x - q, interval);
  }

  lemma PositiveProduct(x: real, y: real)
    requires y > 0.0
    ensures x > 0.0 ==> x * y > 0.0
  {
  }

  /** How many commands fit in a window of time. */
  function MostCommands(c: Config, window: real): int
    requires c.minInterval > 0.0
  {
    (window / c.minInterval).Floor + 1
  }

  /** The rate limit over any window of time: total travel is at most one step more than the intervals that fit in it. */
  lemma TravelBound(c: Config, s: State, requests: seq<Request>, from: real, window: real)
    requires Sane(c) && InRange(c, s.lastAngle) && window >= 0.0
    requires forall r :: r in requests ==> TracksTarget(r)
    ensures Travel(Moves(c, s, requests), from, from + window) <= MostCommands(c, window) * c.maxStep
  {
    RunSpaced(c, s, requests);
    RunBounded(c, s, requests);
    SpacedTravel(c, Moves(c, s, requests), from, window);
  }

  lemma SpacedTravel(c: Config, moves: seq<Move>, from: real, window: real)
    requires Sane(c) && window >= 0.0 && Spaced(c, moves)
    requires forall m :: m in moves ==> m.Size() <= c.maxStep
    ensures Travel(moves, from, from + window) <= MostCommands(c, window) * c.maxStep
  {
    var n := CountIn(moves, from, from + window);
    FewInWindow(c, moves, from, from + window);
    CountAtMost(n, window, c.minInterval);
    TravelByCount(moves, from, from + window, c.maxStep);
    Scale(n, MostCommands(c, window), c.maxStep);
  }

  lemma Scale(n: int, most: int, step: int)
    requires n <= most && step >= 0
    ensures n * step <= most * step
  {
  }

  // ----- convergence on a fixed target -----

  /** The target is to the right of the centre, further off than the deadband. */
  predicate RightOf(c: Config, x: real) {
    x > 0.5 && x > 0.5 + c.deadband && c.deadband < 0.5
  }

  predicate LeftOf(c: Config, x: real) {
    x < 0.5 && x < 0.5 - c.deadband && c.deadband < 0.5
  }

  /** The way to turn: up for a target to the right, the other way round if inverted. */
  function Side(c: Config, x: real): int {
    if (x > 0.5) != c.invert then 1 else -1
  }

  function Limit(c: Config, side: int): int {
    if side > 0 then c.panMax else c.panMin
  }

  function Remaining(c: Config, side: int, angle: int): int {
    (Limit(c, side) - angle) * side
  }

  predicate OffCentre(c: Config, x: real) {
    c.stepGain >= 0.0 && (RightOf(c, x) || LeftOf(c, x))
  }

  /** A request for the target at `x` that nothing but the angle itself can hold up. */
  predicate Ready(c: Config, x: real, last: Option<real>, r: Request) {
    && r.intent.targetX == Some(x) && r.intent.targetAngle.None?
    && Refusal(c, r.intent, r.now).None?
    && (last.Some? ==> r.now - last.value >= c.minInterval)
  }

  predicate AllReady(c: Config, x: real, last: Option<real>, requests: seq<Request>)
    decreases |requests|
  {
    requests == [] || (Ready(c, x, last, requests[0]) && AllReady(c, x, Some(requests[0].now), requests[1..]))
  }

  /** The last command, if any, is where the neck is. */
  predicate Settled(s: State) {
    s.lastCommanded.None? || s.lastCommanded == Some(s.lastAngle)
  }

  /** What the loop of `_desired_angle` makes of a position, against the position itself. */
  lemma ErrorIs(c: Config, x: real)
    ensures var e := Error(c, x);
      && (RightOf(c, x) || LeftOf(c, x) <==> e != 0.0 && AbsReal(e) > c.deadband)
      && (RightOf(c, x) || LeftOf(c, x) ==> (e > 0.0 <==> Side(c, x) == 1))
      && e == (if c.invert then 0.5 - Clamped(x) else Clamped(x) - 0.5)
  {
  }

  /** A position, or the nearest edge of the picture. */
  function Clamped(x: real): real {
    if x < 0.0 then 0.0 else if x > 1.0 then 1.0 else x
  }

  lemma StepTowards(c: Config, e: real)
    requires Sane(c) && c.stepGain >= 0.0 && e != 0.0
    ensures if e > 0.0 then 1 <= StepFor(c, e) <= c.maxStep else -c.maxStep <= StepFor(c, e) <= -1
  {
    ScaledSign(e, c.stepGain);
  }

  /** Short of the limit the desired angle lies strictly towards the target; at the limit it stays there. */
  lemma DesiredTowards(c: Config, x: real, last: int, seen: bool, i: Intent)
    requires Sane(c) && InRange(c, last) && OffCentre(c, x) && i.targetX == Some(x) && i.targetAngle.None?
    ensures var side, r := Side(c, x), DesiredAngle(c, i, last, seen);
      InRange(c, r) && if last == Limit(c, side) then r == last else (r - last) * side >= 1
  {
    var e := Error(c, x);
    ErrorIs(c, x);
    StepTowards(c, e);
    SmoothedBetween(last, Clip(c, last + StepFor(c, e)), c.alpha);
  }

  /** Within the deadband the neck stays. */
  lemma DesiredStays(c: Config, x: real, last: int, seen: bool, i: Intent)
    requires InRange(c, last) && c.deadband >= 0.0 && !RightOf(c, x) && !LeftOf(c, x)
    requires i.targetX == Some(x) && i.targetAngle.None?
    ensures DesiredAngle(c, i, last, seen) == last
  {
    ErrorIs(c, x);
  }

  /** The degrees a position asks for, with the sign of the way to turn. */
  function Pull(c: Config, x: real): real {
    (if c.invert then 0.5 - Clamped(x) else Clamped(x) - 0.5) * c.stepGain
  }

  /** To the nearest degree: the integer is no further off than half a degree. */
  predicate Near(n: int, x: real) {
    -0.5 <= n as real - x <= 0.5
  }

  /** The first sight of a target off centre, nothing smoothed yet: the step is what the position asks for, to the nearest
      degree, one degree at least and the largest step at most, unless the pan range ends before that. */
  lemma UnsmoothedStep(c: Config, x: real, last: int, i: Intent)
    requires Sane(c) && InRange(c, last) && OffCentre(c, x) && i.targetX == Some(x) && i.targetAngle.None?
    ensures var step, pull, side := DesiredAngle(c, i, last, false) - last, Pull(c, x), Side(c, x);
      c.panMin < last + step < c.panMax ==>
        && (AbsReal(pull) <= 0.5 ==> step == side)
        && (0.5 < AbsReal(pull) <= c.maxStep as real ==> Near(step, pull))
        && (AbsReal(pull) >= c.maxStep as real ==> step == side * c.maxStep)
  {
    ErrorIs(c, x);
    PullIs(c, x);
    StepIs(c, Error(c, x));
    StepTowards(c, Error(c, x));
    UnsmoothedIs(c, Error(c, x), last);
  }

  lemma PullIs(c: Config, x: real)
    ensures Pull(c, x) == Scaled(Error(c, x), c.stepGain)
  {
    ErrorIs(c, x);
  }

  lemma UnsmoothedIs(c: Config, e: real, last: int)
    requires Sane(c) && InRange(c, last) && StepFor(c, e) != 0 && (e > 0.0 <==> StepFor(c, e) > 0)
    ensures var r := Steered(c, e, last, false); c.panMin < r < c.panMax ==> r == last + StepFor(c, e)
  {
  }

  lemma StepIs(c: Config, e: real)
    requires Sane(c) && c.stepGain >= 0.0 && e != 0.0
    ensures var step, pull, side := StepFor(c, e), Scaled(e, c.stepGain), if e > 0.0 then 1 else -1;
      && (AbsReal(pull) <= 0.5 ==> step == side)
      && (0.5 < AbsReal(pull) <= c.maxStep as real ==> Near(step, pull))
      && (AbsReal(pull) >= c.maxStep as real ==> step == side * c.maxStep)
  {
    ScaledSign(e, c.stepGain);
    RoundIs(Scaled(e, c.stepGain), c.maxStep);
  }

  lemma ScaledSign(x: real, y: real)
    requires y >= 0.0
    ensures (x > 0.0 ==> Scaled(x, y) >= 0.0) && (x < 0.0 ==> Scaled(x, y) <= 0.0)
  {
    if x > 0.0 {
      ProductSign(x, y);
    } else if x < 0.0 {
      ProductSign(-x, y);
    }
  }

  lemma RoundIs(x: real, m: int)
    requires m >= 1
    ensures Near(Round(x), x)
    ensures AbsReal(x) <= 0.5 ==> Round(x) == 0
    ensures 0.5 < x ==> Round(x) >= 1
    ensures x < -0.5 ==> Round(x) <= -1
    ensures x >= m as real ==> Round(x) >= m
    ensures x <= -m as real ==> Round(x) <= -m
    ensures AbsReal(x) <= m as real ==> -m <= Round(x) <= m
  {
  }

  /** The smoothed part of a step. */
  function Share(step: int, alpha: real): real {
    step as real * alpha
  }

  lemma ShareIsPart(step: int, alpha: real)
    ensures Share(step, alpha) == Part(step as real, alpha)
  {
  }

  /** A target seen before: of the step it would take unsmoothed, the neck takes the smoothed part, to the nearest degree,
      but never less than a degree. */
  lemma SmoothedStep(c: Config, x: real, last: int, i: Intent)
    requires Sane(c) && InRange(c, last) && OffCentre(c, x) && i.targetX == Some(x) && i.targetAngle.None?
    requires last != Limit(c, Side(c, x))
    ensures var full, step := DesiredAngle(c, i, last, false) - last, DesiredAngle(c, i, last, true) - last;
      Near(step, Share(full, c.alpha)) || (step == Side(c, x) && AbsReal(Share(full, c.alpha)) <= 0.5)
  {
    ErrorIs(c, x);
    var e := Error(c, x);
    StepTowards(c, e);
    var stepped := Clip(c, last + StepFor(c, e));
    SmoothedBetween(last, stepped, c.alpha);
    SmoothedNear(last, stepped, c.alpha);
    ShareIsPart(DesiredAngle(c, i, last, false) - last, c.alpha);
  }

  /** An intent with an angle goes there, one without any target goes home, both as far as the pan range allows. */
  lemma DesiredDestination(c: Config, last: int, seen: bool, i: Intent)
    requires c.panMin <= c.panMax && !(i.targetAngle.None? && i.targetX.Some?)
    ensures var r, to := DesiredAngle(c, i, last, seen), if i.targetAngle.Some? then i.targetAngle.value else c.homeAngle;
      r == if to < c.panMin then c.panMin else if to > c.panMax then c.panMax else to
  {
  }

  lemma SmoothedNear(last: int, target: int, alpha: real)
    ensures Near(Smoothed(last, target, alpha) - last, Part((target - last) as real, alpha))
  {
    RoundIs(last as real + Part((target - last) as real, alpha), 1);
  }

  lemma ReadyStep(c: Config, x: real, s: State, r: Request)
    requires Sane(c) && InRange(c, s.lastAngle) && OffCentre(c, x) && Settled(s)
    requires r.intent.targetX == Some(x) && r.intent.targetAngle.None? && Refusal(c, r.intent, r.now).None?
    requires s.lastCommandAt.Some? ==> r.now - s.lastCommandAt.value >= c.minInterval
    ensures var side, next := Side(c, x), Decided(c, s, r.intent, r.now);
      && Settled(next) && InRange(c, next.lastAngle)
      && if s.lastAngle == Limit(c, side) then
           next.lastAngle == s.lastAngle && next.lastCommanded == Some(s.lastAngle)
           && (Verdict(c, s, r.intent, r.now).None? <==> s.lastCommanded.None?)
         else
           Verdict(c, s, r.intent, r.now).None? && (next.lastAngle - s.lastAngle) * side >= 1
           && next.lastCommanded == Some(next.lastAngle)
  {
    DesiredTowards(c, x, s.lastAngle, s.lastTargetX.Some?, r.intent);
  }

  /** Each command on the way moves strictly to the target's side, or stays at the limit. */
  ghost predicate Onward(c: Config, side: int, moves: seq<Move>) {
    forall m :: m in moves ==> if m.from == Limit(c, side) then m.to == m.from else (m.to - m.from) * side >= 1
  }

  /** A target held off centre: every command moves strictly towards it until the pan limit, no more commands are issued
      than there are degrees left (or one, if the neck was never commanded and already is at the limit), and with as many
      requests as degrees left the limit is reached. */
  lemma {:induction false} Converges(c: Config, x: real, s: State, requests: seq<Request>)
    requires Sane(c) && InRange(c, s.lastAngle) && OffCentre(c, x) && Settled(s)
    requires AllReady(c, x, s.lastCommandAt, requests)
    ensures var side, moves, final := Side(c, x), Moves(c, s, requests), Final(c, s, requests);
      && Onward(c, side, moves)
      && |moves| <= (if s.lastCommanded.None? then Max(1, Remaining(c, side, s.lastAngle)) else Remaining(c, side, s.lastAngle))
      && (|requests| >= Remaining(c, side, s.lastAngle) ==> final.lastAngle == Limit(c, side))
    decreases |requests|
  {
    var side := Side(c, x);
    if requests != [] {
      var r := requests[0];
      var next := Decided(c, s, r.intent, r.now);
      ReadyStep(c, x, s, r);
      AllReadyLater(c, x, next.lastCommandAt, r.now, requests[1..]);
      Converges(c, x, next, requests[1..]);
    }
  }

  /** A suppressed request only makes the wait since the last command longer. */
  lemma AllReadyLater(c: Config, x: real, last: Option<real>, now: real, requests: seq<Request>)
    requires AllReady(c, x, Some(now), requests)
    requires last.Some? ==> last.value <= now
    ensures AllReady(c, x, last, requests)
  {
  }
}
