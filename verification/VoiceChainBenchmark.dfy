/** The voice-chain acceptance summary: `apps/body_runtime/voice_chain_benchmark.py`. */
module VoiceChainBenchmark {
  import opened Basics
  import opened Text
  import opened Statistics

  datatype Signal = AsrPartial | AsrFinal | LlmDelta | TtsChunk | Playback

  /** One benchmark turn: its status, its flags that are exactly true, the streaming signals it shows, its numeric fields,
      and the names of its fields that hold no number. */
  datatype Turn = Turn(
    status: string, interruptedFlag: bool, interruptActiveFlag: bool, roundLeakFlag: bool,
    streamingFlag: Option<bool>, signals: set<Signal>, numbers: map<string, real>,
    otherFields: set<string>)

  const ALL_SIGNALS: set<Signal> := {AsrPartial, AsrFinal, LlmDelta, TtsChunk, Playback}

  const INTERRUPT_STOP := "interruptStopMs"

  const DEFAULT_THRESHOLDS: map<string, real> :=
    map["asrFinalMs" := 800.0, "firstTokenMs" := 700.0, "firstAudioMs" := 2000.0, "interruptStopMs" := 300.0]

  const METRIC_LABELS: seq<string> :=
    ["wakeToListenMs", "firstAsrPartialMs", "asrFinalMs", "firstLlmDeltaMs", "firstTokenMs", "firstTtsChunkMs",
     "firstAudioMs", "interruptStopMs"]

  predicate Interrupted(t: Turn) {
    Lower(t.status) == "interrupted" || t.interruptedFlag || t.interruptActiveFlag
  }

  predicate RoundLeak(t: Turn) {
    t.roundLeakFlag || Lower(t.status) == "stale_round_blocked"
  }

  /** An explicit flag decides; otherwise every signal must have been seen. */
  predicate StreamingReady(t: Turn) {
    t.streamingFlag.GetOr(ALL_SIGNALS <= t.signals)
  }

  function Values(turns: seq<Turn>, field: string): seq<real> {
    if turns == [] then []
    else (if field in turns[0].numbers then [turns[0].numbers[field]] else []) + Values(turns[1..], field)
  }

  /** How many turns pass a test. */
  function Count(turns: seq<Turn>, test: Turn -> bool): nat {
    if turns == [] then 0 else Count(turns[..|turns| - 1], test) + if test(turns[|turns| - 1]) then 1 else 0
  }

  lemma CountAppend(turns: seq<Turn>, n: nat, test: Turn -> bool)
    requires n < |turns|
    ensures Count(turns[..n + 1], test) == Count(turns[..n], test) + if test(turns[n]) then 1 else 0
  {
    assert turns[..n + 1][..n] == turns[..n];
  }

  /** How many turns hold a number under a field, and how many of these are within a limit. */
  function TurnsWith(turns: seq<Turn>, field: string): nat {
    if turns == [] then 0 else (if field in turns[0].numbers then 1 else 0) + TurnsWith(turns[1..], field)
  }

  function TurnsWithin(turns: seq<Turn>, field: string, limit: real): nat {
    if turns == [] then 0
    else (if field in turns[0].numbers && turns[0].numbers[field] <= limit then 1 else 0) + TurnsWithin(turns[1..], field, limit)
  }

  lemma {:induction false} ValuesCounted(turns: seq<Turn>, field: string, limit: real)
    ensures |Values(turns, field)| == TurnsWith(turns, field)
    ensures CountWithin(Values(turns, field), limit) == TurnsWithin(turns, field, limit)
  {
    if turns != [] {
      var rest := turns[1..];
      ValuesCounted(rest, field, limit);
      if field in turns[0].numbers {
        assert Values(turns, field)[1..] == Values(rest, field);
      } else {
        assert Values(turns, field) == Values(rest, field);
      }
    }
  }

  /** What marks a turn as interrupted, as leaking a round, as streaming, and its stop as confirmed. */
  lemma TurnMeans(t: Turn, threshold: Option<real>)
    ensures Interrupted(t) <==> Lower(t.status) == "interrupted" || t.interruptedFlag || t.interruptActiveFlag
    ensures RoundLeak(t) <==> Lower(t.status) == "stale_round_blocked" || t.roundLeakFlag
    ensures StreamingReady(t) <==> t.streamingFlag == Some(true) || (t.streamingFlag == None && forall s: Signal :: s in t.signals)
    ensures StopConfirmed(t, threshold)
       <==> "interruptStopMs" in t.numbers && (threshold.Some? ==> t.numbers["interruptStopMs"] <= threshold.value)
  {
    forall s: Signal ensures s in ALL_SIGNALS {
      assert s == AsrPartial || s == AsrFinal || s == LlmDelta || s == TtsChunk || s == Playback;
    }
  }

  predicate EndsWithMs(field: string) {
    |field| >= 2 && field[|field| - 2..] == "Ms"
  }

  // ----- the parts of the summary -----

  datatype Metric = Metric(count: nat, p95: real, threshold: Option<real>, pass: Option<bool>)

  datatype InterruptStop = InterruptStop(requiredCount: nat, confirmedCount: nat, failures: seq<nat>, ready: bool)

  datatype Streaming = Streaming(turnCount: nat, readyTurnCount: nat, missing: seq<nat>, ready: bool)

  datatype Reason = NoTurns | FailedMetrics | RoundLeakSeen | InterruptStopOpen | StreamingOpen

  datatype Readiness = Readiness(honjiaReady: bool, reasons: seq<Reason>)

  datatype Block = NoTurnsBlock | P95Exceeded(field: string) | InterruptNotConfirmed | RoundLeakDetected | SignalsMissing

  datatype Grade = A | B | C | D | F

  datatype Joyinside = Joyinside(ready: bool, score: int, grade: Grade, blocking: seq<Block>)

  datatype Summary = Summary(
    thresholds: map<string, real>, metrics: map<string, Metric>, failedMetrics: seq<string>, roundLeakCount: nat,
    interruptStop: InterruptStop, streaming: Streaming, readiness: Readiness, joyinside: Joyinside)

  function GradeFor(score: int): Grade {
    if score >= 90 then A else if score >= 75 then B else if score >= 50 then C else if score >= 25 then D else F
  }

  function MetricFor(values: seq<real>, threshold: Option<real>): Metric
    requires values != []
  {
    var p95 := NearestRankP95(values);
    Metric(|values|, p95, threshold, if threshold.Some? then Some(p95 <= threshold.value) else None)
  }

  function Get(thresholds: map<string, real>, field: string): Option<real> {
    if field in thresholds then Some(thresholds[field]) else None
  }

  // ----- interruptions -----

  /** An interrupted turn whose stop time is there and within the threshold, if one is set. */
  predicate StopConfirmed(t: Turn, threshold: Option<real>) {
    INTERRUPT_STOP in t.numbers && (threshold.Some? ==> t.numbers[INTERRUPT_STOP] <= threshold.value)
  }

  ghost predicate AllStopsConfirmed(turns: seq<Turn>, threshold: Option<real>) {
    forall k :: 0 <= k < |turns| && Interrupted(turns[k]) ==> StopConfirmed(turns[k], threshold)
  }

  ghost predicate SomeInterrupted(turns: seq<Turn>) {
    exists k :: 0 <= k < |turns| && Interrupted(turns[k])
  }

  /** The numbers are in order and below a bound. */
  ghost predicate Rising(numbers: seq<nat>, bound: nat) {
    (forall j, k :: 0 <= j < k < |numbers| ==> numbers[j] < numbers[k]) && forall j :: 0 <= j < |numbers| ==> numbers[j] < bound
  }

  lemma RisingMore(numbers: seq<nat>, bound: nat)
    requires Rising(numbers, bound)
    ensures Rising(numbers, bound + 1) && Rising(numbers + [bound], bound + 1)
  {
  }

  /** `_interrupt_stop_summary`: it takes an interruption to pass, and all of them confirmed. */
  method InterruptStopSummary(turns: seq<Turn>, threshold: Option<real>) returns (r: InterruptStop)
    ensures r.ready <==> SomeInterrupted(turns) && AllStopsConfirmed(turns, threshold)
    ensures forall k :: k in r.failures <==> 0 <= k < |turns| && Interrupted(turns[k]) && !StopConfirmed(turns[k], threshold)
    ensures r.requiredCount == r.confirmedCount + |r.failures| == Count(turns, Interrupted)
    ensures Rising(r.failures, |turns|)
  {
    var required, confirmed := 0, 0;
    var failures: seq<nat> := [];
    for n := 0 to |turns|
      invariant required == confirmed + |failures| == Count(turns[..n], Interrupted)
      invariant Rising(failures, n)
      invariant required > 0 <==> exists k :: 0 <= k < n && Interrupted(turns[k])
      invariant forall k :: k in failures <==> 0 <= k < n && Interrupted(turns[k]) && !StopConfirmed(turns[k], threshold)
    {
      CountAppend(turns, n, Interrupted);
      RisingMore(failures, n);
      if Interrupted(turns[n]) {
        required := required + 1;
        if StopConfirmed(turns[n], threshold) {
          confirmed := confirmed + 1;
        } else {
          failures := failures + [n];
        }
      }
    }
    assert turns[..|turns|] == turns;
    r := InterruptStop(required, confirmed, failures, required > 0 && required - confirmed == 0);
    assert failures != [] ==> failures[0] in failures;
  }

  /** `_streaming_summary`: there are turns, and every one of them streams. */
  method StreamingSummary(turns: seq<Turn>) returns (r: Streaming)
    ensures r.ready <==> turns != [] && forall k :: 0 <= k < |turns| ==> StreamingReady(turns[k])
    ensures r.turnCount == |turns| == r.readyTurnCount + |r.missing|
    ensures r.readyTurnCount == Count(turns, StreamingReady)
    ensures Rising(r.missing, |turns|)
    ensures forall k :: k in r.missing <==> 0 <= k < |turns| && !StreamingReady(turns[k])
  {
    var readyCount := 0;
    var missing: seq<nat> := [];
    for n := 0 to |turns|
      invariant n == readyCount + |missing| && readyCount == Count(turns[..n], StreamingReady)
      invariant Rising(missing, n)
      invariant forall k :: k in missing <==> 0 <= k < n && !StreamingReady(turns[k])
    {
      CountAppend(turns, n, StreamingReady);
      RisingMore(missing, n);
      if StreamingReady(turns[n]) {
        readyCount := readyCount + 1;
      } else {
        missing := missing + [n];
      }
    }
    assert turns[..|turns|] == turns;
    r := Streaming(|turns|, readyCount, missing, |turns| > 0 && readyCount == |turns|);
    assert missing != [] ==> missing[0] in missing;
  }

  method RoundLeakCount(turns: seq<Turn>) returns (count: nat)
    ensures count == 0 <==> forall k :: 0 <= k < |turns| ==> !RoundLeak(turns[k])
    ensures count == Count(turns, RoundLeak)
  {
    count := 0;
    for n := 0 to |turns|
      invariant count == Count(turns[..n], RoundLeak)
      invariant count == 0 <==> forall k :: 0 <= k < n ==> !RoundLeak(turns[k])
    {
      CountAppend(turns, n, RoundLeak);
      if RoundLeak(turns[n]) {
        count := count + 1;
      }
    }
    assert turns[..|turns|] == turns;
  }

  // ----- metrics -----

  predicate HasField(t: Turn, field: string) {
    field in t.numbers || field in t.otherFields
  }

  predicate Extra(turns: seq<Turn>, thresholds: map<string, real>, field: string) {
    && field !in METRIC_LABELS
    && (field in thresholds || (EndsWithMs(field) && exists k :: 0 <= k < |turns| && HasField(turns[k], field)))
  }

  /** The labelled fields, then in ascending order every other field that has a threshold or, in some turn, a name ending
      in "Ms". */
  method MetricFields(turns: seq<Turn>, thresholds: map<string, real>) returns (fields: seq<string>, ghost extra: seq<string>)
    ensures fields == METRIC_LABELS + extra && Ascending(extra)
    ensures forall f :: f in extra <==> Extra(turns, thresholds, f)
  {
    var named := thresholds.Keys;
    for n := 0 to |turns|
      invariant forall f :: f in named <==> f in thresholds || (EndsWithMs(f) && exists k :: 0 <= k < n && HasField(turns[k], f))
    {
      named := named + set f | f in turns[n].numbers.Keys + turns[n].otherFields && EndsWithMs(f);
    }
    named := named - set f | f in METRIC_LABELS;
    var ordered := SortNames(named);
    fields, extra := METRIC_LABELS + ordered, ordered;
  }

  /** `sorted` of a set of names. */
  method SortNames(names: set<string>) returns (ordered: seq<string>)
    ensures Ascending(ordered) && forall f :: f in ordered <==> f in names
  {
    ordered := [];
    var left := names;
    while left != {}
      invariant left <= names && Ascending(ordered)
      invariant forall f :: f in ordered <==> f in names && f !in left
      decreases left
    {
      var f :| f in left;
      PlacedAscending(f, ordered);
      ordered := Placed(f, ordered);
      left := left - {f};
    }
  }

  /** The metric of each field that has any values, and the names of those that fail. */
  ghost predicate MetricsOf(turns: seq<Turn>, thresholds: map<string, real>, fields: seq<string>, metrics: map<string, Metric>) {
    forall f :: (f in metrics <==> f in fields && Values(turns, f) != [])
             && (f in metrics ==> metrics[f] == MetricFor(Values(turns, f), Get(thresholds, f)))
  }

  method ComputeMetrics(turns: seq<Turn>, thresholds: map<string, real>, fields: seq<string>)
    returns (metrics: map<string, Metric>, failed: seq<string>)
    ensures MetricsOf(turns, thresholds, fields, metrics)
    ensures forall f :: f in failed <==> f in metrics && metrics[f].pass == Some(false)
  {
    metrics, failed := map[], [];
    for n := 0 to |fields|
      invariant MetricsOf(turns, thresholds, fields[..n], metrics)
      invariant forall f :: f in failed <==> f in metrics && metrics[f].pass == Some(false)
    {
      var field := fields[n];
      assert fields[..n + 1] == fields[..n] + [field];
      var values := Values(turns, field);
      if values != [] {
        var metric := MetricFor(values, Get(thresholds, field));
        metrics := metrics[field := metric];
        if metric.pass == Some(false) {
          failed := failed + [field];
        }
      }
    }
    assert fields[..|fields|] == fields;
  }

  // ----- readiness -----

  method ReadinessSummary(turnCount: nat, failed: seq<string>, leakFree: bool, interruptReady: bool, streamingReady: bool)
    returns (r: Readiness)
    ensures r.honjiaReady <==> turnCount > 0 && failed == [] && leakFree && interruptReady && streamingReady
    ensures r.honjiaReady <==> r.reasons == []
  {
    var honjiaReady := turnCount > 0 && failed == [] && leakFree && interruptReady && streamingReady;
    var reasons: seq<Reason> := [];
    if turnCount <= 0 {
      reasons := reasons + [NoTurns];
    }
    if failed != [] {
      reasons := reasons + [FailedMetrics];
    }
    if !leakFree {
      reasons := reasons + [RoundLeakSeen];
    }
    if !interruptReady {
      reasons := reasons + [InterruptStopOpen];
    }
    if !streamingReady {
      reasons := reasons + [StreamingOpen];
    }
    r := Readiness(honjiaReady, reasons);
  }

  /** What a part of the gate is worth. */
  function Quarter(passed: bool): int {
    if passed then 25 else 0
  }

  /** `_joyinside_readiness_from_summary`. */
  method JoyinsideReadiness(turnCount: nat, failed: seq<string>, leakFree: bool, interruptReady: bool, streamingReady: bool)
    returns (r: Joyinside)
    ensures r.ready <==> turnCount > 0 && failed == [] && leakFree && interruptReady && streamingReady
    ensures r.ready <==> r.score == 100
    ensures r.ready <==> r.grade == A
    ensures r.ready <==> r.blocking == []
    ensures r.score == Quarter(turnCount > 0 && failed == []) + Quarter(interruptReady) + Quarter(turnCount > 0 && leakFree)
                       + Quarter(streamingReady)
    ensures r.grade == if r.score == 100 then A else if r.score == 75 then B else if r.score == 50 then C
                       else if r.score == 25 then D else F
    ensures NoTurnsBlock in r.blocking <==> turnCount == 0
    ensures InterruptNotConfirmed in r.blocking <==> !interruptReady
    ensures RoundLeakDetected in r.blocking <==> turnCount > 0 && !leakFree
    ensures SignalsMissing in r.blocking <==> !streamingReady
    ensures forall f :: P95Exceeded(f) in r.blocking <==> f in failed
  {
    var blocking: seq<Block> := [];
    if turnCount <= 0 {
      blocking := blocking + [NoTurnsBlock];
    }
    for n := 0 to |failed|
      invariant |blocking| == n + (if turnCount <= 0 then 1 else 0)
      invariant forall f :: P95Exceeded(f) in blocking <==> f in failed[..n]
      invariant NoTurnsBlock in blocking <==> turnCount == 0
      invariant InterruptNotConfirmed !in blocking && RoundLeakDetected !in blocking && SignalsMissing !in blocking
    {
      blocking := blocking + [P95Exceeded(failed[n])];
    }
    assert failed[..|failed|] == failed;
    if !interruptReady {
      blocking := blocking + [InterruptNotConfirmed];
    }
    var roundLeakFree := leakFree && turnCount > 0;
    if turnCount > 0 && !roundLeakFree {
      blocking := blocking + [RoundLeakDetected];
    }
    if !streamingReady {
      blocking := blocking + [SignalsMissing];
    }
    var latencyReady := turnCount > 0 && failed == [];
    var score := 0;
    score := score + if latencyReady then 25 else 0;
    score := score + if interruptReady then 25 else 0;
    score := score + if roundLeakFree then 25 else 0;
    score := score + if streamingReady then 25 else 0;
    r := Joyinside(score == 100 && blocking == [], score, GradeFor(score), blocking);
  }

  // ----- the whole summary -----

  /** Enough of the turns that hold a number under a field are within its limit: 95% of them, rounded up. */
  ghost predicate MostWithin(turns: seq<Turn>, field: string, limit: real) {
    TurnsWithin(turns, field, limit) >= CeilDiv(19 * TurnsWith(turns, field), 20)
  }

  /** What the acceptance gate asks of the turns themselves. */
  ghost predicate Acceptable(turns: seq<Turn>, thresholds: map<string, real>) {
    && turns != []
    && (forall f :: f in thresholds ==> MostWithin(turns, f, thresholds[f]))
    && (forall k :: 0 <= k < |turns| ==> !RoundLeak(turns[k]) && StreamingReady(turns[k]))
    && SomeInterrupted(turns)
    && AllStopsConfirmed(turns, Get(thresholds, INTERRUPT_STOP))
  }

  lemma FailedIff(turns: seq<Turn>, thresholds: map<string, real>, fields: seq<string>, metrics: map<string, Metric>, f: string)
    requires MetricsOf(turns, thresholds, fields, metrics)
    requires forall f :: f in thresholds ==> f in fields
    ensures f in metrics && metrics[f].pass == Some(false)
       <==> f in thresholds && !MostWithin(turns, f, thresholds[f])
  {
    if f in thresholds {
      ValuesCounted(turns, f, thresholds[f]);
      if Values(turns, f) != [] {
        P95WithinIff(Values(turns, f), thresholds[f]);
      }
    }
  }

  /** A metric tells how many turns hold its field, and its p95 is within just those limits that most of them are within. */
  ghost predicate MetricExact(m: Metric, turns: seq<Turn>, field: string, thresholds: map<string, real>) {
    && m.count == TurnsWith(turns, field)
    && m.threshold == (if field in thresholds then Some(thresholds[field]) else None)
    && m.pass == (if field in thresholds then Some(MostWithin(turns, field, thresholds[field])) else None)
    && forall limit :: m.p95 <= limit <==> MostWithin(turns, field, limit)
  }

  lemma MetricIs(turns: seq<Turn>, field: string, thresholds: map<string, real>)
    requires Values(turns, field) != []
    ensures MetricExact(MetricFor(Values(turns, field), Get(thresholds, field)), turns, field, thresholds)
  {
    ValuesCounted(turns, field, 0.0);
    forall limit ensures NearestRankP95(Values(turns, field)) <= limit <==> MostWithin(turns, field, limit) {
      ValuesCounted(turns, field, limit);
      P95WithinIff(Values(turns, field), limit);
    }
  }

  /** There is a metric for every labelled or extra field that some turn holds a number under, and it is exact. */
  ghost predicate MetricsExact(s: Summary, turns: seq<Turn>) {
    && (forall f :: f in s.metrics <==> (f in METRIC_LABELS || Extra(turns, s.thresholds, f)) && TurnsWith(turns, f) > 0)
    && (forall f :: f in s.metrics ==> MetricExact(s.metrics[f], turns, f, s.thresholds))
    && s.roundLeakCount == Count(turns, RoundLeak)
  }

  lemma AllMetricsExact(s: Summary, turns: seq<Turn>, fields: seq<string>)
    requires MetricsOf(turns, s.thresholds, fields, s.metrics)
    requires forall f :: f in fields <==> f in METRIC_LABELS || Extra(turns, s.thresholds, f)
    requires s.roundLeakCount == Count(turns, RoundLeak)
    ensures MetricsExact(s, turns)
  {
    forall f
      ensures f in s.metrics <==> (f in METRIC_LABELS || Extra(turns, s.thresholds, f)) && TurnsWith(turns, f) > 0
      ensures f in s.metrics ==> MetricExact(s.metrics[f], turns, f, s.thresholds)
    {
      ValuesCounted(turns, f, 0.0);
      if f in s.metrics {
        MetricIs(turns, f, s.thresholds);
      }
    }
  }

  /** The two gates, the score, the grade and the list of blocking reasons always agree, and they pass exactly the turns
      that are acceptable in themselves. */
  ghost predicate GatesAgree(s: Summary, turns: seq<Turn>) {
    && (s.readiness.honjiaReady <==> Acceptable(turns, s.thresholds))
    && (s.joyinside.ready <==> s.readiness.honjiaReady)
    && (s.joyinside.score == 100 <==> s.readiness.honjiaReady)
    && (s.joyinside.grade == A <==> s.readiness.honjiaReady)
    && (s.joyinside.blocking == [] <==> s.readiness.honjiaReady)
  }

  /** The failed metrics are those with a threshold that too few of their samples are within. */
  ghost predicate FailuresExact(s: Summary, turns: seq<Turn>) {
    forall f :: f in s.failedMetrics <==> f in s.thresholds && !MostWithin(turns, f, s.thresholds[f])
  }

  method SummarizeVoiceChain(turns: seq<Turn>, overrides: map<string, real>) returns (s: Summary)
    ensures s.thresholds == DEFAULT_THRESHOLDS + overrides
    ensures GatesAgree(s, turns) && FailuresExact(s, turns) && MetricsExact(s, turns)
  {
    s := SummarizeWith(turns, DEFAULT_THRESHOLDS + overrides);
  }

  method SummarizeWith(turns: seq<Turn>, thresholds: map<string, real>) returns (s: Summary)
    ensures s.thresholds == thresholds
    ensures GatesAgree(s, turns) && FailuresExact(s, turns) && MetricsExact(s, turns)
  {
    var fields, extra := MetricFields(turns, thresholds);
    var metrics, failed := ComputeMetrics(turns, thresholds, fields);
    var leaks := RoundLeakCount(turns);
    var interruptStop := InterruptStopSummary(turns, Get(thresholds, INTERRUPT_STOP));
    var streaming := StreamingSummary(turns);
    var readiness := ReadinessSummary(|turns|, failed, leaks == 0, interruptStop.ready, streaming.ready);
    var joyinside := JoyinsideReadiness(|turns|, failed, leaks == 0, interruptStop.ready, streaming.ready);
    s := Summary(thresholds, metrics, failed, leaks, interruptStop, streaming, readiness, joyinside);
    forall f ensures f in failed <==> f in thresholds && !MostWithin(turns, f, thresholds[f]) {
      FailedIff(turns, thresholds, fields, metrics, f);
    }
    assert failed != [] ==> failed[0] in failed;
    AllMetricsExact(s, turns, fields);
  }

  /** The thresholds in force: the caller's, and for the four gated metrics a default. */
  lemma ThresholdsInForce(overrides: map<string, real>)
    ensures var t := DEFAULT_THRESHOLDS + overrides;
      && (forall f :: f in overrides ==> f in t && t[f] == overrides[f])
      && (forall f :: f in t ==> f in overrides || f in {"asrFinalMs", "firstTokenMs", "firstAudioMs", "interruptStopMs"})
      && ("asrFinalMs" !in overrides ==> t["asrFinalMs"] == 800.0) && ("firstTokenMs" !in overrides ==> t["firstTokenMs"] == 700.0)
      && ("firstAudioMs" !in overrides ==> t["firstAudioMs"] == 2000.0)
      && ("interruptStopMs" !in overrides ==> t["interruptStopMs"] == 300.0)
  {
  }
}
