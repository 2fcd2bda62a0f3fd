/** A round's event log: its first and last events of a kind, and the one-pass metrics of
    `_event_sample_metrics` in `apps/body_runtime/voice_dialogue_loop.py`. */
module EventMetrics {
  import opened Basics
  import opened RealtimeVoice

  // ----- reading a log -----

  function FirstAt(events: seq<Event>, kind: EventType): Option<real> {
    if events == [] then None
    else if events[0].eventType == kind then Some(events[0].at)
    else FirstAt(events[1..], kind)
  }

  function LastAt(events: seq<Event>, kinds: set<EventType>): Option<real> {
    if events == [] then None
    else if events[|events| - 1].eventType in kinds then Some(events[|events| - 1].at)
    else LastAt(events[..|events| - 1], kinds)
  }

  function CountOf(events: seq<Event>, kind: EventType): nat {
    if events == [] then 0
    else CountOf(events[..|events| - 1], kind) + if events[|events| - 1].eventType == kind then 1 else 0
  }

  lemma {:induction false} FirstAtAppend(events: seq<Event>, e: Event, kind: EventType)
    ensures FirstAt(events + [e], kind)
         == if FirstAt(events, kind).Some? then FirstAt(events, kind) else if e.eventType == kind then Some(e.at) else None
  {
    if events == [] {
      assert events + [e] == [e] && [e][1..] == [];
    } else {
      assert (events + [e])[1..] == events[1..] + [e];
      FirstAtAppend(events[1..], e, kind);
    }
  }

  lemma LastAtAppend(events: seq<Event>, e: Event, kinds: set<EventType>)
    ensures LastAt(events + [e], kinds) == if e.eventType in kinds then Some(e.at) else LastAt(events, kinds)
  {
    assert (events + [e])[..|events|] == events;
  }

  lemma {:induction false} FirstAtQuiet(events: seq<Event>, added: seq<Event>, kind: EventType)
    requires forall e :: e in added ==> e.eventType != kind
    ensures FirstAt(events + added, kind) == FirstAt(events, kind)
  {
    if added == [] {
      assert events + added == events;
    } else {
      var n := |added| - 1;
      assert events + added == (events + added[..n]) + [added[n]];
      FirstAtQuiet(events, added[..n], kind);
      FirstAtAppend(events + added[..n], added[n], kind);
    }
  }

  lemma {:induction false} LastAtQuiet(events: seq<Event>, added: seq<Event>, kinds: set<EventType>)
    requires forall e :: e in added ==> e.eventType !in kinds
    ensures LastAt(events + added, kinds) == LastAt(events, kinds)
  {
    if added == [] {
      assert events + added == events;
    } else {
      var n := |added| - 1;
      assert events + added == (events + added[..n]) + [added[n]];
      LastAtQuiet(events, added[..n], kinds);
      LastAtAppend(events + added[..n], added[n], kinds);
    }
  }

  predicate FirstIs(events: seq<Event>, kind: EventType, k: int) {
    0 <= k < |events| && events[k].eventType == kind && forall j :: 0 <= j < k ==> events[j].eventType != kind
  }

  predicate LastIs(events: seq<Event>, kinds: set<EventType>, k: int) {
    0 <= k < |events| && events[k].eventType in kinds && forall j :: k < j < |events| ==> events[j].eventType !in kinds
  }

  lemma {:induction false} FirstAtIs(events: seq<Event>, kind: EventType)
    ensures match FirstAt(events, kind)
      case None => forall j :: 0 <= j < |events| ==> events[j].eventType != kind
      case Some(at) => exists k :: FirstIs(events, kind, k) && events[k].at == at
  {
    if events != [] {
      var rest := events[1..];
      if events[0].eventType == kind {
        assert FirstIs(events, kind, 0);
      } else {
        FirstAtIs(rest, kind);
        if FirstAt(rest, kind).Some? {
          var k :| FirstIs(rest, kind, k) && rest[k].at == FirstAt(rest, kind).value;
          assert FirstIs(events, kind, k + 1) by {
            assert forall j :: 0 < j <= k + 1 ==> events[j] == rest[j - 1];
          }
        } else {
          assert forall j :: 0 < j < |events| ==> events[j] == rest[j - 1];
        }
      }
    }
  }

  lemma {:induction false} LastAtIs(events: seq<Event>, kinds: set<EventType>)
    ensures match LastAt(events, kinds)
      case None => forall j :: 0 <= j < |events| ==> events[j].eventType !in kinds
      case Some(at) => exists k :: LastIs(events, kinds, k) && events[k].at == at
  {
    if events != [] {
      var n := |events| - 1;
      var rest := events[..n];
      if events[n].eventType in kinds {
        assert LastIs(events, kinds, n);
      } else {
        LastAtIs(rest, kinds);
        if LastAt(rest, kinds).Some? {
          var k :| LastIs(rest, kinds, k) && rest[k].at == LastAt(rest, kinds).value;
          assert LastIs(events, kinds, k);
        } else {
          assert forall j :: 0 <= j < n ==> events[j] == rest[j];
        }
      }
    }
  }

  // ----- the one-pass metrics -----

  /** The metrics of a log; a key the scan never sets is `None`. */
  datatype Metrics = Metrics(
    firstAsrPartialMs: Option<real>, asrFinalMs: Option<real>, firstLlmDeltaMs: Option<real>, firstTokenMs: Option<real>,
    firstTtsChunkMs: Option<real>, firstAudioMs: Option<real>, totalMs: Option<real>)

  /** The offset of the first event of a kind from a given start. */
  function Offset(events: seq<Event>, kind: EventType, start: real): Option<real> {
    var first := FirstAt(events, kind);
    if first.Some? then Some((first.value - start) * 1000.0) else None
  }

  function Offsets(events: seq<Event>, start: real): Metrics {
    Metrics(Offset(events, AsrPartial, start), Offset(events, AsrFinal, start), Offset(events, AgentThink, start),
            Offset(events, AgentThink, start), Offset(events, TtsChunk, start), Offset(events, TtsStarted, start),
            Offset(events, CompleteNoted, start))
  }

  /** The start of a log: its first "listening_started" event, else its first event. */
  function StartAt(events: seq<Event>): real
    requires events != []
  {
    FirstAt(events, ListeningStarted).GetOr(events[0].at)
  }

  function SampleMetrics(events: seq<Event>): Metrics {
    if events == [] then Metrics(None, None, None, None, None, None, None) else Offsets(events, StartAt(events))
  }

  /** A metric is the time from the start to the first event of a type, in milliseconds, and missing if there is none. */
  ghost predicate Measures(metric: Option<real>, events: seq<Event>, kind: EventType)
    requires events != []
  {
    match metric
    case None => forall j :: 0 <= j < |events| ==> events[j].eventType != kind
    case Some(ms) => exists k :: FirstIs(events, kind, k) && ms == (events[k].at - StartAt(events)) * 1000.0
  }

  lemma OffsetMeasures(events: seq<Event>, kind: EventType)
    requires events != []
    ensures Measures(Offset(events, kind, StartAt(events)), events, kind)
  {
    FirstAtIs(events, kind);
    if FirstAt(events, kind).Some? {
      var k :| FirstIs(events, kind, k) && events[k].at == FirstAt(events, kind).value;
      assert Offset(events, kind, StartAt(events)) == Some((events[k].at - StartAt(events)) * 1000.0);
    }
  }

  /** Which event each metric measures, and from where. */
  lemma MetricsMeasure(events: seq<Event>)
    requires events != []
    ensures var m := SampleMetrics(events);
      && Measures(m.firstAsrPartialMs, events, AsrPartial) && Measures(m.asrFinalMs, events, AsrFinal)
      && Measures(m.firstLlmDeltaMs, events, AgentThink) && Measures(m.firstTokenMs, events, AgentThink)
      && Measures(m.firstTtsChunkMs, events, TtsChunk) && Measures(m.firstAudioMs, events, TtsStarted)
      && Measures(m.totalMs, events, CompleteNoted)
    ensures StartAt(events) == events[0].at || exists k :: FirstIs(events, ListeningStarted, k) && StartAt(events) == events[k].at
    ensures forall k :: FirstIs(events, ListeningStarted, k) ==> StartAt(events) == events[k].at
  {
    FirstAtIs(events, ListeningStarted);
    OffsetMeasures(events, AsrPartial);
    OffsetMeasures(events, AsrFinal);
    OffsetMeasures(events, AgentThink);
    OffsetMeasures(events, TtsChunk);
    OffsetMeasures(events, TtsStarted);
    OffsetMeasures(events, CompleteNoted);
  }

  lemma OffsetAppend(events: seq<Event>, e: Event, kind: EventType, start: real)
    ensures Offset(events + [e], kind, start)
         == if e.eventType == kind then FirstMark(Offset(events, kind, start), (e.at - start) * 1000.0) else Offset(events, kind, start)
  {
    FirstAtAppend(events, e, kind);
  }

  /** One pass over the log, each key set by the first event that offers it. */
  method EventSampleMetrics(events: seq<Event>) returns (result: Metrics)
    ensures result == SampleMetrics(events)
  {
    result := Metrics(None, None, None, None, None, None, None);
    if events == [] {
      return;
    }
    var start := StartAt(events);
    for n := 0 to |events|
      invariant result == Offsets(events[..n], start)
    {
      var kind, elapsed := events[n].eventType, (events[n].at - start) * 1000.0;
      assert events[..n + 1] == events[..n] + [events[n]];
      OffsetAppend(events[..n], events[n], AsrPartial, start);
      OffsetAppend(events[..n], events[n], AsrFinal, start);
      OffsetAppend(events[..n], events[n], AgentThink, start);
      OffsetAppend(events[..n], events[n], TtsChunk, start);
      OffsetAppend(events[..n], events[n], TtsStarted, start);
      OffsetAppend(events[..n], events[n], CompleteNoted, start);
      if kind == AsrPartial {
        result := result.(firstAsrPartialMs := FirstMark(result.firstAsrPartialMs, elapsed));
      } else if kind == AsrFinal {
        result := result.(asrFinalMs := FirstMark(result.asrFinalMs, elapsed));
      } else if kind == AgentThink {
        result := result.(firstLlmDeltaMs := FirstMark(result.firstLlmDeltaMs, elapsed));
        result := result.(firstTokenMs := FirstMark(result.firstTokenMs, elapsed));
      } else if kind == TtsChunk {
        result := result.(firstTtsChunkMs := FirstMark(result.firstTtsChunkMs, elapsed));
      } else if kind == TtsStarted {
        result := result.(firstAudioMs := FirstMark(result.firstAudioMs, elapsed));
      } else if kind == CompleteNoted {
        result := result.(totalMs := FirstMark(result.totalMs, elapsed));
      }
    }
    assert events[..|events|] == events;
  }
}
