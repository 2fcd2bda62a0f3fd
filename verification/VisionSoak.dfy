/** Collecting and summarizing a vision soak: `apps/body_runtime/vision_soak.py`. */
module VisionSoak {
  import opened Basics
  import opened Statistics

  // ----- track switches -----

  /** A track of a row, its subject and track identifiers already read; either may be empty. */
  datatype Track = Track(subject: string, id: string)

  function Flat(rows: seq<seq<Track>>): seq<Track> {
    if rows == [] then [] else Flat(rows[..|rows| - 1]) + rows[|rows| - 1]
  }

  predicate Named(t: Track) {
    t.subject != "" && t.id != ""
  }

  /** The track identifiers one subject goes through. */
  function IdsOf(tracks: seq<Track>, subject: string): seq<string> {
    if tracks == [] then []
    else
      var t := tracks[|tracks| - 1];
      if Named(t) && t.subject == subject then IdsOf(tracks[..|tracks| - 1], subject) + [t.id]
      else IdsOf(tracks[..|tracks| - 1], subject)
  }

  /** Adjacent identifiers that differ. */
  function Changes(ids: seq<string>): nat {
    if |ids| <= 1 then 0 else Changes(ids[..|ids| - 1]) + if ids[|ids| - 2] != ids[|ids| - 1] then 1 else 0
  }

  /** The subjects seen under some identifier. */
  function Subjects(tracks: seq<Track>): set<string> {
    if tracks == [] then {}
    else
      var t := tracks[|tracks| - 1];
      if Named(t) then Subjects(tracks[..|tracks| - 1]) + {t.subject} else Subjects(tracks[..|tracks| - 1])
  }

  /** The changes of each of the given subjects, added up. */
  ghost function TotalChanges(subjects: set<string>, tracks: seq<Track>): nat {
    if subjects == {} then 0
    else
      var s :| s in subjects;
      Changes(IdsOf(tracks, s)) + TotalChanges(subjects - {s}, tracks)
  }

  /** Adjacent unequal identifiers, subject by subject. */
  ghost function SwitchTotal(tracks: seq<Track>): nat {
    TotalChanges(Subjects(tracks), tracks)
  }

  lemma {:induction false} TotalSplit(subjects: set<string>, s: string, tracks: seq<Track>)
    requires s in subjects
    ensures TotalChanges(subjects, tracks) == Changes(IdsOf(tracks, s)) + TotalChanges(subjects - {s}, tracks)
  {
    var p :| p in subjects
      && TotalChanges(subjects, tracks) == Changes(IdsOf(tracks, p)) + TotalChanges(subjects - {p}, tracks);
    if p != s {
      TotalSplit(subjects - {p}, s, tracks);
      TotalSplit(subjects - {s}, p, tracks);
      assert subjects - {p} - {s} == subjects - {s} - {p};
    }
  }

  lemma IdsGrow(tracks: seq<Track>, t: Track, subject: string)
    ensures IdsOf(tracks + [t], subject)
         == if Named(t) && t.subject == subject then IdsOf(tracks, subject) + [t.id] else IdsOf(tracks, subject)
  {
    assert (tracks + [t])[..|tracks|] == tracks;
  }

  lemma {:induction false} TotalUnaffected(subjects: set<string>, tracks: seq<Track>, t: Track)
    requires !Named(t) || t.subject !in subjects
    ensures TotalChanges(subjects, tracks + [t]) == TotalChanges(subjects, tracks)
  {
    if subjects != {} {
      var s :| s in subjects;
      TotalSplit(subjects, s, tracks);
      TotalSplit(subjects, s, tracks + [t]);
      IdsGrow(tracks, t, s);
      TotalUnaffected(subjects - {s}, tracks, t);
    }
  }

  /** One more named track adds a change exactly when its subject's last identifier was another one. */
  lemma TotalGrows(tracks: seq<Track>, t: Track)
    ensures var ids := IdsOf(tracks, t.subject);
      SwitchTotal(tracks + [t]) == SwitchTotal(tracks) + if Named(t) && ids != [] && ids[|ids| - 1] != t.id then 1 else 0
  {
    var before, s := Subjects(tracks), t.subject;
    assert (tracks + [t])[..|tracks|] == tracks;
    if Named(t) {
      TotalWithSubject(before + {s}, tracks, t);
      if s !in before {
        TotalSplit(before + {s}, s, tracks);
        NoIds(tracks, s);
        assert before + {s} - {s} == before;
      } else {
        assert before + {s} == before;
      }
    } else {
      TotalUnaffected(before, tracks, t);
    }
  }

  lemma TotalWithSubject(subjects: set<string>, tracks: seq<Track>, t: Track)
    requires Named(t) && t.subject in subjects
    ensures var ids := IdsOf(tracks, t.subject);
      TotalChanges(subjects, tracks + [t])
      == TotalChanges(subjects, tracks) + if ids != [] && ids[|ids| - 1] != t.id then 1 else 0
  {
    var s := t.subject;
    TotalSplit(subjects, s, tracks);
    TotalSplit(subjects, s, tracks + [t]);
    TotalUnaffected(subjects - {s}, tracks, t);
    SubjectGrows(tracks, t);
  }

  lemma SubjectGrows(tracks: seq<Track>, t: Track)
    requires Named(t)
    ensures var ids := IdsOf(tracks, t.subject);
      Changes(IdsOf(tracks + [t], t.subject)) == Changes(ids) + if ids != [] && ids[|ids| - 1] != t.id then 1 else 0
  {
    IdsGrow(tracks, t, t.subject);
    ChangesGrow(IdsOf(tracks, t.subject), t.id);
  }

  lemma ChangesGrow(ids: seq<string>, id: string)
    ensures Changes(ids + [id]) == Changes(ids) + if ids != [] && ids[|ids| - 1] != id then 1 else 0
  {
    assert (ids + [id])[..|ids|] == ids;
  }

  lemma {:induction false} NoIds(tracks: seq<Track>, s: string)
    requires s !in Subjects(tracks)
    ensures IdsOf(tracks, s) == []
  {
    if tracks != [] {
      NoIds(tracks[..|tracks| - 1], s);
    }
  }

  /** The map holds each subject's latest identifier, and no others. */
  ghost predicate LatestIds(latest: map<string, string>, tracks: seq<Track>) {
    forall s :: LatestId(latest, IdsOf(tracks, s), s)
  }

  predicate LatestId(latest: map<string, string>, ids: seq<string>, s: string) {
    (s in latest <==> ids != []) && (s in latest ==> latest[s] == ids[|ids| - 1] && latest[s] != "")
  }

  /** One pass over the rows counts, for every subject, how often its identifier changed from one sighting to the next. */
  method TrackIdSwitchCount(rows: seq<seq<Track>>) returns (switches: nat)
    ensures switches == SwitchTotal(Flat(rows))
  {
    var latest: map<string, string> := map[];
    switches := 0;
    ghost var seen: seq<Track> := [];
    for r := 0 to |rows|
      invariant seen == Flat(rows[..r])
      invariant LatestIds(latest, seen) && switches == SwitchTotal(seen)
    {
      latest, switches := CountRow(rows[r], latest, switches, seen);
      seen := seen + rows[r];
      assert rows[..r + 1][..r] == rows[..r];
    }
    assert rows[..|rows|] == rows;
  }

  /** The inner loop, over the tracks of one row. */
  method CountRow(row: seq<Track>, latestBefore: map<string, string>, switchesBefore: nat, ghost before: seq<Track>)
    returns (latest: map<string, string>, switches: nat)
    requires LatestIds(latestBefore, before) && switchesBefore == SwitchTotal(before)
    ensures LatestIds(latest, before + row) && switches == SwitchTotal(before + row)
  {
    latest, switches := latestBefore, switchesBefore;
    ghost var seen := before;
    for n := 0 to |row|
      invariant seen == before + row[..n]
      invariant LatestIds(latest, seen) && switches == SwitchTotal(seen)
    {
      var track := row[n];
      assert row[..n + 1] == row[..n] + [track];
      TrackSeen(latest, seen, track);
      if track.subject != "" && track.id != "" {
        if track.subject in latest && latest[track.subject] != "" && latest[track.subject] != track.id {
          switches := switches + 1;
        }
        latest := latest[track.subject := track.id];
      }
      seen := seen + [track];
    }
    assert row[..|row|] == row;
  }

  lemma LatestGrows(latest: map<string, string>, tracks: seq<Track>, t: Track)
    requires LatestIds(latest, tracks)
    ensures LatestIds(if Named(t) then latest[t.subject := t.id] else latest, tracks + [t])
  {
    var next := if Named(t) then latest[t.subject := t.id] else latest;
    forall s ensures LatestId(next, IdsOf(tracks + [t], s), s) {
      assert LatestId(latest, IdsOf(tracks, s), s);
      IdsGrow(tracks, t, s);
    }
  }

  lemma TrackSeen(latest: map<string, string>, tracks: seq<Track>, t: Track)
    requires LatestIds(latest, tracks)
    ensures LatestIds(if Named(t) then latest[t.subject := t.id] else latest, tracks + [t])
    ensures SwitchTotal(tracks + [t])
         == SwitchTotal(tracks) + if Named(t) && t.subject in latest && latest[t.subject] != t.id then 1 else 0
    ensures t.subject in latest ==> latest[t.subject] != ""
  {
    LatestGrows(latest, tracks, t);
    TotalGrows(tracks, t);
    var ids := IdsOf(tracks, t.subject);
    assert t.subject in latest <==> ids != [];
  }

  // ----- dropouts -----

  ghost predicate DropoutBlock(dropout: seq<bool>, from: int, to: int) {
    0 <= from <= to <= |dropout| && forall k :: from <= k < to ==> dropout[k]
  }

  /** The length of the longest contiguous block of dropout rows. */
  method FrameDropTolerance(dropout: seq<bool>) returns (maxRun: nat)
    ensures exists from, to :: DropoutBlock(dropout, from, to) && to - from == maxRun
    ensures forall from, to :: DropoutBlock(dropout, from, to) ==> to - from <= maxRun
  {
    maxRun := 0;
    var currentRun := 0;
    ghost var best := 0;
    for n := 0 to |dropout|
      invariant 0 <= currentRun <= n && DropoutBlock(dropout, n - currentRun, n)
      invariant currentRun < n ==> !dropout[n - currentRun - 1]
      invariant DropoutBlock(dropout, best, best + maxRun)
      invariant forall from, to :: DropoutBlock(dropout, from, to) && to <= n ==> to - from <= maxRun
    {
      if dropout[n] {
        currentRun := currentRun + 1;
        if currentRun > maxRun {
          maxRun := currentRun;
          best := n + 1 - currentRun;
        }
      } else {
        currentRun := 0;
      }
      forall from, to | DropoutBlock(dropout, from, to) && to <= n + 1 ensures to - from <= maxRun {
        if to == n + 1 && from < n + 1 {
          assert dropout[n];
          assert from >= n + 1 - currentRun;
        }
      }
    }
  }

  // ----- collection -----

  datatype Reading = Payload(fps: real) | Failure(message: string)

  /** One turn of the collection loop as its surroundings have it: what the status source returns, the clock afterwards,
      and the clock after the sleep. */
  datatype Tick = Tick(reading: Reading, checkedAt: real, wokeAt: real)

  datatype Sample = Sample(elapsed: real, reading: Reading)

  /** The clock at the top of turn `k`. */
  function NowAt(ticks: nat -> Tick, start: real, k: nat): real {
    if k == 0 then start else ticks(k - 1).wokeAt
  }

  /** In turn `k` the clock does not run backwards, and the sleeper sleeps at least as long as asked. */
  predicate TurnBehaves(ticks: nat -> Tick, start: real, deadline: real, interval: real, k: nat) {
    && ticks(k).checkedAt >= NowAt(ticks, start, k)
    && (deadline > ticks(k).checkedAt ==>
          ticks(k).wokeAt >= ticks(k).checkedAt + MinReal(interval, deadline - ticks(k).checkedAt))
  }

  ghost predicate WellBehaved(ticks: nat -> Tick, start: real, deadline: real, interval: real) {
    forall k: nat :: TurnBehaves(ticks, start, deadline, interval, k)
  }

  function SampleAt(ticks: nat -> Tick, start: real, k: nat): Sample {
    Sample(NowAt(ticks, start, k) - start, ticks(k).reading)
  }

  function ErrorsIn(samples: seq<Sample>): seq<Sample> {
    if samples == [] then []
    else
      var last := samples[|samples| - 1];
      if last.reading.Failure? then ErrorsIn(samples[..|samples| - 1]) + [last] else ErrorsIn(samples[..|samples| - 1])
  }

  /** Turn `k` began before the deadline and went to sleep before it. */
  predicate SleptTurn(ticks: nat -> Tick, start: real, deadline: real, k: nat) {
    NowAt(ticks, start, k) < deadline && ticks(k).checkedAt < deadline
  }

  ghost predicate Slept(ticks: nat -> Tick, start: real, deadline: real, n: nat) {
    forall k: nat :: k < n ==> SleptTurn(ticks, start, deadline, k)
  }

  /** Whole intervals, as elapsed time. */
  function Intervals(n: nat, interval: real): real {
    n as real * interval
  }

  lemma TurnTime(ticks: nat -> Tick, start: real, deadline: real, interval: real, k: nat)
    requires TurnBehaves(ticks, start, deadline, interval, k) && SleptTurn(ticks, start, deadline, k) && interval > 0.0
    ensures var next := NowAt(ticks, start, k + 1);
      next >= NowAt(ticks, start, k) && (next >= deadline || next >= NowAt(ticks, start, k) + interval)
  {
  }

  lemma NextInterval(n: nat, interval: real)
    ensures Intervals(n + 1, interval) == Intervals(n, interval) + interval
  {
  }

  /** Every sleep but the last takes at least an interval. */
  lemma {:induction false} SleptTime(ticks: nat -> Tick, start: real, deadline: real, interval: real, n: nat)
    requires WellBehaved(ticks, start, deadline, interval) && interval > 0.0
    requires Slept(ticks, start, deadline, n)
    ensures NowAt(ticks, start, n) >= start
    ensures NowAt(ticks, start, n) >= deadline || NowAt(ticks, start, n) >= start + Intervals(n, interval)
  {
    if n > 0 {
      SleptTime(ticks, start, deadline, interval, n - 1);
      assert SleptTurn(ticks, start, deadline, n - 1);
      TurnTime(ticks, start, deadline, interval, n - 1);
      NextInterval(n - 1, interval);
    }
  }

  lemma {:induction false} SleptLater(ticks: nat -> Tick, start: real, deadline: real, interval: real, k: nat, n: nat)
    requires WellBehaved(ticks, start, deadline, interval) && interval > 0.0
    requires Slept(ticks, start, deadline, n) && k <= n
    ensures NowAt(ticks, start, k) <= NowAt(ticks, start, n)
    decreases n - k
  {
    if k < n {
      assert SleptTurn(ticks, start, deadline, k);
      TurnTime(ticks, start, deadline, interval, k);
      SleptLater(ticks, start, deadline, interval, k + 1, n);
    }
  }

  lemma QuotientBound(n: nat, duration: real, interval: real)
    requires interval > 0.0 && Intervals(n, interval) < duration
    ensures n < CeilReal(duration / interval)
  {
    var q := duration / interval;
    assert q * interval == duration;
    NotNegative(n as real - q, interval);
  }

  lemma NotNegative(x: real, y: real)
    requires y > 0.0
    ensures x >= 0.0 ==> x * y >= 0.0
  {
  }

  /** A turn that begins before the deadline is one of at most as many as there are intervals in the duration. */
  lemma TurnsBounded(ticks: nat -> Tick, start: real, duration: real, interval: real, n: nat)
    requires WellBehaved(ticks, start, start + duration, interval) && interval > 0.0
    requires Slept(ticks, start, start + duration, n) && NowAt(ticks, start, n) < start + duration
    ensures n < CeilReal(duration / interval) && NowAt(ticks, start, n) >= start
  {
    SleptTime(ticks, start, start + duration, interval, n);
    QuotientBound(n, duration, interval);
  }

  /** What collection yields: a sample for each of the turns made, in order, and the errors among them. */
  ghost predicate Collected(ticks: nat -> Tick, start: real, samples: seq<Sample>, errors: seq<Sample>) {
    && (forall k :: 0 <= k < |samples| ==> samples[k] == SampleAt(ticks, start, k))
    && errors == ErrorsIn(samples)
  }

  lemma CollectedGrows(ticks: nat -> Tick, start: real, samples: seq<Sample>, errors: seq<Sample>)
    requires Collected(ticks, start, samples, errors)
    ensures var sample := SampleAt(ticks, start, |samples|);
      Collected(ticks, start, samples + [sample], if sample.reading.Failure? then errors + [sample] else errors)
  {
    var sample := SampleAt(ticks, start, |samples|);
    assert (samples + [sample])[..|samples|] == samples;
  }

  /** Every turn but the last went to sleep before the deadline, and the last one ran into it. */
  ghost predicate RanOut(ticks: nat -> Tick, start: real, deadline: real, n: nat) {
    n > 0 ==>
      && Slept(ticks, start, deadline, n - 1) && NowAt(ticks, start, n - 1) < deadline
      && (deadline <= ticks(n - 1).checkedAt || deadline <= ticks(n - 1).wokeAt)
  }

  lemma SleptRanOut(ticks: nat -> Tick, start: real, deadline: real, n: nat)
    requires Slept(ticks, start, deadline, n) && NowAt(ticks, start, n) >= deadline
    ensures RanOut(ticks, start, deadline, n)
  {
    assert n > 0 ==> SleptTurn(ticks, start, deadline, n - 1);
  }

  /** What the loop has done when it is about to ask whether the deadline has passed. */
  ghost predicate Turning(ticks: nat -> Tick, start: real, deadline: real, samples: seq<Sample>, errors: seq<Sample>) {
    Collected(ticks, start, samples, errors) && Slept(ticks, start, deadline, |samples|)
  }

  /** No more turns begin before the deadline, and none of them before the start. */
  ghost predicate TurnsWithin(ticks: nat -> Tick, start: real, deadline: real, most: int) {
    forall n: nat :: Slept(ticks, start, deadline, n) && NowAt(ticks, start, n) < deadline ==>
      n < most && NowAt(ticks, start, n) >= start
  }

  lemma TurnMade(ticks: nat -> Tick, start: real, deadline: real, samples: seq<Sample>, errors: seq<Sample>, sample: Sample)
    requires Turning(ticks, start, deadline, samples, errors)
    requires NowAt(ticks, start, |samples|) < deadline && sample == SampleAt(ticks, start, |samples|)
    ensures Collected(ticks, start, samples + [sample], if sample.reading.Failure? then errors + [sample] else errors)
    ensures ticks(|samples|).checkedAt < deadline ==> Slept(ticks, start, deadline, |samples| + 1)
    ensures ticks(|samples|).checkedAt >= deadline ==> RanOut(ticks, start, deadline, |samples| + 1)
  {
    CollectedGrows(ticks, start, samples, errors);
  }

  lemma AllTurnsBounded(ticks: nat -> Tick, start: real, duration: real, interval: real)
    requires WellBehaved(ticks, start, start + duration, interval) && interval > 0.0
    ensures TurnsWithin(ticks, start, start + duration, CeilReal(duration / interval))
  {
    forall n: nat | Slept(ticks, start, start + duration, n) && NowAt(ticks, start, n) < start + duration
      ensures n < CeilReal(duration / interval) && NowAt(ticks, start, n) >= start
    {
      TurnsBounded(ticks, start, duration, interval, n);
    }
  }

  /** `collect_vision_soak`: it takes a sample at every turn that begins before the deadline, at most one per interval of
      the duration, and keeps one error entry for every sample whose reading failed. */
  method CollectVisionSoak(ticks: nat -> Tick, start: real, durationS: real, intervalS: real)
    returns (samples: seq<Sample>, errors: seq<Sample>)
    requires WellBehaved(ticks, start, start + MaxReal(0.0, durationS), MaxReal(0.001, intervalS))
    ensures Collected(ticks, start, samples, errors)
    ensures durationS > 0.0 ==> |samples| <= CeilReal(durationS / MaxReal(0.001, intervalS))
    ensures samples == [] <==> durationS <= 0.0
    ensures RanOut(ticks, start, start + durationS, |samples|)
    ensures forall k :: 0 <= k < |samples| ==>
      samples[k].reading == ticks(k).reading && samples[k].elapsed == if k == 0 then 0.0 else ticks(k - 1).wokeAt - start
  {
    var duration, interval := MaxReal(0.0, durationS), MaxReal(0.001, intervalS);
    AllTurnsBounded(ticks, start, duration, interval);
    samples, errors := CollectTurns(ticks, start, start + duration, CeilReal(duration / interval));
  }

  /** The collecting loop, with the number of turns that fit before the deadline. */
  method CollectTurns(ticks: nat -> Tick, start: real, deadline: real, ghost most: int)
    returns (samples: seq<Sample>, errors: seq<Sample>)
    requires TurnsWithin(ticks, start, deadline, most)
    ensures Collected(ticks, start, samples, errors)
    ensures samples != [] ==> |samples| <= most
    ensures samples == [] <==> deadline <= start
    ensures RanOut(ticks, start, deadline, |samples|)
  {
    var now := start;
    samples, errors := [], [];
    while now < deadline
      invariant Turning(ticks, start, deadline, samples, errors)
      invariant now == NowAt(ticks, start, |samples|)
      invariant samples != [] ==> |samples| <= most && start < deadline
      decreases most - |samples|
    {
      assert |samples| < most && now >= start;
      var tick := ticks(|samples|);
      var sample := Sample(MaxReal(0.0, now - start), tick.reading);
      TurnMade(ticks, start, deadline, samples, errors, sample);
      samples := samples + [sample];
      if tick.reading.Failure? {
        errors := errors + [sample];
      }
      var remaining := deadline - tick.checkedAt;
      if remaining <= 0.0 {
        return;
      }
      now := tick.wokeAt;
    }
    SleptRanOut(ticks, start, deadline, |samples|);
  }

  /** The elapsed times of the samples rise and stay below the duration, and there is one error for each failed reading. */
  lemma CollectedTimes(ticks: nat -> Tick, start: real, duration: real, interval: real, samples: seq<Sample>, errors: seq<Sample>)
    requires WellBehaved(ticks, start, start + duration, interval) && interval > 0.0
    requires Collected(ticks, start, samples, errors) && samples != []
    requires Slept(ticks, start, start + duration, |samples| - 1) && NowAt(ticks, start, |samples| - 1) < start + duration
    ensures forall j, k :: 0 <= j <= k < |samples| ==> 0.0 <= samples[j].elapsed <= samples[k].elapsed < duration
    ensures |errors| == |set k | 0 <= k < |samples| && ticks(k).reading.Failure?|
    ensures forall e :: e in errors <==> e in samples && e.reading.Failure?
  {
    ErrorsAmong(samples);
    forall j, k | 0 <= j <= k < |samples| ensures 0.0 <= samples[j].elapsed <= samples[k].elapsed < duration {
      SleptTime(ticks, start, start + duration, interval, j);
      SleptLater(ticks, start, start + duration, interval, j, k);
      SleptLater(ticks, start, start + duration, interval, k, |samples| - 1);
    }
    ErrorsCounted(ticks, start, samples);
  }

  lemma {:induction false} ErrorsAmong(samples: seq<Sample>)
    ensures forall e :: e in ErrorsIn(samples) <==> e in samples && e.reading.Failure?
  {
    if samples != [] {
      var n := |samples| - 1;
      ErrorsAmong(samples[..n]);
      assert samples == samples[..n] + [samples[n]];
    }
  }

  lemma {:induction false} ErrorsCounted(ticks: nat -> Tick, start: real, samples: seq<Sample>)
    requires forall k :: 0 <= k < |samples| ==> samples[k] == SampleAt(ticks, start, k)
    ensures |ErrorsIn(samples)| == |set k | 0 <= k < |samples| && ticks(k).reading.Failure?|
  {
    var failed := set k | 0 <= k < |samples| && ticks(k).reading.Failure?;
    if samples == [] {
      assert failed == {};
    } else {
      var n := |samples| - 1;
      ErrorsCounted(ticks, start, samples[..n]);
      var earlier := set k | 0 <= k < n && ticks(k).reading.Failure?;
      assert failed == if ticks(n).reading.Failure? then earlier + {n} else earlier;
    }
  }
}
