/** The duration-capped audio buffer and the wake detector that polls it: `eibrain/body/realtime_audio.py`. */
module RingBuffer {
  import opened Basics

  datatype Chunk = Chunk(payload: seq<Byte>, durationMs: int, capturedAt: real, sequence: int)

  /** The chunk `append` stores; a duration below one millisecond counts as one. */
  function Stored(payload: seq<Byte>, durationMs: int, capturedAt: real, sequence: int): Chunk {
    Chunk(payload, Max(1, durationMs), capturedAt, sequence)
  }

  function Duration(chunks: seq<Chunk>): int {
    if chunks == [] then 0 else chunks[0].durationMs + Duration(chunks[1..])
  }

  ghost predicate Positive(chunks: seq<Chunk>) {
    forall k :: 0 <= k < |chunks| ==> chunks[k].durationMs >= 1
  }

  lemma {:induction false} DurationSplit(a: seq<Chunk>, b: seq<Chunk>)
    ensures Duration(a + b) == Duration(a) + Duration(b)
  {
    if a == [] {
      assert a + b == b;
    } else {
      assert (a + b)[1..] == a[1..] + b;
      DurationSplit(a[1..], b);
    }
  }

  lemma {:induction false} DurationPositive(chunks: seq<Chunk>)
    requires Positive(chunks)
    ensures Duration(chunks) >= |chunks|
  {
    if chunks != [] {
      DurationPositive(chunks[1..]);
    }
  }

  lemma DropLasts(chunks: seq<Chunk>, j: nat, k: nat)
    requires Positive(chunks) && j <= k <= |chunks|
    ensures DurationFrom(chunks, j) >= DurationFrom(chunks, k) + (k - j)
  {
    assert chunks[j..] == chunks[j..k] + chunks[k..];
    DurationSplit(chunks[j..k], chunks[k..]);
    DurationPositive(chunks[j..k]);
  }

  /** How long everything from chunk `k` on lasts. */
  function DurationFrom(chunks: seq<Chunk>, k: nat): int
    requires k <= |chunks|
  {
    Duration(chunks[k..])
  }

  /** Dropping `d` chunks leaves the longest suffix that fits the cap. */
  ghost predicate LongestFitting(history: seq<Chunk>, d: nat, cap: int) {
    && d <= |history|
    && DurationFrom(history, d) <= cap
    && forall e :: 0 <= e < d ==> DurationFrom(history, e) > cap
  }

  /** Keeping everything from `k` on is the shortest suffix that covers the request, or all there is. */
  ghost predicate ShortestCovering(chunks: seq<Chunk>, k: nat, requested: int) {
    && k <= |chunks|
    && (forall e :: k < e <= |chunks| ==> DurationFrom(chunks, e) < requested)
    && (DurationFrom(chunks, k) >= requested || k == 0)
  }

  /** The counters and contents of a buffer. */
  datatype Store = Store(chunks: seq<Chunk>, durationMs: int, sequence: nat, droppedChunks: nat, droppedMs: int)

  /** The store a history leaves behind when its first `d` chunks have been dropped. */
  function StoreOf(history: seq<Chunk>, d: nat): Store
    requires d <= |history|
  {
    Store(history[d..], Duration(history[d..]), |history|, d, Duration(history[..d]))
  }

  /** Chunks last at least a millisecond and are numbered from one. */
  ghost predicate Numbered(history: seq<Chunk>) {
    forall k :: 0 <= k < |history| ==> history[k].durationMs >= 1 && history[k].sequence == k + 1
  }

  /** Nothing is lost from the counts: stored and dropped together are everything ever appended. */
  lemma StoreConserves(history: seq<Chunk>, d: nat)
    requires d <= |history|
    ensures var s := StoreOf(history, d);
      && s.droppedChunks + |s.chunks| == s.sequence == |history|
      && s.droppedMs + s.durationMs == Duration(history)
  {
    assert history[..d] + history[d..] == history;
    DurationSplit(history[..d], history[d..]);
  }

  function Pushed(s: Store, chunk: Chunk): Store {
    Store(s.chunks + [chunk], s.durationMs + chunk.durationMs, s.sequence + 1, s.droppedChunks, s.droppedMs)
  }

  lemma StoreAppend(history: seq<Chunk>, d: nat, chunk: Chunk, cap: int)
    requires d <= |history| && TooLongBefore(history, d, cap) && chunk.durationMs >= 1
    ensures TooLongBefore(history + [chunk], d, cap)
    ensures StoreOf(history + [chunk], d) == Pushed(StoreOf(history, d), chunk)
  {
    assert (history + [chunk])[d..] == history[d..] + [chunk] && (history + [chunk])[..d] == history[..d];
    DurationSplit(history[d..], [chunk]);
    forall e | 0 <= e < d ensures DurationFrom(history + [chunk], e) > cap {
      assert (history + [chunk])[e..] == history[e..] + [chunk];
      DurationSplit(history[e..], [chunk]);
      assert DurationFrom(history, e) > cap;
    }
  }

  /** The oldest chunk leaves the buffer for the drop counts. */
  function Dropped(s: Store): Store
    requires s.chunks != []
  {
    Store(s.chunks[1..], s.durationMs - s.chunks[0].durationMs, s.sequence, s.droppedChunks + 1, s.droppedMs + s.chunks[0].durationMs)
  }

  lemma StoreDrop(history: seq<Chunk>, d: nat, cap: int)
    requires d < |history| && TooLongBefore(history, d, cap)
    ensures StoreOf(history, d + 1) == Dropped(StoreOf(history, d))
    ensures StoreOf(history, d).durationMs > cap ==> TooLongBefore(history, d + 1, cap)
  {
    assert history[d..][1..] == history[d + 1..] && history[..d + 1] == history[..d] + [history[d]];
    DurationSplit(history[..d], [history[d]]);
  }

  /** Whatever was dropped could not have stayed. */
  ghost predicate TooLongBefore(history: seq<Chunk>, d: nat, cap: int)
    requires d <= |history|
  {
    forall e :: 0 <= e < d ==> DurationFrom(history, e) > cap
  }

  datatype Snapshot = Snapshot(
    chunks: seq<seq<Byte>>, durationMs: int, chunkCount: nat, sequence: nat,
    startedAt: Option<real>, endedAt: Option<real>)

  function Payloads(chunks: seq<Chunk>): seq<seq<Byte>> {
    seq(|chunks|, i requires 0 <= i < |chunks| => chunks[i].payload)
  }

  function SnapshotOf(selected: seq<Chunk>, sequence: nat): Snapshot {
    Snapshot(Payloads(selected), Duration(selected), |selected|, sequence,
             if selected == [] then None else Some(selected[0].capturedAt),
             if selected == [] then None else Some(selected[|selected| - 1].capturedAt))
  }

  class PcmRingBuffer {
    const maxDurationMs: int
    var chunks: seq<Chunk>
    var durationMs: int
    var sequence: nat
    var droppedOldestChunks: nat
    var droppedOldestDurationMs: int
    /** Every chunk ever stored. */
    ghost var history: seq<Chunk>

    ghost function View(): Store
      reads this
    {
      Store(chunks, durationMs, sequence, droppedOldestChunks, droppedOldestDurationMs)
    }

    /** The buffer holds, and counts, the longest suffix of its history that fits. */
    ghost predicate Valid()
      reads this
    {
      && maxDurationMs >= 1
      && Numbered(history)
      && LongestFitting(history, droppedOldestChunks, maxDurationMs)
      && View() == StoreOf(history, droppedOldestChunks)
    }

    constructor (maxDurationMs: int)
      ensures this.maxDurationMs == Max(1, maxDurationMs) && history == [] && Valid()
    {
      this.maxDurationMs := Max(1, maxDurationMs);
      chunks, durationMs, sequence := [], 0, 0;
      droppedOldestChunks, droppedOldestDurationMs, history := 0, 0, [];
    }

    method Append(payload: seq<Byte>, durationMs: int, capturedAt: real)
      requires Valid()
      modifies this
      ensures Valid()
      ensures history == if payload == [] then old(history)
                         else old(history) + [Stored(payload, durationMs, capturedAt, |old(history)| + 1)]
      ensures payload != [] ==>
        && |history| == |old(history)| + 1 && old(history) <= history
        && var chunk := history[|old(history)|];
           chunk.payload == payload && chunk.capturedAt == capturedAt && chunk.sequence == |history|
           && chunk.durationMs == if durationMs < 1 then 1 else durationMs
    {
      if payload == [] {
        return;
      }
      var chunk := Stored(payload, durationMs, capturedAt, sequence + 1);
      StoreAppend(history, droppedOldestChunks, chunk, maxDurationMs);
      Push(chunk);
      Trim();
    }

    method Push(chunk: Chunk)
      modifies this
      ensures View() == Pushed(old(View()), chunk) && history == old(history) + [chunk]
    {
      sequence := sequence + 1;
      chunks := chunks + [chunk];
      durationMs := durationMs + chunk.durationMs;
      history := history + [chunk];
    }

    method DropOldest()
      requires chunks != []
      modifies this
      ensures View() == Dropped(old(View())) && history == old(history)
    {
      var oldest := chunks[0];
      chunks := chunks[1..];
      durationMs := durationMs - oldest.durationMs;
      droppedOldestChunks := droppedOldestChunks + 1;
      droppedOldestDurationMs := droppedOldestDurationMs + oldest.durationMs;
    }

    /** `_trim_locked`: drops from the front until the rest fits. */
    method Trim()
      requires maxDurationMs >= 1 && Numbered(history)
      requires droppedOldestChunks <= |history| && TooLongBefore(history, droppedOldestChunks, maxDurationMs)
      requires View() == StoreOf(history, droppedOldestChunks)
      modifies this
      ensures Valid() && history == old(history)
    {
      while durationMs > maxDurationMs && chunks != []
        invariant history == old(history) && |chunks| == |history| - droppedOldestChunks
        invariant droppedOldestChunks <= |history| && TooLongBefore(history, droppedOldestChunks, maxDurationMs)
        invariant View() == StoreOf(history, droppedOldestChunks)
        decreases |chunks|
      {
        StoreDrop(history, droppedOldestChunks, maxDurationMs);
        DropOldest();
      }
    }

    /** The most recent audio: as few chunks as cover the request. */
    method TakeSnapshot(requestMs: Option<int>) returns (snapshot: Snapshot, ghost k: nat)
      requires Valid()
      ensures k <= |chunks| && snapshot == SnapshotOf(chunks[k..], sequence)
      ensures ShortestCovering(chunks, k, if requestMs.None? then maxDurationMs else Max(1, requestMs.value))
      ensures |snapshot.chunks| == snapshot.chunkCount == |chunks| - k && snapshot.sequence == sequence
      ensures forall j :: 0 <= j < |snapshot.chunks| ==> snapshot.chunks[j] == chunks[k + j].payload
      ensures snapshot.chunks == [] <==> snapshot.startedAt.None? && snapshot.endedAt.None?
      ensures snapshot.chunks != [] ==>
        snapshot.startedAt == Some(chunks[k].capturedAt) && snapshot.endedAt == Some(chunks[|chunks| - 1].capturedAt)
      ensures requestMs.None? ==> snapshot == SnapshotOf(chunks, sequence)
      ensures requestMs.Some? ==> snapshot.durationMs >= Max(1, requestMs.value) || snapshot == SnapshotOf(chunks, sequence)
    {
      var requested := if requestMs.None? then maxDurationMs else Max(1, requestMs.value);
      var selected;
      selected, k := Latest(requested);
      snapshot := SnapshotOf(selected, sequence);
      if requestMs.None? {
        DropLasts(chunks, 0, k);
      }
    }

    /** Chunks from the end until they cover the request. */
    method Latest(requested: int) returns (selected: seq<Chunk>, ghost k: nat)
      ensures ShortestCovering(chunks, k, requested) && selected == chunks[k..]
      ensures Duration(selected) >= requested || selected == chunks
    {
      var totalMs, i := 0, |chunks|;
      selected := [];
      assert chunks[i..] == [];
      while i > 0 && totalMs < requested
        invariant 0 <= i <= |chunks|
        invariant selected == chunks[i..] && totalMs == Duration(selected)
        invariant forall e :: i < e <= |chunks| ==> DurationFrom(chunks, e) < requested
      {
        assert [chunks[i - 1]] + chunks[i..] == chunks[i - 1..];
        i := i - 1;
        selected := [chunks[i]] + selected;
        totalMs := totalMs + chunks[i].durationMs;
      }
      k := i;
    }
  }

  /** There is only one longest fitting suffix: the buffer's contents are determined by its history and its cap. */
  lemma LongestFittingUnique(history: seq<Chunk>, d: nat, e: nat, cap: int)
    requires LongestFitting(history, d, cap) && LongestFitting(history, e, cap)
    ensures d == e
  {
  }

  /** When the buffer covers the request, the snapshot is the shortest covering suffix of the whole history too. */
  lemma SnapshotOfHistory(history: seq<Chunk>, d: nat, k: nat, requested: int)
    requires d <= |history| && DurationFrom(history, d) >= requested
    requires ShortestCovering(history[d..], k, requested)
    ensures ShortestCovering(history, d + k, requested)
    ensures history[d..][k..] == history[d + k..] && DurationFrom(history, d + k) >= requested
  {
    var chunks := history[d..];
    assert chunks[k..] == history[d + k..];
    assert chunks[0..] == chunks;
    forall e | d + k < e <= |history| ensures DurationFrom(history, e) < requested {
      assert history[e..] == chunks[e - d..];
      assert DurationFrom(chunks, e - d) < requested;
    }
  }

  // ----- a buffer over any sequence of appends -----

  datatype Append = Append(payload: seq<Byte>, durationMs: int, capturedAt: real)

  function Appended(history: seq<Chunk>, appends: seq<Append>): (r: seq<Chunk>)
    ensures |r| >= |history|
    decreases |appends|
  {
    if appends == [] then history
    else if appends[0].payload == [] then Appended(history, appends[1..])
    else Appended(history + [Stored(appends[0].payload, appends[0].durationMs, appends[0].capturedAt, |history| + 1)], appends[1..])
  }

  /** Appending only adds to the end of the history, and goes on numbering. */
  lemma {:induction false} AppendedGrows(history: seq<Chunk>, appends: seq<Append>)
    requires Numbered(history)
    ensures history <= Appended(history, appends) && Numbered(Appended(history, appends))
    decreases |appends|
  {
    if appends != [] {
      var first := appends[0];
      AppendedGrows(if first.payload == [] then history
                    else history + [Stored(first.payload, first.durationMs, first.capturedAt, |history| + 1)], appends[1..]);
    }
  }

  method StoreAll(buffer: PcmRingBuffer, appends: seq<Append>)
    requires buffer.Valid()
    modifies buffer
    ensures buffer.Valid() && buffer.history == Appended(old(buffer.history), appends)
  {
    for i := 0 to |appends|
      invariant buffer.Valid()
      invariant Appended(buffer.history, appends[i..]) == Appended(old(buffer.history), appends)
    {
      assert appends[i..][1..] == appends[i + 1..];
      buffer.Append(appends[i].payload, appends[i].durationMs, appends[i].capturedAt);
    }
    assert appends[|appends|..] == [];
  }

  /** After any sequence of appends, empty payloads included, a new buffer holds the longest fitting suffix of all that
      was stored. */
  method AppendAll(maxDurationMs: int, appends: seq<Append>) returns (buffer: PcmRingBuffer)
    ensures fresh(buffer) && buffer.Valid() && buffer.maxDurationMs == Max(1, maxDurationMs)
    ensures buffer.history == Appended([], appends)
    ensures forall d: nat :: LongestFitting(Appended([], appends), d, Max(1, maxDurationMs)) ==> buffer.chunks == Appended([], appends)[d..]
  {
    buffer := new PcmRingBuffer(maxDurationMs);
    StoreAll(buffer, appends);
    forall d: nat | LongestFitting(buffer.history, d, buffer.maxDurationMs) ensures d == buffer.droppedOldestChunks {
      LongestFittingUnique(buffer.history, d, buffer.droppedOldestChunks, buffer.maxDurationMs);
    }
  }
}
