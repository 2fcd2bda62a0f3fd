/** Polling the ring buffer for wake words: `RealtimeWakeDetector.poll_once` of `eibrain/body/realtime_audio.py`. */
module WakeDetector {
  import opened Basics
  import opened RingBuffer

  /** What the recognizer makes of a snapshot: an error, or the normalized text. */
  datatype Recognition = RecognizerError | Heard(text: string)

  predicate OccursIn(word: string, text: string) {
    word <= text || (text != "" && OccursIn(word, text[1..]))
  }

  predicate StandsAt(word: string, text: string, k: int) {
    0 <= k <= |text| - |word| && text[k..k + |word|] == word
  }

  /** A word occurs in a text exactly when it stands somewhere in it. */
  lemma {:induction false} OccursIff(word: string, text: string)
    ensures OccursIn(word, text) <==> exists k :: StandsAt(word, text, k)
  {
    if word <= text {
      assert StandsAt(word, text, 0);
    } else if text != "" {
      OccursIff(word, text[1..]);
      forall k ensures StandsAt(word, text, k) <==> k >= 1 && StandsAt(word, text[1..], k - 1) {
        StandsLater(word, text, k);
      }
      if OccursIn(word, text[1..]) {
        var k :| StandsAt(word, text[1..], k);
        assert StandsAt(word, text, k + 1);
      }
    }
  }

  lemma StandsLater(word: string, text: string, k: int)
    requires text != "" && !(word <= text)
    ensures StandsAt(word, text, k) <==> k >= 1 && StandsAt(word, text[1..], k - 1)
  {
    if 1 <= k <= |text| - |word| {
      assert text[1..][k - 1..k - 1 + |word|] == text[k..k + |word|];
    }
  }

  /** The wake words kept: empty ones are dropped. */
  function KeptWords(words: seq<string>): (kept: seq<string>)
    ensures forall w :: w in kept <==> w in words && w != ""
  {
    if words == [] then [] else (if words[0] == "" then [] else [words[0]]) + KeptWords(words[1..])
  }

  datatype Counters = Counters(lastSequence: nat, polls: nat, decodes: nat, emitted: seq<string>)

  /** One poll of a snapshot with the given sequence number. */
  function Polled(c: Counters, wakeWords: seq<string>, sequence: nat, longEnough: bool, loud: bool, recognition: Recognition): Counters {
    var polled := c.(polls := c.polls + 1);
    if sequence == c.lastSequence || !longEnough then polled
    else
      var taken := polled.(lastSequence := sequence);
      if !loud || recognition.RecognizerError? then taken
      else
        var decoded := taken.(decodes := taken.decodes + 1);
        if recognition.text != "" && exists w :: w in wakeWords && OccursIn(w, recognition.text)
        then decoded.(emitted := decoded.emitted + [recognition.text]) else decoded
  }

  class RealtimeWakeDetector {
    const ringBuffer: PcmRingBuffer
    const wakeWords: seq<string>
    const lookbackMs: int
    const minBufferMs: int
    const minRmsLevel: real
    var counters: Counters

    /** There are no more decodes than chunks the buffer has taken in, and no more emissions than decodes. */
    ghost predicate Valid()
      reads this, ringBuffer
    {
      && ringBuffer.Valid() && lookbackMs >= 1 && minBufferMs >= 1
      && |counters.emitted| <= counters.decodes <= counters.polls
      && counters.decodes <= counters.lastSequence <= ringBuffer.sequence
    }

    constructor (ringBuffer: PcmRingBuffer, wakeWords: seq<string>, lookbackMs: int, minBufferMs: int, minRmsLevel: real)
      requires ringBuffer.Valid()
      ensures Valid() && this.ringBuffer == ringBuffer && counters == Counters(0, 0, 0, [])
      ensures this.wakeWords == KeptWords(wakeWords)
      ensures this.lookbackMs == (if lookbackMs < 1 then 1 else lookbackMs) && this.minBufferMs == (if minBufferMs < 1 then 1 else minBufferMs)
      ensures this.minRmsLevel == if minRmsLevel < 0.0 then 0.0 else minRmsLevel
    {
      this.ringBuffer, this.wakeWords := ringBuffer, KeptWords(wakeWords);
      this.lookbackMs, this.minBufferMs := Max(1, lookbackMs), Max(1, minBufferMs);
      this.minRmsLevel := MaxReal(0.0, minRmsLevel);
      counters := Counters(0, 0, 0, []);
    }

    /** One poll; level and recognition are what the signal statistics and the recognizer would return for the snapshot. */
    method PollOnce(rmsLevel: real, recognition: Recognition) returns (observation: Option<string>, ghost k: nat)
      requires Valid()
      modifies this`counters
      ensures Valid()
      ensures ShortestCovering(ringBuffer.chunks, k, lookbackMs)
      ensures counters == Polled(old(counters), wakeWords, ringBuffer.sequence, DurationFrom(ringBuffer.chunks, k) >= minBufferMs,
                                 minRmsLevel <= 0.0 || rmsLevel >= minRmsLevel, recognition)
      ensures counters.decodes != old(counters.decodes) ==> counters.decodes == old(counters.decodes) + 1 && ringBuffer.chunks[k..] != []
      ensures observation.Some? <==> |counters.emitted| == |old(counters).emitted| + 1
      ensures observation.Some? ==> recognition == Heard(observation.value) && old(counters).lastSequence < ringBuffer.sequence
    {
      ghost var before := counters;
      counters := counters.(polls := counters.polls + 1);
      var snapshot;
      snapshot, k := ringBuffer.TakeSnapshot(Some(lookbackMs));
      var longEnough := snapshot.durationMs >= minBufferMs;
      ghost var after := Polled(before, wakeWords, ringBuffer.sequence, longEnough, minRmsLevel <= 0.0 || rmsLevel >= minRmsLevel, recognition);
      if snapshot.sequence == counters.lastSequence || !longEnough {
        assert counters == after;
        return None, k;
      }
      counters := counters.(lastSequence := snapshot.sequence);
      if minRmsLevel > 0.0 && rmsLevel < minRmsLevel {
        assert counters == after;
        return None, k;
      }
      if recognition.RecognizerError? {
        assert counters == after;
        return None, k;
      }
      counters := counters.(decodes := counters.decodes + 1);
      if recognition.text == "" || !(exists w :: w in wakeWords && OccursIn(w, recognition.text)) {
        assert counters == after;
        return None, k;
      }
      counters := counters.(emitted := counters.emitted + [recognition.text]);
      assert counters == after;
      return Some(recognition.text), k;
    }
  }

  /** A poll counts itself; it takes a new snapshot that is long enough, decodes it if it is loud and the recognizer does not
      fail, and emits the text if some wake word occurs in it. */
  lemma PollMeans(c: Counters, wakeWords: seq<string>, sequence: nat, longEnough: bool, loud: bool, recognition: Recognition)
    ensures var r := Polled(c, wakeWords, sequence, longEnough, loud, recognition);
      var takes := sequence != c.lastSequence && longEnough;
      var decodes := takes && loud && recognition.Heard?;
      && r.polls == c.polls + 1
      && r.lastSequence == (if takes then sequence else c.lastSequence)
      && r.decodes == (if decodes then c.decodes + 1 else c.decodes)
      && r.emitted == (if decodes && recognition.text != "" && Wakes(wakeWords, recognition.text) then c.emitted + [recognition.text]
                       else c.emitted)
  {
    if recognition.Heard? {
      forall w | w in wakeWords ensures OccursIn(w, recognition.text) <==> exists k :: StandsAt(w, recognition.text, k) {
        OccursIff(w, recognition.text);
      }
    }
  }

  ghost predicate Wakes(wakeWords: seq<string>, text: string) {
    exists w, k :: w in wakeWords && StandsAt(w, text, k)
  }

  // ----- appends and polls interleaved -----

  datatype Turn = ChunkStored | Poll(longEnough: bool, loud: bool, recognition: Recognition)

  function Chunks(turns: seq<Turn>): nat {
    if turns == [] then 0 else (if turns[0].ChunkStored? then 1 else 0) + Chunks(turns[1..])
  }

  function Interleaved(c: Counters, wakeWords: seq<string>, sequence: nat, turns: seq<Turn>): Counters
    decreases |turns|
  {
    if turns == [] then c
    else match turns[0]
      case ChunkStored => Interleaved(c, wakeWords, sequence + 1, turns[1..])
      case Poll(longEnough, loud, recognition) =>
        Interleaved(Polled(c, wakeWords, sequence, longEnough, loud, recognition), wakeWords, sequence, turns[1..])
  }

  /** However polls and new chunks interleave, there are no more decodes than there were new chunks to decode. */
  lemma {:induction false} DecodesBounded(c: Counters, wakeWords: seq<string>, sequence: nat, turns: seq<Turn>)
    requires c.lastSequence <= sequence
    ensures var r := Interleaved(c, wakeWords, sequence, turns);
      && r.decodes - c.decodes <= r.lastSequence - c.lastSequence
      && c.lastSequence <= r.lastSequence <= sequence + Chunks(turns)
      && |r.emitted| - |c.emitted| <= r.decodes - c.decodes
      && c.emitted <= r.emitted
    decreases |turns|
  {
    if turns != [] {
      match turns[0]
      case ChunkStored => DecodesBounded(c, wakeWords, sequence + 1, turns[1..]);
      case Poll(longEnough, loud, recognition) =>
        DecodesBounded(Polled(c, wakeWords, sequence, longEnough, loud, recognition), wakeWords, sequence, turns[1..]);
    }
  }

  /** Until a chunk arrives, polls after one that took the snapshot only count themselves. */
  lemma {:induction false} IdlePolls(c: Counters, wakeWords: seq<string>, turns: seq<Turn>)
    requires Chunks(turns) == 0
    ensures Interleaved(c, wakeWords, c.lastSequence, turns) == c.(polls := c.polls + |turns|)
    decreases |turns|
  {
    if turns != [] {
      IdlePolls(c.(polls := c.polls + 1), wakeWords, turns[1..]);
    }
  }

  // ----- audio decoded again -----

  /** A snapshot of a history reaches back before its first `m` chunks end exactly when what came after them is shorter than
      the request, and together with the last of them still fits the buffer. */
  lemma ReachesBackIff(h: seq<Chunk>, m: nat, d: nat, k: nat, cap: int, lookbackMs: int)
    requires Positive(h) && 1 <= m <= |h|
    requires LongestFitting(h, d, cap) && ShortestCovering(h[d..], k, lookbackMs)
    ensures d + k < m <==> DurationFrom(h, m) < lookbackMs && DurationFrom(h, m - 1) <= cap
  {
    if d <= m {
      assert h[d..][m - d..] == h[m..];
      assert DurationFrom(h[d..], m - d) == DurationFrom(h, m);
      if m - d <= k {
        DropLasts(h[d..], m - d, k);
      }
    }
    if d < m {
      DropLasts(h, d, m - 1);
    }
  }

  /** There are no more decodes than chunks, and yet audio can be decoded twice, because every poll looks back over the whole
      request. Two snapshots of one buffer, whatever was appended in between, share a chunk exactly when what arrived after
      the first is shorter than the look-back and, with the last chunk of the first, still fits the buffer. */
  lemma DecodedAgainIff(h: seq<Chunk>, d: nat, k: nat, appends: seq<Append>, laterD: nat, laterK: nat, cap: int, lookbackMs: int)
    requires Numbered(h) && LongestFitting(h, d, cap) && ShortestCovering(h[d..], k, lookbackMs) && h[d..][k..] != []
    requires LongestFitting(Appended(h, appends), laterD, cap)
    requires ShortestCovering(Appended(h, appends)[laterD..], laterK, lookbackMs)
    ensures var later := Appended(h, appends);
      Share(h[d..][k..], later[laterD..][laterK..])
      <==> DurationFrom(later, |h|) < lookbackMs && DurationFrom(later, |h| - 1) <= cap
  {
    var later := Appended(h, appends);
    AppendedGrows(h, appends);
    DropDrop(h, d, k);
    DropDrop(later, laterD, laterK);
    SnapshotsShareIff(h, later, d + k, laterD, laterK, cap, lookbackMs);
  }

  lemma SnapshotsShareIff(h: seq<Chunk>, later: seq<Chunk>, from: nat, laterD: nat, laterK: nat, cap: int, lookbackMs: int)
    requires Numbered(later) && h <= later && from < |h|
    requires LongestFitting(later, laterD, cap) && ShortestCovering(later[laterD..], laterK, lookbackMs)
    ensures Share(h[from..], later[laterD + laterK..])
       <==> DurationFrom(later, |h|) < lookbackMs && DurationFrom(later, |h| - 1) <= cap
  {
    ReachesBackIff(later, |h|, laterD, laterK, cap, lookbackMs);
    SuffixesShare(h, later, from, laterD + laterK);
  }

  lemma DropDrop(s: seq<Chunk>, a: nat, b: nat)
    requires a + b <= |s|
    ensures s[a..][b..] == s[a + b..]
  {
  }

  ghost predicate Share(a: seq<Chunk>, b: seq<Chunk>) {
    exists c :: c in a && c in b
  }

  lemma SuffixesShare(h: seq<Chunk>, later: seq<Chunk>, a: nat, b: nat)
    requires Numbered(later) && h <= later && a < |h| && b <= |later|
    ensures Share(h[a..], later[b..]) <==> b < |h|
  {
    if b < |h| {
      var last := h[|h| - 1];
      assert last == h[a..][|h| - 1 - a] && last == later[b..][|h| - 1 - b];
      assert last in h[a..] && last in later[b..];
    }
    forall c | c in h[a..] && c in later[b..] ensures b < |h| {
      var p :| 0 <= p < |h| - a && h[a..][p] == c;
      var q :| 0 <= q < |later| - b && later[b..][q] == c;
      assert later[a + p].sequence == later[b + q].sequence;
    }
  }

  /** Two polls of a detector with appends in between: when both decode, they decode some chunk both exactly then. */
  method PollAgain(detector: RealtimeWakeDetector, level: real, recognition: Recognition, appends: seq<Append>,
                   laterLevel: real, laterRecognition: Recognition)
    returns (bothDecode: bool, ghost k: nat, ghost laterK: nat)
    requires detector.Valid()
    modifies detector`counters, detector.ringBuffer
    ensures detector.Valid() && detector.ringBuffer.history == Appended(old(detector.ringBuffer.history), appends)
    ensures bothDecode <==> detector.counters.decodes == old(detector.counters.decodes) + 2
    ensures ShortestCovering(old(detector.ringBuffer.chunks), k, detector.lookbackMs)
    ensures ShortestCovering(detector.ringBuffer.chunks, laterK, detector.lookbackMs)
    ensures bothDecode ==>
      var m, later := |old(detector.ringBuffer.history)|, detector.ringBuffer.history;
      1 <= m <= |later|
      && (Share(old(detector.ringBuffer.chunks)[k..], detector.ringBuffer.chunks[laterK..])
          <==> DurationFrom(later, m) < detector.lookbackMs && DurationFrom(later, m - 1) <= detector.ringBuffer.maxDurationMs)
  {
    var buffer, decodes := detector.ringBuffer, detector.counters.decodes;
    ghost var h, d := buffer.history, buffer.droppedOldestChunks;
    var observation;
    observation, k := detector.PollOnce(level, recognition);
    var between := detector.counters.decodes;
    AppendedGrows(h, appends);
    StoreAll(buffer, appends);
    observation, laterK := detector.PollOnce(laterLevel, laterRecognition);
    bothDecode := between == decodes + 1 && detector.counters.decodes == between + 1;
    if bothDecode {
      DecodedAgainIff(h, d, k, appends, buffer.droppedOldestChunks, laterK, buffer.maxDurationMs, detector.lookbackMs);
    }
  }

  /** Both ways at concrete sizes, in a buffer of two seconds with the usual look-back: after a chunk of 480 ms another of
      480 ms has the first decoded again; one of 2000 ms, though shorter than the look-back, pushes it out. */
  lemma DecodedAgainOrPushedOut(first: Chunk, short: Chunk, long: Chunk)
    requires first.durationMs == short.durationMs == 480 && long.durationMs == 2000
    ensures LongestFitting([first, short], 0, 2000) && ShortestCovering([first, short], 0, 2400)
    ensures LongestFitting([first, long], 1, 2000) && ShortestCovering([first, long][1..], 0, 2400) && DurationFrom([first, long], 1) < 2400
  {
    assert [first, short][0..] == [first] + [short] && [first, short][1..] == [short] && [first, short][2..] == [];
    assert [first, long][0..] == [first] + [long] && [first, long][1..] == [long] && [long][0..] == [long] && [long][1..] == [];
    DurationSplit([first], [short]);
    DurationSplit([first], [long]);
  }
}
