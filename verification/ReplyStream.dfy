/** Splitting a reply into deltas and putting it together again: `_split_reply_deltas` of `apps/cognitive_runtime/app.py`
    and the accumulation in `_run_cognition_turn` of `apps/body_runtime/voice_dialogue_loop.py`. */
module ReplyStream {
  import opened Basics
  import opened Text
  import opened RealtimeVoice

  /** One of . ! ? and their full-width forms. */
  predicate SentenceEnd(c: char) {
    c in {'.', '!', '?'} || c as int in {0x3002, 0xff01, 0xff1f}
  }

  /** The endings one by one, the full-width ones by their code points. */
  lemma SentenceEnds(c: char)
    ensures SentenceEnd(c) <==> c == '.' || c == '!' || c == '?' || c == '\U{3002}' || c == '\U{FF01}' || c == '\U{FF1F}'
  {
  }

  function Join(chunks: seq<string>): string {
    if chunks == [] then "" else Join(chunks[..|chunks| - 1]) + chunks[|chunks| - 1]
  }

  predicate NoEnding(s: string) {
    forall k :: 0 <= k < |s| ==> !SentenceEnd(s[k])
  }

  /** Text without a sentence ending, one ending, then whitespace. */
  ghost predicate Sentence(chunk: string) {
    exists e :: 0 <= e < |chunk| && SentenceEnd(chunk[e]) && NoEnding(chunk[..e]) && Blank(chunk[e + 1..])
  }

  /** Every chunk but possibly the last is a sentence; whitespace between sentences goes to the earlier one. */
  ghost predicate WellSplit(chunks: seq<string>) {
    && (forall k :: 0 <= k < |chunks| - 1 ==> Sentence(chunks[k]))
    && (forall k :: 0 < k < |chunks| ==> chunks[k] != "" && !IsSpace(chunks[k][0]))
    && (chunks != [] ==> Sentence(chunks[|chunks| - 1]) || (NoEnding(chunks[|chunks| - 1]) && !Blank(chunks[|chunks| - 1])))
  }

  lemma JoinAppend(chunks: seq<string>, chunk: string)
    ensures Join(chunks + [chunk]) == Join(chunks) + chunk
  {
    assert (chunks + [chunk])[..|chunks|] == chunks;
  }

  /** What has been split off so far: sentences making up the text before `start`, the rest not beginning with whitespace. */
  ghost predicate SplitUpTo(text: string, chunks: seq<string>, start: nat) {
    && start <= |text|
    && Join(chunks) == text[..start]
    && (forall k :: 0 <= k < |chunks| ==> Sentence(chunks[k]))
    && (forall k :: 0 < k < |chunks| ==> chunks[k] != "" && !IsSpace(chunks[k][0]))
    && (chunks == [] <==> start == 0)
    && (0 < start < |text| ==> !IsSpace(text[start]))
  }

  lemma SentenceSplitOff(text: string, chunks: seq<string>, start: nat, index: nat, end: nat)
    requires SplitUpTo(text, chunks, start)
    requires start <= index < end <= |text| && SentenceEnd(text[index]) && NoEnding(text[start..index])
    requires Blank(text[index + 1..end]) && (end < |text| ==> !IsSpace(text[end]))
    ensures SplitUpTo(text, chunks + [text[start..end]], end)
    ensures Strip(text[start..end]) != ""
  {
    var chunk := text[start..end];
    ChunkIsSentence(text, start, index, end);
    JoinAppend(chunks, chunk);
    assert text[..start] + chunk == text[..end];
    SplitGrows(chunks, chunk);
    assert start > 0 ==> chunk[0] == text[start];
  }

  lemma ChunkIsSentence(text: string, start: nat, index: nat, end: nat)
    requires start <= index < end <= |text| && SentenceEnd(text[index]) && NoEnding(text[start..index]) && Blank(text[index + 1..end])
    ensures Sentence(text[start..end]) && Strip(text[start..end]) != ""
  {
    var chunk, e := text[start..end], index - start;
    assert chunk[e] == text[index] && chunk[..e] == text[start..index] && chunk[e + 1..] == text[index + 1..end];
    assert chunk[e] in chunk;
    StripEmptyIff(chunk);
  }

  lemma SplitGrows(chunks: seq<string>, chunk: string)
    requires forall k :: 0 <= k < |chunks| ==> Sentence(chunks[k])
    requires forall k :: 0 < k < |chunks| ==> chunks[k] != "" && !IsSpace(chunks[k][0])
    requires Sentence(chunk)
    ensures var r := chunks + [chunk];
      && (forall k :: 0 <= k < |r| ==> Sentence(r[k]))
      && (forall k :: 0 < k < |chunks| ==> r[k] != "" && !IsSpace(r[k][0]))
  {
  }

  lemma TailSplitOff(text: string, chunks: seq<string>, start: nat)
    requires SplitUpTo(text, chunks, start) && NoEnding(text[start..])
    ensures Strip(text[start..]) == "" ==> WellSplit(chunks) && (Blank(text) ==> chunks == []) && (!Blank(text) ==> Join(chunks) == text)
    ensures Strip(text[start..]) != "" ==>
      WellSplit(chunks + [text[start..]]) && !Blank(text) && Join(chunks + [text[start..]]) == text
  {
    var tail := text[start..];
    StripEmptyIff(tail);
    JoinAppend(chunks, tail);
    assert text[..start] + tail == text;
    if start == 0 {
      assert tail == text;
    } else if start < |text| {
      assert tail[0] == text[start] && tail[0] in tail;
    } else {
      assert text[..start] == text;
      var last := chunks[|chunks| - 1];
      assert Join(chunks) == Join(chunks[..|chunks| - 1]) + last;
      var e :| 0 <= e < |last| && SentenceEnd(last[e]) && NoEnding(last[..e]) && Blank(last[e + 1..]);
      assert text[|text| - |last| + e] == last[e];
      assert last[e] in text;
    }
  }

  /** Between sentences split off and the next one's ending. */
  ghost predicate Splitting(text: string, chunks: seq<string>, start: nat, index: nat) {
    start <= index <= |text| && SplitUpTo(text, chunks, start) && NoEnding(text[start..index])
  }

  lemma SplittingStarts(text: string)
    ensures Splitting(text, [], 0, 0)
  {
  }

  lemma NoEndingHere(text: string, chunks: seq<string>, start: nat, index: nat)
    requires Splitting(text, chunks, start, index) && index < |text| && !SentenceEnd(text[index])
    ensures Splitting(text, chunks, start, index + 1)
  {
    assert text[start..index + 1] == text[start..index] + [text[index]];
  }

  lemma SentenceDone(text: string, chunks: seq<string>, start: nat, index: nat, end: nat)
    requires Splitting(text, chunks, start, index) && index < end <= |text| && SentenceEnd(text[index])
    requires Blank(text[index + 1..end]) && (end < |text| ==> !IsSpace(text[end]))
    ensures Splitting(text, chunks + [text[start..end]], end, end) && Strip(text[start..end]) != ""
  {
    SentenceSplitOff(text, chunks, start, index, end);
  }

  lemma TextDone(text: string, chunks: seq<string>, start: nat)
    requires Splitting(text, chunks, start, |text|)
    ensures var all := if Strip(text[start..]) == "" then chunks else chunks + [text[start..]];
      WellSplit(all) && if Blank(text) then all == [] else Join(all) == text
  {
    assert text[start..|text|] == text[start..];
    TailSplitOff(text, chunks, start);
  }

  /** The deltas of a reply: joined they are the reply itself, each holds at most one sentence ending and only the last may
      hold none; a reply of nothing but whitespace has none. */
  method SplitReplyDeltas(text: string) returns (chunks: seq<string>)
    ensures WellSplit(chunks)
    ensures if Blank(text) then chunks == [] else Join(chunks) == text
  {
    chunks := [];
    if text == "" {
      return;
    }
    var start, index := 0, 0;
    SplittingStarts(text);
    while index < |text|
      invariant Splitting(text, chunks, start, index)
    {
      if !SentenceEnd(text[index]) {
        NoEndingHere(text, chunks, start, index);
        index := index + 1;
        continue;
      }
      var end := SkipWhitespace(text, index + 1);
      var chunk := text[start..end];
      SentenceDone(text, chunks, start, index, end);
      if Strip(chunk) != "" {
        chunks := chunks + [chunk];
      }
      start := end;
      index := end;
    }
    var tail := text[start..];
    TextDone(text, chunks, start);
    if Strip(tail) != "" {
      chunks := chunks + [tail];
    }
  }

  /** The inner loop: past the whitespace that follows a sentence ending. */
  method SkipWhitespace(text: string, from: nat) returns (end: nat)
    requires from <= |text|
    ensures from <= end <= |text| && Blank(text[from..end]) && (end < |text| ==> !IsSpace(text[end]))
  {
    end := from;
    while end < |text| && IsSpace(text[end])
      invariant from <= end <= |text|
      invariant Blank(text[from..end])
    {
      assert text[from..end + 1] == text[from..end] + [text[end]];
      end := end + 1;
    }
  }

  /** There is no other way to split a text like that. */
  lemma {:induction false} SplitUnique(a: seq<string>, b: seq<string>)
    requires WellSplit(a) && WellSplit(b) && Join(a) == Join(b)
    ensures a == b
    decreases |a|
  {
    if a == [] || b == [] {
      JoinEmpty(a);
      JoinEmpty(b);
    } else {
      FirstSame(a, b);
      WellSplitRest(a);
      WellSplitRest(b);
      SplitUnique(a[1..], b[1..]);
      assert a == [a[0]] + a[1..] && b == [b[0]] + b[1..];
    }
  }

  lemma FirstSame(a: seq<string>, b: seq<string>)
    requires WellSplit(a) && WellSplit(b) && a != [] && b != [] && Join(a) == Join(b)
    ensures a[0] == b[0] && Join(a[1..]) == Join(b[1..])
  {
    var text := Join(a);
    FirstChunk(a);
    FirstChunk(b);
    FirstNotShorter(a, b);
    FirstNotShorter(b, a);
    assert a[0] == text[..|a[0]|] == b[0];
    assert Join(a[1..]) == text[|a[0]|..] == Join(b[1..]);
  }

  lemma WellSplitRest(a: seq<string>)
    requires WellSplit(a) && a != []
    ensures WellSplit(a[1..])
  {
    var r := a[1..];
    forall k | 0 <= k < |r| - 1 ensures Sentence(r[k]) {
      assert r[k] == a[k + 1];
    }
    forall k | 0 < k < |r| ensures r[k] != "" && !IsSpace(r[k][0]) {
      assert r[k] == a[k + 1];
    }
  }

  lemma JoinEmpty(a: seq<string>)
    requires WellSplit(a)
    ensures Join(a) == "" <==> a == []
  {
    if a != [] {
      var last := a[|a| - 1];
      assert last != "" by {
        if Sentence(last) {
        } else {
          assert !Blank(last);
        }
      }
      assert Join(a) == Join(a[..|a| - 1]) + last;
    }
  }

  lemma {:induction false} JoinCons(first: string, rest: seq<string>)
    ensures Join([first] + rest) == first + Join(rest)
  {
    if rest == [] {
      assert [first] + rest == [] + [first] && first + "" == first;
      JoinAppend([], first);
    } else {
      var n := |rest| - 1;
      assert [first] + rest == ([first] + rest[..n]) + [rest[n]];
      JoinAppend([first] + rest[..n], rest[n]);
      JoinCons(first, rest[..n]);
      JoinAppend(rest[..n], rest[n]);
      assert rest == rest[..n] + [rest[n]];
      assert (first + Join(rest[..n])) + rest[n] == first + (Join(rest[..n]) + rest[n]);
    }
  }

  lemma FirstChunk(a: seq<string>)
    requires a != []
    ensures Join(a) == a[0] + Join(a[1..])
  {
    JoinCons(a[0], a[1..]);
    assert [a[0]] + a[1..] == a;
  }

  lemma BlankAt(s: string, k: int)
    requires Blank(s)
    ensures 0 <= k < |s| ==> IsSpace(s[k])
  {
    if 0 <= k < |s| {
      assert s[k] in s;
    }
  }

  lemma NoEndingAt(s: string, k: nat)
    requires NoEnding(s)
    ensures k < |s| ==> !SentenceEnd(s[k])
  {
  }

  /** The first ending of a text is where it is. */
  lemma FirstEndingUnique(text: string, e: nat, f: nat)
    requires e < |text| && f < |text| && SentenceEnd(text[e]) && SentenceEnd(text[f])
    requires NoEnding(text[..e]) && NoEnding(text[..f])
    ensures e == f
  {
    NoEndingAt(text[..e], f);
    NoEndingAt(text[..f], e);
  }

  /** A chunk of the text that is a sentence, or holds no ending, stops short of what follows the first sentence. */
  lemma StopsAt(text: string, e: nat, m: nat, n: nat)
    requires e < m < |text| && n <= |text|
    requires SentenceEnd(text[e]) && NoEnding(text[..e]) && !IsSpace(text[m])
    requires Sentence(text[..n]) || NoEnding(text[..n])
    ensures n <= m
  {
    if Sentence(text[..n]) {
      var f := EndingOf(text, n);
      FirstEndingUnique(text, e, f);
      BlankAt(text[f + 1..n], m - f - 1);
    } else {
      NoEndingAt(text[..n], e);
    }
  }

  lemma EndingOf(text: string, n: nat) returns (f: nat)
    requires n <= |text| && Sentence(text[..n])
    ensures f < n && SentenceEnd(text[f]) && NoEnding(text[..f]) && Blank(text[f + 1..n])
  {
    var chunk := text[..n];
    f :| f < n && SentenceEnd(chunk[f]) && NoEnding(chunk[..f]) && Blank(chunk[f + 1..]);
    assert chunk[..f] == text[..f] && chunk[f + 1..] == text[f + 1..n];
  }

  /** The first chunk of a text reaches through the whitespace after the first ending, or to the end of the text. */
  lemma FirstNotShorter(a: seq<string>, b: seq<string>)
    requires WellSplit(a) && WellSplit(b) && a != [] && b != [] && Join(a) == Join(b)
    ensures |a[0]| >= |b[0]|
  {
    FirstChunk(a);
    FirstChunk(b);
    var text, m := Join(a), |a[0]|;
    assert b[0] == text[..|b[0]|];
    if |a| == 1 {
      assert a[1..] == [];
    } else {
      FirstChunk(a[1..]);
      assert text[m] == a[1][0];
      var e :| 0 <= e < m && SentenceEnd(a[0][e]) && NoEnding(a[0][..e]) && Blank(a[0][e + 1..]);
      assert a[0][..e] == text[..e] && a[0][e] == text[e];
      StopsAt(text, e, m, |b[0]|);
    }
  }

  // ----- accumulating the stream -----

  /** The deltas as calls on the session, empty ones left out, each with the round's identifiers and its own clock
      reading; `k` is the number of the first one. */
  function DeltaCalls(deltas: seq<string>, clock: nat -> real, k: nat, roundId: string, token: string): seq<Input>
    decreases |deltas|
  {
    if deltas == [] then []
    else
      var rest := DeltaCalls(deltas[1..], clock, k + 1, roundId, token);
      if deltas[0] == "" then rest else [Input(AppendReply(deltas[0]), Some(roundId), Some(token), clock(k))] + rest
  }

  /** A current session takes in all of them: its reply text grows by the joined deltas, its log by one entry for each. */
  lemma {:induction false} DeltasReachSession(s: Session, deltas: seq<string>, clock: nat -> real, k: nat)
    requires Current(s, s.round.id, s.round.token)
    ensures var calls := DeltaCalls(deltas, clock, k, s.round.id, s.round.token);
      var r := Run(s, calls);
      && r.words.replyText == s.words.replyText + Join(deltas)
      && r.round == s.round && Current(r, s.round.id, s.round.token)
      && |r.events| == |s.events| + |calls|
    decreases |deltas|
  {
    if deltas == [] {
      assert s.words.replyText + "" == s.words.replyText;
    } else {
      FirstChunk(deltas);
      var later := Join(deltas[1..]);
      assert s.words.replyText + (deltas[0] + later) == (s.words.replyText + deltas[0]) + later;
      if deltas[0] == "" {
        assert s.words.replyText + deltas[0] == s.words.replyText;
        DeltasReachSession(s, deltas[1..], clock, k + 1);
      } else {
        var i := Input(AppendReply(deltas[0]), Some(s.round.id), Some(s.round.token), clock(k));
        RunFrom(s, i, DeltaCalls(deltas[1..], clock, k + 1, s.round.id, s.round.token));
        DeltasReachSession(Step(s, i).session, deltas[1..], clock, k + 1);
      }
    }
  }

  /** How many of the items from the given one on arrive while the turn is still current. */
  function CurrentUpTo(current: nat -> bool, n: nat, total: nat): (k: nat)
    requires n <= total
    ensures n <= k <= total && (forall j :: n <= j < k ==> current(j)) && (k < total ==> !current(k))
    decreases total - n
  {
    if n == total || !current(n) then n else CurrentUpTo(current, n + 1, total)
  }

  /** The dialogue loop's share: until the turn is found to be over, nonempty deltas are collected and passed on to the
      session, which may reject them. `current` is what the check before each item finds. */
  method AccumulateReply(session: RealtimeVoiceSession, deltas: seq<string>, current: nat -> bool, clock: nat -> real,
                         roundId: string, token: string)
    returns (reply: string, emitted: bool, completed: bool)
    modifies session
    ensures completed <==> forall n :: 0 <= n < |deltas| ==> current(n)
    ensures var taken := deltas[..CurrentUpTo(current, 0, |deltas|)];
      && reply == Join(taken) && (emitted <==> reply != "")
      && session.View() == Run(old(session.View()), DeltaCalls(taken, clock, 0, roundId, token))
  {
    reply, emitted := "", false;
    ghost var first, taken := session.View(), deltas[..CurrentUpTo(current, 0, |deltas|)];
    var n := 0;
    while n < |deltas| && current(n)
      invariant n <= |taken|
      invariant reply == Join(taken[..n]) && (emitted <==> reply != "")
      invariant Run(session.View(), DeltaCalls(taken[n..], clock, n, roundId, token))
             == Run(first, DeltaCalls(taken, clock, 0, roundId, token))
    {
      assert taken[..n + 1] == taken[..n] + [deltas[n]];
      JoinAppend(taken[..n], deltas[n]);
      assert taken[n..][1..] == taken[n + 1..];
      if deltas[n] != "" {
        reply := reply + deltas[n];
        emitted := true;
        ghost var before := session.View();
        var outcome := session.AppendReplyDelta(deltas[n], clock(n), Some(roundId), Some(token));
        RunFrom(before, Input(AppendReply(deltas[n]), Some(roundId), Some(token), clock(n)),
                DeltaCalls(taken[n + 1..], clock, n + 1, roundId, token));
      }
      n := n + 1;
    }
    assert n == |taken| && taken[..n] == taken;
    completed := n == |deltas|;
  }

  lemma {:induction false} JoinPrefix(deltas: seq<string>, k: nat)
    requires k <= |deltas|
    ensures Join(deltas[..k]) <= Join(deltas)
    decreases |deltas|
  {
    if k < |deltas| {
      var rest := deltas[..|deltas| - 1];
      JoinPrefix(rest, k);
      assert rest[..k] == deltas[..k];
    } else {
      assert deltas[..k] == deltas;
    }
  }

  /** A reply split, streamed and accumulated is the reply again, unless it is all whitespace, and as far as the turn stays
      current; a session that is current has it appended to its own reply text. */
  method StreamReply(session: RealtimeVoiceSession, text: string, current: nat -> bool, clock: nat -> real)
    returns (reply: string, completed: bool)
    requires session.IsCurrent(session.round.id, session.round.token)
    modifies session
    ensures if Blank(text) then reply == "" else reply <= text && (completed ==> reply == text)
    ensures (forall n :: current(n)) ==> completed
    ensures session.words.replyText == old(session.words.replyText) + reply
    ensures session.round == old(session.round) && session.IsCurrent(session.round.id, session.round.token)
  {
    var deltas := SplitReplyDeltas(text);
    ghost var before, k := session.View(), CurrentUpTo(current, 0, |deltas|);
    var emitted;
    reply, emitted, completed := AccumulateReply(session, deltas, current, clock, session.round.id, session.round.token);
    DeltasReachSession(before, deltas[..k], clock, 0);
    JoinPrefix(deltas, k);
    assert completed ==> deltas[..k] == deltas;
  }
}
