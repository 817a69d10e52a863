/**
 * The chunking service: cutting a text into overlapping rune windows
 * (ChunkText), splitting it into sentences (splitIntoSentences), and packing
 * sentences greedily into chunks under a byte limit, with one sentence
 * carried over from each chunk to the next (ChunkBySentence).
 */
module Chunking {
  import opened GoStrings
  import opened Domain

  datatype TextChunk = TextChunk(content: string, index: int, metadata: Metadata)

  // ---------------------------------------------------------------------
  // ChunkText: a sliding window over the runes of the text
  // ---------------------------------------------------------------------

  /** A non-positive chunk size falls back to 1000. */
  function EffectiveChunkSize(chunkSize: int): (r: int)
    ensures r > 0
    ensures chunkSize > 0 ==> r == chunkSize
    ensures chunkSize <= 0 ==> r == 1000
  {
    if chunkSize <= 0 then 1000 else chunkSize
  }

  /** An overlap outside [0, size) falls back to 200, whatever the size. */
  function EffectiveOverlap(size: int, overlap: int): (r: int)
    ensures r >= 0
    ensures 0 <= overlap < size ==> r == overlap
    ensures !(0 <= overlap < size) ==> r == 200
  {
    if overlap < 0 || overlap >= size then 200 else overlap
  }

  /** How far the window advances: the effective chunk size minus the effective overlap. */
  function WindowStep(chunkSize: int, overlap: int): (r: int)
    ensures r <= EffectiveChunkSize(chunkSize)
  {
    var size := EffectiveChunkSize(chunkSize);
    size - EffectiveOverlap(size, overlap)
  }

  /**
   * The window advances exactly when the given overlap is usable or the
   * effective size exceeds the fallback overlap of 200. Otherwise, on a
   * non-empty text, the source's loop slices from a negative start on its
   * second turn (step < 0, a panic) or never moves (step == 0, no end):
   * see LoopStartAsWritten.
   */
  lemma StepPositiveIff(chunkSize: int, overlap: int)
    ensures WindowStep(chunkSize, overlap) > 0 <==>
            (0 <= overlap < EffectiveChunkSize(chunkSize) || EffectiveChunkSize(chunkSize) > 200)
  {
  }

  /**
   * chunkSize 150 with overlap -1: the overlap becomes 200, the step -50, and
   * the second window would begin at rune -50. chunkSize 200 with overlap 200:
   * the overlap stays 200 and the window never moves.
   */
  lemma StepNotPositiveExample()
    ensures WindowStep(150, -1) == -50 && StartAsWritten(1, WindowStep(150, -1)) == -50
    ensures WindowStep(200, 200) == 0 && StartAsWritten(7, WindowStep(200, 200)) == 0
  {
  }

  /** The source's `start` after k turns of its loop: k additions of the step, which may be negative. */
  function StartAsWritten(k: nat, step: int): int
  {
    if k == 0 then 0 else StartAsWritten(k - 1, step) + step
  }

  /**
   * The loop as written, for a step that is not positive and a non-empty
   * text: the loop test `start < totalLen` holds on every turn, so with step
   * 0 the loop never ends; with a negative step every start after the first
   * is negative, so the slice `runes[start:end]` of the second turn panics.
   */
  lemma {:induction false} LoopStartAsWritten(text: string, chunkSize: int, overlap: int, k: nat)
    requires text != [] && WindowStep(chunkSize, overlap) <= 0
    ensures StartAsWritten(k, WindowStep(chunkSize, overlap)) < |text|
    ensures WindowStep(chunkSize, overlap) == 0 ==> StartAsWritten(k, 0) == 0
    ensures WindowStep(chunkSize, overlap) < 0 && k >= 1 ==> StartAsWritten(k, WindowStep(chunkSize, overlap)) < 0
  {
    var step := WindowStep(chunkSize, overlap);
    if k > 0 {
      LoopStartAsWritten(text, chunkSize, overlap, k - 1);
      assert StartAsWritten(k, step) == StartAsWritten(k - 1, step) + step;
    }
  }

  /** The chunk ChunkText makes of the window at rune `start`: the trimmed runes [start, min(start + size, n)), with its bounds as metadata. */
  function WindowAt(text: string, start: nat, index: int, size: int): (c: TextChunk)
    requires start < |text| && size > 0
    ensures c.index == index
  {
    var end := if start + size > |text| then |text| else start + size;
    TextChunk(TrimSpace(text[start..end]), index, map["start" := MetaInt(start), "end" := MetaInt(end)])
  }

  /** k steps of the window: k * step, written as repeated addition. */
  function Offset(k: nat, step: nat): nat
  {
    if k == 0 then 0 else Offset(k - 1, step) + step
  }

  /** Chunk k is the window that begins k steps into the text, numbered k. */
  predicate IsWindow(chunks: seq<TextChunk>, text: string, step: nat, size: int, k: nat)
    requires k < |chunks| && size > 0
  {
    Offset(k, step) < |text| && chunks[k] == WindowAt(text, Offset(k, step), k, size)
  }

  /** Every chunk is the window its position says. */
  predicate AreWindows(chunks: seq<TextChunk>, text: string, step: nat, size: int)
    requires size > 0
  {
    forall k: nat :: k < |chunks| ==> IsWindow(chunks, text, step, size, k)
  }

  /**
   * ChunkText: the windows of EffectiveChunkSize(chunkSize) runes that begin
   * every WindowStep(chunkSize, overlap) runes from rune 0, as many as begin
   * inside the text. The requires leaves out the parameters for which the
   * source panics or never returns on a non-empty text (LoopStartAsWritten).
   */
  method ChunkText(text: string, chunkSize: int, overlap: int) returns (chunks: seq<TextChunk>)
    requires text == [] || WindowStep(chunkSize, overlap) > 0
    ensures text == [] ==> chunks == []
    ensures text != [] ==>
              var step := WindowStep(chunkSize, overlap);
              && |chunks| > 0 && Offset(|chunks| - 1, step) < |text| <= Offset(|chunks|, step)
              && AreWindows(chunks, text, step, EffectiveChunkSize(chunkSize))
  {
    var size := EffectiveChunkSize(chunkSize);
    var ov := EffectiveOverlap(size, overlap);
    chunks := [];
    var runes := text;
    var totalLen := |runes|;
    if totalLen == 0 {
      return;
    }
    var step := size - ov;
    assert step == WindowStep(chunkSize, overlap) && size == EffectiveChunkSize(chunkSize);
    var start := 0;
    var index := 0;
    while start < totalLen
      invariant index == |chunks| && start == Offset(index, step)
      invariant index > 0 ==> Offset(index - 1, step) < totalLen
      invariant AreWindows(chunks, text, step, size)
      decreases totalLen - start
    {
      var c := Window(runes, start, index, size);
      AreWindowsSnoc(chunks, text, step, size, c);
      chunks := chunks + [c];
      start := start + step;
      index := index + 1;
    }
  }

  /** The body of ChunkText's loop: the window [start, start + size) cut at the end of the text, trimmed. */
  method Window(runes: string, start: nat, index: int, size: int) returns (c: TextChunk)
    requires start < |runes| && size > 0
    ensures c == WindowAt(runes, start, index, size)
  {
    var end := start + size;
    if end > |runes| {
      end := |runes|;
    }
    var chunk := runes[start..end];
    c := TextChunk(TrimSpace(chunk), index, map["start" := MetaInt(start), "end" := MetaInt(end)]);
  }

  lemma {:induction false} OffsetIsProduct(k: nat, step: nat)
    ensures Offset(k, step) == k * step
  {
    if k > 0 {
      OffsetIsProduct(k - 1, step);
      assert (k - 1) * step + step == k * step;
    }
  }

  /** Windows begin further into the text the later they come. */
  lemma {:induction false} OffsetMonotone(j: nat, k: nat, step: nat)
    requires j <= k
    ensures Offset(j, step) <= Offset(k, step)
    ensures step > 0 && j < k ==> Offset(j, step) < Offset(k, step)
    decreases k
  {
    if j < k {
      OffsetMonotone(j, k - 1, step);
    }
  }

  /** Appending the next window keeps every chunk the window its position says. */
  lemma AreWindowsSnoc(chunks: seq<TextChunk>, text: string, step: nat, size: int, c: TextChunk)
    requires size > 0 && AreWindows(chunks, text, step, size)
    requires Offset(|chunks|, step) < |text| && c == WindowAt(text, Offset(|chunks|, step), |chunks|, size)
    ensures AreWindows(chunks + [c], text, step, size)
  {
    forall k: nat | k < |chunks| + 1
      ensures IsWindow(chunks + [c], text, step, size, k)
    {
      if k < |chunks| {
        assert IsWindow(chunks, text, step, size, k);
      }
    }
  }

  /**
   * The windows leave no rune out: when the windows 0 .. c - 1 are taken and
   * window c would begin past rune p, rune p lies in one of them.
   */
  lemma {:induction false} WindowsCoverText(size: int, step: nat, c: nat, p: nat) returns (k: nat)
    requires 0 < step <= size
    requires p < Offset(c, step)
    ensures k < c && Offset(k, step) <= p < Offset(k, step) + size
  {
    if Offset(c - 1, step) <= p {
      k := c - 1;
    } else {
      k := WindowsCoverText(size, step, c - 1, p);
    }
  }

  /** Each window holds at least one rune and at most size runes. */
  lemma WindowBounds(text: string, start: nat, index: int, size: int)
    requires start < |text| && size > 0
    ensures var w := WindowAt(text, start, index, size);
            && w.metadata["start"] == MetaInt(start) && w.metadata["end"].MetaInt?
            && start < w.metadata["end"].n <= |text| && w.metadata["end"].n - start <= size
  {
  }

  // ---------------------------------------------------------------------
  // splitIntoSentences
  // ---------------------------------------------------------------------

  predicate IsTerminator(c: char)
  {
    c == '.' || c == '!' || c == '?'
  }

  /** strings.ReplaceAll(text, "\n", " ") */
  function ReplaceNewlines(s: string): (r: string)
    ensures |r| == |s|
    ensures forall i :: 0 <= i < |s| ==> r[i] == if s[i] == '\n' then ' ' else s[i]
  {
    if s == [] then [] else [if s[0] == '\n' then ' ' else s[0]] + ReplaceNewlines(s[1..])
  }

  /** The length of the longest prefix of s free of terminators. */
  function RunLength(s: string): (k: nat)
    ensures k <= |s|
    ensures forall i :: 0 <= i < k ==> !IsTerminator(s[i])
    ensures k < |s| ==> IsTerminator(s[k])
  {
    if s == [] || IsTerminator(s[0]) then 0 else 1 + RunLength(s[1..])
  }

  /**
   * The matches of the regular expression [^.!?]+[.!?]? found from left to
   * right: a maximal run of non-terminators followed by the terminator after
   * it, if any. A terminator that does not follow a non-terminator starts no
   * match and is skipped.
   */
  function SentenceMatches(s: string): seq<string>
    decreases |s|
  {
    if s == [] then []
    else if IsTerminator(s[0]) then SentenceMatches(s[1..])
    else
      var k := RunLength(s);
      var m := if k < |s| then k + 1 else k;
      [s[..m]] + SentenceMatches(s[m..])
  }

  /** A terminator can stand only at the end of the string. */
  predicate TerminatorOnlyAtEnd(s: string)
  {
    forall i :: 0 <= i < |s| - 1 ==> !IsTerminator(s[i])
  }

  /** What splitIntoSentences returns. */
  function Sentences(text: string): seq<string>
  {
    TrimmedNonBlank(SentenceMatches(ReplaceNewlines(text)))
  }

  /** Every match is non-empty, has a terminator only at its end, and holds no newline if the text holds none. */
  lemma {:induction false} MatchesShape(s: string)
    ensures forall j :: 0 <= j < |SentenceMatches(s)| ==>
              var m := SentenceMatches(s)[j];
              m != [] && TerminatorOnlyAtEnd(m) && ('\n' !in s ==> '\n' !in m)
    decreases |s|
  {
    if s != [] {
      if IsTerminator(s[0]) {
        MatchesShape(s[1..]);
        assert '\n' !in s ==> '\n' !in s[1..];
      } else {
        var k := RunLength(s);
        var m := if k < |s| then k + 1 else k;
        MatchesShape(s[m..]);
        assert '\n' !in s ==> '\n' !in s[m..] && '\n' !in s[..m];
      }
    }
  }

  /** Trimming keeps the shape of a match. */
  lemma TrimKeepsMatchShape(m: string)
    requires TerminatorOnlyAtEnd(m) && '\n' !in m
    ensures TerminatorOnlyAtEnd(TrimSpace(m)) && '\n' !in TrimSpace(m)
  {
    var a := TrimSpaceShape(m);
    var r := TrimSpace(m);
    assert forall i :: 0 <= i < |r| ==> r[i] == m[a + i];
  }

  /** The method form of splitIntoSentences: trim each match and keep the non-empty ones. */
  method SplitIntoSentences(text: string) returns (sentences: seq<string>)
    ensures sentences == Sentences(text)
  {
    var t := ReplaceNewlines(text);
    var matches := SentenceMatches(t);
    sentences := [];
    var j := 0;
    while j < |matches|
      invariant 0 <= j <= |matches|
      invariant sentences == TrimmedNonBlank(matches[..j])
    {
      var trimmed := TrimSpace(matches[j]);
      TrimmedNonBlankAppend(matches[..j], [matches[j]]);
      assert matches[..j + 1] == matches[..j] + [matches[j]];
      if trimmed != [] {
        sentences := sentences + [trimmed];
      }
      j := j + 1;
    }
    assert matches[..j] == matches;
  }

  /** Every sentence is non-empty and trimmed, holds no newline, and has a terminator only as its last character. */
  lemma {:induction false} SentencesShape(text: string)
    ensures forall i :: 0 <= i < |Sentences(text)| ==>
              var s := Sentences(text)[i];
              s != [] && Trimmed(s) && TerminatorOnlyAtEnd(s) && '\n' !in s
  {
    var t := ReplaceNewlines(text);
    assert '\n' !in t by {
      forall i | 0 <= i < |t| ensures t[i] != '\n' { }
    }
    MatchesShape(t);
    KeptPiecesShape(SentenceMatches(t));
  }

  lemma {:induction false} KeptPiecesShape(ms: seq<string>)
    requires forall j :: 0 <= j < |ms| ==> TerminatorOnlyAtEnd(ms[j]) && '\n' !in ms[j]
    ensures forall i :: 0 <= i < |TrimmedNonBlank(ms)| ==>
              TerminatorOnlyAtEnd(TrimmedNonBlank(ms)[i]) && '\n' !in TrimmedNonBlank(ms)[i]
  {
    if ms != [] {
      TrimKeepsMatchShape(ms[0]);
      KeptPiecesShape(ms[1..]);
    }
  }

  /**
   * The text with the terminators dropped that start no match: those at the
   * very start and those right after another terminator. `afterText` says
   * whether the previous character was a non-terminator.
   */
  function WithoutStrayTerminators(s: string, afterText: bool): string
    decreases |s|
  {
    if s == [] then []
    else if IsTerminator(s[0]) then
      (if afterText then [s[0]] else []) + WithoutStrayTerminators(s[1..], false)
    else [s[0]] + WithoutStrayTerminators(s[1..], true)
  }

  function Concat(ms: seq<string>): string
  {
    if ms == [] then [] else ms[0] + Concat(ms[1..])
  }

  /** Over a run of non-terminators the filter copies the run. */
  lemma {:induction false} StrayRun(s: string, k: nat, afterText: bool)
    requires 0 < k <= |s|
    requires forall i :: 0 <= i < k ==> !IsTerminator(s[i])
    ensures WithoutStrayTerminators(s, afterText) == s[..k] + WithoutStrayTerminators(s[k..], true)
    decreases k
  {
    if k > 1 {
      StrayRun(s[1..], k - 1, true);
      assert s[1..][k - 1..] == s[k..];
      assert s[..k] == [s[0]] + s[1..][..k - 1];
    } else {
      assert s[..1] == [s[0]];
    }
  }

  /**
   * The matches, put back together, are the text without its stray
   * terminators: the regular expression loses nothing else.
   */
  lemma {:induction false} MatchesKeepText(s: string)
    ensures Concat(SentenceMatches(s)) == WithoutStrayTerminators(s, false)
    decreases |s|
  {
    if s != [] {
      if IsTerminator(s[0]) {
        MatchesKeepText(s[1..]);
      } else {
        var k := RunLength(s);
        var m := if k < |s| then k + 1 else k;
        MatchesKeepText(s[m..]);
        StrayRun(s, k, false);
        if k < |s| {
          assert s[k..][1..] == s[m..];
          assert s[..m] == s[..k] + [s[k]];
        } else {
          assert s[k..] == [];
        }
      }
    }
  }

  // ---------------------------------------------------------------------
  // ChunkBySentence
  // ---------------------------------------------------------------------

  /** A non-positive limit falls back to 1000, the fallback ChunkText uses for its size. */
  function EffectiveLimit(maxChunkSize: int): (r: int)
    ensures r > 0
    ensures maxChunkSize > 0 ==> r == maxChunkSize
    ensures maxChunkSize <= 0 ==> r == 1000
  {
    EffectiveChunkSize(maxChunkSize)
  }

  /** The number of sentences carried from one chunk into the next. */
  const SentenceOverlap := 1

  function Last<T>(s: seq<T>): T
    requires s != []
  {
    s[|s| - 1]
  }

  /**
   * One sentence t (already trimmed) joining the groups: nothing happens
   * when it is empty; it opens the first group when there is none; it joins
   * the open (last) group unless adding a space and the sentence would take
   * that group's byte length over the limit, in which case the group is
   * closed and a new one opens with the closed group's last sentence
   * followed by t.
   */
  function AddSentence(gs: seq<seq<string>>, t: string, limit: int): (r: seq<seq<string>>)
    requires forall k :: 0 <= k < |gs| ==> gs[k] != []
    ensures forall k :: 0 <= k < |r| ==> r[k] != []
  {
    if t == [] then gs
    else if gs == [] then [[t]]
    else if ByteLen(Join(Last(gs), " ")) + ByteLen(t) + 1 > limit then gs + [[Last(Last(gs)), t]]
    else gs[..|gs| - 1] + [Last(gs) + [t]]
  }

  /** The sentence groups ChunkBySentence forms: the sentences, trimmed, added one by one. */
  function Groups(sentences: seq<string>, limit: int): (gs: seq<seq<string>>)
    ensures forall k :: 0 <= k < |gs| ==> gs[k] != []
  {
    if sentences == [] then []
    else AddSentence(Groups(sentences[..|sentences| - 1], limit), TrimSpace(Last(sentences)), limit)
  }

  /** The chunks made from sentence groups: group i, joined with spaces and trimmed, with Index i. */
  function ChunksOf(gs: seq<seq<string>>): (r: seq<TextChunk>)
    ensures |r| == |gs|
    ensures forall i :: 0 <= i < |gs| ==> r[i] == TextChunk(TrimSpace(Join(gs[i], " ")), i, map[])
  {
    seq(|gs|, i requires 0 <= i < |gs| => TextChunk(TrimSpace(Join(gs[i], " ")), i, map[]))
  }

  lemma ChunksOfSnoc(gs: seq<seq<string>>, g: seq<string>)
    ensures ChunksOf(gs + [g]) == ChunksOf(gs) + [TextChunk(TrimSpace(Join(g, " ")), |gs|, map[])]
  {
  }

  /** How many leading sentences of group k were placed there without a size check. */
  function Unchecked(k: int): int
  {
    if k == 0 then 1 else 2
  }

  /** Every group and every sentence in it is non-empty, and sentences are trimmed. */
  predicate GroupsNonBlank(gs: seq<seq<string>>)
  {
    forall k :: 0 <= k < |gs| ==>
      (gs[k] != [] && forall j :: 0 <= j < |gs[k]| ==> (gs[k][j] != [] && Trimmed(gs[k][j])))
  }

  /** Every group after the first has a second sentence and starts with the last sentence of the group before it. */
  predicate Overlapping(gs: seq<seq<string>>)
  {
    forall j :: 0 < j < |gs| ==> LinkedTo(gs, j)
  }

  /** Group j has a second sentence and starts with the last sentence of group j - 1. */
  predicate LinkedTo(gs: seq<seq<string>>, j: int)
    requires 0 < j < |gs|
  {
    |gs[j]| >= 2 && gs[j - 1] != [] && gs[j][0] == Last(gs[j - 1])
  }

  /** A group was closed only because its byte length, a space and the next group's second sentence exceed the limit. */
  predicate ClosedWhenFull(gs: seq<seq<string>>, limit: int)
  {
    forall j :: 0 < j < |gs| ==> FullBefore(gs, j, limit)
  }

  /** Group j - 1 was closed because group j's second sentence did not fit after it. */
  predicate FullBefore(gs: seq<seq<string>>, j: int, limit: int)
    requires 0 < j < |gs|
  {
    |gs[j]| >= 2 ==> ByteLen(Join(gs[j - 1], " ")) + ByteLen(gs[j][1]) + 1 > limit
  }

  /** A group is over the limit only if it holds no sentence beyond those placed unchecked. */
  predicate WithinLimit(gs: seq<seq<string>>, limit: int)
  {
    forall k :: 0 <= k < |gs| && |gs[k]| > Unchecked(k) ==> ByteLen(Join(gs[k], " ")) <= limit
  }

  predicate WellPacked(gs: seq<seq<string>>, limit: int)
  {
    GroupsNonBlank(gs) && Overlapping(gs) && ClosedWhenFull(gs, limit) && WithinLimit(gs, limit)
  }

  /** Closing the open group keeps the groups well packed. */
  lemma CloseKeepsWellPacked(gs: seq<seq<string>>, t: string, limit: int)
    requires WellPacked(gs, limit) && gs != [] && t != [] && Trimmed(t)
    requires ByteLen(Join(Last(gs), " ")) + ByteLen(t) + 1 > limit
    ensures WellPacked(gs + [[Last(Last(gs)), t]], limit)
  {
    var r := gs + [[Last(Last(gs)), t]];
    assert forall k :: 0 <= k < |gs| ==> r[k] == gs[k];
    CloseOverlapping(gs, t);
    CloseClosedWhenFull(gs, t, limit);
    assert GroupsNonBlank(r);
    assert WithinLimit(r, limit);
  }

  lemma CloseOverlapping(gs: seq<seq<string>>, t: string)
    requires Overlapping(gs) && gs != [] && Last(gs) != []
    ensures Overlapping(gs + [[Last(Last(gs)), t]])
  {
    var r := gs + [[Last(Last(gs)), t]];
    forall j | 0 < j < |r|
      ensures LinkedTo(r, j)
    {
      if j < |gs| {
        assert LinkedTo(gs, j);
        assert r[j - 1] == gs[j - 1] && r[j] == gs[j];
      } else {
        assert r[j - 1] == Last(gs);
      }
    }
  }

  lemma CloseClosedWhenFull(gs: seq<seq<string>>, t: string, limit: int)
    requires ClosedWhenFull(gs, limit) && gs != [] && Last(gs) != []
    requires ByteLen(Join(Last(gs), " ")) + ByteLen(t) + 1 > limit
    ensures ClosedWhenFull(gs + [[Last(Last(gs)), t]], limit)
  {
    var r := gs + [[Last(Last(gs)), t]];
    forall j | 0 < j < |r|
      ensures FullBefore(r, j, limit)
    {
      if j < |gs| {
        assert FullBefore(gs, j, limit);
        assert r[j - 1] == gs[j - 1] && r[j] == gs[j];
      } else {
        assert r[j - 1] == Last(gs);
      }
    }
  }

  /** Adding to the open group under the limit keeps the groups well packed. */
  lemma ExtendKeepsWellPacked(gs: seq<seq<string>>, t: string, limit: int)
    requires WellPacked(gs, limit) && gs != [] && t != [] && Trimmed(t)
    requires ByteLen(Join(Last(gs), " ")) + ByteLen(t) + 1 <= limit
    ensures WellPacked(gs[..|gs| - 1] + [Last(gs) + [t]], limit)
  {
    ExtendNonBlank(gs, t);
    ExtendOverlapping(gs, t);
    ExtendClosedWhenFull(gs, t, limit);
    ExtendWithinLimit(gs, t, limit);
  }

  lemma ExtendNonBlank(gs: seq<seq<string>>, t: string)
    requires GroupsNonBlank(gs) && gs != [] && t != [] && Trimmed(t)
    ensures GroupsNonBlank(gs[..|gs| - 1] + [Last(gs) + [t]])
  {
    var r := gs[..|gs| - 1] + [Last(gs) + [t]];
    forall k | 0 <= k < |r|
      ensures r[k] != [] && forall j :: 0 <= j < |r[k]| ==> (r[k][j] != [] && Trimmed(r[k][j]))
    {
      if k < |gs| - 1 {
        assert r[k] == gs[k];
      }
    }
  }

  lemma ExtendOverlapping(gs: seq<seq<string>>, t: string)
    requires Overlapping(gs) && gs != [] && Last(gs) != []
    ensures Overlapping(gs[..|gs| - 1] + [Last(gs) + [t]])
  {
    var n := |gs|;
    var r := gs[..n - 1] + [Last(gs) + [t]];
    assert |r| == n;
    forall j | 0 < j < n
      ensures LinkedTo(r, j)
    {
      assert LinkedTo(gs, j);
      assert r[j - 1] == gs[j - 1];
      if j < n - 1 {
        assert r[j] == gs[j];
      } else {
        assert r[j] == gs[j] + [t];
      }
    }
  }

  lemma ExtendClosedWhenFull(gs: seq<seq<string>>, t: string, limit: int)
    requires ClosedWhenFull(gs, limit) && Overlapping(gs) && gs != [] && Last(gs) != []
    ensures ClosedWhenFull(gs[..|gs| - 1] + [Last(gs) + [t]], limit)
  {
    var n := |gs|;
    var r := gs[..n - 1] + [Last(gs) + [t]];
    assert |r| == n;
    forall j | 0 < j < n
      ensures FullBefore(r, j, limit)
    {
      assert LinkedTo(gs, j) && FullBefore(gs, j, limit);
      assert r[j - 1] == gs[j - 1];
      if j < n - 1 {
        assert r[j] == gs[j];
      } else {
        assert r[j] == gs[j] + [t];
        assert r[j][1] == gs[j][1];
      }
    }
  }

  lemma ExtendWithinLimit(gs: seq<seq<string>>, t: string, limit: int)
    requires WithinLimit(gs, limit) && gs != [] && Last(gs) != []
    requires ByteLen(Join(Last(gs), " ")) + ByteLen(t) + 1 <= limit
    ensures WithinLimit(gs[..|gs| - 1] + [Last(gs) + [t]], limit)
  {
    var n := |gs|;
    var r := gs[..n - 1] + [Last(gs) + [t]];
    JoinSnocByteLen(Last(gs), t);
    forall k | 0 <= k < n && |r[k]| > Unchecked(k)
      ensures ByteLen(Join(r[k], " ")) <= limit
    {
      if k < n - 1 {
        assert r[k] == gs[k];
      }
    }
  }

  lemma AddSentenceWellPacked(gs: seq<seq<string>>, t: string, limit: int)
    requires WellPacked(gs, limit) && Trimmed(t)
    ensures WellPacked(AddSentence(gs, t, limit), limit)
  {
    if t != [] && gs != [] {
      if ByteLen(Join(Last(gs), " ")) + ByteLen(t) + 1 > limit {
        CloseKeepsWellPacked(gs, t, limit);
      } else {
        ExtendKeepsWellPacked(gs, t, limit);
      }
    }
  }

  /**
   * The groups are well packed: sentences are non-empty and trimmed, each
   * group after the first repeats the last sentence of the one before, a
   * group was closed only when the next sentence would not fit, and a group
   * is over the limit only when it holds no sentence beyond those placed
   * unchecked (a single sentence, or the carried sentence and the one that
   * closed the previous group).
   */
  lemma {:induction false} GroupsWellPacked(sentences: seq<string>, limit: int)
    ensures WellPacked(Groups(sentences, limit), limit)
    decreases |sentences|
  {
    if sentences != [] {
      GroupsWellPacked(sentences[..|sentences| - 1], limit);
      AddSentenceWellPacked(Groups(sentences[..|sentences| - 1], limit), TrimSpace(Last(sentences)), limit);
    }
  }

  /** The sentences of the groups, leaving out the sentence each group repeats from the one before. */
  function Unoverlapped(gs: seq<seq<string>>): seq<string>
  {
    if gs == [] then []
    else if |gs| == 1 then gs[0]
    else Unoverlapped(gs[..|gs| - 1]) + (if Last(gs) == [] then [] else Last(gs)[1..])
  }

  lemma UnoverlappedSnoc(gs: seq<seq<string>>, x: seq<string>)
    requires gs != [] && x != []
    ensures Unoverlapped(gs + [x]) == Unoverlapped(gs) + x[1..]
  {
    assert (gs + [x])[..|gs|] == gs;
  }

  lemma UnoverlappedExtendLast(gs: seq<seq<string>>, t: string)
    requires gs != [] && Last(gs) != []
    ensures Unoverlapped(gs[..|gs| - 1] + [Last(gs) + [t]]) == Unoverlapped(gs) + [t]
  {
    var front := gs[..|gs| - 1];
    var g := Last(gs);
    if front != [] {
      assert front + [g] == gs;
      UnoverlappedGrowLast(front, g, t);
    } else {
      assert gs == [g];
      assert front + [g + [t]] == [g + [t]];
      assert Unoverlapped([g + [t]]) == g + [t];
    }
  }

  lemma UnoverlappedGrowLast(front: seq<seq<string>>, g: seq<string>, t: string)
    requires front != [] && g != []
    ensures Unoverlapped(front + [g + [t]]) == Unoverlapped(front + [g]) + [t]
  {
    UnoverlappedSnoc(front, g + [t]);
    UnoverlappedSnoc(front, g);
    assert (g + [t])[1..] == g[1..] + [t];
  }

  lemma AddSentenceUnoverlapped(gs: seq<seq<string>>, t: string, limit: int)
    requires forall k :: 0 <= k < |gs| ==> gs[k] != []
    requires t != []
    ensures Unoverlapped(AddSentence(gs, t, limit)) == Unoverlapped(gs) + [t]
  {
    if gs != [] {
      if ByteLen(Join(Last(gs), " ")) + ByteLen(t) + 1 > limit {
        UnoverlappedSnoc(gs, [Last(Last(gs)), t]);
      } else {
        UnoverlappedExtendLast(gs, t);
      }
    }
  }

  /** No sentence is lost or reordered: without the repeated sentences, the groups are the kept sentences. */
  lemma {:induction false} GroupsKeepSentences(sentences: seq<string>, limit: int)
    ensures Unoverlapped(Groups(sentences, limit)) == TrimmedNonBlank(sentences)
    decreases |sentences|
  {
    if sentences != [] {
      var prev := sentences[..|sentences| - 1];
      var t := TrimSpace(Last(sentences));
      GroupsKeepSentences(prev, limit);
      assert sentences == prev + [Last(sentences)];
      TrimmedNonBlankSnoc(prev, Last(sentences));
      if t != [] {
        AddSentenceUnoverlapped(Groups(prev, limit), t, limit);
      }
    }
  }

  /** Every chunk of ChunkBySentence is its group joined with single spaces: non-empty and trimmed. */
  lemma ChunkContents(gs: seq<seq<string>>, limit: int, k: int)
    requires WellPacked(gs, limit) && 0 <= k < |gs|
    ensures TrimSpace(Join(gs[k], " ")) == Join(gs[k], " ")
    ensures Join(gs[k], " ") != [] && Trimmed(Join(gs[k], " "))
  {
    JoinTrimmed(gs[k], " ");
    TrimSpaceFixed(Join(gs[k], " "));
  }

  /** Every chunk after the first begins with the last sentence of the chunk before it and a space. */
  lemma ChunkStartsWithOverlap(gs: seq<seq<string>>, limit: int, k: int)
    requires WellPacked(gs, limit) && 0 < k < |gs|
    ensures Last(gs[k - 1]) + " " <= Join(gs[k], " ")
  {
    assert LinkedTo(gs, k);
  }

  /** The groups after one more sentence of the list. */
  lemma GroupsStep(sentences: seq<string>, i: int, limit: int)
    requires 0 <= i < |sentences|
    ensures Groups(sentences[..i + 1], limit) == AddSentence(Groups(sentences[..i], limit), TrimSpace(sentences[i]), limit)
  {
    assert sentences[..i + 1][..i] == sentences[..i];
  }

  /** The groups as the loop of ChunkBySentence holds them: the closed groups, then the open one if it has sentences. */
  function Open(closed: seq<seq<string>>, open: seq<string>): seq<seq<string>>
  {
    if open == [] then closed else closed + [open]
  }

  lemma StartOpen(t: string, limit: int)
    requires t != []
    ensures AddSentence(Open([], []), t, limit) == Open([], [t])
  {
  }

  lemma CloseOpen(closed: seq<seq<string>>, open: seq<string>, t: string, limit: int)
    requires forall k :: 0 <= k < |closed| ==> closed[k] != []
    requires open != [] && t != []
    requires ByteLen(Join(open, " ")) + ByteLen(t) + 1 > limit
    ensures AddSentence(Open(closed, open), t, limit) == Open(closed + [open], [Last(open), t])
  {
    var gs := closed + [open];
    assert Last(gs) == open;
  }

  lemma ExtendOpen(closed: seq<seq<string>>, open: seq<string>, t: string, limit: int)
    requires forall k :: 0 <= k < |closed| ==> closed[k] != []
    requires open != [] && t != []
    requires ByteLen(Join(open, " ")) + ByteLen(t) + 1 <= limit
    ensures AddSentence(Open(closed, open), t, limit) == Open(closed, open + [t])
  {
    var gs := closed + [open];
    assert Last(gs) == open;
    assert gs[..|gs| - 1] == closed;
  }

  /** A join of non-empty sentences has bytes exactly when there is a sentence. */
  lemma JoinedLength(open: seq<string>)
    requires forall j :: 0 <= j < |open| ==> open[j] != []
    ensures ByteLen(Join(open, " ")) > 0 <==> open != []
  {
    if open != [] {
      JoinFirst(open);
    }
  }

  lemma {:induction false} JoinFirst(parts: seq<string>)
    requires parts != [] && parts[0] != []
    ensures Join(parts, " ") != [] && Join(parts, " ")[0] == parts[0][0]
  {
  }

  /** ChunkBySentence */
  /**
   * One iteration of the loop of ChunkBySentence on its sentence lists: the
   * closed groups and the open one. An empty sentence changes nothing; a
   * sentence that would take a non-empty open group past the limit closes
   * it and opens a new group with the last sentence carried over; otherwise
   * the sentence joins the open group.
   */
  function Advance(closed: seq<seq<string>>, open: seq<string>, t: string, limit: int): (seq<seq<string>>, seq<string>)
  {
    if t == [] then (closed, open)
    else if open != [] && ByteLen(Join(open, " ")) + ByteLen(t) + 1 > limit then (closed + [open], [Last(open), t])
    else (closed, open + [t])
  }

  /** What the loop of ChunkBySentence keeps of its sentence lists. */
  ghost predicate LoopState(closed: seq<seq<string>>, open: seq<string>)
  {
    && (forall k :: 0 <= k < |closed| ==> closed[k] != [])
    && (forall j :: 0 <= j < |open| ==> open[j] != [])
    && (open == [] ==> closed == [])
  }

  /** The loop's step on its sentence lists is AddSentence on the groups they stand for. */
  lemma AdvanceStep(closed: seq<seq<string>>, open: seq<string>, t: string, limit: int) returns (closed': seq<seq<string>>, open': seq<string>)
    requires LoopState(closed, open)
    ensures (closed', open') == Advance(closed, open, t, limit)
    ensures LoopState(closed', open')
    ensures Open(closed', open') == AddSentence(Open(closed, open), t, limit)
  {
    closed', open' := Advance(closed, open, t, limit).0, Advance(closed, open, t, limit).1;
    if t == [] {
    } else if open != [] && ByteLen(Join(open, " ")) + ByteLen(t) + 1 > limit {
      AdvanceClose(closed, open, t, limit);
    } else {
      AdvanceExtend(closed, open, t, limit);
    }
  }

  /** A sentence that does not fit closes the open group and opens one with the carried sentence. */
  lemma AdvanceClose(closed: seq<seq<string>>, open: seq<string>, t: string, limit: int)
    requires LoopState(closed, open) && t != [] && open != []
    requires ByteLen(Join(open, " ")) + ByteLen(t) + 1 > limit
    ensures LoopState(closed + [open], [Last(open), t])
    ensures Open(closed + [open], [Last(open), t]) == AddSentence(Open(closed, open), t, limit)
  {
    CloseOpen(closed, open, t, limit);
  }

  /** A sentence that fits, or the first one, joins the open group. */
  lemma AdvanceExtend(closed: seq<seq<string>>, open: seq<string>, t: string, limit: int)
    requires LoopState(closed, open) && t != []
    requires open != [] ==> ByteLen(Join(open, " ")) + ByteLen(t) + 1 <= limit
    ensures LoopState(closed, open + [t])
    ensures Open(closed, open + [t]) == AddSentence(Open(closed, open), t, limit)
  {
    if open != [] {
      ExtendOpen(closed, open, t, limit);
      assert forall j :: 0 <= j < |open + [t]| ==> (open + [t])[j] == if j < |open| then open[j] else t;
    } else {
      assert closed == [] && open + [t] == [t];
      StartOpen(t, limit);
    }
  }

  /** One more sentence of the list: the loop state for the first i + 1 sentences. */
  lemma LoopStep(sentences: seq<string>, i: int, limit: int, closed: seq<seq<string>>, open: seq<string>)
    returns (closed': seq<seq<string>>, open': seq<string>)
    requires 0 <= i < |sentences|
    requires LoopState(closed, open) && Open(closed, open) == Groups(sentences[..i], limit)
    ensures (closed', open') == Advance(closed, open, TrimSpace(sentences[i]), limit)
    ensures LoopState(closed', open') && Open(closed', open') == Groups(sentences[..i + 1], limit)
  {
    GroupsStep(sentences, i, limit);
    closed', open' := AdvanceStep(closed, open, TrimSpace(sentences[i]), limit);
  }

  /**
   * One iteration of the loop of ChunkBySentence, on the chunks made so far,
   * the text of the open chunk (a strings.Builder in Go), its sentences and
   * the next index. `closed` is the sentence groups of the chunks made so far.
   */
  method Feed(chunks: seq<TextChunk>, current: string, currentSentences: seq<string>, index: int,
              ghost closed: seq<seq<string>>, sentence: string, limit: int)
    returns (chunks': seq<TextChunk>, current': string, currentSentences': seq<string>, index': int,
             ghost closed': seq<seq<string>>)
    requires LoopState(closed, currentSentences)
    requires chunks == ChunksOf(closed) && index == |closed| && current == Join(currentSentences, " ")
    ensures (closed', currentSentences') == Advance(closed, currentSentences, sentence, limit)
    ensures chunks' == ChunksOf(closed') && index' == |closed'| && current' == Join(currentSentences', " ")
  {
    chunks', current', currentSentences', index', closed' := chunks, current, currentSentences, index, closed;
    if sentence == [] {
      return;
    }
    JoinedLength(currentSentences);
    var potentialLength := ByteLen(current') + ByteLen(sentence) + 1;
    if ByteLen(current') > 0 && potentialLength > limit {
      chunks', current', currentSentences', index', closed' := Flush(chunks, current, currentSentences, index, closed);
      JoinedLength(currentSentences');
    }
    if ByteLen(current') > 0 {
      current' := current' + " ";
    }
    JoinSnoc(currentSentences', sentence, " ");
    current' := current' + sentence;
    currentSentences' := currentSentences' + [sentence];
    if closed' == closed {
      assert currentSentences' == currentSentences + [sentence];
    } else {
      assert currentSentences' == [Last(currentSentences), sentence];
    }
  }

  /**
   * The flush in ChunkBySentence's loop: emit the trimmed current chunk, then
   * start the next one from the last sentence of the current one.
   */
  method Flush(chunks: seq<TextChunk>, current: string, currentSentences: seq<string>, index: int,
               ghost closed: seq<seq<string>>)
    returns (chunks': seq<TextChunk>, current': string, currentSentences': seq<string>, index': int,
             ghost closed': seq<seq<string>>)
    requires currentSentences != []
    requires chunks == ChunksOf(closed) && index == |closed| && current == Join(currentSentences, " ")
    ensures closed' == closed + [currentSentences] && currentSentences' == [Last(currentSentences)]
    ensures chunks' == ChunksOf(closed') && index' == |closed'| && current' == Join(currentSentences', " ")
  {
    ChunksOfSnoc(closed, currentSentences);
    chunks' := chunks + [TextChunk(TrimSpace(current), index, map[])];
    closed' := closed + [currentSentences];
    current' := [];
    index' := index + 1;
    var overlapContent: seq<string>;
    if |currentSentences| > SentenceOverlap {
      overlapContent := currentSentences[|currentSentences| - SentenceOverlap..];
    } else {
      overlapContent := currentSentences;
    }
    assert overlapContent == [Last(currentSentences)];
    if |overlapContent| > 0 {
      current' := current' + Join(overlapContent, " ");
      currentSentences' := overlapContent;
    } else {
      currentSentences' := [];
    }
  }

  method ChunkBySentence(text: string, maxChunkSize: int) returns (chunks: seq<TextChunk>)
    ensures chunks == ChunksOf(Groups(Sentences(text), EffectiveLimit(maxChunkSize)))
  {
    var limit := maxChunkSize;
    if limit <= 0 {
      limit := 1000;
    }
    var sentences := SplitIntoSentences(text);
    if |sentences| == 0 {
      return [];
    }
    chunks := [];
    var current: string := [];
    var currentSentences: seq<string> := [];
    var index := 0;
    ghost var closed: seq<seq<string>> := [];
    var i := 0;
    while i < |sentences|
      invariant 0 <= i <= |sentences|
      invariant LoopState(closed, currentSentences)
      invariant Open(closed, currentSentences) == Groups(sentences[..i], limit)
      invariant chunks == ChunksOf(closed) && index == |closed|
      invariant current == Join(currentSentences, " ")
    {
      var sentence := TrimSpace(sentences[i]);
      ghost var closed1, open1 := LoopStep(sentences, i, limit, closed, currentSentences);
      chunks, current, currentSentences, index, closed := Feed(chunks, current, currentSentences, index, closed, sentence, limit);
      i := i + 1;
    }
    assert sentences[..i] == sentences;
    JoinedLength(currentSentences);
    if ByteLen(current) > 0 {
      ChunksOfSnoc(closed, currentSentences);
      chunks := chunks + [TextChunk(TrimSpace(current), index, map[])];
    }
  }

  /**
   * The chunks of ChunkBySentence are numbered 0, 1, 2, ... and each is its
   * group of sentences joined with single spaces: non-empty and trimmed.
   */
  lemma ChunkBySentenceShape(text: string, limit: int, k: int)
    requires 0 <= k < |ChunksOf(Groups(Sentences(text), limit))|
    ensures var gs := Groups(Sentences(text), limit);
            var c := ChunksOf(gs)[k];
            c.index == k && c.content == Join(gs[k], " ") && c.content != [] && Trimmed(c.content) && c.metadata == map[]
  {
    var gs := Groups(Sentences(text), limit);
    GroupsWellPacked(Sentences(text), limit);
    ChunkContents(gs, limit, k);
  }
}
