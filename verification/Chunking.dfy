/** Overlapping word windows: rag/mudahurus_rag/chunking.py. */
module Chunking {
  import opened Text

  datatype Chunk = Chunk(chunkNo: nat, text: string)

  function Min(a: int, b: int): int {
    if a < b then a else b
  }

  function Step(maxWords: int, overlap: int): (step: nat)
    ensures step >= 1
  {
    if maxWords - overlap > 1 then maxWords - overlap else 1
  }

  /** Where a Python slice that is to stop at `stop` stops: a negative index
      counts from the end. */
  function StopIndex(stop: int, len: nat): (i: nat)
    ensures i <= len && (stop < len ==> stop < 0 || i == stop)
  {
    if stop >= 0 then Min(stop, len) else if len + stop >= 0 then len + stop else 0
  }

  /** words[start:start + maxWords] */
  function Window(words: seq<string>, start: nat, maxWords: int): seq<string>
    requires start <= |words|
  {
    var stop := StopIndex(start + maxWords, |words|);
    if stop <= start then [] else words[start..stop]
  }

  function ChunksFrom(words: seq<string>, start: nat, n: nat, maxWords: int, step: nat): seq<Chunk>
    requires step >= 1
    decreases |words| - start
  {
    if start >= |words| then []
    else [Chunk(n, Join(Window(words, start, maxWords)))] + ChunksFrom(words, start + step, n + 1, maxWords, step)
  }

  function ChunksOf(words: seq<string>, maxWords: int, overlap: int): seq<Chunk> {
    if words == [] then []
    else if |words| <= maxWords then [Chunk(0, Join(words))]
    else ChunksFrom(words, 0, 0, maxWords, Step(maxWords, overlap))
  }

  function Chunks(text: string, maxWords: int, overlap: int): seq<Chunk> {
    ChunksOf(Words(text), maxWords, overlap)
  }

  method ChunkText(text: string, maxWords: int := 180, overlap: int := 30) returns (chunks: seq<Chunk>)
    ensures chunks == Chunks(text, maxWords, overlap)
  {
    hide Words, Join, StopIndex, ChunksFrom;
    var words := Words(text);
    if words == [] {
      return [];
    }
    if |words| <= maxWords {
      return [Chunk(0, Join(words))];
    }
    chunks := [];
    var start, n := 0, 0;
    var step := Step(maxWords, overlap);
    ghost var all := ChunksFrom(words, 0, 0, maxWords, step);
    while start < |words|
      invariant chunks + ChunksFrom(words, start, n, maxWords, step) == all
      decreases |words| - start
    {
      var stop := StopIndex(start + maxWords, |words|);
      var window := if stop <= start then [] else words[start..stop];
      ChunksStep(words, start, n, maxWords, step);
      assert window == Window(words, start, maxWords);
      hide Window;
      ChunksAssoc(chunks, [Chunk(n, Join(window))], ChunksFrom(words, start + step, n + 1, maxWords, step));
      chunks := chunks + [Chunk(n, Join(window))];
      n := n + 1;
      start := start + step;
    }
    ChunksEnd(words, start, n, maxWords, step);
    assert chunks + [] == chunks;
  }

  lemma ChunksStep(words: seq<string>, start: nat, n: nat, maxWords: int, step: nat)
    requires step >= 1 && start < |words|
    ensures ChunksFrom(words, start, n, maxWords, step) ==
            [Chunk(n, Join(Window(words, start, maxWords)))] + ChunksFrom(words, start + step, n + 1, maxWords, step)
  {
  }

  lemma ChunksEnd(words: seq<string>, start: nat, n: nat, maxWords: int, step: nat)
    requires step >= 1 && start >= |words|
    ensures ChunksFrom(words, start, n, maxWords, step) == []
  {
  }

  lemma ChunksAssoc(a: seq<Chunk>, b: seq<Chunk>, c: seq<Chunk>)
    ensures (a + b) + c == a + (b + c)
  {
  }

  /** a / b rounded up. */
  function CeilDiv(a: int, b: nat): nat
    requires b >= 1
    decreases a
  {
    if a <= 0 then 0 else 1 + CeilDiv(a - b, b)
  }

  lemma {:induction false} CeilDivIsCeiling(a: int, b: nat)
    requires b >= 1 && a >= 1
    ensures (CeilDiv(a, b) - 1) * b < a <= CeilDiv(a, b) * b
    decreases a
  {
    var k := CeilDiv(a - b, b);
    assert CeilDiv(a, b) == 1 + k;
    assert (1 + k) * b == b + k * b;
    if a > b {
      CeilDivIsCeiling(a - b, b);
      assert (k - 1) * b == k * b - b;
    }
  }

  /** How many windows there are. */
  lemma {:induction false} ChunkCount(words: seq<string>, start: nat, n: nat, maxWords: int, step: nat)
    requires step >= 1
    ensures |ChunksFrom(words, start, n, maxWords, step)| == CeilDiv(|words| - start, step)
    decreases |words| - start
  {
    if start < |words| { ChunkCount(words, start + step, n + 1, maxWords, step); }
  }

  /** Window number i: its number, where it starts, and its words. */
  lemma {:induction false} ChunkAt(words: seq<string>, start: nat, n: nat, maxWords: int, step: nat, i: nat)
    requires step >= 1 && i < |ChunksFrom(words, start, n, maxWords, step)|
    ensures start + i * step < |words|
    ensures ChunksFrom(words, start, n, maxWords, step)[i]
         == Chunk(n + i, Join(Window(words, start + i * step, maxWords)))
    decreases i
  {
    hide Join, Window;
    if i > 0 {
      ChunkAt(words, start + step, n + 1, maxWords, step, i - 1);
      assert step + (i - 1) * step == i * step;
    }
  }

  lemma WindowWords(words: seq<string>, start: nat, maxWords: int)
    requires start <= |words| && forall i :: 0 <= i < |words| ==> IsWord(words[i])
    ensures Words(Join(Window(words, start, maxWords))) == Window(words, start, maxWords)
  {
    var w := Window(words, start, maxWords);
    forall i | 0 <= i < |w| ensures IsWord(w[i]) { assert w[i] == words[start + i]; }
    WordsOfJoin(w);
  }

  /** The first `step` words of every chunk, read from the chunk texts. */
  function Heads(chunks: seq<Chunk>, step: nat): seq<string> {
    if chunks == [] then []
    else
      var ws := Words(chunks[0].text);
      ws[..Min(step, |ws|)] + Heads(chunks[1..], step)
  }

  /** The first `step` words of one window. */
  function Head(words: seq<string>, start: nat, maxWords: int, step: nat): seq<string>
    requires start <= |words|
  {
    var w := Window(words, start, maxWords);
    w[..Min(step, |w|)]
  }

  function From(words: seq<string>, start: nat): seq<string> {
    if start <= |words| then words[start..] else []
  }

  lemma HeadThenRest(words: seq<string>, start: nat, maxWords: int, step: nat)
    requires step <= maxWords && start < |words|
    ensures Head(words, start, maxWords, step) + From(words, start + step) == From(words, start)
  {
    HeadIs(words, start, maxWords, step);
    hide Head;
    var stop := Min(start + step, |words|);
    assert words[start..] == words[start..stop] + words[stop..];
  }

  lemma HeadIs(words: seq<string>, start: nat, maxWords: int, step: nat)
    requires step <= maxWords && start < |words|
    ensures Head(words, start, maxWords, step) == words[start..Min(start + step, |words|)]
  {
    var stop := StopIndex(start + maxWords, |words|);
    assert stop == Min(start + maxWords, |words|);
    hide StopIndex;
    SliceTwice(words, start, stop, Min(step, stop - start));
  }

  lemma SliceTwice(words: seq<string>, start: nat, stop: nat, n: int)
    requires start <= stop <= |words| && 0 <= n <= stop - start
    ensures words[start..stop][..n] == words[start..start + n]
  {
  }

  lemma HeadsStep(words: seq<string>, start: nat, n: nat, maxWords: int, step: nat)
    requires 1 <= step && start < |words| && forall i :: 0 <= i < |words| ==> IsWord(words[i])
    ensures Heads(ChunksFrom(words, start, n, maxWords, step), step)
         == Head(words, start, maxWords, step) + Heads(ChunksFrom(words, start + step, n + 1, maxWords, step), step)
  {
    hide Words, Join, Window;
    WindowWords(words, start, maxWords);
    var cs := ChunksFrom(words, start, n, maxWords, step);
    assert cs[1..] == ChunksFrom(words, start + step, n + 1, maxWords, step);
  }

  lemma {:induction false} HeadsCover(words: seq<string>, start: nat, n: nat, maxWords: int, step: nat)
    requires 1 <= step <= maxWords && forall i :: 0 <= i < |words| ==> IsWord(words[i])
    ensures Heads(ChunksFrom(words, start, n, maxWords, step), step) == From(words, start)
    decreases |words| - start
  {
    hide Head, Heads, ChunksFrom, IsWord, From;
    if start < |words| {
      HeadsStep(words, start, n, maxWords, step);
      HeadsCover(words, start + step, n + 1, maxWords, step);
      HeadThenRest(words, start, maxWords, step);
    } else {
      HeadsEnd(words, start, n, maxWords, step);
    }
  }

  lemma HeadsEnd(words: seq<string>, start: nat, n: nat, maxWords: int, step: nat)
    requires step >= 1 && start >= |words|
    ensures Heads(ChunksFrom(words, start, n, maxWords, step), step) == [] == From(words, start)
  {
  }

  lemma {:induction false} HeadsLength(words: seq<string>, start: nat, n: nat, maxWords: int, step: nat)
    requires step >= 1 && forall i :: 0 <= i < |words| ==> IsWord(words[i])
    ensures var h := |Heads(ChunksFrom(words, start, n, maxWords, step), step)|;
            h <= (if start < |words| then |words| - start else 0)
            && (start < |words| && start + maxWords < |words| && step > maxWords ==> h < |words| - start)
    decreases |words| - start
  {
    hide Heads, ChunksFrom, IsWord;
    if start < |words| {
      HeadsStep(words, start, n, maxWords, step);
      HeadsLength(words, start + step, n + 1, maxWords, step);
      HeadLength(words, start, maxWords, step);
    } else {
      HeadsEnd(words, start, n, maxWords, step);
    }
  }

  /** A window stops short of the end unless it reaches it, and a window as long
      as a step that is longer than max_words comes from a negative stop. */
  lemma HeadLength(words: seq<string>, start: nat, maxWords: int, step: nat)
    requires start < |words|
    ensures var h := |Head(words, start, maxWords, step)|;
            && h <= step && h <= |words| - start
            && (start + maxWords < |words| ==> h < |words| - start)
            && (h == step && step > maxWords && step >= 1 ==> maxWords < 0)
  {
  }

  // ---- main results ----

  /** Chunk i of a text of these words, cut with this step: maxWords words from
      i * step on, fewer at the end of the text. */
  predicate ChunkIs(words: seq<string>, cs: seq<Chunk>, i: nat, maxWords: int, step: nat) {
    && i < |cs| && i * step < |words| && cs[i].chunkNo == i
    && Words(cs[i].text) == Window(words, i * step, maxWords)
    && (maxWords >= 0 ==> Words(cs[i].text) == words[i * step..][..Min(maxWords, |words| - i * step)])
  }

  lemma LongChunk(text: string, maxWords: int, overlap: int, i: nat)
    requires Words(text) != [] && |Words(text)| > maxWords && i < |Chunks(text, maxWords, overlap)|
    ensures ChunkIs(Words(text), Chunks(text, maxWords, overlap), i, maxWords, Step(maxWords, overlap))
  {
    hide Words, ChunksFrom;
    var words, step := Words(text), Step(maxWords, overlap);
    ChunkAt(words, 0, 0, maxWords, step, i);
    WindowWords(words, i * step, maxWords);
  }

  /** A long text is cut into ceil(len / step) chunks, numbered from 0; chunk i
      holds exactly the words of its window, and the first `step` words of the
      chunks, one after the other, are the words of the text exactly when the
      windows are not empty and leave no gap. */
  lemma LongText(text: string, maxWords: int, overlap: int)
    requires Words(text) != [] && |Words(text)| > maxWords
    ensures var words, cs := Words(text), Chunks(text, maxWords, overlap);
            var step := if maxWords - overlap >= 1 then maxWords - overlap else 1;
            |cs| == CeilDiv(|words|, step)
            && (forall i: nat :: i < |cs| ==> ChunkIs(words, cs, i, maxWords, step))
            && (Heads(cs, step) == words <==> maxWords >= 1 && overlap >= 0)
  {
    hide ChunkIs, Heads, ChunksFrom, CeilDiv;
    var words, step, cs := Words(text), Step(maxWords, overlap), Chunks(text, maxWords, overlap);
    ChunkCount(words, 0, 0, maxWords, step);
    forall i: nat | i < |cs| ensures ChunkIs(words, cs, i, maxWords, step) {
      LongChunk(text, maxWords, overlap, i);
    }
    if maxWords >= 1 && overlap >= 0 {
      HeadsCover(words, 0, 0, maxWords, step);
      assert words[0..] == words;
    } else {
      HeadsLength(words, 0, 0, maxWords, step);
    }
  }

  /** A text of at most maxWords words is one chunk with all its words; a text
      without words has none. */
  lemma ShortText(text: string, maxWords: int, overlap: int)
    requires Words(text) == [] || |Words(text)| <= maxWords
    ensures var cs := Chunks(text, maxWords, overlap);
            if Words(text) == [] then cs == []
            else |cs| == 1 && cs[0].chunkNo == 0 && Words(cs[0].text) == Words(text)
  {
    WordsOfJoin(Words(text));
  }

  /** Chunking depends on the words only: normalising the white space of the
      text first changes nothing. */
  lemma WhitespaceIrrelevant(text: string, maxWords: int, overlap: int)
    ensures Chunks(Join(Words(text)), maxWords, overlap) == Chunks(text, maxWords, overlap)
  {
    WordsOfJoin(Words(text));
  }

  /** No two chunks of a text share a number. */
  lemma ChunkNumbers(text: string, maxWords: int, overlap: int, i: nat)
    requires i < |Chunks(text, maxWords, overlap)|
    ensures Chunks(text, maxWords, overlap)[i].chunkNo == i
  {
    if Words(text) != [] && |Words(text)| > maxWords { LongChunk(text, maxWords, overlap, i); }
  }
}
