/** Splitting a document into overlapping chunks (`chunk_document`). */
module Chunking {
  import opened Foundation

  const CHARS_PER_TOKEN := 4

  datatype Chunk = Chunk(index: nat, content: string, tokenCount: nat)

  /** How far the start moves from one chunk to the next. */
  function Step(chunkSize: int, overlap: int): (step: int)
    ensures step >= 1
  {
    Max(chunkSize * CHARS_PER_TOKEN - overlap * CHARS_PER_TOKEN, 1)
  }

  /** `text[from : from + size]` for a non-negative size. */
  function Window(text: string, from: nat, size: nat): string {
    if from >= |text| then "" else text[from..Min(from + size, |text|)]
  }

  function CeilDiv(n: nat, d: int): nat
    requires d >= 1
  {
    (n + d - 1) / d
  }

  /** Chunk `i` starts at `i * step` and is as long as the size allows. */
  ghost predicate IsChunk(c: Chunk, text: string, i: nat, size: nat, step: int)
    requires step >= 1
  {
    && 0 <= i * step < |text|
    && c.index == i
    && c.content == Window(text, i * step, size)
    && c.tokenCount == Max(|c.content| / CHARS_PER_TOKEN, 1)
  }

  ghost predicate AreChunks(chunks: seq<Chunk>, text: string, size: nat, step: int)
    requires step >= 1
  {
    forall i :: 0 <= i < |chunks| ==> IsChunk(chunks[i], text, i, size, step)
  }

  lemma CountAt(n: nat, step: int, idx: nat, pos: int)
    requires step >= 1 && pos == idx * step && pos >= n && (idx == 0 || pos - step < n)
    ensures idx == CeilDiv(n, step)
  {
    if idx > 0 {
      assert (idx - 1) * step == pos - step;
      assert n + step - 1 == idx * step + (n - pos + step - 1) && 0 <= n - pos + step - 1 < step;
      DivOf(idx, step, n - pos + step - 1);
    } else {
      DivOf(0, step, n + step - 1);
    }
  }

  lemma MultiplesApart(a: int, b: int, d: int)
    requires a < b && d >= 1
    ensures a * d + d <= b * d
  {
    assert b * d - a * d == (b - a) * d;
    assert (b - a) * d == (b - a - 1) * d + d;
  }

  lemma DivOf(q: nat, d: int, r: int)
    requires d >= 1 && 0 <= r < d
    ensures (q * d + r) / d == q
  {
    var n := q * d + r;
    var k := n / d;
    assert n == k * d + n % d;
    if k < q {
      MultiplesApart(k, q, d);
    } else if q < k {
      MultiplesApart(q, k, d);
    }
  }

  method ChunkText(text: string, chunkSize: int, overlap: int) returns (chunks: seq<Chunk>)
    requires chunkSize > 0
    ensures |chunks| == CeilDiv(|text|, Step(chunkSize, overlap))
    ensures AreChunks(chunks, text, chunkSize * CHARS_PER_TOKEN, Step(chunkSize, overlap))
  {
    var size := chunkSize * CHARS_PER_TOKEN;
    var step := Max(size - overlap * CHARS_PER_TOKEN, 1);
    chunks := [];
    var idx, pos := 0, 0;
    while pos < |text|
      invariant idx == |chunks| && pos == idx * step && pos >= 0
      invariant idx == 0 || pos - step < |text|
      invariant AreChunks(chunks, text, size, step)
      decreases |text| - pos
    {
      var content := text[pos..Min(pos + size, |text|)];
      var tokens := Max(|content| / CHARS_PER_TOKEN, 1);
      var chunk := Chunk(idx, content, tokens);
      assert IsChunk(chunk, text, idx, size, step);
      chunks := chunks + [chunk];
      assert (idx + 1) * step == pos + step;
      idx := idx + 1;
      pos := pos + step;
    }
    CountAt(|text|, step, idx, pos);
  }

  /** The chunks in numbers: sizes are in tokens of four characters, so with an overlap smaller than the size chunk `i`
      starts at `4 * i` times the difference and is four times the size long, or as long as there is text left. */
  lemma ChunksInCharacters(chunks: seq<Chunk>, text: string, chunkSize: int, overlap: int, i: nat)
    requires chunkSize > overlap && chunkSize > 0 && i < |chunks|
    requires AreChunks(chunks, text, chunkSize * CHARS_PER_TOKEN, Step(chunkSize, overlap))
    ensures var from := 4 * (i * (chunkSize - overlap));
      && 0 <= from < |text|
      && chunks[i].index == i
      && chunks[i].content
        == text[from..if from + 4 * chunkSize <= |text| then from + 4 * chunkSize else |text|]
      && chunks[i].tokenCount == (if |chunks[i].content| < 8 then 1 else |chunks[i].content| / 4)
  {
    assert Step(chunkSize, overlap) == 4 * (chunkSize - overlap);
    assert i * (4 * (chunkSize - overlap)) == 4 * (i * (chunkSize - overlap));
    assert IsChunk(chunks[i], text, i, chunkSize * CHARS_PER_TOKEN, Step(chunkSize, overlap));
  }

  /** The first `step` characters of every chunk, one after another. */
  function Stitch(chunks: seq<Chunk>, step: int): string
    requires step >= 1
  {
    if chunks == [] then ""
    else
      var last := chunks[|chunks| - 1].content;
      Stitch(chunks[..|chunks| - 1], step) + last[..Min(step, |last|)]
  }

  lemma HeadOfChunk(c: Chunk, text: string, from: nat, size: nat, step: int)
    requires 1 <= step <= size && from < |text| && c.content == Window(text, from, size)
    ensures text[..from] + c.content[..Min(step, |c.content|)] == text[..Min(from + step, |text|)]
  {
  }

  lemma {:induction false} StitchedPrefix(chunks: seq<Chunk>, text: string, size: nat, step: int, end: int)
    requires 1 <= step <= size && AreChunks(chunks, text, size, step) && end == |chunks| * step
    ensures end >= 0 && Stitch(chunks, step) == text[..Min(end, |text|)]
  {
    if chunks != [] {
      var n := |chunks| - 1;
      var front, last, from := chunks[..n], chunks[n], end - step;
      assert from == n * step;
      assert IsChunk(last, text, n, size, step);
      StitchedPrefix(front, text, size, step, from);
      HeadOfChunk(last, text, from, size, step);
    }
  }

  lemma CeilCovers(n: nat, step: int)
    requires step >= 1
    ensures CeilDiv(n, step) * step >= n
    ensures n > 0 ==> (CeilDiv(n, step) - 1) * step < n
  {
    var q, r := (n + step - 1) / step, (n + step - 1) % step;
    assert n + step - 1 == q * step + r;
    assert (q - 1) * step == q * step - step;
  }

  /** Some chunk contains position `p`. */
  ghost predicate Covered(text: string, p: int, size: nat, step: int)
    requires step >= 1
  {
    exists i: nat :: i < CeilDiv(|text|, step) && CoversAt(i, p, size, step)
  }

  ghost predicate CoversAt(i: nat, p: int, size: nat, step: int) {
    i * step <= p < i * step + size
  }

  /** With a non-negative overlap, however large, the chunks put together again give the text. */
  lemma ChunksReproduceText(chunks: seq<Chunk>, text: string, chunkSize: int, overlap: int)
    requires chunkSize > 0 && overlap >= 0
    requires |chunks| == CeilDiv(|text|, Step(chunkSize, overlap))
    requires AreChunks(chunks, text, chunkSize * CHARS_PER_TOKEN, Step(chunkSize, overlap))
    ensures Stitch(chunks, Step(chunkSize, overlap)) == text
  {
    var step := Step(chunkSize, overlap);
    StitchedPrefix(chunks, text, chunkSize * CHARS_PER_TOKEN, step, |chunks| * step);
    CeilCovers(|text|, step);
    assert text[..|text|] == text;
  }

  lemma PositionIsInItsStep(text: string, p: nat, step: int)
    requires p < |text| && step >= 1
    ensures p / step < CeilDiv(|text|, step) && p / step * step <= p < p / step * step + step
  {
    CeilCovers(|text|, step);
    var i, q := p / step, CeilDiv(|text|, step);
    assert p == i * step + p % step;
    if i > q {
      MultiplesApart(q, i, step);
    }
  }

  lemma SmallStepsCover(text: string, size: int, step: int)
    requires 1 <= step <= size
    ensures forall p :: 0 <= p < |text| ==> Covered(text, p, size, step)
  {
    forall p | 0 <= p < |text|
      ensures Covered(text, p, size, step)
    {
      PositionIsInItsStep(text, p, step);
      assert CoversAt(p / step, p, size, step);
    }
  }

  lemma OneChunkCovers(text: string, size: int, step: int)
    requires |text| <= size && step >= 1
    ensures forall p :: 0 <= p < |text| ==> Covered(text, p, size, step)
  {
    CeilCovers(|text|, step);
    forall p | 0 <= p < |text|
      ensures Covered(text, p, size, step)
    {
      assert CoversAt(0, p, size, step);
    }
  }

  /** A step longer than the chunks leaves out the character right after the first chunk. */
  lemma LargeStepsLeaveGap(text: string, size: int, step: int)
    requires 0 <= size < step
    ensures !Covered(text, size, size, step)
  {
    forall i: nat
      ensures !CoversAt(i, size, size, step)
    {
      if i > 0 {
        MultiplesApart(0, i, step);
      }
    }
  }

  /** Every character is in some chunk exactly when the overlap is not negative or one chunk holds the whole text. */
  lemma EveryCharacterCoveredIff(text: string, chunkSize: int, overlap: int)
    requires chunkSize > 0
    ensures (forall p :: 0 <= p < |text| ==> Covered(text, p, chunkSize * CHARS_PER_TOKEN, Step(chunkSize, overlap)))
      <==> overlap >= 0 || |text| <= chunkSize * CHARS_PER_TOKEN
  {
    var size, step := chunkSize * CHARS_PER_TOKEN, Step(chunkSize, overlap);
    if overlap >= 0 {
      SmallStepsCover(text, size, step);
    } else if |text| <= size {
      OneChunkCovers(text, size, step);
    } else {
      LargeStepsLeaveGap(text, size, step);
    }
  }
}
