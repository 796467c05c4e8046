/** Splitting a document into overlapping chunks. */
module Chunker {
  import Decimal

  datatype Document = Document(documentId: string, title: string, sourcePath: string, content: string,
    trustLevel: string)

  datatype Chunk = Chunk(chunkId: string, documentId: string, text: string, metadata: map<string, string>,
    trustLevel: string)

  /** `s[a:b]`: a negative bound counts from the end, and a slice that ends before it starts is empty. */
  function SliceOf(s: string, a: nat, b: int): string
    requires a <= |s| && b <= |s|
  {
    var stop := if b >= 0 then b else if |s| + b >= 0 then |s| + b else 0;
    if a <= stop then s[a..stop] else ""
  }

  /** The slices taken from `start` on, `step` apart. */
  function Slices(content: string, size: int, step: nat, start: nat): seq<string>
    requires step > 0
    decreases |content| - start
  {
    if start >= |content| then []
    else if start + size >= |content| then [content[start..]]
    else [SliceOf(content, start, start + size)] + Slices(content, size, step, start + step)
  }

  /** Where a slice comes from; a document that fits in one chunk is stored without it. */
  function Origin(doc: Document): map<string, string> { map["source_path" := doc.sourcePath, "title" := doc.title] }

  /** Chunk `i` of a document, apart from its text. */
  predicate IsChunkOf(doc: Document, i: nat, c: Chunk, metadata: map<string, string>) {
    c.chunkId == doc.documentId + "_c" + Decimal.Digits(i) && c.documentId == doc.documentId
      && c.trustLevel == doc.trustLevel && c.metadata == metadata
  }

  /** The chunks of a document, numbered from zero. */
  predicate AreChunksOf(doc: Document, chunks: seq<Chunk>, metadata: map<string, string>) {
    forall i :: 0 <= i < |chunks| ==> IsChunkOf(doc, i, chunks[i], metadata)
  }

  /** The id of a chunk names its document and its number: no two chunks of any documents share one. */
  lemma ChunkIdsDiffer(doc: Document, i: nat, c: Chunk, doc': Document, i': nat, c': Chunk,
                       metadata: map<string, string>, metadata': map<string, string>)
    requires IsChunkOf(doc, i, c, metadata) && IsChunkOf(doc', i', c', metadata')
    ensures c.chunkId == doc.documentId + "_c" + Decimal.Digits(i)
    ensures c.chunkId == c'.chunkId <==> doc.documentId == doc'.documentId && i == i'
  {
    if c.chunkId == c'.chunkId {
      var a, b := doc.documentId + "_c", doc'.documentId + "_c";
      Decimal.DigitSuffixUnique(a, Decimal.Digits(i), b, Decimal.Digits(i'));
      assert doc.documentId == a[..|a| - 2] && doc'.documentId == b[..|b| - 2];
      Decimal.DigitsRoundTrip(i);
      Decimal.DigitsRoundTrip(i');
    }
  }

  lemma ChunksGrow(doc: Document, chunks: seq<Chunk>, c: Chunk, metadata: map<string, string>)
    requires AreChunksOf(doc, chunks, metadata) && IsChunkOf(doc, |chunks|, c, metadata)
    ensures AreChunksOf(doc, chunks + [c], metadata)
  {
  }

  function Texts(chunks: seq<Chunk>): seq<string> { seq(|chunks|, i requires 0 <= i < |chunks| => chunks[i].text) }

  class SimpleChunker {
    const chunkSize: int
    const overlap: int

    constructor (chunkSize: int, overlap: int)
      ensures this.chunkSize == chunkSize && this.overlap == overlap
    {
      this.chunkSize := chunkSize;
      this.overlap := overlap;
    }

    /** Terminates on a document longer than a chunk only when the overlap is smaller than a chunk. */
    method ChunkDocument(doc: Document) returns (chunks: seq<Chunk>)
      requires |doc.content| <= chunkSize || overlap < chunkSize || doc.content == ""
      ensures |doc.content| <= chunkSize ==> Texts(chunks) == [doc.content]
      ensures |doc.content| > chunkSize && overlap < chunkSize ==>
        Texts(chunks) == Slices(doc.content, chunkSize, chunkSize - overlap, 0)
      ensures |doc.content| > chunkSize && doc.content == "" ==> chunks == []
      ensures AreChunksOf(doc, chunks, if |doc.content| <= chunkSize then map[]
                                       else map["source_path" := doc.sourcePath, "title" := doc.title])
    {
      var content := doc.content;
      var length := |content|;
      if length <= chunkSize {
        return [Chunk(doc.documentId + "_c" + Decimal.Digits(0), doc.documentId, content, map[], doc.trustLevel)];
      }
      chunks := [];
      var start, chunkIdx := 0, 0;
      while start < length
        invariant 0 <= start && chunkIdx == |chunks| && (content == "" ==> chunks == [])
        invariant overlap < chunkSize ==>
          Texts(chunks) + Slices(content, chunkSize, chunkSize - overlap, start)
          == Slices(content, chunkSize, chunkSize - overlap, 0)
        invariant AreChunksOf(doc, chunks, Origin(doc))
        decreases length - start
      {
        var end := if start + chunkSize < length then start + chunkSize else length;
        var id := doc.documentId + "_c" + Decimal.Digits(chunkIdx);
        var chunk := Chunk(id, doc.documentId, SliceOf(content, start, end), Origin(doc), doc.trustLevel);
        TurnTakes(chunks, chunk, content, chunkSize, chunkSize - overlap, start, end);
        ChunksGrow(doc, chunks, chunk, Origin(doc));
        chunks := chunks + [chunk];
        chunkIdx := chunkIdx + 1;
        start := start + (chunkSize - overlap);
        if end == length {
          return;
        }
      }
    }
  }

  /** One turn of the loop takes the first slice. */
  lemma SlicesFrom(content: string, size: int, step: nat, start: nat, end: int)
    requires step > 0 && start < |content| && end == if start + size < |content| then start + size else |content|
    ensures Slices(content, size, step, start)
            == [SliceOf(content, start, end)] + if end == |content| then []
              else Slices(content, size, step, start + step)
  {
    if end == |content| {
      assert SliceOf(content, start, end) == content[start..];
    }
  }

  lemma TurnTakes(chunks: seq<Chunk>, c: Chunk, content: string, size: int, step: nat, start: nat, end: int)
    requires step > 0 && start < |content| && end == if start + size < |content| then start + size else |content|
    requires Texts(chunks) + Slices(content, size, step, start) == Slices(content, size, step, 0)
    requires c.text == SliceOf(content, start, end)
    ensures Texts(chunks + [c]) + (if end == |content| then [] else Slices(content, size, step, start + step))
            == Slices(content, size, step, 0)
  {
    SlicesFrom(content, size, step, start, end);
    assert Texts(chunks + [c]) == Texts(chunks) + [c.text];
  }

  // ---------------------------------------------------------------- what the chunks are worth

  function Tails(texts: seq<string>, overlap: nat): string {
    if texts == [] then "" else (if overlap <= |texts[0]| then texts[0][overlap..] else "") + Tails(texts[1..], overlap)
  }

  /** The first chunk, then each later chunk without what it repeats. */
  function Rebuilt(texts: seq<string>, overlap: nat): string {
    if texts == [] then "" else texts[0] + Tails(texts[1..], overlap)
  }

  lemma SliceOfSlice(s: string, a: nat, b: nat, c: nat, d: nat)
    requires a <= b <= |s| && c <= d <= b - a
    ensures s[a..b][c..d] == s[a + c..a + d]
  {
    var t := s[a..b];
    forall i | 0 <= i < d - c ensures t[c..d][i] == s[a + c..a + d][i] {
      assert t[c..d][i] == t[c + i] == s[a + (c + i)];
    }
  }

  lemma SlicesMeet(s: string, a: nat, b: nat)
    requires a <= b <= |s|
    ensures s[a..b] + s[b..] == s[a..]
  {
  }

  lemma {:induction false} TailsOfSlices(content: string, size: nat, overlap: nat, start: nat)
    requires overlap < size && start + overlap < |content|
    ensures Tails(Slices(content, size, size - overlap, start), overlap) == content[start + overlap..]
    decreases |content| - start
  {
    var step := size - overlap;
    var all := Slices(content, size, step, start);
    if start + size >= |content| {
      assert all[1..] == [] && all[0] == content[start..];
    } else {
      var rest := Slices(content, size, step, start + step);
      assert all[1..] == rest && all[0] == content[start..start + size];
      TailsOfSlices(content, size, overlap, start + step);
      SliceOfSlice(content, start, start + size, overlap, size);
      assert content[start..start + size][overlap..size] == content[start..start + size][overlap..];
      SlicesMeet(content, start + overlap, start + size);
    }
  }

  lemma FirstSlice(content: string, size: nat, step: nat)
    requires 0 < step && size < |content|
    ensures Slices(content, size, step, 0) == [content[..size]] + Slices(content, size, step, step)
  {
    assert SliceOf(content, 0, size) == content[..size];
  }

  lemma RebuiltFrom(first: string, rest: seq<string>, overlap: nat)
    ensures Rebuilt([first] + rest, overlap) == first + Tails(rest, overlap)
  {
    assert ([first] + rest)[1..] == rest;
  }

  /** No character is lost: dropping the repeated overlaps rebuilds the document. */
  lemma ChunksRebuildDocument(content: string, size: nat, overlap: nat)
    requires overlap < size < |content|
    ensures Rebuilt(Slices(content, size, size - overlap, 0), overlap) == content
  {
    var step := size - overlap;
    FirstSlice(content, size, step);
    RebuiltFrom(content[..size], Slices(content, size, step, step), overlap);
    TailsOfSlices(content, size, overlap, step);
    assert content == content[..size] + content[size..];
  }

  /** `n` is `x / d` rounded up. */
  predicate IsCeiling(n: int, x: int, d: int) { (n - 1) * d < x <= n * d }

  lemma CeilingStep(n: int, x: int, d: int)
    requires IsCeiling(n, x - d, d)
    ensures IsCeiling(n + 1, x, d)
  {
    assert (n + 1) * d == n * d + d && (n + 1 - 1) * d == (n - 1) * d + d;
  }

  /** From `start` on there are ceil((length - start - overlap) / (size - overlap)) chunks. */
  lemma {:induction false} ChunkCount(content: string, size: nat, overlap: nat, start: nat)
    requires overlap < size && start + overlap < |content|
    ensures IsCeiling(|Slices(content, size, size - overlap, start)|, |content| - start - overlap, size - overlap)
    decreases |content| - start
  {
    var step := size - overlap;
    if start + size < |content| {
      ChunkCount(content, size, overlap, start + step);
      CeilingStep(|Slices(content, size, step, start + step)|, |content| - start - overlap, step);
    }
  }

  /** Every window of at most overlap + 1 characters lies inside some chunk. */
  lemma {:induction false} WindowInSomeChunk(content: string, size: nat, overlap: nat, start: nat, i: nat, w: nat)
    returns (k: nat, at: nat)
    requires overlap < size && w <= overlap + 1 && start <= i && i + w <= |content| && start < |content|
    ensures var all := Slices(content, size, size - overlap, start);
      k < |all| && at + w <= |all[k]| && all[k][at..at + w] == content[i..i + w]
    decreases |content| - start
  {
    var step := size - overlap;
    if start + size >= |content| || i + w <= start + size {
      k, at := 0, i - start;
      var end := if start + size >= |content| then |content| else start + size;
      SliceOfSlice(content, start, end, at, at + w);
      assert content[start..|content|] == content[start..];
    } else {
      var k', at' := WindowInSomeChunk(content, size, overlap, start + step, i, w);
      k, at := k' + 1, at';
      assert Slices(content, size, step, start)[k] == Slices(content, size, step, start + step)[k'];
    }
  }

  // ---------------------------------------------------------------- outside the promise

  /** Whether the loop leaves at its `n`-th iteration. */
  predicate LeavesAt(length: int, size: int, overlap: int, n: nat) {
    n * (size - overlap) >= length || n * (size - overlap) + size >= length
  }

  lemma StepsAway(n: nat, d: int)
    requires d <= 0
    ensures n * d <= 0
  {
  }

  lemma StepsForward(n: nat, d: int)
    requires d >= 1
    ensures n * d >= n
  {
  }

  /** On a document longer than a chunk the loop ends if and only if the overlap is smaller than a chunk. */
  lemma LoopEndsExactly(length: nat, size: nat, overlap: int)
    requires size < length
    ensures (exists n: nat :: LeavesAt(length, size, overlap, n)) <==> overlap < size
  {
    if overlap < size {
      StepsForward(length, size - overlap);
      assert LeavesAt(length, size, overlap, length);
    } else {
      forall n: nat ensures !LeavesAt(length, size, overlap, n) {
        StepsAway(n, size - overlap);
      }
    }
  }

  function TotalLength(texts: seq<string>): nat {
    if texts == [] then 0 else |texts[0]| + TotalLength(texts[1..])
  }

  lemma {:induction false} TotalOfSlices(content: string, size: nat, overlap: int, start: nat)
    requires overlap < size
    ensures var total := TotalLength(Slices(content, size, size - overlap, start));
      && (overlap >= 0 ==> total >= |content| - start)
      && (overlap < 0 ==> total <= if start < |content| then |content| - start else 0)
      && (overlap < 0 && start + size < |content| ==> total < |content| - start)
    decreases |content| - start
  {
    var step := size - overlap;
    var all := Slices(content, size, step, start);
    if start < |content| {
      if start + size < |content| {
        TotalOfSlices(content, size, overlap, start + step);
        assert all[1..] == Slices(content, size, step, start + step);
      } else {
        assert all[1..] == [];
      }
    }
  }

  /**
   * With a negative overlap the chunks of a long document are together shorter than it, so text is lost;
   * otherwise not.
   */
  lemma TextIsLostExactly(content: string, size: nat, overlap: int)
    requires size < |content| && overlap < size
    ensures TotalLength(Slices(content, size, size - overlap, 0)) < |content| <==> overlap < 0
  {
    TotalOfSlices(content, size, overlap, 0);
  }
}
