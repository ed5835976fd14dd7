/** Cutting a text into overlapping chunks: chunkText in services/api/internal/
    connector/pipeline.go and, the same loop again, in catalog/ingest.go. */
module Chunking {

  function Min(a: int, b: int): int { if a < b then a else b }

  /** Where the chunk after [start, end) begins. */
  function NextStart(start: nat, end: nat, overlap: int): (next: nat)
    requires start < end
  {
    if end - overlap <= start then start + 1 else end - overlap
  }

  function ChunksFrom(text: string, size: nat, overlap: int, start: nat): seq<string>
    requires size > 0 && start <= |text|
    decreases |text| - start
  {
    if start == |text| then []
    else
      var end := Min(start + size, |text|);
      if end == |text| then [text[start..end]]
      else [text[start..end]] + ChunksFrom(text, size, overlap, Min(NextStart(start, end, overlap), |text|))
  }

  function ChunkText(text: string, size: nat, overlap: int): seq<string>
    requires size > 0
  {
    if |text| <= size then [text] else ChunksFrom(text, size, overlap, 0)
  }

  method CutText(text: string, size: nat, overlap: int) returns (chunks: seq<string>)
    requires size > 0
    ensures chunks == ChunkText(text, size, overlap)
  {
    var total := |text|;
    if total <= size {
      return [text];
    }
    chunks := [];
    var start := 0;
    while start < total
      invariant chunks + ChunksFrom(text, size, overlap, Min(start, total)) == ChunksFrom(text, size, overlap, 0)
      decreases total - start
    {
      var end := start + size;
      if end > total { end := total; }
      chunks := chunks + [text[start..end]];
      if end == total { break; }
      var next := end - overlap;
      if next <= start { next := start + 1; }
      start := next;
    }
  }

  // ------------------------------------------------------------- arithmetic

  /** The distance between the starts of neighbouring chunks. */
  function Step(size: nat, overlap: int): (step: nat)
    requires size > 0
    ensures step > 0
  {
    if size - overlap > 0 then size - overlap else 1
  }

  /** k steps. */
  function Steps(k: nat, step: nat): nat {
    if k == 0 then 0 else Steps(k - 1, step) + step
  }

  lemma {:induction false} StepsIs(k: nat, step: nat)
    ensures Steps(k, step) == k * step
  {
    if k > 0 { StepsIs(k - 1, step); }
  }

  lemma {:induction false} StepsGrow(j: nat, k: nat, step: nat)
    requires j <= k
    ensures Steps(j, step) <= Steps(k, step)
    decreases k
  {
    if j < k { StepsGrow(j, k - 1, step); }
  }

  /** A later chunk is an earlier one of what follows the first. */
  lemma ChunkBehindFirst(text: string, size: nat, overlap: int, start: nat, k: nat)
    requires size > 0 && start < |text| && 0 < k < |ChunksFrom(text, size, overlap, start)|
    ensures var next := start + Step(size, overlap);
            && start + size < |text| && next < |text|
            && |ChunksFrom(text, size, overlap, next)| == |ChunksFrom(text, size, overlap, start)| - 1
            && ChunksFrom(text, size, overlap, start)[k] == ChunksFrom(text, size, overlap, next)[k - 1]
  {
  }

  lemma {:induction false} FirstChunk(text: string, size: nat, overlap: int, start: nat)
    requires size > 0 && start < |text|
    ensures ChunksFrom(text, size, overlap, start) != []
    ensures ChunksFrom(text, size, overlap, start)[0] == text[start..Min(start + size, |text|)]
  {
  }

  lemma {:induction false} ChunkStandsAt(text: string, size: nat, overlap: int, start: nat, k: nat, at: nat, step: nat)
    requires size > 0 && start < |text| && k < |ChunksFrom(text, size, overlap, start)|
    requires step == Step(size, overlap) && at == start + Steps(k, step)
    ensures at < |text| && ChunksFrom(text, size, overlap, start)[k] == text[at..Min(at + size, |text|)]
    ensures k > 0 ==> at - step + size < |text|
    decreases k
  {
    if k > 0 {
      ChunkBehindFirst(text, size, overlap, start, k);
      StepsShift(k, step);
      ChunkStandsAt(text, size, overlap, start + step, k - 1, at, step);
    } else {
      FirstChunk(text, size, overlap, start);
    }
  }

  lemma ChunkFromAt(text: string, size: nat, overlap: int, start: nat, k: nat)
    requires size > 0 && start < |text| && k < |ChunksFrom(text, size, overlap, start)|
    ensures var at := start + Steps(k, Step(size, overlap));
            at < |text| && ChunksFrom(text, size, overlap, start)[k] == text[at..Min(at + size, |text|)]
    ensures k > 0 ==> start + Steps(k - 1, Step(size, overlap)) + size < |text|
  {
    ChunkStandsAt(text, size, overlap, start, k, start + Steps(k, Step(size, overlap)), Step(size, overlap));
  }

  lemma {:induction false} StepsShift(k: nat, step: nat)
    requires k > 0
    ensures Steps(k, step) == step + Steps(k - 1, step)
  {
  }

  lemma {:induction false} CountFrom(text: string, size: nat, overlap: int, start: nat)
    requires size > 0 && start < |text|
    ensures var n, step := |ChunksFrom(text, size, overlap, start)|, Step(size, overlap);
            n > 0 && (start + Steps(n - 1, step) + size >= |text| || start + Steps(n, step) >= |text|)
    decreases |text| - start
  {
    var step := Step(size, overlap);
    var n := |ChunksFrom(text, size, overlap, start)|;
    if start + size < |text| && start + step < |text| {
      CountFrom(text, size, overlap, start + step);
    } else if start + size < |text| {
      assert ChunksFrom(text, size, overlap, |text|) == [];
      assert n == 1 && Steps(1, step) == step;
    }
  }

  function Ceiling(a: nat, b: nat): nat
    requires b > 0
  {
    (a + b - 1) / b
  }

  lemma CeilingIs(a: nat, b: nat, n: nat)
    requires b > 0 && Steps(n, b) >= a && (n == 0 || Steps(n - 1, b) < a)
    ensures Ceiling(a, b) == n
  {
    var q, r := (a + b - 1) / b, (a + b - 1) % b;
    assert q * b + r == a + b - 1;
    StepsIs(q, b);
    if q < n { StepsGrow(q, n - 1, b); }
    if n < q { StepsGrow(n, q - 1, b); }
  }

  /** Chunk k of a text that does not fit: where it starts, what it holds, how long it is. */
  lemma ChunkAt(text: string, size: nat, overlap: int, k: nat)
    requires size > 0 && |text| > size && k < |ChunkText(text, size, overlap)|
    ensures var chunks, start := ChunkText(text, size, overlap), k * Step(size, overlap);
            && start < |text| && chunks[k] == text[start..Min(start + size, |text|)]
            && (overlap >= 0 && k < |chunks| - 1 ==> |chunks[k]| == size)
  {
    var chunks := ChunkText(text, size, overlap);
    ChunkFromAt(text, size, overlap, 0, k);
    StepsIs(k, Step(size, overlap));
    if k < |chunks| - 1 { ChunkFromAt(text, size, overlap, 0, k + 1); }
  }

  /** A text that fits is one chunk, be it empty; any other has so many. */
  lemma ChunkCount(text: string, size: nat, overlap: int)
    requires size > 0
    ensures |text| <= size ==> ChunkText(text, size, overlap) == [text]
    ensures |text| > size && overlap >= 0 ==> |ChunkText(text, size, overlap)| == 1 + Ceiling(|text| - size, Step(size, overlap))
    ensures |text| > size && overlap < 0 ==> |ChunkText(text, size, overlap)| == Ceiling(|text|, Step(size, overlap))
  {
    if |text| > size { CountChunks(text, size, overlap); }
  }

  lemma CountChunks(text: string, size: nat, overlap: int)
    requires size > 0 && |text| > size
    ensures overlap >= 0 ==> |ChunkText(text, size, overlap)| == 1 + Ceiling(|text| - size, Step(size, overlap))
    ensures overlap < 0 ==> |ChunkText(text, size, overlap)| == Ceiling(|text|, Step(size, overlap))
  {
    var step, n := Step(size, overlap), |ChunkText(text, size, overlap)|;
    CountFrom(text, size, overlap, 0);
    ChunkFromAt(text, size, overlap, 0, n - 1);
    if overlap >= 0 {
      CeilingIs(|text| - size, step, n - 1);
    } else {
      CeilingIs(|text|, step, n);
    }
  }

  /** Neighbouring chunks share exactly `overlap` characters. */
  lemma NeighboursOverlap(text: string, size: nat, overlap: nat, k: nat)
    requires overlap < size < |text| && k + 1 < |ChunkText(text, size, overlap)|
    ensures var chunks := ChunkText(text, size, overlap);
            && |chunks[k]| == size && |chunks[k + 1]| > overlap
            && chunks[k][size - overlap..] == chunks[k + 1][..overlap]
  {
    NeighbourSlices(text, size, overlap, k, Steps(k, size - overlap));
    var chunks := ChunkText(text, size, overlap);
    SharedSlice(text, Steps(k, size - overlap), size, overlap, chunks[k], chunks[k + 1]);
  }

  lemma NeighbourSlices(text: string, size: nat, overlap: nat, k: nat, start: nat)
    requires overlap < size < |text| && k + 1 < |ChunkText(text, size, overlap)| && start == Steps(k, size - overlap)
    ensures var chunks := ChunkText(text, size, overlap);
            && start + size < |text| && chunks[k] == text[start..start + size]
            && chunks[k + 1] == text[start + size - overlap..Min(start + size - overlap + size, |text|)]
  {
    ChunkFromAt(text, size, overlap, 0, k);
    ChunkFromAt(text, size, overlap, 0, k + 1);
  }

  lemma SharedSlice(text: string, start: nat, size: nat, overlap: nat, left: string, right: string)
    requires overlap < size && start + size < |text| && left == text[start..start + size]
    requires right == text[start + size - overlap..Min(start + size - overlap + size, |text|)]
    ensures |right| > overlap && left[size - overlap..] == right[..overlap]
  {
  }

  /** All of the first chunk, and what each later one adds. */
  function Glue(chunks: seq<string>, shared: nat): string {
    if chunks == [] then ""
    else if |chunks| == 1 then chunks[0]
    else Glue(chunks[..|chunks| - 1], shared) + DropUpTo(chunks[|chunks| - 1], shared)
  }

  function DropUpTo(s: string, n: nat): string { s[Min(n, |s|)..] }

  lemma {:induction false} GlueFirst(text: string, size: nat, overlap: nat, n: nat)
    requires size > 0 && |text| > size && 0 < n <= |ChunkText(text, size, overlap)|
    ensures var end := Steps(n - 1, Step(size, overlap)) + size;
            Glue(ChunkText(text, size, overlap)[..n], size - Step(size, overlap)) == text[..Min(end, |text|)]
    decreases n
  {
    var chunks, step := ChunkText(text, size, overlap), Step(size, overlap);
    ChunkFromAt(text, size, overlap, 0, n - 1);
    if n > 1 {
      GlueFirst(text, size, overlap, n - 1);
      assert chunks[..n][..n - 1] == chunks[..n - 1];
    }
  }

  /** Nothing is lost: the text can be put together again from its chunks. */
  lemma {:induction false} ChunksRebuildText(text: string, size: nat, overlap: nat)
    requires size > 0
    ensures Glue(ChunkText(text, size, overlap), size - Step(size, overlap)) == text
  {
    if |text| > size {
      var chunks := ChunkText(text, size, overlap);
      LastReaches(text, size, overlap);
      GlueFirst(text, size, overlap, |chunks|);
      assert chunks[..|chunks|] == chunks && text[..|text|] == text;
    }
  }

  lemma LastReaches(text: string, size: nat, overlap: nat)
    requires size > 0 && |text| > size
    ensures var n := |ChunkText(text, size, overlap)|; n > 0 && Steps(n - 1, Step(size, overlap)) + size >= |text|
  {
    CountFrom(text, size, overlap, 0);
  }

  ghost predicate Covered(text: string, size: nat, overlap: int, i: nat)
    requires size > 0
  {
    if |text| <= size then i < |text|
    else exists k: nat :: k < |ChunkText(text, size, overlap)| && InChunk(size, overlap, k, i) && i < |text|
  }

  predicate InChunk(size: nat, overlap: int, k: nat, i: nat)
    requires size > 0
  {
    Steps(k, Step(size, overlap)) <= i < Steps(k, Step(size, overlap)) + size
  }

  /** Every character is in some chunk unless the overlap is negative and the text
      does not fit in one chunk; then the character after the first chunk is lost. */
  lemma CoverageExactly(text: string, size: nat, overlap: int)
    requires size > 0
    ensures (forall i: nat :: i < |text| ==> Covered(text, size, overlap, i)) <==> overlap >= 0 || |text| <= size
  {
    if |text| > size {
      if overlap >= 0 {
        forall i: nat | i < |text| ensures Covered(text, size, overlap, i) { CoveredBy(text, size, overlap, i); }
      } else {
        forall k: nat ensures !InChunk(size, overlap, k, size) {
          if k > 0 { StepsGrow(1, k, Step(size, overlap)); }
        }
        assert !Covered(text, size, overlap, size);
      }
    }
  }

  lemma CoveredBy(text: string, size: nat, overlap: nat, i: nat)
    requires size > 0 && |text| > size && i < |text|
    ensures Covered(text, size, overlap, i)
  {
    var step, n := Step(size, overlap), |ChunkText(text, size, overlap)|;
    CountFrom(text, size, overlap, 0);
    var k := LastStart(i, step);
    if k < n {
      assert InChunk(size, overlap, k, i);
    } else {
      StepsGrow(n, k, step);
      assert InChunk(size, overlap, n - 1, i);
    }
  }

  lemma {:induction false} LastStart(i: nat, step: nat) returns (k: nat)
    requires step > 0
    ensures Steps(k, step) <= i < Steps(k, step) + step
    decreases i
  {
    k := 0;
    if i >= step {
      k := LastStart(i - step, step);
      StepsShift(k + 1, step);
      k := k + 1;
    }
  }
}
