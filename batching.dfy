/**
 * Batch chunking: the records go to the warehouse in consecutive slices
 * `records[start:end]`, `start` stepping by 5000 while it is below the
 * number of records. Python slicing stops at the end of the list, so the
 * last slice may be shorter, and there is no insert at all for no records.
 */
module Batching {

  const ChunkSize: nat := 5000

  function Min(a: int, b: int): int { if a <= b then a else b }

  /** Python's `s[lo:hi]` for 0 <= lo <= hi: both bounds are clipped to the length. */
  function Slice<T>(s: seq<T>, lo: nat, hi: nat): (r: seq<T>)
    requires lo <= hi
    ensures lo < |s| ==> |r| == Min(hi, |s|) - lo && r == s[lo..Min(hi, |s|)]
    ensures lo >= |s| ==> r == []
  {
    s[Min(lo, |s|)..Min(hi, |s|)]
  }

  /** The chunks joined back together, in order. */
  function Flatten<T>(chunks: seq<seq<T>>): seq<T>
  {
    if chunks == [] then [] else Flatten(chunks[..|chunks| - 1]) + chunks[|chunks| - 1]
  }

  /** Appending a chunk appends its records. */
  lemma FlattenSnoc<T>(chunks: seq<seq<T>>, chunk: seq<T>)
    ensures Flatten(chunks + [chunk]) == Flatten(chunks) + chunk
  {
    assert (chunks + [chunk])[..|chunks|] == chunks;
  }

  /** Whatever is in a chunk is among the records sent. */
  lemma {:induction false} InFlatten<T>(chunks: seq<seq<T>>, k: nat, x: T)
    requires k < |chunks| && x in chunks[k]
    ensures x in Flatten(chunks)
    decreases |chunks|
  {
    if k < |chunks| - 1 {
      InFlatten(chunks[..|chunks| - 1], k, x);
    }
  }

  /** `c` chunks of at most 5000 cover n records, and c - 1 do not, exactly when c is ceil(n / 5000). */
  lemma ChunkCount(n: nat, c: nat)
    requires n <= c * ChunkSize
    requires c > 0 ==> (c - 1) * ChunkSize < n
    ensures c == (n + ChunkSize - 1) / ChunkSize
  {
  }

  /** Chunk k of `chunks` is the k-th window of 5000 records of `items`. */
  ghost predicate Windows<T>(items: seq<T>, chunks: seq<seq<T>>)
  {
    forall k | 0 <= k < |chunks| :: chunks[k] == Slice(items, k * ChunkSize, (k + 1) * ChunkSize)
  }

  /** One more window keeps the chunks the windows and the join a prefix of the records. */
  lemma WindowStep<T>(items: seq<T>, chunks: seq<seq<T>>)
    requires |chunks| * ChunkSize < |items|
    requires Windows(items, chunks) && Flatten(chunks) == items[..|chunks| * ChunkSize]
    ensures var start := |chunks| * ChunkSize;
            var next := chunks + [Slice(items, start, start + ChunkSize)];
            Windows(items, next) && Flatten(next) == items[..Min(start + ChunkSize, |items|)]
  {
    var start := |chunks| * ChunkSize;
    var batch := Slice(items, start, start + ChunkSize);
    var upTo := Min(start + ChunkSize, |items|);
    assert batch == items[start..upTo];
    assert items[..upTo] == items[..start] + batch;
    FlattenSnoc(chunks, batch);
  }

  /** Windows that start below the number of records are neither empty nor oversized. */
  lemma WindowSizes<T>(items: seq<T>, chunks: seq<seq<T>>)
    requires Windows(items, chunks)
    requires |chunks| > 0 ==> (|chunks| - 1) * ChunkSize < |items|
    ensures forall k | 0 <= k < |chunks| :: 0 < |chunks[k]| <= ChunkSize
  {
    forall k | 0 <= k < |chunks|
      ensures 0 < |chunks[k]| <= ChunkSize
    {
      assert k * ChunkSize <= (|chunks| - 1) * ChunkSize;
    }
  }

  /** The `start`/`end` loop; each chunk is what one `insert_rows_json` call receives. */
  method Chunks<T>(items: seq<T>) returns (chunks: seq<seq<T>>)
    // every record is sent exactly once, in order
    ensures Flatten(chunks) == items
    // chunk k is items[5000k : 5000(k+1)]
    ensures forall k | 0 <= k < |chunks| :: chunks[k] == Slice(items, k * ChunkSize, (k + 1) * ChunkSize)
    // no empty and no oversized chunk; ceil(n / 5000) of them, none for no records
    ensures forall k | 0 <= k < |chunks| :: 0 < |chunks[k]| <= ChunkSize
    ensures |chunks| == (|items| + ChunkSize - 1) / ChunkSize
  {
    var numItems := |items|;
    var start := 0;
    var end := ChunkSize;
    chunks := [];
    while start < numItems
      invariant start == |chunks| * ChunkSize && end == start + ChunkSize
      invariant |chunks| > 0 ==> start - ChunkSize < numItems
      invariant Windows(items, chunks)
      invariant Flatten(chunks) == items[..Min(start, numItems)]
      decreases numItems - start
    {
      WindowStep(items, chunks);
      chunks := chunks + [Slice(items, start, end)];
      start := end;
      end := end + ChunkSize;
    }
    assert items[..Min(start, numItems)] == items;
    WindowSizes(items, chunks);
    ChunkCount(numItems, |chunks|);
  }
}
