/** CalculateChunks: cutting a file size into consecutive byte ranges. */
module Chunking {
  import opened Basics

  newtype int64 = x: int | -0x8000_0000_0000_0000 <= x < 0x8000_0000_0000_0000

  /** A byte range, both ends included. */
  datatype Chunk = Chunk(index: int, start: int, end: int) {
    function Length(): int { end - start + 1 }
  }

  /** Where piece i begins when every piece has `least` bytes and the first `longer` pieces have one more. */
  function Boundary(least: nat, longer: nat, i: nat): nat {
    if i == 0 then 0
    else Boundary(least, longer, i - 1) + least + (if i - 1 < longer then 1 else 0)
  }

  /** The n pieces cut at those boundaries, numbered from 0. */
  ghost predicate Balanced(cs: seq<Chunk>, least: nat, longer: nat, n: nat) {
    && |cs| == n
    && forall i :: 0 <= i < n ==>
         && cs[i].index == i
         && cs[i].start == Boundary(least, longer, i)
         && cs[i].end == Boundary(least, longer, i + 1) - 1
  }

  /** Consecutive non-empty ranges, numbered from 0, that cover [0, total) and nothing else. */
  ghost predicate Partition(cs: seq<Chunk>, total: int) {
    && cs != []
    && cs[0].start == 0
    && cs[|cs| - 1].end == total - 1
    && (forall i :: 0 <= i < |cs| ==> cs[i].index == i && cs[i].start <= cs[i].end)
    && (forall i :: 0 < i < |cs| ==> cs[i].start == cs[i - 1].end + 1)
  }

  /** Go's wrapping `fileSize - 1`. */
  function PredWrapped(x: int64): int64 {
    if x == -0x8000_0000_0000_0000 then 0x7fff_ffff_ffff_ffff else x - 1
  }

  lemma {:induction false} BoundaryClosedForm(least: nat, longer: nat, i: nat)
    ensures Boundary(least, longer, i) == i * least + Min(i, longer)
  {
    if i > 0 {
      BoundaryClosedForm(least, longer, i - 1);
      assert i * least == (i - 1) * least + least;
    }
  }

  lemma {:induction false} BoundaryMonotone(least: nat, longer: nat, i: nat, j: nat)
    requires i <= j
    ensures Boundary(least, longer, i) <= Boundary(least, longer, j)
  {
    if i < j { BoundaryMonotone(least, longer, i, j - 1); }
  }

  /** Cutting `size` into n pieces of size / n, the first size % n of them one longer, ends exactly at `size`. */
  lemma BoundaryEnd(size: nat, n: nat)
    requires 0 < n
    ensures Boundary(size / n, size % n, n) == size
  {
    BoundaryClosedForm(size / n, size % n, n);
  }

  /** The cutting loop. Every int64 is checked for overflow, so no intermediate value wraps. The i-th range is
      cut exactly at its boundary, the last one included: assigning its end again changes nothing. */
  method CutRanges(fileSize: int64, count: int64, chunkSize: int64, remainder: int64) returns (chunks: seq<Chunk>)
    requires 0 < count <= fileSize && 0 <= chunkSize && 0 <= remainder
    requires Boundary(chunkSize as int, remainder as int, count as int) == fileSize as int
    ensures Balanced(chunks, chunkSize as int, remainder as int, count as int)
  {
    chunks := [];
    ghost var least, longer := chunkSize as nat, remainder as nat;
    var start: int64 := 0;
    var i: int64 := 0;
    while i < count
      invariant 0 <= i <= count
      invariant start as int == Boundary(least, longer, i as int)
      invariant Balanced(chunks, least, longer, i as int)
    {
      BoundaryMonotone(least, longer, i as int + 1, count as int);
      var extent := chunkSize;
      if i < remainder {
        extent := extent + 1;
      }
      var end := start + extent - 1;
      if i == count - 1 {
        end := fileSize - 1;
      }
      chunks := chunks + [Chunk(i as int, start as int, end as int)];
      start := end + 1;
      i := i + 1;
    }
  }

  lemma {:induction false} ProductAtLeast(q: nat, b: nat)
    requires 0 < b
    ensures q <= q * b
  {
    if b > 1 {
      ProductAtLeast(q, b - 1);
      assert q * b == q * (b - 1) + q;
    }
  }

  lemma QuotientBounds(a: nat, b: nat, q: int, r: int)
    requires 0 < b && q == a / b && r == a % b
    ensures 0 <= q <= a && 0 <= r <= a
  {
    assert a == q * b + r;
    assert 0 <= q;
    ProductAtLeast(q, b);
  }

  /** The balanced cut is a partition into min(n, size) ranges whose lengths differ by at most one. */
  lemma BalancedCut(size: nat, n: nat, cs: seq<Chunk>)
    requires 0 < n <= size && Balanced(cs, size / n, size % n, n)
    ensures Partition(cs, size)
    ensures forall i :: 0 <= i < n ==> size / n <= cs[i].Length() <= size / n + 1
  {
    BoundaryEnd(size, n);
    var least, longer := size / n, size % n;
    assert least >= 1;
    assert Boundary(least, longer, 0) == 0;
    forall i | 0 <= i < n ensures least <= cs[i].Length() <= least + 1 {
      assert Boundary(least, longer, i + 1) >= Boundary(least, longer, i) + least;
    }
  }

  method CalculateChunks(fileSize: int64, numChunks: int64) returns (chunks: seq<Chunk>)
    ensures numChunks <= 1 || fileSize <= 0 ==> chunks == [Chunk(0, 0, PredWrapped(fileSize) as int)]
    ensures numChunks <= 1 || fileSize <= 0 ==>
              |chunks| == 1 && chunks[0].start == 0
              && (fileSize as int > -0x8000_0000_0000_0000 ==> chunks[0].end == fileSize as int - 1)
    ensures numChunks > 1 && fileSize > 0 ==>
              var size, n := fileSize as int, Min(numChunks as int, fileSize as int);
              Balanced(chunks, size / n, size % n, n)
    ensures fileSize > 0 ==> Partition(chunks, fileSize as int)
  {
    if numChunks <= 1 || fileSize <= 0 {
      return [Chunk(0, 0, PredWrapped(fileSize) as int)];
    }
    var count := numChunks;
    if count > fileSize {
      count := fileSize;
    }
    assert count >= 1; // the source's clamp to one piece never fires
    BoundaryEnd(fileSize as int, count as int);
    ghost var least, longer := fileSize as int / count as int, fileSize as int % count as int;
    QuotientBounds(fileSize as int, count as int, least, longer);
    var chunkSize := fileSize / count;
    var remainder := fileSize % count;
    chunks := CutRanges(fileSize, count, chunkSize, remainder);
    BalancedCut(fileSize as int, count as int, chunks);
  }

  /** Ranges of a partition do not meet, and they come in order. */
  lemma {:induction false} PartitionOrdered(cs: seq<Chunk>, total: int, i: nat, j: nat)
    requires Partition(cs, total) && i < j < |cs|
    ensures cs[i].end < cs[j].start
    decreases j
  {
    if i < j - 1 {
      PartitionOrdered(cs, total, i, j - 1);
    }
  }

  lemma PartitionBounds(cs: seq<Chunk>, total: int, i: nat)
    requires Partition(cs, total) && i < |cs|
    ensures 0 <= cs[i].start <= cs[i].end < total
  {
    if 0 < i { PartitionOrdered(cs, total, 0, i); }
    if i < |cs| - 1 { PartitionOrdered(cs, total, i, |cs| - 1); }
  }

  /** Every offset of the file lies in some range of a partition. */
  lemma {:induction false} PartitionCovers(cs: seq<Chunk>, total: int, k: int, last: nat) returns (i: nat)
    requires Partition(cs, total) && last < |cs| && 0 <= k <= cs[last].end
    ensures i <= last && cs[i].start <= k <= cs[i].end
    decreases last
  {
    if k >= cs[last].start {
      i := last;
    } else {
      i := PartitionCovers(cs, total, k, last - 1);
    }
  }
}
