/** Segment address arithmetic: 2 MiB-aligned segments, a 64-byte header, equal-sized chunks. */
module Segments {
  import opened Lists

  const SEGMENT_SIZE: int := 0x20_0000
  const HEADER_SIZE: int := 64
  const PAYLOAD_SIZE: int := SEGMENT_SIZE - HEADER_SIZE

  const VA_LIMIT: int := 0x1_0000_0000_0000

  /** Where a segment can be mapped: aligned, in the 48 bits of address space a process has. */
  predicate IsBase(b: Addr) { 0 < b < VA_LIMIT && b % SEGMENT_SIZE == 0 }

  /** The segment an address lies in: its low bits masked off. */
  function Of(p: Addr): Addr { p - p % SEGMENT_SIZE }

  function PayloadStart(b: Addr): Addr { b + HEADER_SIZE }

  function SegmentEnd(b: Addr): Addr { b + SEGMENT_SIZE }

  /** Sizes a segment can be carved into: room for a link, and at least one chunk. */
  predicate Carvable(size: nat) { 8 <= size <= PAYLOAD_SIZE }

  /** chunks_in_segment. */
  function ChunksInSegment(size: nat): nat {
    if size == 0 then 0 else PAYLOAD_SIZE / size
  }

  function ChunkAt(b: Addr, size: nat, k: nat): Addr { PayloadStart(b) + k * size }

  ghost predicate IsChunk(b: Addr, size: nat, c: Addr) {
    exists k: nat :: k < ChunksInSegment(size) && c == ChunkAt(b, size, k)
  }

  lemma CountFits(size: nat, k: nat)
    requires size > 0
    ensures k < ChunksInSegment(size) <==> (k + 1) * size <= PAYLOAD_SIZE
  {
    var n := ChunksInSegment(size);
    assert n * size <= PAYLOAD_SIZE < (n + 1) * size;
    if k < n {
      assert (k + 1) * size <= n * size;
    } else {
      assert (k + 1) * size >= (n + 1) * size;
    }
  }

  /** A chunk lies wholly inside the payload of its segment, and masking finds that segment. */
  lemma ChunkInside(b: Addr, size: nat, c: Addr)
    requires IsBase(b) && size > 0 && IsChunk(b, size, c)
    ensures PayloadStart(b) <= c && c + size <= SegmentEnd(b) && Of(c) == b && c > 0
  {
    var k: nat :| k < ChunksInSegment(size) && c == ChunkAt(b, size, k);
    CountFits(size, k);
    assert (k + 1) * size == k * size + size;
    OfInside(b, c);
  }

  lemma OfInside(b: Addr, p: Addr)
    requires IsBase(b) && b <= p < SegmentEnd(b)
    ensures Of(p) == b
  {
    assert p % SEGMENT_SIZE == p - b;
  }

  /** Two different chunks of one segment do not overlap. */
  lemma ChunksApart(b: Addr, size: nat, j: nat, k: nat)
    requires size > 0 && j < k
    ensures ChunkAt(b, size, j) + size <= ChunkAt(b, size, k)
  {
    assert (j + 1) * size <= k * size;
    assert (j + 1) * size == j * size + size;
  }

  /** The list order the carving loop produces: highest address first. */
  function Carved(b: Addr, size: nat, n: nat): seq<Addr> {
    if n == 0 then [] else [ChunkAt(b, size, n - 1)] + Carved(b, size, n - 1)
  }

  lemma {:induction false} CarvedAt(b: Addr, size: nat, n: nat)
    ensures |Carved(b, size, n)| == n
    ensures forall i :: 0 <= i < n ==> Carved(b, size, n)[i] == ChunkAt(b, size, n - 1 - i)
  {
    if n > 0 {
      CarvedAt(b, size, n - 1);
    }
  }

  /** Carving yields every chunk of the segment exactly once. */
  lemma CarvedIsAll(b: Addr, size: nat)
    requires IsBase(b) && Carvable(size)
    ensures var q := Carved(b, size, ChunksInSegment(size));
            Distinct(q) && |q| == ChunksInSegment(size) && |q| > 0 &&
            (forall c :: c in q <==> IsChunk(b, size, c))
  {
    var n := ChunksInSegment(size);
    var q := Carved(b, size, n);
    CarvedAt(b, size, n);
    CountFits(size, 0);
    forall i, j | 0 <= i < j < |q|
      ensures q[i] != q[j]
    {
      ChunksApart(b, size, n - 1 - j, n - 1 - i);
    }
    forall c
      ensures c in q <==> IsChunk(b, size, c)
    {
      if c in q {
        var i :| 0 <= i < |q| && q[i] == c;
        assert c == ChunkAt(b, size, n - 1 - i);
      }
      if IsChunk(b, size, c) {
        var k: nat :| k < n && c == ChunkAt(b, size, k);
        assert q[n - 1 - k] == c;
      }
    }
  }

  /** The chunks of a segment as a set. */
  ghost function Chunks(b: Addr, size: nat): set<Addr> {
    Elements(Carved(b, size, ChunksInSegment(size)))
  }

  lemma ChunksCount(b: Addr, size: nat)
    requires IsBase(b) && Carvable(size)
    ensures |Chunks(b, size)| == ChunksInSegment(size) > 0
    ensures forall c :: c in Chunks(b, size) <==> IsChunk(b, size, c)
  {
    CarvedIsAll(b, size);
    DistinctCount(Carved(b, size, ChunksInSegment(size)));
  }
}
