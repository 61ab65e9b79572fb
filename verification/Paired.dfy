/** A PairedStack slot of one thread: bump allocation, rewound by frees in stack order. */
module Paired {
  import opened Lists
  import opened Segments

  const MAX_SIZE: nat := 4096

  datatype Served = Chunk(p: Addr) | Deopted

  /** No two chunks of the given size overlap. */
  ghost predicate Apart(live: set<Addr>, size: nat) {
    forall c, d :: c in live && d in live && c < d ==> c + size <= d
  }

  /** A well-nested sequence of calls: one that allocates, makes the inner calls and frees; then the rest. */
  datatype Nested = Done | Call(request: nat, inner: Nested, rest: Nested)

  class Slot {
    const size: nat
    var ptr: Addr          // thread-local cursor; 0 until the first segment
    var end: Addr
    var mirror: Addr       // the segment header's bump_ptr
    ghost var base: Addr
    ghost var live: set<Addr>

    /** Live chunks are disjoint, between the payload's start and the cursor, which is inside the segment. */
    ghost predicate Valid()
      reads this
    {
      0 < size < MAX_SIZE && Apart(live, size) &&
      (ptr == 0 ==> live == {} && end == 0) &&
      (ptr != 0 ==> IsBase(base) && end == SegmentEnd(base) && PayloadStart(base) <= ptr < end &&
                    forall c :: c in live ==> PayloadStart(base) <= c && c + size <= ptr)
    }

    constructor (size: nat)
      requires 0 < size < MAX_SIZE
      ensures Valid() && live == {} && this.size == size
    {
      this.size := size;
      ptr, end, mirror, base, live := 0, 0, 0, 0, {};
    }

    /** The compiled routine with paired_slow_init behind it; b is the segment a first call maps. */
    method Alloc(request: nat, b: Addr) returns (r: Served)
      requires Valid() && (ptr == 0 ==> IsBase(b))
      modifies this
      ensures Valid()
      ensures r.Deopted? <==> request != size || (old(ptr) != 0 && old(ptr) + size >= old(end))
      ensures r.Deopted? ==> live == old(live) && ptr == old(ptr)
      ensures old(ptr) != 0 ==> end == old(end) && base == old(base)
      ensures old(ptr) == 0 && r.Chunk? ==> base == b && r.p == PayloadStart(b)
      ensures r.Chunk? ==> r.p !in old(live) && live == old(live) + {r.p} && ptr == r.p + size
      ensures r.Chunk? && old(ptr) != 0 ==> r.p == old(ptr)
    {
      if request != size {
        return Deopted;
      }
      if ptr + size >= end {
        if ptr != 0 {
          return Deopted;
        }
        base := b;
        var start := PayloadStart(b);
        ptr := start + size;
        end := SegmentEnd(b);
        mirror := start + size;
        live := {start};
        return Chunk(start);
      }
      r := Chunk(ptr);
      live := live + {ptr};
      ptr := ptr + size;
    }

    /** free_managed: the owner rewinds the cursor when the chunk is the topmost; any other free drops it. */
    method Free(p: Addr, owner: bool) returns (rewound: bool)
      requires Valid() && p in live
      modifies this
      ensures Valid() && live == old(live) - {p}
      ensures rewound <==> owner && p + size == old(ptr)
      ensures ptr == (if rewound then p else old(ptr)) && end == old(end) && base == old(base)
    {
      live := live - {p};
      if !owner || ptr - size != p {
        return false;
      }
      ptr := ptr - size;
      mirror := ptr;
      rewound := true;
    }

    /** A thread that frees in stack order leaves the slot as it found it, but for the segment its first
        allocation maps: every call allocates, makes its inner calls, and frees what it was given. */
    method RunNested(calls: Nested, b: Addr)
      requires Valid() && (ptr == 0 ==> IsBase(b))
      modifies this
      ensures Valid() && live == old(live)
      ensures old(ptr) != 0 ==> ptr == old(ptr) && end == old(end) && base == old(base)
      ensures old(ptr) == 0 ==> ptr == 0 || (base == b && ptr == PayloadStart(b))
      decreases calls
    {
      match calls
      case Done =>
      case Call(request, inner, rest) =>
        var r := Alloc(request, b);
        RunNested(inner, b);
        if r.Chunk? {
          var rewound := Free(r.p, true);
          assert rewound;
        }
        RunNested(rest, b);
    }
  }
}
