/** Which addresses the runtime manages: a bit per 2 MiB region, and the capped index the reaper walks. */
module Pagemap {
  import opened Lists
  import opened Segments
  import Reclamation

  const PM_SLOTS: nat := 0x800_0000     // 2^48 / 2^21
  const WORD_BITS: nat := 64
  const MAX_SEGMENTS: nat := Reclamation.MAX_SEGMENTS

  /** The region an address lies in. */
  function Bit(p: Addr): nat { p / SEGMENT_SIZE }

  /** Distinct segment bases below 2^48 own distinct bits of the map. */
  lemma BitsApart(b: Addr, c: Addr)
    requires IsBase(b) && IsBase(c) && b != c
    ensures Bit(b) / WORD_BITS != Bit(c) / WORD_BITS || Bit(b) % WORD_BITS != Bit(c) % WORD_BITS
  {
    assert b == Bit(b) * SEGMENT_SIZE && c == Bit(c) * SEGMENT_SIZE;
    assert Bit(b) == WORD_BITS * (Bit(b) / WORD_BITS) + Bit(b) % WORD_BITS;
    assert Bit(c) == WORD_BITS * (Bit(c) / WORD_BITS) + Bit(c) % WORD_BITS;
  }

  lemma BitInMap(b: Addr)
    ensures b < VA_LIMIT <==> Bit(b) < PM_SLOTS
    ensures Bit(b) < PM_SLOTS ==> Bit(b) / WORD_BITS < PM_SLOTS / WORD_BITS
  {
  }

  /** A word of the pagemap is the set of its one bits: fetch_or adds one, fetch_and removes one. */
  class Registry {
    const words: array<set<nat>>
    const index: array<Addr>
    var count: nat
    ghost var registered: set<Addr>

    ghost predicate Marked(b: Addr)
      reads words
    {
      Bit(b) < PM_SLOTS && Bit(b) / WORD_BITS < words.Length && Bit(b) % WORD_BITS in words[Bit(b) / WORD_BITS]
    }

    ghost predicate Valid()
      reads this, words, index
    {
      words.Length == PM_SLOTS / WORD_BITS && index.Length == MAX_SEGMENTS && count <= MAX_SEGMENTS &&
      (forall b: Addr :: b in registered ==> IsBase(b)) &&
      (forall b: Addr :: IsBase(b) ==> (Marked(b) <==> b in registered)) &&
      Distinct(index[..count]) && forall b :: b in index[..count] ==> b in registered
    }

    constructor ()
      ensures Valid() && fresh(words) && fresh(index) && registered == {} && count == 0
    {
      words := new set<nat>[PM_SLOTS / WORD_BITS](_ => {});
      index := new Addr[MAX_SEGMENTS](_ => 0);
      count, registered := 0, {};
    }

    /** is_managed of an address's segment: whether the address lies in a registered segment. */
    method IsManaged(p: Addr) returns (managed: bool)
      requires Valid()
      ensures managed <==> Of(p) in registered
    {
      var seg := Of(p);
      BaseOf(p);
      BitInMap(seg);
      if seg == 0 || Bit(seg) >= PM_SLOTS {
        return false;
      }
      managed := Bit(seg) % WORD_BITS in words[Bit(seg) / WORD_BITS];
      assert managed <==> Marked(seg);
    }

    method Mark(b: Addr, present: bool)
      requires words.Length == PM_SLOTS / WORD_BITS && IsBase(b)
      modifies words
      ensures Marked(b) == present
      ensures forall c: Addr :: IsBase(c) && c != b ==> Marked(c) == old(Marked(c))
    {
      BitInMap(b);
      forall c: Addr | IsBase(c) && c != b
        ensures Bit(b) / WORD_BITS != Bit(c) / WORD_BITS || Bit(b) % WORD_BITS != Bit(c) % WORD_BITS
      {
        BitsApart(b, c);
      }
      var w, bit := Bit(b) / WORD_BITS, Bit(b) % WORD_BITS;
      words[w] := if present then words[w] + {bit} else words[w] - {bit};
    }

    /** register_segment: marked even past the cap, but then not in the index. */
    method Register(b: Addr)
      requires Valid() && IsBase(b) && b !in registered
      modifies this, words, index
      ensures Valid() && registered == old(registered) + {b}
      ensures index[..count] == if old(count) < MAX_SEGMENTS then old(index[..count]) + [b] else old(index[..count])
    {
      Mark(b, true);
      registered := registered + {b};
      if count < MAX_SEGMENTS {
        ghost var was := index[..count];
        index[count] := b;
        count := count + 1;
        assert index[..count] == was + [b];
      }
    }

    /** unregister_segment: the bit is cleared, the index entry replaced by the last. */
    method Unregister(b: Addr)
      requires Valid() && IsBase(b)
      modifies this, words, index
      ensures Valid() && registered == old(registered) - {b}
      ensures index[..count] == Reclamation.SwapRemove(old(index[..count]), b)
    {
      Mark(b, false);
      ghost var was := index[..count];
      var i := 0;
      while i < count
        invariant 0 <= i <= count && count == old(count) && index[..count] == was && b !in was[..i]
        invariant Reclamation.SwapRemove(was, b) == Reclamation.SwapRemove(was, b, i)
        invariant registered == old(registered)
      {
        assert index[..count][i] == was[i] == index[i];
        if index[i] == b {
          index[i] := index[count - 1];
          index[count - 1] := 0;
          count := count - 1;
          assert index[..count] == was[i := was[|was| - 1]][..|was| - 1];
          Removed(was, i);
          registered := registered - {b};
          return;
        }
        i := i + 1;
      }
      assert was[..i] == was;
      registered := registered - {b};
    }
  }

  lemma BaseOf(p: Addr)
    ensures Of(p) != 0 && Of(p) < VA_LIMIT ==> IsBase(Of(p))
  {
    assert Of(p) == (p / SEGMENT_SIZE) * SEGMENT_SIZE;
  }

  /** Swap-remove takes out one entry and keeps the rest without repetition. */
  lemma Removed(q: seq<Addr>, i: nat)
    requires Distinct(q) && i < |q|
    ensures var r := q[i := q[|q| - 1]][..|q| - 1];
            Distinct(r) && forall x :: x in r <==> x in q && x != q[i]
  {
    var r := q[i := q[|q| - 1]][..|q| - 1];
    forall x
      ensures x in r <==> x in q && x != q[i]
    {
      if x in r {
        var k :| 0 <= k < |r| && r[k] == x;
        assert x == q[if k == i then |q| - 1 else k];
      }
      if x in q && x != q[i] {
        var k :| 0 <= k < |q| && q[k] == x;
        assert x == r[if k == |q| - 1 then i else k];
      }
    }
  }
}
