/** The deopt queue and the pending array as they are stored: a ring of 256 slots indexed modulo its
    size, and an array compacted in place.  Each method does to the stored words what the matching
    step of the protocol does to its sequences. */
module Deopt {
  import opened Lists
  import opened Epoch
  import opened EpochResults

  /** The pages a sweep unmaps, in order. */
  function Reclaimed(q: seq<Pending>, min: nat): (r: seq<Page>)
    ensures forall p :: p in r <==> p in Due(q, min)
    decreases |q|
  {
    if q == [] then []
    else
      assert q == [q[0]] + q[1..];
      (if q[0].epoch < min then [q[0].page] else []) + Reclaimed(q[1..], min)
  }

  lemma {:induction false} ReclaimedMore(q: seq<Pending>, e: Pending, min: nat)
    ensures Reclaimed(q + [e], min) == Reclaimed(q, min) + (if e.epoch < min then [e.page] else [])
    decreases |q|
  {
    if q == [] {
      assert [] + [e] == [e];
    } else {
      assert (q + [e])[1..] == q[1..] + [e];
      ReclaimedMore(q[1..], e, min);
    }
  }

  lemma {:induction false} KeptMore(q: seq<Pending>, e: Pending, min: nat)
    ensures Kept(q + [e], min) == Kept(q, min) + (if e.epoch < min then [] else [e])
    decreases |q|
  {
    if q == [] {
      assert [] + [e] == [e];
    } else {
      assert (q + [e])[1..] == q[1..] + [e];
      KeptMore(q[1..], e, min);
    }
  }

  lemma NoneYet(min: nat)
    ensures Kept([], min) == [] && Reclaimed([], min) == []
  {
  }

  /** The protocol's compaction, taken step by step, leaves pending as Compact leaves the array, and unmaps
      the pages Compact returns. */
  lemma WholeSweep(s: State, min: nat)
    requires s.bg == Sweeping(min, 0, 0)
    ensures Exec(s, SweepSteps(|s.pending| + 1)) ==
            s.(pending := Kept(s.pending, min), mapped := s.mapped - Elements(Reclaimed(s.pending, min)), bg := Resting)
  {
    hide Exec, SweepSteps, Kept, Due, Reclaimed;
    Swept(s, min, 0, 0);
    assert s.pending[0..] == s.pending && s.pending[..0] == [];
    assert Due(s.pending, min) == Elements(Reclaimed(s.pending, min));
  }

  class Queues {
    const ring: array<Page>
    var first: nat
    var last: nat
    const pend: array<Pending>
    var count: nat

    ghost predicate Valid()
      reads this
    {
      ring.Length == QUEUE_CAP && pend.Length == MAX_PENDING &&
      first <= last <= first + QUEUE_CAP && count <= MAX_PENDING
    }

    /** The queued pages, first out first. */
    ghost function Queue(): (q: seq<Page>)
      requires Valid()
      reads this, ring
    {
      seq(last - first, i requires 0 <= i < last - first reads this, ring requires Valid() => ring[(first + i) % QUEUE_CAP])
    }

    ghost function Pendings(): seq<Pending>
      requires Valid()
      reads this, pend
    {
      pend[..count]
    }

    /** The stored words are those of the protocol's state s. */
    ghost predicate Shows(s: State)
      requires Valid()
      reads this, ring, pend
    {
      Queue() == s.queue && Pendings() == s.pending
    }

    constructor ()
      ensures Valid() && fresh(ring) && fresh(pend) && Queue() == [] && Pendings() == []
    {
      ring := new Page[QUEUE_CAP];
      pend := new Pending[MAX_PENDING](_ => Pending(0, 0));
      first, last, count := 0, 0, 0;
    }

    /** The bounded enqueue of handle: a full ring drops the page. */
    method Enqueue(page: Page)
      requires Valid()
      modifies this`last, ring
      ensures Valid() && Pendings() == old(Pendings())
      ensures Queue() == if |old(Queue())| < QUEUE_CAP then old(Queue()) + [page] else old(Queue())
      ensures forall s: State, t: Tid :: old(Shows(s)) ==> Shows(DoEnqueue(s, t, page))
    {
      if last - first < QUEUE_CAP {
        ghost var was := Queue();
        forall i | first <= i < last
          ensures i % QUEUE_CAP != last % QUEUE_CAP
        {
          SlotsApart(QUEUE_CAP, i, last);
        }
        ring[last % QUEUE_CAP] := page;
        last := last + 1;
        assert Queue() == was + [page];
      }
    }

    method Dequeue() returns (found: bool, page: Page)
      requires Valid()
      modifies this`first
      ensures Valid() && Pendings() == old(Pendings())
      ensures found == (old(Queue()) != [])
      ensures found ==> [page] + Queue() == old(Queue())
      ensures !found ==> Queue() == []
      ensures forall s: State :: old(Shows(s)) ==>
                Shows(DoDequeue(s)) && (found ==> DoDequeue(s).bg == Background.Retiring(page))
    {
      found, page := first != last, 0;
      if found {
        page := ring[first % QUEUE_CAP];
        first := first + 1;
      }
    }

    /** What drain_pending does with a dequeued page once the epoch was bumped. */
    method Retire(page: Page, epoch: nat)
      requires Valid()
      modifies this`count, pend
      ensures Valid() && Queue() == old(Queue())
      ensures Pendings() == if |old(Pendings())| < MAX_PENDING then old(Pendings()) + [Pending(page, epoch)]
                            else old(Pendings())
      ensures forall s: State :: old(Shows(s)) && s.epoch == epoch ==> Shows(DoRetire(s, page))
    {
      if count < MAX_PENDING {
        pend[count] := Pending(page, epoch);
        count := count + 1;
      }
    }

    /** The compaction loop: reclaims, in order, exactly the entries older than min, and keeps the
        others, in order, at the front of the array. */
    method Compact(min: nat) returns (reclaimed: seq<Page>)
      requires Valid()
      modifies this`count, pend
      ensures Valid() && Queue() == old(Queue())
      ensures Pendings() == Kept(old(Pendings()), min)
      ensures reclaimed == Reclaimed(old(Pendings()), min)
    {
      hide Kept, Reclaimed, Due;
      ghost var was := Pendings();
      NoneYet(min);
      reclaimed := [];
      var out, i := 0, 0;
      while i < count
        invariant 0 <= out <= i <= count == |was|
        invariant pend[..out] == Kept(was[..i], min)
        invariant pend[i..count] == was[i..]
        invariant reclaimed == Reclaimed(was[..i], min)
      {
        assert was[..i + 1] == was[..i] + [was[i]];
        assert pend[i] == pend[i..count][0] == was[i];
        KeptMore(was[..i], was[i], min);
        ReclaimedMore(was[..i], was[i], min);
        ghost var tail := pend[i + 1..count];
        assert tail == pend[i..count][1..];
        if pend[i].epoch < min {
          reclaimed := reclaimed + [pend[i].page];
        } else {
          pend[out] := pend[i];
          out := out + 1;
        }
        i := i + 1;
        assert pend[i..count] == tail;
      }
      assert was[..i] == was;
      count := out;
    }
  }
}
