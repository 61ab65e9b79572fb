/** What the reclamation invariant means for clients, for the counter and for the reaper. */
module ReclamationResults {
  import opened Lists
  import opened Segments
  import opened Reclamation
  import opened ReclamationSteps

  /** s is reached by some schedule. */
  ghost predicate Reached(s: State) {
    exists mode: Mode, steps: seq<Step> :: Exec(Init(mode), steps) == Ok(s)
  }

  lemma ReachedInv(s: State)
    requires Reached(s)
    ensures Inv(s)
  {
    hide Inv;
    var mode, steps :| Exec(Init(mode), steps) == Ok(s);
    RunsAreSafe(mode, steps);
  }

  /** Memory the client holds is mapped: a held chunk lies wholly inside the payload of a mapped
      segment, and finding its segment by masking gives that segment. */
  lemma HeldIsMapped(s: State, c: Addr)
    requires Reached(s) && c in s.place && s.place[c].Held?
    ensures var b := Of(c);
            b in s.segs && PayloadStart(b) <= c && c + s.segs[b].size <= SegmentEnd(b)
  {
    hide Inv, Of, IsChunk;
    ReachedInv(s);
    PlacedIsMapped(s, c);
    assert Carvable(s.segs[Of(c)].size) by { SegFacts(s, Of(c)); }
    ChunkInside(Of(c), s.segs[Of(c)].size, c);
  }

  lemma SegFacts(s: State, b: Addr)
    requires Inv(s) && b in s.segs
    ensures SegOk(s, b)
  {
  }

  /** Two different chunks of mapped segments never overlap, whoever has them. */
  lemma ChunksDisjoint(s: State, c: Addr, d: Addr)
    requires Reached(s) && c in s.place && d in s.place && c < d
    ensures Of(c) in s.segs && c + s.segs[Of(c)].size <= d
  {
    hide Inv, Of;
    ReachedInv(s);
    PlacedIsMapped(s, c);
    PlacedIsMapped(s, d);
    var b, e := Of(c), Of(d);
    SegFacts(s, b);
    SegFacts(s, e);
    ChunkInside(b, s.segs[b].size, c);
    ChunkInside(e, s.segs[e].size, d);
    if b == e {
      var size := s.segs[b].size;
      var j: nat :| j < ChunksInSegment(size) && c == ChunkAt(b, size, j);
      var k: nat :| k < ChunksInSegment(size) && d == ChunkAt(b, size, k);
      if j < k {
        ChunksApart(b, size, j, k);
      } else if k < j {
        ChunksApart(b, size, k, j);
      }
    } else {
      BasesApart(b, e);
    }
  }

  lemma BasesApart(b: Addr, e: Addr)
    requires IsBase(b) && IsBase(e) && b != e
    ensures b + SEGMENT_SIZE <= e || e + SEGMENT_SIZE <= b
  {
    var i, j := b / SEGMENT_SIZE, e / SEGMENT_SIZE;
    assert b == i * SEGMENT_SIZE && e == j * SEGMENT_SIZE;
    assert i < j || j < i;
  }

  /** A segment's memory is given back only when every chunk of it has been freed and counted:
      none is held, on a local list, on a remote queue or in the middle of a free. */
  lemma ReclaimedOnlyWhenEmpty(s: State)
    requires Reached(s) && (Enabled(s, Unmap) || Enabled(s, Decommit))
    ensures var b := s.reaper.elig[0];
            b in s.segs && (forall c :: IsChunk(b, s.segs[b].size, c) ==> c in s.place && s.place[c].Done?) &&
            (forall t :: !Enabled(s, Decrement(t)) || Of(s.Pc(t).c) != b)
  {
    hide Inv, Of, IsChunk;
    ReachedInv(s);
    var b := s.reaper.elig[0];
    EligibleIsReclaimable(s, b);
    ReclaimableIsEmpty(s, b);
    forall t | Enabled(s, Decrement(t))
      ensures Of(s.Pc(t).c) != b
    {
      InFlight(s, t);
    }
  }

  /** What the reaper's snapshot names is retired with a zero counter. */
  lemma EligibleIsReclaimable(s: State, b: Addr)
    requires Inv(s) && !s.reaper.Resting? && b in s.reaper.elig
    ensures Reclaimable(s, b)
  {
  }

  /** The chunks of b the client holds, those in the middle of a free, those on the remote queue. */
  ghost function HeldIn(s: State, b: Addr): set<Addr> {
    set c | c in s.place && Of(c) == b && s.place[c].Held?
  }

  ghost function InFlightIn(s: State, b: Addr): set<Addr> {
    set c | c in s.place && Of(c) == b && s.place[c].Flight?
  }

  ghost function QueuedIn(s: State, b: Addr): set<Addr> {
    set c | c in s.place && Of(c) == b && s.place[c].Queued?
  }

  /** Every chunk of a retired segment is in exactly one of the four states left to it. */
  lemma RetiredChunk(s: State, b: Addr, c: Addr)
    requires Inv(s) && b in s.segs && s.segs[b].retired
    ensures IsChunk(b, s.segs[b].size, c) <==>
            c in HeldIn(s, b) || c in InFlightIn(s, b) || c in QueuedIn(s, b) || c in s.segs[b].done
    ensures c in s.segs[b].done ==> c in s.place && s.place[c].Done?
    ensures c in s.place && Of(c) == b ==> !s.place[c].Local?
  {
    hide Of, ChunksInSegment, Chain, Distinct, CellsOk, ThreadsOk, IsChunk, Carvable, ReaperOk;
    assert SegOk(s, b);
    InsideOwn(s, b);
    if c in s.place {
      assert ChunkOk(s, c);
    }
  }

  /** After retirement the counter is exactly the chunks still out: held by the client, in the middle
      of a free, or stranded on the remote queue.  So it never underflows. */
  lemma LiveCountsOutstanding(s: State, b: Addr)
    requires Reached(s) && b in s.segs && s.segs[b].retired
    ensures s.segs[b].live == |HeldIn(s, b)| + |InFlightIn(s, b)| + |QueuedIn(s, b)|
    ensures forall c :: c in s.place && Of(c) == b ==> !s.place[c].Local?
  {
    hide Inv, Of, ChunksInSegment, Chain, Distinct, IsChunk, Exec, Chunks, Carvable;
    ReachedInv(s);
    SegFacts(s, b);
    var g := s.segs[b];
    ChunksCount(b, g.size);
    var held, flight, queued := HeldIn(s, b), InFlightIn(s, b), QueuedIn(s, b);
    forall c
      ensures (c in Chunks(b, g.size) <==> c in held || c in flight || c in queued || c in g.done) &&
              (c in g.done ==> c in s.place && s.place[c].Done?) &&
              (c in s.place && Of(c) == b ==> !s.place[c].Local?)
    {
      RetiredChunk(s, b, c);
    }
    assert Chunks(b, g.size) == held + flight + queued + g.done;
    FourParts(held, flight, queued, g.done);
  }

  lemma FourParts<T>(a: set<T>, b: set<T>, c: set<T>, d: set<T>)
    requires a !! b && (a + b) !! c && (a + b + c) !! d
    ensures |a + b + c + d| == |a| + |b| + |c| + |d|
  {
    assert |a + b| == |a| + |b|;
    assert |a + b + c| == |a + b| + |c|;
  }

  /** The remote queue is, in memory, a null-terminated list without repetition of exactly the
      chunks pushed and not yet harvested. */
  lemma RemoteQueueIsChain(s: State, b: Addr)
    requires Reached(s) && b in s.segs
    ensures var g := s.segs[b];
            Chain(s.link, g.remote, g.queue) && Distinct(g.queue) &&
            forall c :: c in g.queue <==> c in s.place && Of(c) == b && s.place[c].Queued?
  {
    hide Of, IsChunk, ChunksInSegment, Chain, Distinct, CellsOk, ThreadsOk, Exec;
    ReachedInv(s);
    assert SegOk(s, b);
    forall c | c in s.place && Of(c) == b && s.place[c].Queued?
      ensures c in s.segs[b].queue
    {
      assert ChunkOk(s, c);
    }
  }

  /** A harvest hands over every queued chunk of the active segment at once: the first to the
      client, the others, in queue order, as the thread's new local list. */
  lemma HarvestTakesAll(s: State, t: Tid)
    requires Reached(s) && Enabled(s, Harvest(t))
    ensures var l := Cell(t, s.Pc(t).key);
            var a := s.Active(l);
            a in s.segs && (s.segs[a].remote != 0 ==>
              var q := s.segs[a].queue;
              var o := Next(s, Harvest(t));
              o.Ok? && q != [] && o.s.place[q[0]].Held? && o.s.List(l) == q[1..] &&
              Chain(o.s.link, o.s.Head(l), q[1..]) && o.s.segs[a].remote == 0 &&
              forall c :: c in s.place && Of(c) == a ==> !o.s.place[c].Queued?)
  {
    hide Inv, Of, IsChunk, ChunksInSegment, Chain, Distinct, Exec;
    ReachedInv(s);
    var key, size := s.Pc(t).key, s.Pc(t).size;
    HarvestKeeps(s, t, key, size);
    ActiveIsLive(s, t);
    var a := s.Active(Cell(t, key));
    RemoteQueueIsChain(s, a);
    var q := s.segs[a].queue;
    ChainEnds(s.link, s.segs[a].remote, q);
    if s.segs[a].remote != 0 {
      ChainPop(s.link, s.segs[a].remote, q);
    }
  }

  /** A thread that harvests or retires works on a mapped segment of its own, not yet retired. */
  lemma ActiveIsLive(s: State, t: Tid)
    requires Inv(s) && (s.Pc(t).Harvesting? || s.Pc(t).Storing? || s.Pc(t).Retiring?)
    ensures var a := s.Active(Cell(t, s.Pc(t).key));
            a in s.segs && !s.segs[a].retired && s.segs[a].owner == t && s.segs[a].key == s.Pc(t).key
  {
    hide Of, IsChunk, ChunksInSegment, Chain, Distinct, ChunksOk, SegsOk, ReaperOk;
    assert ThreadOk(s, t);
    assert CellOk(s, Cell(t, s.Pc(t).key));
  }

  /** A retired segment can be reclaimed exactly when the client has given back every chunk and no
      free of one is under way or was left on the remote queue. */
  lemma ReclaimableExactly(s: State, b: Addr)
    requires Reached(s) && b in s.segs && s.segs[b].retired
    ensures Reclaimable(s, b) <==> HeldIn(s, b) + InFlightIn(s, b) + QueuedIn(s, b) == {}
  {
    hide Inv, Of;
    LiveCountsOutstanding(s, b);
    assert HeldIn(s, b) + InFlightIn(s, b) + QueuedIn(s, b) == {} <==>
           HeldIn(s, b) == {} && InFlightIn(s, b) == {} && QueuedIn(s, b) == {};
  }
}
