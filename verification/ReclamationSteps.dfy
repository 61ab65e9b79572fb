/** Every step of the reclamation system keeps its invariant and never faults. */
module ReclamationSteps {
  import opened Lists
  import opened Segments
  import opened Reclamation

  lemma InsideOwn(s: State, b: Addr)
    requires b in s.segs && SegOk(s, b)
    ensures forall c :: IsChunk(b, s.segs[b].size, c) ==> Of(c) == b
  {
    hide Of, Chain, Distinct;
    var size := s.segs[b].size;
    forall c | IsChunk(b, size, c)
      ensures Of(c) == b
    {
      ChunkInside(b, size, c);
    }
  }

  /** A segment header that a step does not touch stays as it was. */
  lemma SegFrame(s: State, n: State, b: Addr)
    requires b in s.segs && SegOk(s, b) && b in n.segs
    requires n.segs[b] == s.segs[b].(decommitted := n.segs[b].decommitted)
    requires forall c :: c in s.segs[b].queue && c in s.link ==> c in n.link && n.link[c] == s.link[c]
    requires forall c :: c in s.place && Of(c) == b ==>
             c in n.place && (s.place[c].Queued? || s.place[c].Done? ==> n.place[c] == s.place[c])
    requires var l := Cell(s.segs[b].owner, s.segs[b].key);
             !s.segs[b].retired && s.Active(l) == b ==> n.Active(l) == b
    ensures SegOk(n, b)
  {
    hide Of, IsChunk, ChunksInSegment, Chain, Distinct;
    ChainFrame(s.link, n.link, s.segs[b].remote, s.segs[b].queue);
    InsideOwn(s, b);
  }

  /** A list that a step does not touch stays as it was. */
  lemma CellFrame(s: State, n: State, k: Cell)
    requires CellOk(s, k) && n.Head(k) == s.Head(k) && n.List(k) == s.List(k) && n.Active(k) == s.Active(k)
    requires forall c :: c in s.List(k) && c in s.link ==> c in n.link && n.link[c] == s.link[c]
    requires forall c :: c in s.List(k) && c in s.place ==> c in n.place && n.place[c] == s.place[c]
    requires Refilling(n.Pc(k.t), k.key) ==> Refilling(s.Pc(k.t), k.key)
    requires s.Pc(k.t).Mapping? && s.Pc(k.t).key == k.key ==> n.Pc(k.t) == s.Pc(k.t)
    requires var a := s.Active(k); a in s.segs ==>
             a in n.segs && n.segs[a].owner == s.segs[a].owner && n.segs[a].key == s.segs[a].key &&
             n.segs[a].retired == s.segs[a].retired
    ensures CellOk(n, k)
  {
    hide Of, IsChunk, ChunksInSegment, Chain, Distinct;
    ChainFrame(s.link, n.link, s.Head(k), s.List(k));
  }

  lemma CellRefilling(s: State, t: Tid, key: Key)
    requires Inv(s) && Refilling(s.Pc(t), key)
    ensures s.Head(Cell(t, key)) == 0 && s.List(Cell(t, key)) == []
    ensures forall k :: Refilling(s.Pc(t), k) ==> k == key
    ensures s.Active(Cell(t, key)) != 0 && !s.Pc(t).Mapping? ==>
            var a := s.Active(Cell(t, key));
            a in s.segs && s.segs[a].owner == t && s.segs[a].key == key && !s.segs[a].retired && SegOk(s, a)
  {
    hide Of, IsChunk, ChunksInSegment, Distinct;
    assert CellOk(s, Cell(t, key));
  }

  lemma RefillStartKeeps(s: State, t: Tid, key: Key, size: nat)
    requires Inv(s) && Enabled(s, RefillStart(t, key, size))
    ensures Safe(Next(s, RefillStart(t, key, size)))
  {
    hide Of, IsChunk, ChunksInSegment, Chain, Distinct;
    ThreadMoves(s, t, if s.Active(Cell(t, key)) == 0 then Mapping(key, size) else Harvesting(key, size));
  }

  lemma PlacedIsMapped(s: State, c: Addr)
    requires Inv(s) && c in s.place
    ensures c > 0 && Of(c) in s.segs && IsChunk(Of(c), s.segs[Of(c)].size, c) && IsBase(Of(c))
    ensures s.place[c].Done? ==> c in s.segs[Of(c)].done
  {
    hide Of, IsChunk, ChunksInSegment, Chain, Distinct;
    assert ChunkOk(s, c);
    assert SegOk(s, Of(c));
  }

  /** The chunk a thread is freeing is its own flight, in a mapped segment. */
  lemma InFlight(s: State, t: Tid)
    requires Inv(s) && !s.Pc(t).Idle? && forall key :: !Refilling(s.Pc(t), key)
    ensures var c := Freed(s.Pc(t));
            c > 0 && c in s.place && s.place[c] == Flight(t) && Of(c) in s.segs
    ensures s.Pc(t).Dropping? ==> s.segs[Of(s.Pc(t).c)].retired
    ensures s.Pc(t).Pushing? ==> !s.segs[Of(s.Pc(t).c)].retired && s.segs[Of(s.Pc(t).c)].owner == t
    ensures s.Pc(t).Swapping? ==> s.Pc(t).c in s.link && s.link[s.Pc(t).c] == s.Pc(t).cur
  {
    hide Of, IsChunk, ChunksInSegment, Chain, Distinct;
    assert ThreadOk(s, t);
    assert !s.Pc(t).Harvesting? && !s.Pc(t).Storing? && !s.Pc(t).Retiring? && !s.Pc(t).Mapping? by {
      assert s.Pc(t).Harvesting? || s.Pc(t).Storing? || s.Pc(t).Retiring? || s.Pc(t).Mapping? ==>
        Refilling(s.Pc(t), s.Pc(t).key);
    }
    assert ChunkOk(s, Freed(s.Pc(t)));
  }

  lemma ReadRetiredKeeps(s: State, t: Tid, c: Addr)
    requires Inv(s) && s.Pc(t) == Freeing(c)
    ensures Safe(DoReadRetired(s, t, c))
  {
    hide Of, IsChunk, ChunksInSegment, Chain, Distinct, ChunksOk, SegsOk, CellsOk, ThreadsOk;
    InFlight(s, t);
    ThreadMoves(s, t, DoReadRetired(s, t, c).s.Pc(t));
  }

  lemma LoadRemoteKeeps(s: State, t: Tid, c: Addr)
    requires Inv(s) && s.Pc(t) == Loading(c)
    ensures Safe(DoLoadRemote(s, t, c))
  {
    hide Of, IsChunk, ChunksInSegment, Chain, Distinct, ChunksOk, SegsOk, CellsOk, ThreadsOk;
    InFlight(s, t);
    ThreadMoves(s, t, Linking(c, s.segs[Of(c)].remote));
  }

  // ----- storing live_chunks on a segment still active -----

  lemma LiveStoredChunks(s: State, a: Addr, v: nat)
    requires a in s.segs && !s.segs[a].retired && ChunksOk(s)
    ensures ChunksOk(s.WithSeg(a, s.segs[a].(live := v)))
  {
    hide Of, IsChunk, ChunksInSegment, Chain, Distinct;
    var n := s.WithSeg(a, s.segs[a].(live := v));
    forall c | c in n.place
      ensures ChunkOk(n, c)
    {
      assert c in s.place ==> ChunkOk(s, c);
    }
  }

  lemma LiveStoredSegs(s: State, a: Addr, v: nat)
    requires a in s.segs && !s.segs[a].retired && SegsOk(s)
    ensures SegsOk(s.WithSeg(a, s.segs[a].(live := v)))
  {
    hide Of, IsChunk, ChunksInSegment, Chain, Distinct;
    var n := s.WithSeg(a, s.segs[a].(live := v));
    forall b | b in n.segs
      ensures SegOk(n, b)
    {
      assert b in s.segs ==> SegOk(s, b);
    }
  }

  lemma LiveStoredCells(s: State, a: Addr, v: nat)
    requires a in s.segs && !s.segs[a].retired && CellsOk(s)
    ensures CellsOk(s.WithSeg(a, s.segs[a].(live := v)))
  {
    hide Of, IsChunk, ChunksInSegment, Chain, Distinct;
    var n := s.WithSeg(a, s.segs[a].(live := v));
    forall l: Cell
      ensures CellOk(n, l)
    {
      assert CellOk(s, l);
    }
  }

  lemma LiveStoredThreads(s: State, a: Addr, v: nat)
    requires a in s.segs && !s.segs[a].retired && ThreadsOk(s) && v == ChunksInSegment(s.segs[a].size)
    ensures ThreadsOk(s.WithSeg(a, s.segs[a].(live := v)))
  {
    hide Of, IsChunk, ChunksInSegment, Chain, Distinct;
    var n := s.WithSeg(a, s.segs[a].(live := v));
    forall u: Tid
      ensures ThreadOk(n, u)
    {
      assert ThreadOk(s, u);
    }
  }

  lemma CountBounded(size: nat)
    requires Carvable(size)
    ensures ChunksInSegment(size) < W32
  {
    var n := ChunksInSegment(size);
    CountFits(size, PAYLOAD_SIZE);
  }

  lemma StoreLiveKeeps(s: State, t: Tid, key: Key, size: nat)
    requires Inv(s) && s.Pc(t) == Storing(key, size)
    ensures Safe(DoStoreLive(s, t, key, size))
  {
    hide Of, IsChunk, ChunksInSegment, Chain, Distinct, ChunksOk, SegsOk, CellsOk;
    assert ThreadOk(s, t);
    CellRefilling(s, t, key);
    var a := s.Active(Cell(t, key));
    CountBounded(s.segs[a].size);
    var v := ChunksInSegment(s.segs[a].size);
    var n := s.WithSeg(a, s.segs[a].(live := v));
    LiveStoredChunks(s, a, v);
    LiveStoredSegs(s, a, v);
    LiveStoredCells(s, a, v);
    LiveStoredThreads(s, a, v);
    ThreadMoves(n, t, Retiring(key, size));
  }

  // ----- setting retired -----

  lemma RetiredSetChunks(s: State, t: Tid, key: Key, size: nat, a: Addr)
    requires s.Pc(t) == Retiring(key, size) && a in s.segs && !s.segs[a].retired
    requires s.segs[a].owner == t && s.segs[a].key == key
    requires ChunksOk(s) && s.List(Cell(t, key)) == []
    ensures ChunksOk(s.WithSeg(a, s.segs[a].(retired := true)).Goto(t, Mapping(key, size)))
  {
    hide Of, IsChunk, ChunksInSegment, Chain, Distinct;
    var n := s.WithSeg(a, s.segs[a].(retired := true)).Goto(t, Mapping(key, size));
    forall c | c in n.place
      ensures ChunkOk(n, c)
    {
      assert c in s.place ==> ChunkOk(s, c);
    }
  }

  lemma RetiredSetSegs(s: State, t: Tid, key: Key, size: nat, a: Addr)
    requires s.Pc(t) == Retiring(key, size) && a in s.segs && !s.segs[a].retired
    requires s.segs[a].owner == t && s.segs[a].key == key
    requires SegsOk(s) && s.segs[a].live == ChunksInSegment(s.segs[a].size)
    ensures SegsOk(s.WithSeg(a, s.segs[a].(retired := true)).Goto(t, Mapping(key, size)))
  {
    hide Of, IsChunk, ChunksInSegment, Chain, Distinct;
    var n := s.WithSeg(a, s.segs[a].(retired := true)).Goto(t, Mapping(key, size));
    forall b | b in n.segs
      ensures SegOk(n, b)
    {
      assert b in s.segs ==> SegOk(s, b);
    }
  }

  lemma RetiredSetCells(s: State, t: Tid, key: Key, size: nat, a: Addr)
    requires s.Pc(t) == Retiring(key, size) && a in s.segs && !s.segs[a].retired
    requires s.segs[a].owner == t && s.segs[a].key == key
    requires CellsOk(s)
    ensures CellsOk(s.WithSeg(a, s.segs[a].(retired := true)).Goto(t, Mapping(key, size)))
  {
    hide Of, IsChunk, ChunksInSegment, Chain, Distinct;
    var n := s.WithSeg(a, s.segs[a].(retired := true)).Goto(t, Mapping(key, size));
    forall l: Cell
      ensures CellOk(n, l)
    {
      assert CellOk(s, l);
    }
  }

  lemma RetiredSetThreads(s: State, t: Tid, key: Key, size: nat, a: Addr)
    requires s.Pc(t) == Retiring(key, size) && a in s.segs && !s.segs[a].retired
    requires s.segs[a].owner == t && s.segs[a].key == key
    requires ThreadsOk(s) && Carvable(size) && s.Active(Cell(t, key)) == a
    ensures ThreadsOk(s.WithSeg(a, s.segs[a].(retired := true)).Goto(t, Mapping(key, size)))
  {
    hide Of, IsChunk, ChunksInSegment, Chain, Distinct;
    var n := s.WithSeg(a, s.segs[a].(retired := true)).Goto(t, Mapping(key, size));
    forall u: Tid
      ensures ThreadOk(n, u)
    {
      assert ThreadOk(s, u);
    }
  }

  lemma StoreRetiredKeeps(s: State, t: Tid, key: Key, size: nat)
    requires Inv(s) && s.Pc(t) == Retiring(key, size)
    ensures Safe(DoStoreRetired(s, t, key, size))
  {
    hide Of, IsChunk, ChunksInSegment, Chain, Distinct, ChunksOk, SegsOk, CellsOk;
    assert ThreadOk(s, t);
    CellRefilling(s, t, key);
    var a := s.Active(Cell(t, key));
    RetiredSetChunks(s, t, key, size, a);
    RetiredSetSegs(s, t, key, size, a);
    RetiredSetCells(s, t, key, size, a);
    RetiredSetThreads(s, t, key, size, a);
  }

  // ----- the client gives a chunk up -----

  lemma GivenUpChunks(s: State, t: Tid, c: Addr)
    requires s.Pc(t).Idle? && c in s.place && s.place[c].Held?
    requires ChunksOk(s)
    ensures ChunksOk(s.(place := s.place[c := Flight(t)]).Goto(t, Freeing(c)))
  {
    hide Of, IsChunk, ChunksInSegment, Chain, Distinct;
    var n := s.(place := s.place[c := Flight(t)]).Goto(t, Freeing(c));
    assert ChunkOk(s, c);
    forall d | d in n.place
      ensures ChunkOk(n, d)
    {
      assert d in s.place ==> ChunkOk(s, d);
    }
  }

  lemma GivenUpSegs(s: State, t: Tid, c: Addr)
    requires s.Pc(t).Idle? && c in s.place && s.place[c].Held?
    requires SegsOk(s)
    ensures SegsOk(s.(place := s.place[c := Flight(t)]).Goto(t, Freeing(c)))
  {
    hide Of, IsChunk, ChunksInSegment, Chain, Distinct;
    var n := s.(place := s.place[c := Flight(t)]).Goto(t, Freeing(c));
    forall b | b in n.segs
      ensures SegOk(n, b)
    {
      assert SegOk(s, b);
      SegFrame(s, n, b);
    }
  }

  lemma GivenUpCells(s: State, t: Tid, c: Addr)
    requires s.Pc(t).Idle? && c in s.place && s.place[c].Held?
    requires CellsOk(s)
    ensures CellsOk(s.(place := s.place[c := Flight(t)]).Goto(t, Freeing(c)))
  {
    hide Of, IsChunk, ChunksInSegment, Chain, Distinct;
    var n := s.(place := s.place[c := Flight(t)]).Goto(t, Freeing(c));
    forall l: Cell
      ensures CellOk(n, l)
    {
      assert CellOk(s, l);
    }
  }

  lemma GivenUpThreads(s: State, t: Tid, c: Addr)
    requires s.Pc(t).Idle? && c in s.place && s.place[c].Held?
    requires ThreadsOk(s) && c > 0
    ensures ThreadsOk(s.(place := s.place[c := Flight(t)]).Goto(t, Freeing(c)))
  {
    hide Of, IsChunk, ChunksInSegment, Chain, Distinct;
    var n := s.(place := s.place[c := Flight(t)]).Goto(t, Freeing(c));
    forall u: Tid
      ensures ThreadOk(n, u)
    {
      assert ThreadOk(s, u);
    }
  }

  lemma FreeStartKeeps(s: State, t: Tid, c: Addr)
    requires Inv(s) && Enabled(s, FreeStart(t, c))
    ensures Safe(Next(s, FreeStart(t, c)))
  {
    hide Of, IsChunk, ChunksInSegment, Chain, Distinct, ChunksOk, SegsOk, CellsOk, ThreadsOk;
    PlacedIsMapped(s, c);
    GivenUpChunks(s, t, c);
    GivenUpSegs(s, t, c);
    GivenUpCells(s, t, c);
    GivenUpThreads(s, t, c);
  }

  // ----- writing the link of a chunk in flight -----

  lemma LinkWrittenChunks(s: State, t: Tid, c: Addr, cur: Addr)
    requires s.Pc(t) == Linking(c, cur) && c in s.place && s.place[c] == Flight(t)
    requires ChunksOk(s)
    ensures ChunksOk(s.(link := s.link[c := cur]).Goto(t, Swapping(c, cur)))
  {
    hide Of, IsChunk, ChunksInSegment, Chain, Distinct;
    var n := s.(link := s.link[c := cur]).Goto(t, Swapping(c, cur));
    forall d | d in n.place
      ensures ChunkOk(n, d)
    {
      assert d in s.place ==> ChunkOk(s, d);
    }
  }

  lemma LinkWrittenSegs(s: State, t: Tid, c: Addr, cur: Addr)
    requires s.Pc(t) == Linking(c, cur) && c in s.place && s.place[c] == Flight(t)
    requires SegsOk(s)
    ensures SegsOk(s.(link := s.link[c := cur]).Goto(t, Swapping(c, cur)))
  {
    hide Of, IsChunk, ChunksInSegment, Chain, Distinct;
    var n := s.(link := s.link[c := cur]).Goto(t, Swapping(c, cur));
    forall b | b in n.segs
      ensures SegOk(n, b)
    {
      assert SegOk(s, b);
      SegFrame(s, n, b);
    }
  }

  lemma LinkWrittenCells(s: State, t: Tid, c: Addr, cur: Addr)
    requires s.Pc(t) == Linking(c, cur) && c in s.place && s.place[c] == Flight(t)
    requires CellsOk(s)
    ensures CellsOk(s.(link := s.link[c := cur]).Goto(t, Swapping(c, cur)))
  {
    hide Of, IsChunk, ChunksInSegment, Chain, Distinct;
    var n := s.(link := s.link[c := cur]).Goto(t, Swapping(c, cur));
    forall l: Cell
      ensures CellOk(n, l)
    {
      assert CellOk(s, l);
      ChainFrame(s.link, n.link, s.Head(l), s.List(l));
    }
  }

  lemma LinkWrittenThreads(s: State, t: Tid, c: Addr, cur: Addr)
    requires s.Pc(t) == Linking(c, cur) && c in s.place && s.place[c] == Flight(t)
    requires ThreadsOk(s)
    ensures ThreadsOk(s.(link := s.link[c := cur]).Goto(t, Swapping(c, cur)))
  {
    hide Of, IsChunk, ChunksInSegment, Chain, Distinct;
    var n := s.(link := s.link[c := cur]).Goto(t, Swapping(c, cur));
    forall u: Tid
      ensures ThreadOk(n, u)
    {
      assert ThreadOk(s, u);
    }
  }

  lemma WriteLinkKeeps(s: State, t: Tid, c: Addr, cur: Addr)
    requires Inv(s) && s.Pc(t) == Linking(c, cur)
    ensures Safe(DoWriteLink(s, t, c, cur))
  {
    hide Of, IsChunk, ChunksInSegment, Chain, Distinct, ChunksOk, SegsOk, CellsOk, ThreadsOk;
    InFlight(s, t);
    LinkWrittenChunks(s, t, c, cur);
    LinkWrittenSegs(s, t, c, cur);
    LinkWrittenCells(s, t, c, cur);
    LinkWrittenThreads(s, t, c, cur);
  }

  // ----- the client writing a chunk it holds -----

  lemma StoredChunks(s: State, c: Addr, v: Addr)
    requires ChunksOk(s)
    ensures ChunksOk(s.(link := s.link[c := v]))
  {
    hide Of, IsChunk, ChunksInSegment, Chain, Distinct;
    var n := s.(link := s.link[c := v]);
    forall d | d in n.place
      ensures ChunkOk(n, d)
    {
      assert ChunkOk(s, d);
    }
  }

  lemma StoredSegs(s: State, c: Addr, v: Addr)
    requires SegsOk(s) && c in s.place && s.place[c].Held?
    ensures SegsOk(s.(link := s.link[c := v]))
  {
    hide Of, IsChunk, ChunksInSegment, Chain, Distinct;
    var n := s.(link := s.link[c := v]);
    forall b | b in n.segs
      ensures SegOk(n, b)
    {
      assert SegOk(s, b);
      SegFrame(s, n, b);
    }
  }

  lemma StoredCells(s: State, c: Addr, v: Addr)
    requires CellsOk(s) && c in s.place && s.place[c].Held?
    ensures CellsOk(s.(link := s.link[c := v]))
  {
    hide Of, IsChunk, ChunksInSegment, Chain, Distinct;
    var n := s.(link := s.link[c := v]);
    forall l: Cell
      ensures CellOk(n, l)
    {
      assert CellOk(s, l);
      ChainFrame(s.link, n.link, s.Head(l), s.List(l));
    }
  }

  lemma StoredThreads(s: State, c: Addr, v: Addr)
    requires ThreadsOk(s) && c in s.place && s.place[c].Held?
    ensures ThreadsOk(s.(link := s.link[c := v]))
  {
    hide Of, IsChunk, ChunksInSegment, Chain, Distinct;
    var n := s.(link := s.link[c := v]);
    forall u: Tid
      ensures ThreadOk(n, u)
    {
      assert ThreadOk(s, u);
    }
  }

  lemma ClientStoreKeeps(s: State, c: Addr, v: Addr)
    requires Inv(s) && c in s.place && s.place[c].Held?
    ensures Safe(DoClientStore(s, c, v))
  {
    hide Of, IsChunk, ChunksInSegment, Chain, Distinct, ChunksOk, SegsOk, CellsOk, ThreadsOk;
    PlacedIsMapped(s, c);
    StoredChunks(s, c, v);
    StoredSegs(s, c, v);
    StoredCells(s, c, v);
    StoredThreads(s, c, v);
  }

  // ----- popping the local list -----

  /** A chunk on a local list belongs to that list's thread and key, and its segment is active. */
  lemma ListOwner(s: State, l: Cell, c: Addr)
    requires Inv(s) && c in s.List(l)
    ensures c in s.place && s.place[c].Local? && Of(c) in s.segs && !s.segs[Of(c)].retired
    ensures l == Cell(s.segs[Of(c)].owner, s.segs[Of(c)].key)
  {
    hide Of, IsChunk, ChunksInSegment, Distinct;
    assert CellOk(s, l);
    PlacedIsMapped(s, c);
    assert s.Head(l) != 0;
    assert !Refilling(s.Pc(l.t), l.key);
  }

  lemma PoppedChunks(s: State, l: Cell, h: Addr)
    requires s.Pc(l.t).Idle? && h in s.place && s.place[h].Local? && s.List(l) != [] && s.List(l)[0] == h
    requires ChunksOk(s)
    ensures ChunksOk(s.(heads := s.heads[l := s.Link(h)], lists := s.lists[l := Tail(s.List(l))], place := s.place[h := Held]))
  {
    hide Of, IsChunk, ChunksInSegment, Chain, Distinct;
    var n := s.(heads := s.heads[l := s.Link(h)], lists := s.lists[l := Tail(s.List(l))], place := s.place[h := Held]);
    assert forall c :: c in s.List(l) && c != h ==> c in Tail(s.List(l));
    forall d | d in n.place
      ensures ChunkOk(n, d)
    {
      assert d in s.place ==> ChunkOk(s, d);
    }
  }

  lemma PoppedSegs(s: State, l: Cell, h: Addr)
    requires s.Pc(l.t).Idle? && h in s.place && s.place[h].Local? && s.List(l) != [] && s.List(l)[0] == h
    requires SegsOk(s)
    ensures SegsOk(s.(heads := s.heads[l := s.Link(h)], lists := s.lists[l := Tail(s.List(l))], place := s.place[h := Held]))
  {
    hide Of, IsChunk, ChunksInSegment, Chain, Distinct;
    var n := s.(heads := s.heads[l := s.Link(h)], lists := s.lists[l := Tail(s.List(l))], place := s.place[h := Held]);
    forall b | b in n.segs
      ensures SegOk(n, b)
    {
      assert SegOk(s, b);
      SegFrame(s, n, b);
    }
  }

  lemma PoppedCells(s: State, l: Cell, h: Addr)
    requires s.Pc(l.t).Idle? && h in s.place && s.place[h].Local? && s.List(l) != [] && s.List(l)[0] == h
    requires CellsOk(s) && forall k :: h in s.List(k) ==> k == l
    ensures CellsOk(s.(heads := s.heads[l := s.Link(h)], lists := s.lists[l := Tail(s.List(l))], place := s.place[h := Held]))
  {
    hide Of, IsChunk, ChunksInSegment, Chain, Distinct;
    var n := s.(heads := s.heads[l := s.Link(h)], lists := s.lists[l := Tail(s.List(l))], place := s.place[h := Held]);
    forall k: Cell
      ensures CellOk(n, k)
    {
      assert CellOk(s, k);
      if k == l {
        ChainPop(s.link, s.Head(l), s.List(l));
      }
    }
  }

  lemma PoppedThreads(s: State, l: Cell, h: Addr)
    requires s.Pc(l.t).Idle? && h in s.place && s.place[h].Local? && s.List(l) != [] && s.List(l)[0] == h
    requires ThreadsOk(s)
    ensures ThreadsOk(s.(heads := s.heads[l := s.Link(h)], lists := s.lists[l := Tail(s.List(l))], place := s.place[h := Held]))
  {
    hide Of, IsChunk, ChunksInSegment, Chain, Distinct;
    var n := s.(heads := s.heads[l := s.Link(h)], lists := s.lists[l := Tail(s.List(l))], place := s.place[h := Held]);
    forall u: Tid
      ensures ThreadOk(n, u)
    {
      assert ThreadOk(s, u);
    }
  }

  lemma AllocPopKeeps(s: State, t: Tid, key: Key)
    requires Inv(s) && s.Pc(t).Idle? && s.Head(Cell(t, key)) != 0
    ensures Safe(DoAllocPop(s, t, key))
  {
    hide Of, IsChunk, ChunksInSegment, Distinct, ChunksOk, SegsOk, ThreadsOk;
    var l, h := Cell(t, key), s.Head(Cell(t, key));
    assert CellOk(s, l);
    ListOwner(s, l, h);
    forall k | h in s.List(k)
      ensures k == l
    {
      ListOwner(s, k, h);
    }
    hide CellsOk;
    PoppedChunks(s, l, h);
    PoppedSegs(s, l, h);
    PoppedCells(s, l, h);
    PoppedThreads(s, l, h);
  }

  // ----- pushing an own chunk -----

  lemma PushedChunks(s: State, l: Cell, c: Addr)
    requires s.Pc(l.t) == Pushing(c) && c > 0 && c in s.place && s.place[c] == Flight(l.t) && Of(c) in s.segs
    requires !s.segs[Of(c)].retired && l == Cell(s.segs[Of(c)].owner, s.segs[Of(c)].key)
    requires ChunksOk(s)
    ensures ChunksOk(s.(link := s.link[c := s.Head(l)], heads := s.heads[l := c], lists := s.lists[l := [c] + s.List(l)], place := s.place[c := Local]).Goto(l.t, Idle))
  {
    hide Of, IsChunk, ChunksInSegment, Chain, Distinct;
    var n := s.(link := s.link[c := s.Head(l)], heads := s.heads[l := c], lists := s.lists[l := [c] + s.List(l)], place := s.place[c := Local]).Goto(l.t, Idle);
    forall d | d in n.place
      ensures ChunkOk(n, d)
    {
      assert d in s.place ==> ChunkOk(s, d);
    }
  }

  lemma PushedSegs(s: State, l: Cell, c: Addr)
    requires s.Pc(l.t) == Pushing(c) && c > 0 && c in s.place && s.place[c] == Flight(l.t) && Of(c) in s.segs
    requires !s.segs[Of(c)].retired && l == Cell(s.segs[Of(c)].owner, s.segs[Of(c)].key)
    requires SegsOk(s)
    ensures SegsOk(s.(link := s.link[c := s.Head(l)], heads := s.heads[l := c], lists := s.lists[l := [c] + s.List(l)], place := s.place[c := Local]).Goto(l.t, Idle))
  {
    hide Of, IsChunk, ChunksInSegment, Chain, Distinct;
    var n := s.(link := s.link[c := s.Head(l)], heads := s.heads[l := c], lists := s.lists[l := [c] + s.List(l)], place := s.place[c := Local]).Goto(l.t, Idle);
    forall b | b in n.segs
      ensures SegOk(n, b)
    {
      assert SegOk(s, b);
      SegFrame(s, n, b);
    }
  }

  lemma PushedOwnCell(s: State, l: Cell, c: Addr)
    requires s.Pc(l.t) == Pushing(c) && c > 0 && c in s.place && s.place[c] == Flight(l.t) && Of(c) in s.segs
    requires !s.segs[Of(c)].retired && l == Cell(s.segs[Of(c)].owner, s.segs[Of(c)].key)
    requires CellOk(s, l) && s.Active(l) == Of(c)
    ensures CellOk(s.(link := s.link[c := s.Head(l)], heads := s.heads[l := c], lists := s.lists[l := [c] + s.List(l)], place := s.place[c := Local]).Goto(l.t, Idle), l)
  {
    hide Of, IsChunk, ChunksInSegment, Chain, Distinct;
    var link := s.link[c := s.Head(l)];
    ChainFrame(s.link, link, s.Head(l), s.List(l));
    ChainPush(link, s.Head(l), s.List(l), c);
  }

  lemma PushedCells(s: State, l: Cell, c: Addr)
    requires s.Pc(l.t) == Pushing(c) && c > 0 && c in s.place && s.place[c] == Flight(l.t) && Of(c) in s.segs
    requires !s.segs[Of(c)].retired && l == Cell(s.segs[Of(c)].owner, s.segs[Of(c)].key)
    requires CellsOk(s) && s.Active(l) == Of(c)
    ensures CellsOk(s.(link := s.link[c := s.Head(l)], heads := s.heads[l := c], lists := s.lists[l := [c] + s.List(l)], place := s.place[c := Local]).Goto(l.t, Idle))
  {
    hide Of, IsChunk, ChunksInSegment, Chain, Distinct;
    var n := s.(link := s.link[c := s.Head(l)], heads := s.heads[l := c], lists := s.lists[l := [c] + s.List(l)], place := s.place[c := Local]).Goto(l.t, Idle);
    forall k: Cell
      ensures CellOk(n, k)
    {
      assert CellOk(s, k);
      if k == l {
        PushedOwnCell(s, l, c);
      } else {
        CellFrame(s, n, k);
      }
    }
  }

  lemma PushedThreads(s: State, l: Cell, c: Addr)
    requires s.Pc(l.t) == Pushing(c) && c > 0 && c in s.place && s.place[c] == Flight(l.t) && Of(c) in s.segs
    requires !s.segs[Of(c)].retired && l == Cell(s.segs[Of(c)].owner, s.segs[Of(c)].key)
    requires ThreadsOk(s)
    ensures ThreadsOk(s.(link := s.link[c := s.Head(l)], heads := s.heads[l := c], lists := s.lists[l := [c] + s.List(l)], place := s.place[c := Local]).Goto(l.t, Idle))
  {
    hide Of, IsChunk, ChunksInSegment, Chain, Distinct;
    var n := s.(link := s.link[c := s.Head(l)], heads := s.heads[l := c], lists := s.lists[l := [c] + s.List(l)], place := s.place[c := Local]).Goto(l.t, Idle);
    forall u: Tid
      ensures ThreadOk(n, u)
    {
      assert ThreadOk(s, u);
    }
  }

  lemma PushLocalKeeps(s: State, t: Tid, c: Addr)
    requires Inv(s) && s.Pc(t) == Pushing(c)
    ensures Safe(DoPushLocal(s, t, c))
  {
    hide Of, IsChunk, ChunksInSegment, Chain, Distinct, ChunksOk, CellsOk, ThreadsOk;
    InFlight(s, t);
    assert SegOk(s, Of(c));
    var l := Cell(t, s.segs[Of(c)].key);
    hide SegsOk, SegOk;
    PushedChunks(s, l, c);
    PushedSegs(s, l, c);
    PushedCells(s, l, c);
    PushedThreads(s, l, c);
  }

  // ----- the compare-and-swap of a remote push -----

  lemma SwappedChunks(s: State, t: Tid, a: Addr, c: Addr)
    requires a in s.segs && Of(c) == a && c > 0 && c in s.place && s.place[c] == Flight(t)
    requires s.Pc(t) == Swapping(c, s.segs[a].remote) && c in s.link && s.link[c] == s.segs[a].remote
    requires ChunksOk(s)
    ensures ChunksOk(s.WithSeg(a, s.segs[a].(remote := c, queue := [c] + s.segs[a].queue)).(place := s.place[c := Queued]).Goto(t, Idle))
  {
    hide Of, IsChunk, ChunksInSegment, Chain, Distinct;
    var n := s.WithSeg(a, s.segs[a].(remote := c, queue := [c] + s.segs[a].queue)).(place := s.place[c := Queued]).Goto(t, Idle);
    forall d | d in n.place
      ensures ChunkOk(n, d)
    {
      assert d in s.place ==> ChunkOk(s, d);
    }
  }

  lemma SwappedSegs(s: State, t: Tid, a: Addr, c: Addr)
    requires a in s.segs && Of(c) == a && c > 0 && c in s.place && s.place[c] == Flight(t)
    requires s.Pc(t) == Swapping(c, s.segs[a].remote) && c in s.link && s.link[c] == s.segs[a].remote
    requires SegsOk(s)
    ensures SegsOk(s.WithSeg(a, s.segs[a].(remote := c, queue := [c] + s.segs[a].queue)).(place := s.place[c := Queued]).Goto(t, Idle))
  {
    hide Of, IsChunk, ChunksInSegment, Chain, Distinct;
    var n := s.WithSeg(a, s.segs[a].(remote := c, queue := [c] + s.segs[a].queue)).(place := s.place[c := Queued]).Goto(t, Idle);
    forall b | b in n.segs
      ensures SegOk(n, b)
    {
      assert SegOk(s, b);
      if b == a {
        SwappedOwnSeg(s, t, a, c);
      } else {
        SegFrame(s, n, b);
      }
    }
  }

  lemma SwappedOwnSeg(s: State, t: Tid, a: Addr, c: Addr)
    requires a in s.segs && Of(c) == a && c > 0 && c in s.place && s.place[c] == Flight(t)
    requires c in s.link && s.link[c] == s.segs[a].remote && SegOk(s, a)
    ensures SegOk(s.WithSeg(a, s.segs[a].(remote := c, queue := [c] + s.segs[a].queue)).(place := s.place[c := Queued]).Goto(t, Idle), a)
  {
    hide Of, IsChunk, ChunksInSegment, Chain, Distinct;
    ChainPush(s.link, s.segs[a].remote, s.segs[a].queue, c);
  }

  lemma SwappedCells(s: State, t: Tid, a: Addr, c: Addr)
    requires a in s.segs && Of(c) == a && c > 0 && c in s.place && s.place[c] == Flight(t)
    requires s.Pc(t) == Swapping(c, s.segs[a].remote) && c in s.link && s.link[c] == s.segs[a].remote
    requires CellsOk(s)
    ensures CellsOk(s.WithSeg(a, s.segs[a].(remote := c, queue := [c] + s.segs[a].queue)).(place := s.place[c := Queued]).Goto(t, Idle))
  {
    hide Of, IsChunk, ChunksInSegment, Chain, Distinct;
    var n := s.WithSeg(a, s.segs[a].(remote := c, queue := [c] + s.segs[a].queue)).(place := s.place[c := Queued]).Goto(t, Idle);
    forall l: Cell
      ensures CellOk(n, l)
    {
      assert CellOk(s, l);
    }
  }

  lemma SwappedThreads(s: State, t: Tid, a: Addr, c: Addr)
    requires a in s.segs && Of(c) == a && c > 0 && c in s.place && s.place[c] == Flight(t)
    requires s.Pc(t) == Swapping(c, s.segs[a].remote) && c in s.link && s.link[c] == s.segs[a].remote
    requires ThreadsOk(s)
    ensures ThreadsOk(s.WithSeg(a, s.segs[a].(remote := c, queue := [c] + s.segs[a].queue)).(place := s.place[c := Queued]).Goto(t, Idle))
  {
    hide Of, IsChunk, ChunksInSegment, Chain, Distinct;
    var n := s.WithSeg(a, s.segs[a].(remote := c, queue := [c] + s.segs[a].queue)).(place := s.place[c := Queued]).Goto(t, Idle);
    forall u: Tid
      ensures ThreadOk(n, u)
    {
      assert ThreadOk(s, u);
    }
  }

  lemma CasKeeps(s: State, t: Tid, c: Addr, cur: Addr, spurious: bool)
    requires Inv(s) && s.Pc(t) == Swapping(c, cur)
    ensures Safe(DoCas(s, t, c, cur, spurious))
  {
    hide Of, IsChunk, ChunksInSegment, Chain, Distinct, ChunksOk, SegsOk, CellsOk, ThreadsOk;
    InFlight(s, t);
    var a := Of(c);
    if s.segs[a].remote == cur && !spurious {
      SwappedChunks(s, t, a, c);
      SwappedSegs(s, t, a, c);
      SwappedCells(s, t, a, c);
      SwappedThreads(s, t, a, c);
    } else {
      CasMisses(s, t, c, cur);
    }
  }

  lemma CasMisses(s: State, t: Tid, c: Addr, cur: Addr)
    requires Inv(s) && s.Pc(t) == Swapping(c, cur) && c > 0 && c in s.place && s.place[c] == Flight(t)
    requires Of(c) in s.segs
    ensures Inv(s.Goto(t, Linking(c, s.segs[Of(c)].remote)))
  {
    hide Of, IsChunk, ChunksInSegment, Chain, Distinct, ChunksOk, SegsOk, CellsOk, ThreadsOk;
    ThreadMoves(s, t, Linking(c, s.segs[Of(c)].remote));
  }

  // ----- counting a free into a retired segment -----

  lemma CountedChunks(s: State, t: Tid, a: Addr, c: Addr)
    requires a in s.segs && s.segs[a].retired && s.segs[a].live > 0
    requires Of(c) == a && c > 0 && c in s.place && s.place[c] == Flight(t) && s.Pc(t) == Dropping(c)
    requires ChunksOk(s)
    ensures ChunksOk(s.WithSeg(a, s.segs[a].(live := s.segs[a].live - 1, done := s.segs[a].done + {c})).(place := s.place[c := Done]).Goto(t, Idle))
  {
    hide Of, IsChunk, ChunksInSegment, Chain, Distinct;
    var n := s.WithSeg(a, s.segs[a].(live := s.segs[a].live - 1, done := s.segs[a].done + {c})).(place := s.place[c := Done]).Goto(t, Idle);
    forall d | d in n.place
      ensures ChunkOk(n, d)
    {
      assert d in s.place ==> ChunkOk(s, d);
    }
  }

  lemma CountedSegs(s: State, t: Tid, a: Addr, c: Addr)
    requires a in s.segs && s.segs[a].retired && s.segs[a].live > 0
    requires Of(c) == a && c > 0 && c in s.place && s.place[c] == Flight(t) && s.Pc(t) == Dropping(c)
    requires SegsOk(s)
    ensures SegsOk(s.WithSeg(a, s.segs[a].(live := s.segs[a].live - 1, done := s.segs[a].done + {c})).(place := s.place[c := Done]).Goto(t, Idle))
  {
    hide Of, IsChunk, ChunksInSegment, Chain, Distinct;
    var n := s.WithSeg(a, s.segs[a].(live := s.segs[a].live - 1, done := s.segs[a].done + {c})).(place := s.place[c := Done]).Goto(t, Idle);
    forall b | b in n.segs
      ensures SegOk(n, b)
    {
      assert SegOk(s, b);
      if b == a {
        CountedOwnSeg(s, t, a, c);
      } else {
        SegFrame(s, n, b);
      }
    }
  }

  lemma CountedOwnSeg(s: State, t: Tid, a: Addr, c: Addr)
    requires a in s.segs && s.segs[a].retired && s.segs[a].live > 0
    requires Of(c) == a && c > 0 && c in s.place && s.place[c] == Flight(t) && SegOk(s, a)
    ensures SegOk(s.WithSeg(a, s.segs[a].(live := s.segs[a].live - 1, done := s.segs[a].done + {c})).(place := s.place[c := Done]).Goto(t, Idle), a)
  {
    hide Of, IsChunk, ChunksInSegment, Chain, Distinct;
    assert c !in s.segs[a].done;
  }

  lemma CountedCells(s: State, t: Tid, a: Addr, c: Addr)
    requires a in s.segs && s.segs[a].retired && s.segs[a].live > 0
    requires Of(c) == a && c > 0 && c in s.place && s.place[c] == Flight(t) && s.Pc(t) == Dropping(c)
    requires CellsOk(s)
    ensures CellsOk(s.WithSeg(a, s.segs[a].(live := s.segs[a].live - 1, done := s.segs[a].done + {c})).(place := s.place[c := Done]).Goto(t, Idle))
  {
    hide Of, IsChunk, ChunksInSegment, Chain, Distinct;
    var n := s.WithSeg(a, s.segs[a].(live := s.segs[a].live - 1, done := s.segs[a].done + {c})).(place := s.place[c := Done]).Goto(t, Idle);
    forall l: Cell
      ensures CellOk(n, l)
    {
      assert CellOk(s, l);
    }
  }

  lemma CountedThreads(s: State, t: Tid, a: Addr, c: Addr)
    requires a in s.segs && s.segs[a].retired && s.segs[a].live > 0
    requires Of(c) == a && c > 0 && c in s.place && s.place[c] == Flight(t) && s.Pc(t) == Dropping(c)
    requires ThreadsOk(s) && CellsOk(s)
    ensures ThreadsOk(s.WithSeg(a, s.segs[a].(live := s.segs[a].live - 1, done := s.segs[a].done + {c})).(place := s.place[c := Done]).Goto(t, Idle))
  {
    hide Of, IsChunk, ChunksInSegment, Chain, Distinct;
    var n := s.WithSeg(a, s.segs[a].(live := s.segs[a].live - 1, done := s.segs[a].done + {c})).(place := s.place[c := Done]).Goto(t, Idle);
    forall u: Tid
      ensures ThreadOk(n, u)
    {
      assert ThreadOk(s, u);
      assert forall key :: CellOk(s, Cell(u, key));
    }
  }

  /** A retired segment with a chunk not yet counted has a positive counter that fits 32 bits. */
  lemma CounterPositive(s: State, c: Addr)
    requires Inv(s) && c in s.place && !s.place[c].Done? && Of(c) in s.segs && s.segs[Of(c)].retired
    ensures 0 < s.segs[Of(c)].live < W32
  {
    hide Of, ChunksInSegment, Chain, Distinct, CellsOk, ThreadsOk;
    var b := Of(c);
    var g := s.segs[b];
    assert ChunkOk(s, c) && SegOk(s, b);
    ChunksCount(b, g.size);
    CountBounded(g.size);
    forall d | d in g.done
      ensures d in Chunks(b, g.size) - {c}
    {
      assert ChunkOk(s, d);
    }
    SubsetSize(g.done, Chunks(b, g.size) - {c});
  }

  lemma DecrementKeeps(s: State, t: Tid, c: Addr)
    requires Inv(s) && s.Pc(t) == Dropping(c)
    ensures Safe(DoDecrement(s, t, c))
  {
    hide Of, IsChunk, ChunksInSegment, Chain, Distinct, ChunksOk, SegsOk, CellsOk, ThreadsOk;
    InFlight(s, t);
    var a := Of(c);
    CounterPositive(s, c);
    assert (s.segs[a].live + W32 - 1) % W32 == s.segs[a].live - 1;
    CountedChunks(s, t, a, c);
    CountedSegs(s, t, a, c);
    CountedCells(s, t, a, c);
    CountedThreads(s, t, a, c);
  }

  // ----- harvesting the remote queue -----

  function Harvested(s: State, l: Cell, a: Addr): State
    requires a in s.segs
  {
    s.WithSeg(a, s.segs[a].(remote := 0, queue := []))
     .(heads := s.heads[l := s.Link(s.segs[a].remote)], lists := s.lists[l := Tail(s.segs[a].queue)],
       place := PlaceAll(s.place, s.segs[a].queue, Local)[s.segs[a].remote := Held])
     .Goto(l.t, Idle)
  }

  /** Chunks of the queue become held, the first, or local, the others. */
  lemma HarvestedHead(s: State, l: Cell, a: Addr, d: Addr)
    requires a in s.segs && d == s.segs[a].remote && d in s.place && ChunkOk(s, d) && Of(d) == a
    ensures ChunkOk(Harvested(s, l, a), d)
  {
    hide Of, IsChunk, ChunksInSegment, Tail, PlaceAll;
    assert Harvested(s, l, a).place[d] == Held;
  }

  lemma HarvestedTail(s: State, l: Cell, a: Addr, d: Addr)
    requires a in s.segs && l == Cell(s.segs[a].owner, s.segs[a].key) && !s.segs[a].retired
    requires d in Tail(s.segs[a].queue) && d in s.segs[a].queue && d != s.segs[a].remote
    requires d in s.place && ChunkOk(s, d) && Of(d) == a
    ensures ChunkOk(Harvested(s, l, a), d)
  {
    hide Of, IsChunk, ChunksInSegment, Tail;
    assert Harvested(s, l, a).place[d] == Local;
  }

  lemma HarvestedOther(s: State, l: Cell, a: Addr, d: Addr)
    requires a in s.segs && d !in s.segs[a].queue && d != s.segs[a].remote && d in s.place && ChunkOk(s, d)
    requires s.List(l) == [] && Freed(s.Pc(l.t)) == 0
    ensures ChunkOk(Harvested(s, l, a), d)
  {
    hide Of, IsChunk, ChunksInSegment;
  }

  lemma HarvestedPlaces(s: State, l: Cell, a: Addr)
    requires a in s.segs && s.segs[a].queue != [] && s.segs[a].queue[0] == s.segs[a].remote
    requires forall c :: c in s.segs[a].queue ==> c in s.place
    ensures Harvested(s, l, a).place.Keys == s.place.Keys
  {
    var q := s.segs[a].queue;
    assert q[0] in q;
  }

  lemma HarvestedChunks(s: State, l: Cell, a: Addr)
    requires a in s.segs && l == Cell(s.segs[a].owner, s.segs[a].key) && !s.segs[a].retired
    requires s.segs[a].queue != [] && s.segs[a].queue[0] == s.segs[a].remote && s.segs[a].remote != 0
    requires s.List(l) == [] && Freed(s.Pc(l.t)) == 0
    requires ChunksOk(s) && SegOk(s, a)
    ensures ChunksOk(Harvested(s, l, a))
  {
    hide Of, IsChunk, ChunksInSegment, Chain, Distinct, Harvested, ChunkOk;
    HarvestedPlaces(s, l, a);
    var q := s.segs[a].queue;
    forall d | d in Harvested(s, l, a).place
      ensures ChunkOk(Harvested(s, l, a), d)
    {
      if d == q[0] {
        HarvestedHead(s, l, a, d);
      } else if d in q {
        assert d in Tail(q);
        HarvestedTail(s, l, a, d);
      } else {
        HarvestedOther(s, l, a, d);
      }
    }
  }

  lemma HarvestedOwnSeg(s: State, l: Cell, a: Addr)
    requires a in s.segs && l == Cell(s.segs[a].owner, s.segs[a].key) && !s.segs[a].retired
    requires SegOk(s, a)
    ensures SegOk(Harvested(s, l, a), a)
  {
    hide Of, IsChunk, ChunksInSegment, Chain, Distinct;
    EmptyChain(s.link);
  }

  lemma HarvestedOtherSeg(s: State, l: Cell, a: Addr, b: Addr)
    requires a in s.segs && b in s.segs && a != b && SegOk(s, b)
    requires s.segs[a].queue != [] && s.segs[a].queue[0] == s.segs[a].remote
    requires forall c :: c in s.segs[a].queue ==> c in s.place && Of(c) == a
    ensures SegOk(Harvested(s, l, a), b)
  {
    hide Of, IsChunk, ChunksInSegment, Chain, Distinct;
    var n := Harvested(s, l, a);
    assert n.segs[b] == s.segs[b];
    forall c | c in s.place
      ensures c in n.place && (Of(c) == b ==> n.place[c] == s.place[c])
    {
    }
  }

  lemma HarvestedSegs(s: State, l: Cell, a: Addr)
    requires a in s.segs && l == Cell(s.segs[a].owner, s.segs[a].key) && !s.segs[a].retired
    requires s.segs[a].queue != [] && s.segs[a].queue[0] == s.segs[a].remote && s.segs[a].remote != 0
    requires SegsOk(s)
    ensures SegsOk(Harvested(s, l, a))
  {
    hide Of, IsChunk, ChunksInSegment, Chain, Distinct, Harvested;
    assert SegOk(s, a);
    HarvestedOwnSeg(s, l, a);
    forall b | b in Harvested(s, l, a).segs
      ensures SegOk(Harvested(s, l, a), b)
    {
      assert Harvested(s, l, a).segs.Keys == s.segs.Keys by { HarvestedDomain(s, l, a); }
      if b != a {
        HarvestedOtherSeg(s, l, a, b);
      }
    }
  }

  lemma HarvestedDomain(s: State, l: Cell, a: Addr)
    requires a in s.segs
    ensures Harvested(s, l, a).segs.Keys == s.segs.Keys
  {
  }

  lemma HarvestedOwnCell(s: State, l: Cell, a: Addr)
    requires a in s.segs && l == Cell(s.segs[a].owner, s.segs[a].key) && !s.segs[a].retired
    requires s.segs[a].queue != [] && s.segs[a].remote == s.segs[a].queue[0] && SegOk(s, a)
    requires s.Pc(l.t).Harvesting? && s.Pc(l.t).key == l.key
    ensures CellOk(Harvested(s, l, a), l)
  {
    hide Of, IsChunk, ChunksInSegment, Chain, Distinct;
    var q := s.segs[a].queue;
    ChainPop(s.link, s.segs[a].remote, q);
    forall c | c in Tail(q)
      ensures c in q && c != q[0]
    {
    }
  }

  lemma HarvestedFrame(s: State, l: Cell, a: Addr, k: Cell)
    requires a in s.segs && s.segs[a].queue != [] && s.segs[a].remote == s.segs[a].queue[0] && k != l
    ensures var n := Harvested(s, l, a);
            n.Head(k) == s.Head(k) && n.List(k) == s.List(k) && n.Active(k) == s.Active(k) && n.link == s.link &&
            n.Pc(l.t) == Idle && (k.t != l.t ==> n.Pc(k.t) == s.Pc(k.t)) &&
            (forall c :: c in s.place && c !in s.segs[a].queue ==> c in n.place && n.place[c] == s.place[c]) &&
            (forall b :: b in s.segs ==>
              b in n.segs && n.segs[b].owner == s.segs[b].owner && n.segs[b].key == s.segs[b].key &&
              n.segs[b].retired == s.segs[b].retired)
  {
    hide Of;
  }

  lemma HarvestedCells(s: State, l: Cell, a: Addr)
    requires a in s.segs && l == Cell(s.segs[a].owner, s.segs[a].key) && !s.segs[a].retired
    requires s.segs[a].queue != [] && s.segs[a].queue[0] == s.segs[a].remote && s.segs[a].remote != 0
    requires s.Pc(l.t).Harvesting? && s.Pc(l.t).key == l.key
    requires CellsOk(s) && SegOk(s, a)
    ensures CellsOk(Harvested(s, l, a))
  {
    hide Of, IsChunk, ChunksInSegment, Chain, Distinct, Harvested;
    HarvestedOwnCell(s, l, a);
    forall k: Cell
      ensures CellOk(Harvested(s, l, a), k)
    {
      if k != l {
        HarvestedFrame(s, l, a, k);
        assert CellOk(s, k);
        CellFrame(s, Harvested(s, l, a), k);
      }
    }
  }

  lemma HarvestedThreads(s: State, l: Cell, a: Addr)
    requires a in s.segs && l == Cell(s.segs[a].owner, s.segs[a].key) && !s.segs[a].retired
    requires s.segs[a].queue != [] && s.segs[a].queue[0] == s.segs[a].remote && s.segs[a].remote != 0
    requires s.List(l) == [] && Freed(s.Pc(l.t)) == 0
    requires ThreadsOk(s) && SegOk(s, a)
    ensures ThreadsOk(Harvested(s, l, a))
  {
    hide Of, IsChunk, ChunksInSegment, Chain, Distinct;
    var n := Harvested(s, l, a);
    forall u: Tid
      ensures ThreadOk(n, u)
    {
      assert ThreadOk(s, u);
    }
  }

  lemma HarvestKeeps(s: State, t: Tid, key: Key, size: nat)
    requires Inv(s) && s.Pc(t) == Harvesting(key, size)
    ensures Safe(DoHarvest(s, t, key, size))
  {
    hide Of, IsChunk, ChunksInSegment, Chain, Distinct, ChunksOk, SegsOk, CellsOk;
    assert ThreadOk(s, t);
    CellRefilling(s, t, key);
    hide ThreadsOk;
    var l := Cell(t, key);
    var a := s.Active(l);
    var g := s.segs[a];
    if g.remote == 0 {
      ThreadMoves(s, t, Storing(key, size));
    } else {
      ChainEnds(s.link, g.remote, g.queue);
      ChainPop(s.link, g.remote, g.queue);
      HarvestedChunks(s, l, a);
      HarvestedSegs(s, l, a);
      HarvestedCells(s, l, a);
      HarvestedThreads(s, l, a);
      HarvestedReaper(s, l, a);
    }
  }

  lemma HarvestedReaper(s: State, l: Cell, a: Addr)
    requires a in s.segs && ReaperOk(s) && !s.segs[a].retired
    ensures ReaperOk(Harvested(s, l, a))
  {
    hide Distinct;
  }

  // ----- mapping and carving a fresh segment -----

  /** What the carving loop leaves in memory is a list of all chunks of the segment. */
  lemma CarvedChain(b: Addr, size: nat)
    requires IsBase(b) && Carvable(size)
    ensures var q := Carved(b, size, ChunksInSegment(size));
            q != [] && Chain(CarvedLinks(b, size), q[0], q) && Distinct(q) &&
            (forall c :: c in CarvedLinks(b, size) <==> c in q) &&
            (forall c :: c in q <==> IsChunk(b, size, c)) &&
            (forall c :: c in q ==> Of(c) == b && c > 0)
  {
    hide Of, Distinct, IsChunk, ChunksInSegment, IsBase, ChunkAt;
    var n := ChunksInSegment(size);
    var q := Carved(b, size, n);
    CarvedIsAll(b, size);
    CarvedAt(b, size, n);
    hide Carved;
    forall c | c in q
      ensures Of(c) == b && c > 0
    {
      ChunkInside(b, size, c);
    }
    forall i | 0 <= i < n
      ensures q[i] != 0 && q[i] in CarvedLinks(b, size) && CarvedLinks(b, size)[q[i]] == Nth(q, i + 1)
    {
      assert q[i] in q;
      CarvedLinkAt(b, size, n - 1 - i);
    }
  }

  lemma CarvedLinkAt(b: Addr, size: nat, k: nat)
    requires Carvable(size) && k < ChunksInSegment(size)
    ensures var c := ChunkAt(b, size, k);
            (if c < size || c == PayloadStart(b) then 0 else c - size) == if k == 0 then 0 else ChunkAt(b, size, k - 1)
  {
    if k > 0 {
      assert k * size == (k - 1) * size + size;
      assert (k - 1) * size >= 0;
    }
  }

  function Mapped(s: State, l: Cell, size: nat, b: Addr, q: seq<Addr>): State
    requires q != []
  {
    var link := s.link + CarvedLinks(b, size);
    s.WithSeg(b, Seg(l.t, l.key, size, false, 0, 0, false, [], {}))
     .(link := link,
       heads := s.heads[l := if q[0] in link then link[q[0]] else 0],
       lists := s.lists[l := Tail(q)],
       active := s.active[l := b],
       place := PlaceAll(s.place, q, Local)[q[0] := Held],
       index := if |s.index| < MAX_SEGMENTS then s.index + [b] else s.index)
     .Goto(l.t, Idle)
  }

  /** q lists the chunks of a fresh segment b, linked in memory. */
  ghost predicate Fresh(s: State, size: nat, b: Addr, q: seq<Addr>) {
    IsBase(b) && Carvable(size) && b !in s.segs && q != [] && Chain(CarvedLinks(b, size), q[0], q) && Distinct(q) &&
    (forall c :: c in CarvedLinks(b, size) <==> c in q) &&
    (forall c :: c in q <==> IsChunk(b, size, c)) && (forall c :: c in q ==> Of(c) == b && c > 0)
  }

  /** Chunks of segments already mapped lie outside the fresh one. */
  lemma MappedOldChunk(s: State, l: Cell, size: nat, b: Addr, q: seq<Addr>, c: Addr)
    requires Fresh(s, size, b, q) && s.Pc(l.t) == Mapping(l.key, size) && s.List(l) == []
    requires c in s.place && ChunkOk(s, c)
    ensures var n := Mapped(s, l, size, b, q);
            c !in q && c in n.place && n.place[c] == s.place[c] && n.Link(c) == s.Link(c) && ChunkOk(n, c)
  {
    hide Of, IsChunk, ChunksInSegment, Chain, Distinct, CarvedLinks;
  }

  lemma TailHas(q: seq<Addr>, c: Addr)
    requires q != [] && c in q && c != q[0]
    ensures c in Tail(q)
  {
  }

  lemma MappedNewChunk(s: State, l: Cell, size: nat, b: Addr, q: seq<Addr>, c: Addr)
    requires Fresh(s, size, b, q) && s.Pc(l.t) == Mapping(l.key, size) && c in q
    ensures c in Mapped(s, l, size, b, q).place && ChunkOk(Mapped(s, l, size, b, q), c)
  {
    hide Of, IsChunk, ChunksInSegment, Chain, Distinct, CarvedLinks, Tail;
    var n := Mapped(s, l, size, b, q);
    if c == q[0] {
      assert n.place[c] == Held;
    } else {
      assert n.place[c] == Local && c in Tail(q) by { TailHas(q, c); }
    }
  }

  lemma MappedPlaces(s: State, l: Cell, size: nat, b: Addr, q: seq<Addr>)
    requires Fresh(s, size, b, q)
    ensures forall c :: c in Mapped(s, l, size, b, q).place <==> c in s.place || c in q
    ensures Mapped(s, l, size, b, q).segs.Keys == s.segs.Keys + {b}
  {
    hide Of, IsChunk, ChunksInSegment, Chain, Distinct, CarvedLinks;
  }

  lemma MappedChunks(s: State, l: Cell, size: nat, b: Addr, q: seq<Addr>)
    requires q != [] && Fresh(s, size, b, q) && s.Pc(l.t) == Mapping(l.key, size) && s.List(l) == []
    requires ChunksOk(s)
    ensures ChunksOk(Mapped(s, l, size, b, q))
  {
    hide Mapped, Fresh, ChunkOk;
    MappedPlaces(s, l, size, b, q);
    forall c | c in Mapped(s, l, size, b, q).place
      ensures ChunkOk(Mapped(s, l, size, b, q), c)
    {
      if c in q {
        MappedNewChunk(s, l, size, b, q, c);
      } else {
        MappedOldChunk(s, l, size, b, q, c);
      }
    }
  }

  lemma MappedNewSeg(s: State, l: Cell, size: nat, b: Addr, q: seq<Addr>)
    requires Fresh(s, size, b, q)
    ensures SegOk(Mapped(s, l, size, b, q), b)
  {
    hide Of, ChunksInSegment, Chain, Distinct, CarvedLinks;
    EmptyChain(Mapped(s, l, size, b, q).link);
    MappedPlaces(s, l, size, b, q);
  }

  lemma MappedOldSeg(s: State, l: Cell, size: nat, b: Addr, q: seq<Addr>, d: Addr)
    requires q != [] && Fresh(s, size, b, q) && s.Pc(l.t) == Mapping(l.key, size)
    requires d in s.segs && SegOk(s, d) && ThreadOk(s, l.t)
    ensures SegOk(Mapped(s, l, size, b, q), d)
  {
    hide Of, IsChunk, ChunksInSegment, Chain, Distinct, CarvedLinks, Mapped;
    MappedFrame(s, l, size, b, q, Cell(l.t + 1, l.key));
    var k := Cell(s.segs[d].owner, s.segs[d].key);
    if k != l {
      MappedFrame(s, l, size, b, q, k);
    }
    SegFrame(s, Mapped(s, l, size, b, q), d);
  }

  lemma MappedSegs(s: State, l: Cell, size: nat, b: Addr, q: seq<Addr>)
    requires q != [] && Fresh(s, size, b, q) && s.Pc(l.t) == Mapping(l.key, size)
    requires SegsOk(s) && ThreadOk(s, l.t)
    ensures SegsOk(Mapped(s, l, size, b, q))
  {
    hide Mapped, Fresh, SegOk, ThreadOk;
    MappedPlaces(s, l, size, b, q);
    MappedNewSeg(s, l, size, b, q);
    forall d | d in Mapped(s, l, size, b, q).segs
      ensures SegOk(Mapped(s, l, size, b, q), d)
    {
      if d != b {
        MappedOldSeg(s, l, size, b, q, d);
      }
    }
  }

  lemma MappedOwnCell(s: State, l: Cell, size: nat, b: Addr, q: seq<Addr>)
    requires Fresh(s, size, b, q) && s.Pc(l.t) == Mapping(l.key, size)
    ensures CellOk(Mapped(s, l, size, b, q), l)
  {
    hide Of, IsChunk, ChunksInSegment, Chain, Distinct, CarvedLinks;
    var n := Mapped(s, l, size, b, q);
    ChainFrame(CarvedLinks(b, size), n.link, q[0], q);
    ChainPop(n.link, q[0], q);
    forall c | c in Tail(q)
      ensures c in n.place && n.place[c].Local? && Of(c) == b
    {
      assert c in q && c != q[0];
    }
  }

  lemma MappedFrame(s: State, l: Cell, size: nat, b: Addr, q: seq<Addr>, k: Cell)
    requires q != [] && b !in s.segs && k != l
    ensures var n := Mapped(s, l, size, b, q);
            n.Head(k) == s.Head(k) && n.List(k) == s.List(k) && n.Active(k) == s.Active(k) &&
            n.Pc(l.t) == Idle && (k.t != l.t ==> n.Pc(k.t) == s.Pc(k.t)) &&
            (forall c :: c in s.link && c !in CarvedLinks(b, size) ==> c in n.link && n.link[c] == s.link[c]) &&
            (forall c :: c in s.place && c !in q ==> c in n.place && n.place[c] == s.place[c]) &&
            (forall d :: d in s.segs ==> d in n.segs && n.segs[d] == s.segs[d]) &&
            b in n.segs && n.segs[b].owner == l.t && (forall d :: d in n.segs ==> d in s.segs || d == b)
  {
    hide Of, CarvedLinks;
  }

  lemma MappedOtherCell(s: State, l: Cell, size: nat, b: Addr, q: seq<Addr>, k: Cell)
    requires q != [] && Fresh(s, size, b, q) && s.Pc(l.t) == Mapping(l.key, size) && k != l
    requires CellOk(s, k) && forall c :: c in s.List(k) ==> c in s.place && ChunkOk(s, c)
    ensures CellOk(Mapped(s, l, size, b, q), k)
  {
    hide Of, IsChunk, ChunksInSegment, Chain, Distinct, CarvedLinks, Mapped;
    MappedFrame(s, l, size, b, q, k);
    forall c | c in s.List(k)
      ensures c !in q
    {
      assert Of(c) in s.segs;
    }
    CellFrame(s, Mapped(s, l, size, b, q), k);
  }

  lemma MappedCells(s: State, l: Cell, size: nat, b: Addr, q: seq<Addr>)
    requires q != [] && Fresh(s, size, b, q) && s.Pc(l.t) == Mapping(l.key, size) && s.List(l) == []
    requires CellsOk(s) && ChunksOk(s)
    ensures CellsOk(Mapped(s, l, size, b, q))
  {
    hide Mapped, Fresh, ChunkOk, Of, Chain, Distinct;
    forall k: Cell
      ensures CellOk(Mapped(s, l, size, b, q), k)
    {
      assert CellOk(s, k);
      if k == l {
        MappedOwnCell(s, l, size, b, q);
      } else {
        MappedOtherCell(s, l, size, b, q, k);
      }
    }
  }

  lemma MappedThread(s: State, l: Cell, size: nat, b: Addr, q: seq<Addr>, u: Tid)
    requires q != [] && Fresh(s, size, b, q) && s.Pc(l.t) == Mapping(l.key, size)
    requires ThreadOk(s, u) && (Freed(s.Pc(u)) != 0 ==> ChunkOk(s, s.Pc(u).c))
    ensures ThreadOk(Mapped(s, l, size, b, q), u)
  {
    hide Of, IsChunk, ChunksInSegment, Chain, Distinct, CarvedLinks, Mapped;
    if u == l.t {
      MappedFrame(s, l, size, b, q, Cell(u + 1, l.key));
    } else {
      forall key
        ensures Mapped(s, l, size, b, q).Active(Cell(u, key)) == s.Active(Cell(u, key))
      {
        MappedFrame(s, l, size, b, q, Cell(u, key));
      }
      MappedFrame(s, l, size, b, q, Cell(u, l.key));
      if Freed(s.Pc(u)) != 0 {
        var c := s.Pc(u).c;
        assert c !in q && c !in CarvedLinks(b, size);
      }
    }
  }

  lemma MappedThreads(s: State, l: Cell, size: nat, b: Addr, q: seq<Addr>)
    requires q != [] && Fresh(s, size, b, q) && s.Pc(l.t) == Mapping(l.key, size)
    requires ThreadsOk(s) && ChunksOk(s)
    ensures ThreadsOk(Mapped(s, l, size, b, q))
  {
    hide Mapped, Fresh, ChunkOk, Of, Chain, Distinct;
    forall u: Tid
      ensures ThreadOk(Mapped(s, l, size, b, q), u)
    {
      assert ThreadOk(s, u);
      MappedThread(s, l, size, b, q, u);
    }
  }

  lemma MappedReaper(s: State, l: Cell, size: nat, b: Addr, q: seq<Addr>)
    requires ReaperOk(s) && s.LockFree() && q != [] && b !in s.segs
    ensures ReaperOk(Mapped(s, l, size, b, q))
  {
    hide CarvedLinks, Mapped;
    var n := Mapped(s, l, size, b, q);
    MappedFrame(s, l, size, b, q, Cell(l.t + 1, l.key));
    assert n.reaper == s.reaper && (n.index == s.index || n.index == s.index + [b]) by { MappedIndex(s, l, size, b, q); }
    if s.reaper.Unmapping? {
      assert s.reaper.elig[0] in s.reaper.elig;
    }
    assert b !in s.index;
    assert Distinct(n.index);
    assert forall x :: Reclaimable(s, x) ==> Reclaimable(n, x);
  }

  lemma MappedIndex(s: State, l: Cell, size: nat, b: Addr, q: seq<Addr>)
    requires q != []
    ensures var n := Mapped(s, l, size, b, q);
            n.reaper == s.reaper && (n.index == s.index || n.index == s.index + [b])
  {
  }

  lemma NewSegmentKeeps(s: State, t: Tid, key: Key, size: nat, b: Addr)
    requires Inv(s) && s.Pc(t) == Mapping(key, size) && IsBase(b) && b !in s.segs && s.LockFree()
    ensures Safe(DoNewSegment(s, t, key, size, b))
  {
    hide Of, IsChunk, ChunksInSegment, Chain, Distinct, CarvedLinks, ChunksOk, SegsOk, CellsOk;
    var l, q := Cell(t, key), Carved(b, size, ChunksInSegment(size));
    assert ThreadOk(s, t);
    CellRefilling(s, t, key);
    CarvedChain(b, size);
    hide ThreadsOk, ReaperOk;
    MappedChunks(s, l, size, b, q);
    MappedSegs(s, l, size, b, q);
    MappedCells(s, l, size, b, q);
    MappedThreads(s, l, size, b, q);
    MappedReaper(s, l, size, b, q);
  }

  // ----- the sweep -----

  lemma SweepStartKeeps(s: State)
    requires Inv(s) && Enabled(s, SweepStart)
    ensures Safe(Next(s, SweepStart))
  {
    hide ChunksOk, SegsOk, CellsOk, ThreadsOk, Distinct;
    assert Distinct<Addr>([]) by { EmptyChain(map[]); }
    ReaperMoves(s, s.index, Scanning(0, []));
  }

  lemma SweepReadKeeps(s: State)
    requires Inv(s) && Enabled(s, SweepRead)
    ensures Safe(DoSweepRead(s))
  {
    hide ChunksOk, SegsOk, CellsOk, ThreadsOk, Distinct;
    var i, elig := s.reaper.i, s.reaper.elig;
    assert s.index[i] in s.segs;
    if s.segs[s.index[i]].retired {
      ReaperMoves(s, s.index, Weighing(i, elig));
    } else {
      assert s.index[..i + 1] == s.index[..i] + [s.index[i]];
      ReaperMoves(s, s.index, Scanning(i + 1, elig));
    }
  }

  lemma SweepWeighKeeps(s: State, wanted: bool)
    requires Inv(s) && Enabled(s, SweepWeigh(wanted))
    ensures Safe(DoSweepWeigh(s, wanted))
  {
    hide ChunksOk, SegsOk, CellsOk, ThreadsOk;
    var i := s.reaper.i;
    assert s.index[..i + 1] == s.index[..i] + [s.index[i]];
    assert s.index[i] !in s.index[..i];
    ReaperMoves(s, s.index, DoSweepWeigh(s, wanted).s.reaper);
  }

  lemma SweepUnlockKeeps(s: State)
    requires Inv(s) && Enabled(s, SweepUnlock)
    ensures Safe(Next(s, SweepUnlock))
  {
    hide ChunksOk, SegsOk, CellsOk, ThreadsOk, Distinct;
    ReaperMoves(s, s.index, Reaping(s.reaper.elig));
  }

  lemma SweepEndKeeps(s: State)
    requires Inv(s) && Enabled(s, SweepEnd)
    ensures Safe(Next(s, SweepEnd))
  {
    hide ChunksOk, SegsOk, CellsOk, ThreadsOk, Distinct;
    ReaperMoves(s, s.index, Resting);
  }

  /** Swap-remove takes out one occurrence and keeps everything else. */
  lemma {:induction false} SwapRemoved(q: seq<Addr>, x: Addr, i: nat)
    requires Distinct(q) && i <= |q| && x !in q[..i]
    ensures var r := SwapRemove(q, x, i);
            Distinct(r) && x !in r && (forall y :: y in r <==> y in q && y != x)
    decreases |q| - i
  {
    if i < |q| && q[i] != x {
      assert q[..i + 1] == q[..i] + [q[i]];
      SwapRemoved(q, x, i + 1);
    } else if i == |q| {
      assert q[..i] == q;
    } else {
      var n := |q| - 1;
      var r := SwapRemove(q, x, i);
      assert forall j :: 0 <= j < n ==> r[j] == if j == i then q[n] else q[j];
      forall y | y in q && y != x
        ensures y in r
      {
        var j :| 0 <= j < |q| && q[j] == y;
        assert r[if j == n then i else j] == y;
      }
    }
  }

  lemma UnregisterKeeps(s: State)
    requires Inv(s) && Enabled(s, Unregister)
    ensures Safe(Next(s, Unregister))
  {
    hide ChunksOk, SegsOk, CellsOk, ThreadsOk, Distinct;
    var elig := s.reaper.elig;
    SwapRemoved(s.index, elig[0], 0);
    ReaperMoves(s, SwapRemove(s.index, elig[0]), Unmapping(elig));
  }

  /** Retired with a zero counter: every chunk's free has been counted.  So no chunk of the segment
      is held, on a list, on the queue or in the middle of a free. */
  lemma ReclaimableIsEmpty(s: State, b: Addr)
    requires Inv(s) && Reclaimable(s, b)
    ensures forall c :: IsChunk(b, s.segs[b].size, c) ==> c in s.place && s.place[c].Done?
    ensures forall c :: c in s.place && Of(c) == b ==> s.place[c].Done?
  {
    hide Of, ChunksInSegment, Chain, Distinct, CellsOk, ThreadsOk;
    var g := s.segs[b];
    assert SegOk(s, b);
    ChunksCount(b, g.size);
    forall d | d in g.done
      ensures d in Chunks(b, g.size)
    {
      assert ChunkOk(s, d);
    }
    SubsetSize(g.done, Chunks(b, g.size));
    forall c | c in s.place && Of(c) == b
      ensures s.place[c].Done?
    {
      assert ChunkOk(s, c);
    }
  }

  // ----- giving a segment's memory back -----

  function Unmapped(s: State, b: Addr, r: Reaper): State {
    s.(segs := s.segs - {b}, link := Discard(s.link, b), place := Discard(s.place, b), reaper := r)
  }

  lemma UnmappedChunks(s: State, b: Addr, r: Reaper)
    requires b in s.segs && s.segs[b].retired
    requires forall c :: c in s.place && Of(c) == b ==> s.place[c].Done?
    requires ChunksOk(s)
    ensures ChunksOk(Unmapped(s, b, r))
  {
    hide Of, IsChunk, ChunksInSegment, Chain, Distinct;
    var n := Unmapped(s, b, r);
    forall d | d in n.place
      ensures ChunkOk(n, d)
    {
      assert d in s.place ==> ChunkOk(s, d);
    }
  }

  lemma UnmappedSegs(s: State, b: Addr, r: Reaper)
    requires b in s.segs && s.segs[b].retired
    requires forall c :: c in s.place && Of(c) == b ==> s.place[c].Done?
    requires SegsOk(s)
    ensures SegsOk(Unmapped(s, b, r))
  {
    hide Of, IsChunk, ChunksInSegment, Chain, Distinct;
    var n := Unmapped(s, b, r);
    forall d | d in n.segs
      ensures SegOk(n, d)
    {
      assert SegOk(s, d);
      SegFrame(s, n, d);
    }
  }

  lemma UnmappedCells(s: State, b: Addr, r: Reaper)
    requires b in s.segs && s.segs[b].retired
    requires forall c :: c in s.place && Of(c) == b ==> s.place[c].Done?
    requires CellsOk(s) && ChunksOk(s)
    ensures CellsOk(Unmapped(s, b, r))
  {
    hide Of, IsChunk, ChunksInSegment, Chain, Distinct;
    var n := Unmapped(s, b, r);
    forall l: Cell
      ensures CellOk(n, l)
    {
      assert CellOk(s, l);
      ChainFrame(s.link, n.link, s.Head(l), s.List(l));
    }
  }

  lemma UnmappedThreads(s: State, b: Addr, r: Reaper)
    requires b in s.segs && s.segs[b].retired
    requires forall c :: c in s.place && Of(c) == b ==> s.place[c].Done?
    requires ThreadsOk(s) && CellsOk(s)
    ensures ThreadsOk(Unmapped(s, b, r))
  {
    hide Of, IsChunk, ChunksInSegment, Chain, Distinct;
    var n := Unmapped(s, b, r);
    forall u: Tid
      ensures ThreadOk(n, u)
    {
      assert ThreadOk(s, u);
      assert forall key :: CellOk(s, Cell(u, key));
    }
  }

  lemma UnmappedReaper(s: State, b: Addr, elig: seq<Addr>)
    requires ReaperOk(s) && s.reaper == Unmapping(elig) && b == elig[0]
    ensures ReaperOk(Unmapped(s, b, Reaping(elig[1..])))
  {
    hide Of;
    var n := Unmapped(s, b, Reaping(elig[1..]));
    forall x | x in elig[1..]
      ensures Reclaimable(n, x)
    {
      assert x in elig && x != b;
    }
  }

  lemma UnmapKeeps(s: State)
    requires Inv(s) && Enabled(s, Unmap)
    ensures Safe(DoUnmap(s))
  {
    hide Of, IsChunk, ChunksInSegment, Chain, Distinct, ChunksOk, SegsOk, CellsOk, ThreadsOk;
    var b, r := s.reaper.elig[0], Reaping(s.reaper.elig[1..]);
    ReclaimableIsEmpty(s, b);
    UnmappedChunks(s, b, r);
    UnmappedSegs(s, b, r);
    UnmappedCells(s, b, r);
    UnmappedThreads(s, b, r);
    UnmappedReaper(s, b, s.reaper.elig);
  }

  function Decommitted(s: State, b: Addr, r: Reaper): State
    requires b in s.segs
  {
    s.WithSeg(b, s.segs[b].(decommitted := true)).(link := Discard(s.link, b), reaper := r)
  }

  lemma DecommittedChunks(s: State, b: Addr, r: Reaper)
    requires b in s.segs && s.segs[b].retired
    requires forall c :: c in s.place && Of(c) == b ==> s.place[c].Done?
    requires ChunksOk(s)
    ensures ChunksOk(Decommitted(s, b, r))
  {
    hide Of, IsChunk, ChunksInSegment, Chain, Distinct;
    var n := Decommitted(s, b, r);
    forall d | d in n.place
      ensures ChunkOk(n, d)
    {
      assert d in s.place ==> ChunkOk(s, d);
    }
  }

  lemma DecommittedSegs(s: State, b: Addr, r: Reaper)
    requires b in s.segs && s.segs[b].retired
    requires forall c :: c in s.place && Of(c) == b ==> s.place[c].Done?
    requires SegsOk(s)
    ensures SegsOk(Decommitted(s, b, r))
  {
    hide Of, IsChunk, ChunksInSegment, Chain, Distinct;
    var n := Decommitted(s, b, r);
    forall d | d in n.segs
      ensures SegOk(n, d)
    {
      assert SegOk(s, d);
      SegFrame(s, n, d);
    }
  }

  lemma DecommittedCells(s: State, b: Addr, r: Reaper)
    requires b in s.segs && s.segs[b].retired
    requires forall c :: c in s.place && Of(c) == b ==> s.place[c].Done?
    requires CellsOk(s) && ChunksOk(s)
    ensures CellsOk(Decommitted(s, b, r))
  {
    hide Of, IsChunk, ChunksInSegment, Chain, Distinct;
    var n := Decommitted(s, b, r);
    forall l: Cell
      ensures CellOk(n, l)
    {
      assert CellOk(s, l);
      ChainFrame(s.link, n.link, s.Head(l), s.List(l));
    }
  }

  lemma DecommittedThreads(s: State, b: Addr, r: Reaper)
    requires b in s.segs && s.segs[b].retired
    requires forall c :: c in s.place && Of(c) == b ==> s.place[c].Done?
    requires ThreadsOk(s)
    ensures ThreadsOk(Decommitted(s, b, r))
  {
    hide Of, IsChunk, ChunksInSegment, Chain, Distinct;
    var n := Decommitted(s, b, r);
    forall u: Tid
      ensures ThreadOk(n, u)
    {
      assert ThreadOk(s, u);
    }
  }

  lemma DecommittedReaper(s: State, b: Addr, elig: seq<Addr>)
    requires ReaperOk(s) && s.reaper == Reaping(elig) && elig != [] && b == elig[0]
    ensures b in s.segs && ReaperOk(Decommitted(s, b, Reaping(elig[1..])))
  {
    hide Of;
    assert elig[0] in elig;
    var n := Decommitted(s, b, Reaping(elig[1..]));
    forall x | x in elig[1..]
      ensures Reclaimable(n, x)
    {
      assert x in elig;
    }
  }

  lemma DecommitKeeps(s: State)
    requires Inv(s) && Enabled(s, Decommit)
    ensures Safe(DoDecommit(s))
  {
    hide Of, IsChunk, ChunksInSegment, Chain, Distinct, ChunksOk, SegsOk, CellsOk, ThreadsOk;
    var b, r := s.reaper.elig[0], Reaping(s.reaper.elig[1..]);
    ReclaimableIsEmpty(s, b);
    DecommittedChunks(s, b, r);
    DecommittedSegs(s, b, r);
    DecommittedCells(s, b, r);
    DecommittedThreads(s, b, r);
    DecommittedReaper(s, b, s.reaper.elig);
  }

  // ----- all runs -----

  /** No enabled step faults, and every step keeps the invariant. */
  lemma StepKeeps(s: State, step: Step)
    requires Inv(s) && Enabled(s, step)
    ensures Safe(Next(s, step))
  {
    hide Inv, DoAllocPop, DoHarvest, DoStoreLive, DoStoreRetired, DoNewSegment, DoClientStore, DoReadRetired,
         DoPushLocal, DoLoadRemote, DoWriteLink, DoCas, DoDecrement, DoSweepRead, DoSweepWeigh, DoUnmap, DoDecommit;
    match step
    case AllocPop(t, key) => AllocPopKeeps(s, t, key);
    case RefillStart(t, key, size) => RefillStartKeeps(s, t, key, size);
    case Harvest(t) => HarvestKeeps(s, t, s.Pc(t).key, s.Pc(t).size);
    case StoreLive(t) => StoreLiveKeeps(s, t, s.Pc(t).key, s.Pc(t).size);
    case StoreRetired(t) => StoreRetiredKeeps(s, t, s.Pc(t).key, s.Pc(t).size);
    case NewSegment(t, b) => NewSegmentKeeps(s, t, s.Pc(t).key, s.Pc(t).size, b);
    case ClientStore(c, v) => ClientStoreKeeps(s, c, v);
    case FreeStart(t, c) => FreeStartKeeps(s, t, c);
    case ReadRetired(t) => ReadRetiredKeeps(s, t, s.Pc(t).c);
    case PushLocal(t) => PushLocalKeeps(s, t, s.Pc(t).c);
    case LoadRemote(t) => LoadRemoteKeeps(s, t, s.Pc(t).c);
    case WriteLink(t) => WriteLinkKeeps(s, t, s.Pc(t).c, s.Pc(t).cur);
    case Cas(t, spurious) => CasKeeps(s, t, s.Pc(t).c, s.Pc(t).cur, spurious);
    case Decrement(t) => DecrementKeeps(s, t, s.Pc(t).c);
    case SweepStart => SweepStartKeeps(s);
    case SweepRead => SweepReadKeeps(s);
    case SweepWeigh(wanted) => SweepWeighKeeps(s, wanted);
    case SweepUnlock => SweepUnlockKeeps(s);
    case SweepEnd => SweepEndKeeps(s);
    case Unregister => UnregisterKeeps(s);
    case Unmap => UnmapKeeps(s);
    case Decommit => DecommitKeeps(s);
  }

  lemma {:induction false} ExecKeeps(s: State, steps: seq<Step>)
    requires Inv(s)
    ensures Safe(Exec(s, steps))
    decreases |steps|
  {
    hide Inv, Next, Enabled;
    if steps != [] {
      if Enabled(s, steps[0]) {
        StepKeeps(s, steps[0]);
        ExecKeeps(Next(s, steps[0]).s, steps[1..]);
      } else {
        ExecKeeps(s, steps[1..]);
      }
    }
  }

  /** No schedule of allocations, refills, frees and sweeps, in any reap mode, ever touches
      unmapped memory, and every state it reaches satisfies the invariant. */
  lemma RunsAreSafe(mode: Mode, steps: seq<Step>)
    ensures Safe(Exec(Init(mode), steps))
  {
    hide Inv;
    InitInv(mode);
    ExecKeeps(Init(mode), steps);
  }

  // ----- running a schedule step by step -----

  lemma Go(s: State, step: Step, rest: seq<Step>, n: State)
    requires Enabled(s, step) && Next(s, step) == Ok(n)
    ensures Exec(s, [step] + rest) == Exec(n, rest)
  {
    hide Enabled, Next;
    assert ([step] + rest)[1..] == rest;
  }

  lemma GoLast(s: State, step: Step, n: State)
    requires Enabled(s, step) && Next(s, step) == Ok(n)
    ensures Exec(s, [step]) == Ok(n)
  {
    hide Enabled, Next;
    assert [step] == [step] + [];
    Go(s, step, [], n);
  }
}
