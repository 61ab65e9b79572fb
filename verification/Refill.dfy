/** Refilling a free list and routing a free, as the runtime does them in memory: the carving loop,
    the harvest, the push.  Each operation, run without interruption, takes the process from one
    state of the reclamation system to the one its steps lead to. */
module Refill {
  import opened Lists
  import opened Segments
  import opened Reclamation
  import opened ReclamationSteps

  // ----- the protocol's steps of one uninterrupted operation -----

  function RefillSteps(s: State, t: Tid, key: Key, size: nat, b: Addr): seq<Step> {
    var a := s.Active(Cell(t, key));
    [RefillStart(t, key, size)] + (
      if a == 0 then [NewSegment(t, b)]
      else if a in s.segs && s.segs[a].remote != 0 then [Harvest(t)]
      else [Harvest(t)] + ([StoreLive(t)] + ([StoreRetired(t)] + [NewSegment(t, b)])))
  }

  /** Pushing after some compare-and-swaps failed. */
  function PushSteps(t: Tid, failures: nat): seq<Step> {
    [WriteLink(t)] + ([Cas(t, failures > 0)] + (if failures == 0 then [] else PushSteps(t, failures - 1)))
  }

  function FreeSteps(s: State, t: Tid, c: Addr, failures: nat): seq<Step> {
    [FreeStart(t, c)] + ([ReadRetired(t)] +
    (if Of(c) !in s.segs then []
     else if s.segs[Of(c)].retired then [Decrement(t)]
     else if s.segs[Of(c)].owner == t then [PushLocal(t)]
     else [LoadRemote(t)] + PushSteps(t, failures)))
  }

  /** A thread that begins to refill: either it has no segment yet, or its active one is mapped. */
  lemma RefillBegins(s: State, t: Tid, key: Key, size: nat)
    requires Inv(s) && Enabled(s, RefillStart(t, key, size))
    ensures var a, n := s.Active(Cell(t, key)), s.Goto(t, if s.Active(Cell(t, key)) == 0 then Mapping(key, size)
                                                          else Harvesting(key, size));
            Next(s, RefillStart(t, key, size)) == Ok(n) && Inv(n) &&
            (a != 0 ==> a in s.segs && (s.segs[a].remote != 0 ==>
                                        Of(s.segs[a].remote) in s.segs && s.segs[a].remote in s.link))
  {
    hide Inv, Of, IsChunk, ChunksInSegment, Chain, Distinct;
    RefillStartKeeps(s, t, key, size);
    var a := s.Active(Cell(t, key));
    if a != 0 {
      CellRefilling(s.Goto(t, Harvesting(key, size)), t, key);
      if s.segs[a].remote != 0 {
        RemoteIsMapped(s, a);
      }
    }
  }

  lemma RemoteIsMapped(s: State, a: Addr)
    requires Inv(s) && a in s.segs && s.segs[a].remote != 0
    ensures Of(s.segs[a].remote) in s.segs && s.segs[a].remote in s.link
  {
    hide Of, IsChunk, ChunksInSegment, Distinct, CellsOk, ThreadsOk, ReaperOk;
    assert SegOk(s, a);
    assert s.segs[a].remote in s.segs[a].queue;
    PlacedIsMapped(s, s.segs[a].remote);
  }

  /** The remote queue is not empty: its first chunk is served, the rest becomes the local list. */
  lemma HarvestPath(s: State, t: Tid, key: Key, size: nat)
    requires Inv(s) && Enabled(s, RefillStart(t, key, size))
    requires var a := s.Active(Cell(t, key)); a != 0 && (a in s.segs ==> s.segs[a].remote != 0)
    ensures var a := s.Active(Cell(t, key));
            a in s.segs && Exec(s, [RefillStart(t, key, size)] + [Harvest(t)]) == Ok(Harvested(s, Cell(t, key), a))
  {
    hide Inv, Of, Exec, Next, Harvested;
    RefillBegins(s, t, key, size);
    var l := Cell(t, key);
    var a, n := s.Active(l), s.Goto(t, Harvesting(key, size));
    Go(s, RefillStart(t, key, size), [Harvest(t)], n);
    HarvestRuns(s, n, t, key, size);
    GoLast(n, Harvest(t), Harvested(s, l, a));
  }

  lemma HarvestRuns(s: State, n: State, t: Tid, key: Key, size: nat)
    requires n == s.Goto(t, Harvesting(key, size))
    requires var a := s.Active(Cell(t, key)); a in s.segs && s.segs[a].remote != 0 && Of(s.segs[a].remote) in s.segs
    ensures Next(n, Harvest(t)) == Ok(Harvested(s, Cell(t, key), s.Active(Cell(t, key))))
  {
    hide Of, PlaceAll, Tail;
    var l, a := Cell(t, key), s.Active(Cell(t, key));
    assert Harvested(n, l, a).pcs == Harvested(s, l, a).pcs;
    assert DoHarvest(n, t, key, size) == Ok(Harvested(n, l, a));
  }

  /** No active segment: a fresh one is mapped and carved. */
  lemma FirstPath(s: State, t: Tid, key: Key, size: nat, b: Addr)
    requires Inv(s) && Enabled(s, RefillStart(t, key, size)) && IsBase(b) && b !in s.segs && s.LockFree()
    requires s.Active(Cell(t, key)) == 0
    ensures var q := Carved(b, size, ChunksInSegment(size));
            q != [] && Exec(s, [RefillStart(t, key, size)] + [NewSegment(t, b)]) ==
                       Ok(Mapped(s, Cell(t, key), size, b, q))
  {
    hide Inv, Exec, Carved, CarvedLinks, PlaceAll;
    RefillBegins(s, t, key, size);
    var n := s.Goto(t, Mapping(key, size));
    Go(s, RefillStart(t, key, size), [NewSegment(t, b)], n);
    MappingRuns(n, s, t, key, size, b);
  }

  /** The last step, wherever the thread came from. */
  lemma MappingRuns(n: State, s: State, t: Tid, key: Key, size: nat, b: Addr)
    requires n == s.Goto(t, Mapping(key, size)) && Carvable(size) && IsBase(b) && b !in s.segs && s.LockFree()
    ensures var q := Carved(b, size, ChunksInSegment(size));
            q != [] && Exec(n, [NewSegment(t, b)]) == Ok(Mapped(s, Cell(t, key), size, b, q))
  {
    hide Exec, CarvedLinks, PlaceAll;
    CarvedIsAll(b, size);
    var q := Carved(b, size, ChunksInSegment(size));
    hide Carved;
    assert n.pcs[t := Idle] == s.pcs[t := Idle];
    GoLast(n, NewSegment(t, b), Mapped(s, Cell(t, key), size, b, q));
  }

  /** s with segment a retired, every chunk of it counted as out. */
  function RetiredSegment(s: State, a: Addr): State
    requires a in s.segs
  {
    s.WithSeg(a, s.segs[a].(live := ChunksInSegment(s.segs[a].size) % W32, retired := true))
  }

  /** An empty queue: the active segment is retired, then a fresh one mapped and carved. */
  lemma RetirePath(s: State, t: Tid, key: Key, size: nat, b: Addr)
    requires Inv(s) && Enabled(s, RefillStart(t, key, size)) && IsBase(b) && b !in s.segs && s.LockFree()
    requires var a := s.Active(Cell(t, key)); a != 0 && (a in s.segs ==> s.segs[a].remote == 0)
    ensures var a, q := s.Active(Cell(t, key)), Carved(b, size, ChunksInSegment(size));
            a in s.segs && q != [] &&
            Exec(s, [RefillStart(t, key, size)] + ([Harvest(t)] +
                    ([StoreLive(t)] + ([StoreRetired(t)] + [NewSegment(t, b)])))) ==
            Ok(Mapped(RetiredSegment(s, a), Cell(t, key), size, b, q))
  {
    hide Inv, Exec, Carved, CarvedLinks, PlaceAll, ChunksInSegment, Of, RetiredSegment;
    RefillBegins(s, t, key, size);
    var a, last := s.Active(Cell(t, key)), [NewSegment(t, b)];
    var s1 := s.Goto(t, Harvesting(key, size));
    var s2 := s1.Goto(t, Storing(key, size));
    Go(s, RefillStart(t, key, size), [Harvest(t)] + ([StoreLive(t)] + ([StoreRetired(t)] + last)), s1);
    Go(s1, Harvest(t), [StoreLive(t)] + ([StoreRetired(t)] + last), s2);
    var r := RetiredSegment(s, a);
    RetireRuns(s, s2, t, key, size, last);
    RetiringFrame(s, a);
    MappingRuns(r.Goto(t, Mapping(key, size)), r, t, key, size, b);
  }

  lemma RetiringFrame(s: State, a: Addr)
    requires a in s.segs
    ensures var r := RetiredSegment(s, a); r.segs.Keys == s.segs.Keys && r.reaper == s.reaper
  {
  }

  lemma RetireRuns(s: State, n: State, t: Tid, key: Key, size: nat, last: seq<Step>)
    requires n.Pc(t) == Storing(key, size) && n == s.(pcs := n.pcs) && s.Active(Cell(t, key)) in s.segs
    requires n.pcs == s.pcs[t := Harvesting(key, size)][t := Storing(key, size)]
    ensures Exec(n, [StoreLive(t)] + ([StoreRetired(t)] + last)) ==
            Exec(RetiredSegment(s, s.Active(Cell(t, key))).Goto(t, Mapping(key, size)), last)
  {
    hide Exec, ChunksInSegment, RetiredSegment;
    var a := s.Active(Cell(t, key));
    var m := n.WithSeg(a, s.segs[a].(live := ChunksInSegment(s.segs[a].size) % W32)).Goto(t, Retiring(key, size));
    Go(n, StoreLive(t), [StoreRetired(t)] + last, m);
    FlagRuns(s, m, t, key, size, last);
  }

  lemma FlagRuns(s: State, m: State, t: Tid, key: Key, size: nat, last: seq<Step>)
    requires s.Active(Cell(t, key)) in s.segs
    requires var a := s.Active(Cell(t, key));
             m == s.(segs := s.segs[a := s.segs[a].(live := ChunksInSegment(s.segs[a].size) % W32)],
                     pcs := s.pcs[t := Harvesting(key, size)][t := Storing(key, size)][t := Retiring(key, size)])
    ensures Exec(m, [StoreRetired(t)] + last) ==
            Exec(RetiredSegment(s, s.Active(Cell(t, key))).Goto(t, Mapping(key, size)), last)
  {
    hide Exec, ChunksInSegment;
    var a := s.Active(Cell(t, key));
    var n := m.WithSeg(a, m.segs[a].(retired := true)).Goto(t, Mapping(key, size));
    Go(m, StoreRetired(t), last, n);
    assert n.segs == RetiredSegment(s, a).segs;
    assert n.pcs == s.pcs[t := Mapping(key, size)];
  }

  // ----- where a free leaves the system -----

  /** c's free is counted. */
  function Counted(s: State, t: Tid, c: Addr): State
    requires Of(c) in s.segs
  {
    var g := s.segs[Of(c)];
    s.WithSeg(Of(c), g.(live := (g.live + W32 - 1) % W32, done := g.done + {c}))
     .(place := s.place[c := Done]).Goto(t, Idle)
  }

  /** c heads the owner's list. */
  function OnLocal(s: State, t: Tid, c: Addr): State
    requires Of(c) in s.segs
  {
    var l := Cell(t, s.segs[Of(c)].key);
    s.(link := s.link[c := s.Head(l)], heads := s.heads[l := c], lists := s.lists[l := [c] + s.List(l)],
       place := s.place[c := Local]).Goto(t, Idle)
  }

  /** c heads the remote queue. */
  function OnRemote(s: State, t: Tid, c: Addr): State
    requires Of(c) in s.segs
  {
    var g := s.segs[Of(c)];
    s.WithSeg(Of(c), g.(remote := c, queue := [c] + g.queue))
     .(link := s.link[c := g.remote], place := s.place[c := Queued]).Goto(t, Idle)
  }

  function AfterFree(s: State, t: Tid, c: Addr): State
    requires Of(c) in s.segs
  {
    if s.segs[Of(c)].retired then Counted(s, t, c)
    else if s.segs[Of(c)].owner == t then OnLocal(s, t, c)
    else OnRemote(s, t, c)
  }

  lemma WritesLink(s: State, t: Tid, c: Addr, cur: Addr)
    requires Of(c) in s.segs && s.Pc(t) == Linking(c, cur)
    ensures Enabled(s, WriteLink(t)) &&
            Next(s, WriteLink(t)) == Ok(s.(link := s.link[c := cur], pcs := s.pcs[t := Swapping(c, cur)]))
  {
    hide Of;
  }

  lemma Swaps(s: State, n: State, t: Tid, c: Addr)
    requires Of(c) in s.segs
    requires var cur := s.segs[Of(c)].remote;
             n == s.(link := s.link[c := cur], pcs := s.pcs[t := Swapping(c, cur)])
    ensures Enabled(n, Cas(t, false)) && Next(n, Cas(t, false)) == Ok(OnRemote(s, t, c))
  {
    hide Of;
    assert n.pcs[t := Idle] == s.pcs[t := Idle];
  }

  lemma PushSucceeds(s: State, t: Tid, c: Addr)
    requires Of(c) in s.segs && s.Pc(t) == Linking(c, s.segs[Of(c)].remote)
    ensures Exec(s, [WriteLink(t)] + [Cas(t, false)]) == Ok(OnRemote(s, t, c))
  {
    hide Exec, Of, OnRemote, Next, Enabled;
    var cur := s.segs[Of(c)].remote;
    var n := s.(link := s.link[c := cur], pcs := s.pcs[t := Swapping(c, cur)]);
    WritesLink(s, t, c, cur);
    Go(s, WriteLink(t), [Cas(t, false)], n);
    Swaps(s, n, t, c);
    GoLast(n, Cas(t, false), OnRemote(s, t, c));
  }

  /** A failed compare-and-swap leaves nothing but the link, which the next try writes again. */
  lemma PushFails(s: State, t: Tid, c: Addr, rest: seq<Step>)
    requires Of(c) in s.segs && s.Pc(t) == Linking(c, s.segs[Of(c)].remote)
    ensures var n := s.(link := s.link[c := s.segs[Of(c)].remote], pcs := s.pcs[t := s.Pc(t)]);
            Exec(s, [WriteLink(t)] + ([Cas(t, true)] + rest)) == Exec(n, rest)
  {
    hide Exec, Of, Next, Enabled;
    var cur := s.segs[Of(c)].remote;
    var m := s.(link := s.link[c := cur], pcs := s.pcs[t := Swapping(c, cur)]);
    var n := s.(link := s.link[c := cur], pcs := s.pcs[t := s.Pc(t)]);
    WritesLink(s, t, c, cur);
    Go(s, WriteLink(t), [Cas(t, true)] + rest, m);
    Misses(s, m, t, c);
    Go(m, Cas(t, true), rest, n);
  }

  lemma Misses(s: State, n: State, t: Tid, c: Addr)
    requires Of(c) in s.segs
    requires var cur := s.segs[Of(c)].remote;
             n == s.(link := s.link[c := cur], pcs := s.pcs[t := Swapping(c, cur)])
    ensures var cur := s.segs[Of(c)].remote;
            Enabled(n, Cas(t, true)) &&
            Next(n, Cas(t, true)) == Ok(s.(link := s.link[c := cur], pcs := s.pcs[t := Linking(c, cur)]))
  {
    hide Of;
    var cur := s.segs[Of(c)].remote;
    assert n.pcs[t := Linking(c, cur)] == s.pcs[t := Linking(c, cur)];
  }

  /** A push succeeds whatever number of compare-and-swaps fail spuriously first. */
  lemma {:induction false} Pushed(s: State, t: Tid, c: Addr, failures: nat)
    requires Of(c) in s.segs && s.Pc(t) == Linking(c, s.segs[Of(c)].remote)
    ensures Exec(s, PushSteps(t, failures)) == Ok(OnRemote(s, t, c))
    decreases failures
  {
    hide Exec, Of, OnRemote;
    if failures == 0 {
      PushSucceeds(s, t, c);
      assert [Cas(t, false)] + [] == [Cas(t, false)];
    } else {
      var n := s.(link := s.link[c := s.segs[Of(c)].remote], pcs := s.pcs[t := s.Pc(t)]);
      PushFails(s, t, c, PushSteps(t, failures - 1));
      Pushed(n, t, c, failures - 1);
      SameRemote(s, n, t, c);
    }
  }

  lemma SameRemote(s: State, n: State, t: Tid, c: Addr)
    requires Of(c) in s.segs
    requires n == s.(link := s.link[c := s.segs[Of(c)].remote], pcs := s.pcs[t := s.Pc(t)])
    ensures OnRemote(n, t, c) == OnRemote(s, t, c)
  {
    assert n.pcs[t := Idle] == s.pcs[t := Idle];
  }

  /** Routing: a retired segment's chunk is counted, the owner's goes on its list, any other on the
      remote queue. */
  lemma FreeRuns(s: State, t: Tid, c: Addr, failures: nat)
    requires Inv(s) && Enabled(s, FreeStart(t, c))
    ensures Of(c) in s.segs && Exec(s, FreeSteps(s, t, c, failures)) == Ok(AfterFree(s, t, c))
  {
    hide Inv, Of, Exec, Counted, OnLocal, OnRemote, PushSteps, Routed;
    PlacedIsMapped(s, c);
    var g := s.segs[Of(c)];
    if g.retired {
      FreeReads(s, t, c, [Decrement(t)]);
      DecrementEnds(s, t, c);
    } else if g.owner == t {
      FreeReads(s, t, c, [PushLocal(t)]);
      PushLocalEnds(s, t, c);
    } else {
      FreeReads(s, t, c, [LoadRemote(t)] + PushSteps(t, failures));
      PushRemoteEnds(s, t, c, failures);
    }
  }

  /** The thread has read the retired flag (and the owner): what it does next. */
  function Routed(s: State, t: Tid, c: Addr): State
    requires Of(c) in s.segs
  {
    var g := s.segs[Of(c)];
    s.(place := s.place[c := Flight(t)],
       pcs := s.pcs[t := if g.retired then Dropping(c) else if g.owner == t then Pushing(c) else Loading(c)])
  }

  lemma FreeReads(s: State, t: Tid, c: Addr, rest: seq<Step>)
    requires Enabled(s, FreeStart(t, c)) && Of(c) in s.segs
    ensures Exec(s, [FreeStart(t, c)] + ([ReadRetired(t)] + rest)) == Exec(Routed(s, t, c), rest)
  {
    hide Of, Exec;
    var m := s.(place := s.place[c := Flight(t)]).Goto(t, Freeing(c));
    Go(s, FreeStart(t, c), [ReadRetired(t)] + rest, m);
    assert m.pcs[t := Routed(s, t, c).Pc(t)] == Routed(s, t, c).pcs;
    Go(m, ReadRetired(t), rest, Routed(s, t, c));
  }

  lemma DecrementEnds(s: State, t: Tid, c: Addr)
    requires Of(c) in s.segs && s.segs[Of(c)].retired
    ensures Exec(Routed(s, t, c), [Decrement(t)]) == Ok(Counted(s, t, c))
  {
    hide Of, Exec;
    var n := Routed(s, t, c);
    assert n.pcs[t := Idle] == s.pcs[t := Idle] && n.place[c := Done] == s.place[c := Done];
    GoLast(n, Decrement(t), Counted(s, t, c));
  }

  lemma PushLocalEnds(s: State, t: Tid, c: Addr)
    requires Of(c) in s.segs && !s.segs[Of(c)].retired && s.segs[Of(c)].owner == t
    ensures Exec(Routed(s, t, c), [PushLocal(t)]) == Ok(OnLocal(s, t, c))
  {
    hide Of, Exec;
    var n := Routed(s, t, c);
    assert n.pcs[t := Idle] == s.pcs[t := Idle] && n.place[c := Local] == s.place[c := Local];
    GoLast(n, PushLocal(t), OnLocal(s, t, c));
  }

  lemma PushRemoteEnds(s: State, t: Tid, c: Addr, failures: nat)
    requires Of(c) in s.segs && !s.segs[Of(c)].retired && s.segs[Of(c)].owner != t
    ensures Exec(Routed(s, t, c), [LoadRemote(t)] + PushSteps(t, failures)) == Ok(OnRemote(s, t, c))
  {
    hide Of, Exec, PushSteps, Next, Enabled;
    var n := Routed(s, t, c);
    var m := n.Goto(t, Linking(c, s.segs[Of(c)].remote));
    LoadRuns(s, t, c);
    Go(n, LoadRemote(t), PushSteps(t, failures), m);
    Pushed(m, t, c, failures);
    assert m.pcs[t := Idle] == s.pcs[t := Idle] && m.place[c := Queued] == s.place[c := Queued];
  }

  lemma LoadRuns(s: State, t: Tid, c: Addr)
    requires Of(c) in s.segs && !s.segs[Of(c)].retired && s.segs[Of(c)].owner != t
    ensures var n := Routed(s, t, c);
            Enabled(n, LoadRemote(t)) &&
            Next(n, LoadRemote(t)) == Ok(n.Goto(t, Linking(c, s.segs[Of(c)].remote)))
  {
    hide Of;
  }

  // ----- the carving loop's links -----

  /** The links of the k lowest chunks. */
  function LinksUpTo(b: Addr, size: nat, k: nat): map<Addr, Addr> {
    if k == 0 then map[] else LinksUpTo(b, size, k - 1)[ChunkAt(b, size, k - 1) := HeadAt(b, size, k - 1)]
  }

  /** The head of the list while k chunks have been carved. */
  function HeadAt(b: Addr, size: nat, k: nat): Addr {
    if k == 0 then 0 else ChunkAt(b, size, k - 1)
  }

  lemma {:induction false} LinkOf(b: Addr, size: nat, k: nat, j: nat)
    requires size > 0 && j < k
    ensures ChunkAt(b, size, j) in LinksUpTo(b, size, k) &&
            LinksUpTo(b, size, k)[ChunkAt(b, size, j)] == HeadAt(b, size, j)
  {
    hide ChunkAt, HeadAt;
    if j < k - 1 {
      LinkOf(b, size, k - 1, j);
      ChunksApart(b, size, j, k - 1);
    }
  }

  lemma {:induction false} LinkedIsCarved(b: Addr, size: nat, k: nat, c: Addr)
    requires c in LinksUpTo(b, size, k)
    ensures exists j: nat :: j < k && c == ChunkAt(b, size, j)
  {
    hide ChunkAt, HeadAt;
    if c != ChunkAt(b, size, k - 1) {
      LinkedIsCarved(b, size, k - 1, c);
    }
  }

  lemma LinksAreCarved(b: Addr, size: nat)
    requires IsBase(b) && Carvable(size)
    ensures LinksUpTo(b, size, ChunksInSegment(size)) == CarvedLinks(b, size)
  {
    hide ChunkAt, ChunksInSegment, LinksUpTo, Carved, IsBase, HeadAt;
    var n := ChunksInSegment(size);
    CarvedIsAll(b, size);
    forall c | c in LinksUpTo(b, size, n)
      ensures c in CarvedLinks(b, size)
    {
      LinkedIsCarved(b, size, n, c);
    }
    forall c | c in CarvedLinks(b, size)
      ensures c in LinksUpTo(b, size, n) && LinksUpTo(b, size, n)[c] == CarvedLinks(b, size)[c]
    {
      var j: nat :| j < n && c == ChunkAt(b, size, j);
      LinkOf(b, size, n, j);
      LinkIsHead(b, size, j);
    }
  }

  lemma LinkIsHead(b: Addr, size: nat, j: nat)
    requires Carvable(size) && j < ChunksInSegment(size)
    ensures var c := ChunkAt(b, size, j);
            HeadAt(b, size, j) == if c < size || c == PayloadStart(b) then 0 else c - size
  {
    CarvedLinkAt(b, size, j);
  }

  /** Walking a harvested chain to its end, as the producer-consumer refill does to count it. */
  method CountChain(link: map<Addr, Addr>, head: Addr, ghost q: seq<Addr>) returns (drained: nat)
    requires Chain(link, head, q)
    ensures drained == |q|
  {
    drained := 0;
    var chain := head;
    while chain != 0
      invariant drained <= |q| && chain == Nth(q, drained)
      decreases |q| - drained
    {
      drained := drained + 1;
      chain := link[chain];
    }
  }

  /** The process memory; the ghost fields are the history and the other threads' positions. */
  class Process {
    var mode: Mode
    var segs: map<Addr, Seg>
    var link: map<Addr, Addr>
    var heads: map<Cell, Addr>
    var active: map<Cell, Addr>
    var index: seq<Addr>
    ghost var lists: map<Cell, seq<Addr>>
    ghost var pcs: map<Tid, Pc>
    ghost var reaper: Reaper
    ghost var place: map<Addr, Place>

    ghost function View(): State
      reads this
    {
      State(mode, segs, link, heads, active, lists, pcs, index, reaper, place)
    }

    /** The carving loop: links every chunk of a fresh segment, lowest first, each to the one before. */
    method Carve(b: Addr, size: nat) returns (head: Addr)
      requires IsBase(b) && Carvable(size)
      modifies this`link
      ensures link == old(link) + CarvedLinks(b, size)
      ensures var q := Carved(b, size, ChunksInSegment(size)); q != [] && head == q[0]
    {
      hide ChunkAt, ChunksInSegment, Carved, IsChunk, Chain;
      ghost var n := ChunksInSegment(size);
      ghost var k := 0;
      var p := PayloadStart(b);
      head := 0;
      assert p == ChunkAt(b, size, 0) by { ChunkStart(b, size); }
      while p + size <= SegmentEnd(b)
        invariant k <= n && p == ChunkAt(b, size, k) && head == HeadAt(b, size, k)
        invariant link == old(link) + LinksUpTo(b, size, k)
        invariant p >= PayloadStart(b)
        decreases SegmentEnd(b) - p
      {
        assert k < n by { ChunkFits(b, size, k); }
        link := link[p := head];
        head := p;
        ChunkNext(b, size, k);
        p := p + size;
        k := k + 1;
      }
      assert k == n by { ChunkFits(b, size, k); }
      LinksAreCarved(b, size);
      CarvedChain(b, size);
      CarvedAt(b, size, n);
    }

    /** The exchange: the whole remote queue, leaving none. */
    method MpscHarvest(a: Addr) returns (chain: Addr)
      requires a in segs
      modifies this`segs
      ensures chain == old(segs)[a].remote
      ensures segs == old(segs)[a := old(segs)[a].(remote := 0, queue := [])]
    {
      chain := segs[a].remote;
      segs := segs[a := segs[a].(remote := 0, queue := [])];
    }

    /** The first harvested chunk is served; the others become the thread's list. */
    method ServeHarvested(l: Cell, ghost s: State, ghost a: Addr, harvested: Addr) returns (chunk: Addr)
      requires a in s.segs && s.segs[a].remote == harvested && harvested in link
      requires segs == s.segs[a := s.segs[a].(remote := 0, queue := [])] && View() == s.(segs := segs)
      modifies this
      ensures View() == Harvested(s, l, a) && chunk == harvested && chunk in place && place[chunk] == Held
    {
      hide PlaceAll, Tail;
      chunk := harvested;
      heads := heads[l := link[harvested]];
      lists := lists[l := Tail(s.segs[a].queue)];
      place := PlaceAll(place, s.segs[a].queue, Local)[chunk := Held];
      pcs := pcs[l.t := Idle];
    }

    /** Every chunk of the drained active segment is out: count them all, then set the flag. */
    method Retire(a: Addr)
      requires a in segs
      modifies this`segs
      ensures View() == RetiredSegment(old(View()), a)
    {
      segs := segs[a := segs[a].(live := ChunksInSegment(segs[a].size) % W32)];
      segs := segs[a := segs[a].(retired := true)];
    }

    /** The head of the carved list is served, the rest becomes the thread's list. */
    method ServeCarved(l: Cell, head: Addr, ghost q: seq<Addr>)
      requires q != [] && head == q[0] && head in link
      modifies this
      ensures View() == old(View()).(heads := old(heads)[l := old(link)[head]], lists := old(lists)[l := Tail(q)],
                                     place := PlaceAll(old(place), q, Local)[head := Held],
                                     pcs := old(pcs)[l.t := Idle])
    {
      hide PlaceAll, Tail;
      heads := heads[l := link[head]];
      lists := lists[l := Tail(q)];
      place := PlaceAll(place, q, Local)[head := Held];
      pcs := pcs[l.t := Idle];
    }

    /** Maps a segment at b, makes it the active one, carves it and serves its last chunk. */
    method MapAndCarve(l: Cell, size: nat, b: Addr) returns (chunk: Addr)
      requires IsBase(b) && Carvable(size)
      modifies this
      ensures var q := Carved(b, size, ChunksInSegment(size));
              q != [] && View() == Mapped(old(View()), l, size, b, q) && chunk == q[0] &&
              chunk in place && place[chunk] == Held
    {
      hide Carved, CarvedLinks, PlaceAll, ChunksInSegment, IsBase, Tail;
      segs := segs[b := Seg(l.t, l.key, size, false, 0, 0, false, [], {})];
      index := if |index| < MAX_SEGMENTS then index + [b] else index;
      active := active[l := b];
      chunk := Carve(b, size);
      CarvedHead(b, size);
      ServeCarved(l, chunk, Carved(b, size, ChunksInSegment(size)));
    }

    /** Retires the drained segment a and replaces it. */
    method Replace(l: Cell, size: nat, b: Addr, a: Addr) returns (chunk: Addr)
      requires a in segs && IsBase(b) && Carvable(size)
      modifies this
      ensures var q := Carved(b, size, ChunksInSegment(size));
              q != [] && View() == Mapped(RetiredSegment(old(View()), a), l, size, b, q) &&
              chunk in place && place[chunk] == Held
    {
      hide Carved, ChunksInSegment, IsBase, RetiredSegment, Mapped;
      Retire(a);
      chunk := MapAndCarve(l, size, b);
    }

    /** freelist_refill, and multi_refill for a size class. */
    method Refill(t: Tid, key: Key, size: nat, b: Addr) returns (chunk: Addr)
      requires Inv(View()) && Enabled(View(), RefillStart(t, key, size))
      requires IsBase(b) && b !in segs && View().LockFree()
      modifies this
      ensures Ok(View()) == Exec(old(View()), RefillSteps(old(View()), t, key, size, b))
      ensures chunk in place && place[chunk] == Held
    {
      hide Inv, Exec, Carved, ChunksInSegment, Of, IsBase, RetiredSegment, Mapped, Harvested, Next;
      var l := Cell(t, key);
      ghost var s := View();
      RefillBegins(s, t, key, size);
      var a := if l in active then active[l] else 0;
      if a == 0 {
        FirstPath(s, t, key, size, b);
        chunk := MapAndCarve(l, size, b);
      } else {
        var harvested := MpscHarvest(a);
        if harvested != 0 {
          HarvestPath(s, t, key, size);
          chunk := ServeHarvested(l, s, a, harvested);
        } else {
          EmptyQueue(s, a);
          assert segs == s.segs;
          RetirePath(s, t, key, size, b);
          chunk := Replace(l, size, b, a);
        }
      }
    }

    /** mpsc_push; failures is the number of times the weak compare-and-swap fails spuriously. */
    method MpscPush(b: Addr, c: Addr, failures: nat)
      requires b in segs
      modifies this`segs, this`link
      ensures link == old(link)[c := old(segs)[b].remote]
      ensures segs == old(segs)[b := old(segs)[b].(remote := c, queue := [c] + old(segs)[b].queue)]
    {
      var cur, failed := segs[b].remote, 0;
      link := link[c := cur];
      while failed < failures
        invariant segs == old(segs) && cur == segs[b].remote && link == old(link)[c := cur]
      {
        cur := segs[b].remote;
        link := link[c := cur];
        failed := failed + 1;
      }
      segs := segs[b := segs[b].(remote := c, queue := [c] + segs[b].queue)];
    }

    /** The atomic decrement of live_chunks. */
    method CountFree(t: Tid, c: Addr)
      requires Of(c) in segs
      modifies this
      ensures View() == Counted(old(View()), t, c)
    {
      hide Of;
      var b := Of(c);
      segs := segs[b := segs[b].(live := (segs[b].live + W32 - 1) % W32, done := segs[b].done + {c})];
      place := place[c := Done];
      pcs := pcs[t := Idle];
    }

    /** The owner pushes on its own list. */
    method PushOnList(t: Tid, c: Addr)
      requires Of(c) in segs
      modifies this
      ensures View() == OnLocal(old(View()), t, c)
    {
      hide Of;
      var l := Cell(t, segs[Of(c)].key);
      link := link[c := if l in heads then heads[l] else 0];
      heads := heads[l := c];
      lists := lists[l := [c] + if l in lists then lists[l] else []];
      place := place[c := Local];
      pcs := pcs[t := Idle];
    }

    /** Any other thread pushes on the segment's remote queue. */
    method PushOnQueue(t: Tid, c: Addr, failures: nat)
      requires Of(c) in segs
      modifies this
      ensures View() == OnRemote(old(View()), t, c)
    {
      hide Of;
      MpscPush(Of(c), c, failures);
      place := place[c := Queued];
      pcs := pcs[t := Idle];
    }

    /** free_managed on the free-list strategies. */
    method FreeManaged(t: Tid, c: Addr, failures: nat)
      requires Inv(View()) && Enabled(View(), FreeStart(t, c))
      modifies this
      ensures Ok(View()) == Exec(old(View()), FreeSteps(old(View()), t, c, failures))
    {
      hide Inv, Exec, Of, FreeSteps, Counted, OnLocal, OnRemote;
      FreeRuns(View(), t, c, failures);
      if segs[Of(c)].retired {
        CountFree(t, c);
      } else if segs[Of(c)].owner == t {
        PushOnList(t, c);
      } else {
        PushOnQueue(t, c, failures);
      }
    }
  }

  lemma CarvedHead(b: Addr, size: nat)
    requires IsBase(b) && Carvable(size)
    ensures var q := Carved(b, size, ChunksInSegment(size)); q != [] && q[0] in CarvedLinks(b, size)
  {
    hide Carved, CarvedLinks, ChunksInSegment, Distinct;
    CarvedChain(b, size);
  }

  lemma EmptyQueue(s: State, a: Addr)
    requires Inv(s) && a in s.segs && s.segs[a].remote == 0
    ensures s.segs[a].queue == [] && s.segs[a].(remote := 0, queue := []) == s.segs[a]
  {
    hide Of, IsChunk, ChunksInSegment, Distinct, CellsOk, ThreadsOk, ReaperOk, ChunksOk;
    assert SegOk(s, a);
    ChainEnds(s.link, 0, s.segs[a].queue);
  }

  lemma ChunkStart(b: Addr, size: nat)
    ensures PayloadStart(b) == ChunkAt(b, size, 0)
  {
  }

  lemma ChunkNext(b: Addr, size: nat, k: nat)
    ensures ChunkAt(b, size, k) + size == ChunkAt(b, size, k + 1)
  {
    assert (k + 1) * size == k * size + size;
  }

  /** The loop's guard holds exactly for the chunks the segment has room for. */
  lemma ChunkFits(b: Addr, size: nat, k: nat)
    requires size > 0
    ensures ChunkAt(b, size, k) + size <= SegmentEnd(b) <==> k < ChunksInSegment(size)
  {
    CountFits(size, k);
    assert (k + 1) * size == k * size + size;
  }
}
