/** Schedules in which a chunk is stranded: a foreign free reads "not retired", the owner's harvest finds
    nothing, and the push lands before or after the owner sets the flag. */
module Leak {
  import opened Lists
  import opened Segments
  import opened Reclamation
  import opened ReclamationSteps
  import opened ReclamationResults
  import opened Stranding

  // Thread 1 owns the segment at BASE, for its free list LIST; thread 2 frees a chunk of it.
  const BASE: Addr := 0x20_0000
  const KEY: Key := Key(0, 0)
  const LIST: Cell := Cell(1, KEY)

  /** The chunks of a segment but one. */
  function Others(size: nat): nat { if ChunksInSegment(size) == 0 then 0 else ChunksInSegment(size) - 1 }

  /** The first chunk served: the highest. */
  function Top(size: nat): Addr { ChunkAt(BASE, size, Others(size)) }

  function Pops(k: nat): seq<Step> { if k == 0 then [] else [AllocPop(1, KEY)] + Pops(k - 1) }

  /** Thread 1 maps a segment and pops all of it; thread 2 starts to free the top chunk; thread 1 has to
      refill, and harvests nothing. */
  function Race(size: nat, rest: seq<Step>): seq<Step>
  {
    [RefillStart(1, KEY, size)] + ([NewSegment(1, BASE)] + (Pops(Others(size)) +
    ([FreeStart(2, Top(size))] + ([ReadRetired(2)] + ([RefillStart(1, KEY, size)] + ([Harvest(1)] + rest))))))
  }

  /** The push lands before the flag is set. */
  const EARLY: seq<Step> :=
    [LoadRemote(2)] + ([WriteLink(2)] + ([Cas(2, false)] + ([StoreLive(1)] + ([StoreRetired(1)] + []))))

  /** It lands after. */
  const LATE: seq<Step> :=
    [StoreLive(1)] + ([StoreRetired(1)] + ([LoadRemote(2)] + ([WriteLink(2)] + ([Cas(2, false)] + []))))

  /** Thread 1's one segment, as mapped; nobody is doing anything; the client holds c. */
  ghost predicate Quiet(s: State, mode: Mode, size: nat, c: Addr) {
    Inv(s) && Carvable(size) && s.mode == mode && s.Pc(1).Idle? && s.Pc(2).Idle? && s.Active(LIST) == BASE &&
    BASE in s.segs && s.segs[BASE] == Seg(1, KEY, size, false, 0, 0, false, [], {}) &&
    c in s.place && s.place[c].Held? && Of(c) == BASE
  }

  lemma Maps(mode: Mode, size: nat, rest: seq<Step>) returns (s: State)
    requires Carvable(size)
    ensures Quiet(s, mode, size, Top(size)) && |s.List(LIST)| == Others(size)
    ensures Exec(Init(mode), [RefillStart(1, KEY, size)] + ([NewSegment(1, BASE)] + rest)) == Exec(s, rest)
  {
    hide Inv, Exec, Of, IsChunk, ChunksInSegment, CarvedLinks, Carved, PlaceAll;
    InitInv(mode);
    var m := Init(mode).Goto(1, Mapping(KEY, size));
    RefillStartKeeps(Init(mode), 1, KEY, size);
    NewSegmentKeeps(m, 1, KEY, size, BASE);
    CarvedIsAll(BASE, size);
    CarvedAt(BASE, size, ChunksInSegment(size));
    s := Next(m, NewSegment(1, BASE)).s;
    Go(Init(mode), RefillStart(1, KEY, size), [NewSegment(1, BASE)] + rest, m);
    Go(m, NewSegment(1, BASE), rest, s);
    ChunkInside(BASE, size, Top(size));
  }

  lemma {:induction false} Drains(s: State, mode: Mode, size: nat, c: Addr, rest: seq<Step>) returns (n: State)
    requires Quiet(s, mode, size, c)
    ensures Quiet(n, mode, size, c) && n.Head(LIST) == 0
    ensures Exec(s, Pops(|s.List(LIST)|) + rest) == Exec(n, rest)
    decreases |s.List(LIST)|
  {
    hide Inv, Exec, Of;
    ListHead(s);
    if s.List(LIST) == [] {
      n := s;
      assert Pops(0) + rest == rest;
    } else {
      var k := |s.List(LIST)| - 1;
      AllocPopKeeps(s, 1, KEY);
      var m := DoAllocPop(s, 1, KEY).s;
      assert Pops(k + 1) + rest == [AllocPop(1, KEY)] + (Pops(k) + rest);
      Go(s, AllocPop(1, KEY), Pops(k) + rest, m);
      n := Drains(m, mode, size, c, rest);
    }
  }

  lemma ListHead(s: State)
    requires Inv(s)
    ensures s.List(LIST) == [] <==> s.Head(LIST) == 0
  {
    hide Of, IsChunk, ChunksInSegment, Distinct, ChunksOk, SegsOk, ThreadsOk, ReaperOk;
    assert CellOk(s, LIST);
    ChainEnds(s.link, s.Head(LIST), s.List(LIST));
  }

  /** Thread 1 is about to store the counter, having harvested nothing; thread 2 is about to load the queue. */
  predicate Racing(s: State, size: nat, c: Addr) {
    s.Pc(1) == Storing(KEY, size) && s.Pc(2) == Loading(c) && s.Active(LIST) == BASE &&
    BASE in s.segs && !s.segs[BASE].retired && s.segs[BASE].remote == 0 && Of(c) == BASE
  }

  lemma Races(s: State, mode: Mode, size: nat, c: Addr, rest: seq<Step>) returns (n: State)
    requires Quiet(s, mode, size, c) && s.Head(LIST) == 0
    ensures Racing(n, size, c)
    ensures Exec(s, [FreeStart(2, c)] + ([ReadRetired(2)] + ([RefillStart(1, KEY, size)] + ([Harvest(1)] + rest)))) ==
            Exec(n, rest)
  {
    hide Inv, Exec, Of;
    var a := s.(place := s.place[c := Flight(2)]).Goto(2, Freeing(c));
    var b := a.Goto(2, Loading(c));
    var d := b.Goto(1, Harvesting(KEY, size));
    n := d.Goto(1, Storing(KEY, size));
    Go(s, FreeStart(2, c), [ReadRetired(2)] + ([RefillStart(1, KEY, size)] + ([Harvest(1)] + rest)), a);
    Go(a, ReadRetired(2), [RefillStart(1, KEY, size)] + ([Harvest(1)] + rest), b);
    Go(b, RefillStart(1, KEY, size), [Harvest(1)] + rest, d);
    Go(d, Harvest(1), rest, n);
  }

  /** The queue is pushed by thread 2, from a state in which it is empty. */
  lemma PushRuns(s: State, c: Addr, rest: seq<Step>) returns (n: State)
    requires s.Pc(2) == Loading(c) && Of(c) == BASE && BASE in s.segs && s.segs[BASE].remote == 0
    ensures BASE in n.segs && n.segs[BASE] == s.segs[BASE].(remote := c, queue := [c] + s.segs[BASE].queue)
    ensures n.Pc(1) == s.Pc(1) && n.Active(LIST) == s.Active(LIST)
    ensures Exec(s, [LoadRemote(2)] + ([WriteLink(2)] + ([Cas(2, false)] + rest))) == Exec(n, rest)
  {
    hide Exec, Of;
    var a := s.Goto(2, Linking(c, 0));
    var b := a.(link := a.link[c := 0]).Goto(2, Swapping(c, 0));
    n := DoCas(b, 2, c, 0, false).s;
    Go(s, LoadRemote(2), [WriteLink(2)] + ([Cas(2, false)] + rest), a);
    Go(a, WriteLink(2), [Cas(2, false)] + rest, b);
    Go(b, Cas(2, false), rest, n);
  }

  /** Thread 1 stores the counter and the flag. */
  lemma RetireRuns(s: State, size: nat, rest: seq<Step>) returns (n: State)
    requires s.Pc(1) == Storing(KEY, size) && s.Active(LIST) == BASE && BASE in s.segs
    ensures BASE in n.segs && n.segs[BASE].retired && n.segs[BASE].queue == s.segs[BASE].queue
    ensures n.segs[BASE].remote == s.segs[BASE].remote && n.Pc(2) == s.Pc(2)
    ensures Exec(s, [StoreLive(1)] + ([StoreRetired(1)] + rest)) == Exec(n, rest)
  {
    hide Exec, ChunksInSegment;
    var a := DoStoreLive(s, 1, KEY, size).s;
    n := DoStoreRetired(a, 1, KEY, size).s;
    Go(s, StoreLive(1), [StoreRetired(1)] + rest, a);
    Go(a, StoreRetired(1), rest, n);
  }

  lemma EarlyStrands(s: State, size: nat, c: Addr)
    requires Racing(s, size, c)
    ensures Exec(s, EARLY).Ok? && Stranded(Exec(s, EARLY).s, BASE, c)
  {
    hide Exec, Of;
    var m := PushRuns(s, c, [StoreLive(1)] + ([StoreRetired(1)] + []));
    var n := RetireRuns(m, size, []);
    RunEnds(n);
  }

  lemma LateStrands(s: State, size: nat, c: Addr)
    requires Racing(s, size, c)
    ensures Exec(s, LATE).Ok? && Stranded(Exec(s, LATE).s, BASE, c)
  {
    hide Exec, Of;
    var m := RetireRuns(s, size, [LoadRemote(2)] + ([WriteLink(2)] + ([Cas(2, false)] + [])));
    var n := PushRuns(m, c, []);
    RunEnds(n);
  }

  lemma RunEnds(s: State)
    ensures Exec(s, []) == Ok(s)
  {
  }

  lemma RaceRuns(mode: Mode, size: nat, rest: seq<Step>) returns (s: State)
    requires Carvable(size)
    ensures Racing(s, size, Top(size)) && Exec(Init(mode), Race(size, rest)) == Exec(s, rest)
  {
    hide Exec, Quiet, Racing, Others, Pops, Top;
    var tail := [FreeStart(2, Top(size))] + ([ReadRetired(2)] + ([RefillStart(1, KEY, size)] + ([Harvest(1)] + rest)));
    var a := Maps(mode, size, Pops(Others(size)) + tail);
    var b := Drains(a, mode, size, Top(size), tail);
    s := Races(b, mode, size, Top(size), rest);
  }

  /** In every mode and for every chunk size, a push that lands after the owner's empty harvest strands
      its chunk, whether it comes before the flag is set or after. */
  lemma LeakHappens(mode: Mode, size: nat)
    requires Carvable(size)
    ensures Exec(Init(mode), Race(size, EARLY)).Ok? && Stranded(Exec(Init(mode), Race(size, EARLY)).s, BASE, Top(size))
    ensures Exec(Init(mode), Race(size, LATE)).Ok? && Stranded(Exec(Init(mode), Race(size, LATE)).s, BASE, Top(size))
  {
    hide Exec, Race, Racing, Top;
    var s := RaceRuns(mode, size, EARLY);
    EarlyStrands(s, size, Top(size));
    var n := RaceRuns(mode, size, LATE);
    LateStrands(n, size, Top(size));
  }

  /** So a leaked segment is a reachable state, and from there on it is never unmapped. */
  lemma LeakIsReached(mode: Mode, size: nat)
    requires Carvable(size)
    ensures exists s, b, c :: Reached(s) && Stranded(s, b, c) &&
                              forall steps :: Lives(s, steps, b)
  {
    hide Exec, Race, Top, Stranded, Lives;
    LeakHappens(mode, size);
    var s := Exec(Init(mode), Race(size, LATE)).s;
    assert Reached(s);
    forall steps
      ensures Lives(s, steps, BASE)
    {
      StrandedForever(s, steps, BASE, Top(size));
    }
    assert Reached(s) && Stranded(s, BASE, Top(size)) && forall steps :: Lives(s, steps, BASE);
  }
}
