/** Chunk ownership and segment reclamation for the free-list strategies, as a step system.

    Any number of threads allocate, refill and free (their own chunks or others') while one reaper
    sweeps.  Every access to a word that another thread may change is a step of its own; steps
    interleave freely (sequential consistency).  An access to memory that is not mapped is a Fault. */
module Reclamation {
  import opened Lists
  import opened Segments

  type Tid = nat

  /** A free list of a thread: a compiled slot and, for the multi-size strategy, a class of it. */
  datatype Key = Key(slot: nat, class_: nat)

  datatype Cell = Cell(t: Tid, key: Key)

  datatype Mode = Conservative | Eager | Madvise

  /** A segment header.  The last two fields are history: no step reads them.  queue lists the
      chunks on the remote queue, first out first; done the chunks whose free was counted. */
  datatype Seg = Seg(owner: Tid, key: Key, size: nat, retired: bool, live: nat, remote: Addr,
                     decommitted: bool, queue: seq<Addr>, done: set<Addr>)

  /** Who has a chunk. Only the client reads this: it frees chunks it holds and no others. */
  datatype Place = Held | Flight(t: Tid) | Local | Queued | Done

  datatype Pc =
    | Idle
    | Harvesting(key: Key, size: nat)     // about to exchange the active segment's remote_head
    | Storing(key: Key, size: nat)        // about to store live_chunks
    | Retiring(key: Key, size: nat)       // about to set retired
    | Mapping(key: Key, size: nat)        // about to map and carve a fresh segment
    | Freeing(c: Addr)                    // about to read retired
    | Pushing(c: Addr)                    // own chunk: about to push on the local list
    | Loading(c: Addr)                    // about to load remote_head
    | Linking(c: Addr, cur: Addr)         // about to write the chunk's link
    | Swapping(c: Addr, cur: Addr)        // about to compare-and-swap remote_head
    | Dropping(c: Addr)                   // about to decrement live_chunks

  /** elig is the snapshot of eligible segments; the index lock is held while Scanning or Weighing. */
  datatype Reaper =
    | Resting
    | Scanning(i: nat, elig: seq<Addr>)   // about to read index[i] and its retired flag
    | Weighing(i: nat, elig: seq<Addr>)   // index[i] is retired: about to read its live_chunks
    | Reaping(elig: seq<Addr>)            // lock released, elig still to be reclaimed
    | Unmapping(elig: seq<Addr>)          // elig[0] unregistered, about to munmap it

  /** segs: the mapped segments; link: the first word of chunk memory; heads and active: the
      thread-local list heads and segs pointers; lists: history, the local lists' chunks. */
  datatype State = State(mode: Mode, segs: map<Addr, Seg>, link: map<Addr, Addr>,
                         heads: map<Cell, Addr>, active: map<Cell, Addr>, lists: map<Cell, seq<Addr>>,
                         pcs: map<Tid, Pc>, index: seq<Addr>, reaper: Reaper, place: map<Addr, Place>)
  {
    function Pc(t: Tid): Pc { if t in pcs then pcs[t] else Idle }
    function Head(l: Cell): Addr { if l in heads then heads[l] else 0 }
    function Active(l: Cell): Addr { if l in active then active[l] else 0 }
    function List(l: Cell): seq<Addr> { if l in lists then lists[l] else [] }
    function Link(c: Addr): Addr { if c in link then link[c] else 0 }
    function Goto(t: Tid, pc: Pc): State { this.(pcs := pcs[t := pc]) }
    function WithSeg(b: Addr, g: Seg): State { this.(segs := segs[b := g]) }
    predicate LockFree() { !reaper.Scanning? && !reaper.Weighing? }
  }

  const MAX_SEGMENTS: nat := 4096
  const W32: nat := 0x1_0000_0000

  datatype Step =
    | AllocPop(t: Tid, key: Key)
    | RefillStart(t: Tid, key: Key, size: nat)
    | Harvest(t: Tid)
    | StoreLive(t: Tid)
    | StoreRetired(t: Tid)
    | NewSegment(t: Tid, base: Addr)
    | ClientStore(c: Addr, v: Addr)
    | FreeStart(t: Tid, c: Addr)
    | ReadRetired(t: Tid)
    | PushLocal(t: Tid)
    | LoadRemote(t: Tid)
    | WriteLink(t: Tid)
    | Cas(t: Tid, spurious: bool)
    | Decrement(t: Tid)
    | SweepStart
    | SweepRead
    | SweepWeigh(wanted: bool)
    | SweepUnlock
    | SweepEnd
    | Unregister
    | Unmap
    | Decommit

  predicate Enabled(s: State, step: Step) {
    match step
    case AllocPop(t, key) => s.Pc(t).Idle? && s.Head(Cell(t, key)) != 0
    case RefillStart(t, key, size) => s.Pc(t).Idle? && s.Head(Cell(t, key)) == 0 && Carvable(size)
    case Harvest(t) => s.Pc(t).Harvesting?
    case StoreLive(t) => s.Pc(t).Storing?
    case StoreRetired(t) => s.Pc(t).Retiring?
    case NewSegment(t, b) => s.Pc(t).Mapping? && IsBase(b) && b !in s.segs && s.LockFree()
    case ClientStore(c, _) => c in s.place && s.place[c].Held?
    case FreeStart(t, c) => s.Pc(t).Idle? && c in s.place && s.place[c].Held?
    case ReadRetired(t) => s.Pc(t).Freeing?
    case PushLocal(t) => s.Pc(t).Pushing?
    case LoadRemote(t) => s.Pc(t).Loading?
    case WriteLink(t) => s.Pc(t).Linking?
    case Cas(t, _) => s.Pc(t).Swapping?
    case Decrement(t) => s.Pc(t).Dropping?
    case SweepStart => s.reaper.Resting?
    case SweepRead => s.reaper.Scanning? && s.reaper.i < |s.index|
    case SweepWeigh(_) => s.reaper.Weighing? && s.reaper.i < |s.index|
    case SweepUnlock => s.reaper.Scanning? && s.reaper.i >= |s.index|
    case SweepEnd => s.reaper.Reaping? && s.reaper.elig == []
    case Unregister => s.reaper.Reaping? && s.reaper.elig != [] && !s.mode.Madvise?
    case Unmap => s.reaper.Unmapping? && s.reaper.elig != []
    case Decommit => s.reaper.Reaping? && s.reaper.elig != [] && s.mode.Madvise?
  }

  datatype Outcome = Ok(s: State) | Fault

  /** place with every chunk of q at p. */
  function PlaceAll(place: map<Addr, Place>, q: seq<Addr>, p: Place): map<Addr, Place> {
    place + map c | c in q :: p
  }

  /** The links the carving loop writes. */
  function CarvedLinks(b: Addr, size: nat): map<Addr, Addr> {
    map c | c in Carved(b, size, ChunksInSegment(size)) :: if c < size || c == PayloadStart(b) then 0 else c - size
  }

  /** Everything in segment b's memory is gone. */
  function Discard<T>(m: map<Addr, T>, b: Addr): map<Addr, T> {
    map c | c in m && Of(c) != b :: m[c]
  }

  /** Swap-remove of the first occurrence. */
  function SwapRemove(q: seq<Addr>, x: Addr, i: nat := 0): seq<Addr>
    requires i <= |q|
    decreases |q| - i
  {
    if i == |q| then q
    else if q[i] == x then q[i := q[|q| - 1]][..|q| - 1]
    else SwapRemove(q, x, i + 1)
  }

  // One function per operation; segment lookups that miss are faults.

  function DoAllocPop(s: State, t: Tid, key: Key): Outcome {
    var l := Cell(t, key);
    var h := s.Head(l);
    if Of(h) !in s.segs then Fault
    else Ok(s.(heads := s.heads[l := s.Link(h)], lists := s.lists[l := Tail(s.List(l))],
               place := s.place[h := Held]))
  }

  function DoHarvest(s: State, t: Tid, key: Key, size: nat): Outcome {
    var l := Cell(t, key);
    var a := s.Active(l);
    if a !in s.segs then Fault
    else
      var g := s.segs[a];
      if g.remote == 0 then Ok(s.Goto(t, Storing(key, size)))
      else if Of(g.remote) !in s.segs then Fault
      else Ok(s.WithSeg(a, g.(remote := 0, queue := []))
               .(heads := s.heads[l := s.Link(g.remote)], lists := s.lists[l := Tail(g.queue)],
                 place := PlaceAll(s.place, g.queue, Local)[g.remote := Held])
               .Goto(t, Idle))
  }

  function DoStoreLive(s: State, t: Tid, key: Key, size: nat): Outcome {
    var a := s.Active(Cell(t, key));
    if a !in s.segs then Fault
    else
      var g := s.segs[a];
      Ok(s.WithSeg(a, g.(live := ChunksInSegment(g.size) % W32)).Goto(t, Retiring(key, size)))
  }

  function DoStoreRetired(s: State, t: Tid, key: Key, size: nat): Outcome {
    var a := s.Active(Cell(t, key));
    if a !in s.segs then Fault
    else Ok(s.WithSeg(a, s.segs[a].(retired := true)).Goto(t, Mapping(key, size)))
  }

  function DoNewSegment(s: State, t: Tid, key: Key, size: nat, b: Addr): Outcome {
    var l := Cell(t, key);
    var q := Carved(b, size, ChunksInSegment(size));
    var link := s.link + CarvedLinks(b, size);
    if q == [] then Fault
    else Ok(s.WithSeg(b, Seg(t, key, size, false, 0, 0, false, [], {}))
             .(link := link,
               heads := s.heads[l := if q[0] in link then link[q[0]] else 0],
               lists := s.lists[l := Tail(q)],
               active := s.active[l := b],
               place := PlaceAll(s.place, q, Local)[q[0] := Held],
               index := if |s.index| < MAX_SEGMENTS then s.index + [b] else s.index)
             .Goto(t, Idle))
  }

  /** The client writes the first word of a chunk it holds: the word that is the link once it is freed. */
  function DoClientStore(s: State, c: Addr, v: Addr): Outcome {
    if Of(c) !in s.segs then Fault else Ok(s.(link := s.link[c := v]))
  }

  function DoReadRetired(s: State, t: Tid, c: Addr): Outcome {
    if Of(c) !in s.segs then Fault
    else
      var g := s.segs[Of(c)];
      Ok(s.Goto(t, if g.retired then Dropping(c) else if g.owner == t then Pushing(c) else Loading(c)))
  }

  function DoPushLocal(s: State, t: Tid, c: Addr): Outcome {
    if Of(c) !in s.segs then Fault
    else
      var l := Cell(t, s.segs[Of(c)].key);
      Ok(s.(link := s.link[c := s.Head(l)], heads := s.heads[l := c],
            lists := s.lists[l := [c] + s.List(l)], place := s.place[c := Local])
          .Goto(t, Idle))
  }

  function DoLoadRemote(s: State, t: Tid, c: Addr): Outcome {
    if Of(c) !in s.segs then Fault else Ok(s.Goto(t, Linking(c, s.segs[Of(c)].remote)))
  }

  function DoWriteLink(s: State, t: Tid, c: Addr, cur: Addr): Outcome {
    if Of(c) !in s.segs then Fault else Ok(s.(link := s.link[c := cur]).Goto(t, Swapping(c, cur)))
  }

  function DoCas(s: State, t: Tid, c: Addr, cur: Addr, spurious: bool): Outcome {
    if Of(c) !in s.segs then Fault
    else
      var g := s.segs[Of(c)];
      if g.remote == cur && !spurious then
        Ok(s.WithSeg(Of(c), g.(remote := c, queue := [c] + g.queue)).(place := s.place[c := Queued]).Goto(t, Idle))
      else Ok(s.Goto(t, Linking(c, g.remote)))
  }

  function DoDecrement(s: State, t: Tid, c: Addr): Outcome {
    if Of(c) !in s.segs then Fault
    else
      var g := s.segs[Of(c)];
      Ok(s.WithSeg(Of(c), g.(live := (g.live + W32 - 1) % W32, done := g.done + {c}))
          .(place := s.place[c := Done]).Goto(t, Idle))
  }

  function DoSweepRead(s: State): Outcome
    requires Enabled(s, SweepRead)
  {
    var h := s.index[s.reaper.i];
    if h !in s.segs then Fault
    else if s.segs[h].retired then Ok(s.(reaper := Weighing(s.reaper.i, s.reaper.elig)))
    else Ok(s.(reaper := Scanning(s.reaper.i + 1, s.reaper.elig)))
  }

  function DoSweepWeigh(s: State, wanted: bool): Outcome
    requires Enabled(s, SweepWeigh(wanted))
  {
    var h := s.index[s.reaper.i];
    if h !in s.segs then Fault
    else
      var g := s.segs[h];
      var take := g.live == 0 && (s.mode.Conservative? ==> wanted) && !(s.mode.Madvise? && g.decommitted);
      Ok(s.(reaper := Scanning(s.reaper.i + 1, if take then s.reaper.elig + [h] else s.reaper.elig)))
  }

  function DoUnmap(s: State): Outcome
    requires Enabled(s, Unmap)
  {
    var b := s.reaper.elig[0];
    if b !in s.segs then Fault
    else Ok(s.(segs := s.segs - {b}, link := Discard(s.link, b), place := Discard(s.place, b),
               reaper := Reaping(s.reaper.elig[1..])))
  }

  function DoDecommit(s: State): Outcome
    requires Enabled(s, Decommit)
  {
    var b := s.reaper.elig[0];
    if b !in s.segs then Fault
    else Ok(s.WithSeg(b, s.segs[b].(decommitted := true))
             .(link := Discard(s.link, b), reaper := Reaping(s.reaper.elig[1..])))
  }

  function Next(s: State, step: Step): Outcome
    requires Enabled(s, step)
  {
    match step
    case AllocPop(t, key) => DoAllocPop(s, t, key)
    case RefillStart(t, key, size) =>
      Ok(s.Goto(t, if s.Active(Cell(t, key)) == 0 then Mapping(key, size) else Harvesting(key, size)))
    case Harvest(t) => DoHarvest(s, t, s.Pc(t).key, s.Pc(t).size)
    case StoreLive(t) => DoStoreLive(s, t, s.Pc(t).key, s.Pc(t).size)
    case StoreRetired(t) => DoStoreRetired(s, t, s.Pc(t).key, s.Pc(t).size)
    case NewSegment(t, b) => DoNewSegment(s, t, s.Pc(t).key, s.Pc(t).size, b)
    case ClientStore(c, v) => DoClientStore(s, c, v)
    case FreeStart(t, c) => Ok(s.(place := s.place[c := Flight(t)]).Goto(t, Freeing(c)))
    case ReadRetired(t) => DoReadRetired(s, t, s.Pc(t).c)
    case PushLocal(t) => DoPushLocal(s, t, s.Pc(t).c)
    case LoadRemote(t) => DoLoadRemote(s, t, s.Pc(t).c)
    case WriteLink(t) => DoWriteLink(s, t, s.Pc(t).c, s.Pc(t).cur)
    case Cas(t, spurious) => DoCas(s, t, s.Pc(t).c, s.Pc(t).cur, spurious)
    case Decrement(t) => DoDecrement(s, t, s.Pc(t).c)
    case SweepStart => Ok(s.(reaper := Scanning(0, [])))
    case SweepRead => DoSweepRead(s)
    case SweepWeigh(wanted) => DoSweepWeigh(s, wanted)
    case SweepUnlock => Ok(s.(reaper := Reaping(s.reaper.elig)))
    case SweepEnd => Ok(s.(reaper := Resting))
    case Unregister => Ok(s.(index := SwapRemove(s.index, s.reaper.elig[0]), reaper := Unmapping(s.reaper.elig)))
    case Unmap => DoUnmap(s)
    case Decommit => DoDecommit(s)
  }

  function Init(mode: Mode): State {
    State(mode, map[], map[], map[], map[], map[], map[], [], Resting, map[])
  }

  /** Runs a schedule; steps that are not enabled are skipped. */
  function Exec(s: State, steps: seq<Step>): Outcome
    decreases |steps|
  {
    if steps == [] then Ok(s)
    else if !Enabled(s, steps[0]) then Exec(s, steps[1..])
    else
      var o := Next(s, steps[0]);
      if o.Fault? then Fault else Exec(o.s, steps[1..])
  }

  // ----- the invariant -----

  /** The chunk a thread is in the middle of freeing, or 0. */
  function Freed(pc: Pc): Addr {
    if pc.Freeing? || pc.Pushing? || pc.Loading? || pc.Linking? || pc.Swapping? || pc.Dropping? then pc.c else 0
  }

  predicate Refilling(pc: Pc, key: Key) {
    (pc.Harvesting? || pc.Storing? || pc.Retiring? || pc.Mapping?) && pc.key == key
  }

  ghost predicate ChunkOk(s: State, c: Addr)
    requires c in s.place
  {
    c > 0 && Of(c) in s.segs && IsChunk(Of(c), s.segs[Of(c)].size, c) &&
    var g := s.segs[Of(c)];
    match s.place[c]
    case Held => true
    case Flight(t) => Freed(s.Pc(t)) == c
    case Local => !g.retired && c in s.List(Cell(g.owner, g.key))
    case Queued => c in g.queue
    case Done => c in g.done
  }

  ghost predicate SegOk(s: State, b: Addr)
    requires b in s.segs
  {
    var g := s.segs[b];
    IsBase(b) && Carvable(g.size) &&
    (forall c :: IsChunk(b, g.size, c) ==> c in s.place) &&
    Chain(s.link, g.remote, g.queue) && Distinct(g.queue) &&
    (forall c :: c in g.queue ==> c in s.place && Of(c) == b && s.place[c].Queued?) &&
    (forall c :: c in g.done ==> c in s.place && Of(c) == b && s.place[c].Done?) &&
    (!g.retired ==> g.done == {} && s.Active(Cell(g.owner, g.key)) == b) &&
    (g.retired ==> g.live == ChunksInSegment(g.size) - |g.done|)
  }

  ghost predicate CellOk(s: State, l: Cell) {
    var a := s.Active(l);
    Chain(s.link, s.Head(l), s.List(l)) && Distinct(s.List(l)) &&
    (forall c :: c in s.List(l) ==> c in s.place && Of(c) == a && s.place[c].Local?) &&
    (Refilling(s.Pc(l.t), l.key) ==> s.Head(l) == 0) &&
    (a != 0 && !(s.Pc(l.t).Mapping? && s.Pc(l.t).key == l.key) ==>
      a in s.segs && s.segs[a].owner == l.t && s.segs[a].key == l.key && !s.segs[a].retired)
  }

  ghost predicate ThreadOk(s: State, t: Tid) {
    var pc := s.Pc(t);
    (Freed(pc) != 0 ==> pc.c in s.place && s.place[pc.c] == Flight(t)) &&
    match pc
    case Idle => true
    case Harvesting(key, size) => Carvable(size) && s.Active(Cell(t, key)) != 0
    case Storing(key, size) => Carvable(size) && s.Active(Cell(t, key)) != 0
    case Retiring(key, size) =>
      var a := s.Active(Cell(t, key));
      Carvable(size) && a != 0 && a in s.segs && s.segs[a].live == ChunksInSegment(s.segs[a].size)
    case Mapping(key, size) =>
      var a := s.Active(Cell(t, key));
      Carvable(size) && (a != 0 && a in s.segs && s.segs[a].owner == t && s.segs[a].key == key ==> s.segs[a].retired)
    case Freeing(c) => c > 0
    case Pushing(c) => c > 0 && Of(c) in s.segs && !s.segs[Of(c)].retired && s.segs[Of(c)].owner == t
    case Loading(c) => c > 0
    case Linking(c, _) => c > 0
    case Swapping(c, cur) => c > 0 && c in s.link && s.link[c] == cur
    case Dropping(c) => c > 0 && Of(c) in s.segs && s.segs[Of(c)].retired
  }

  /** Retired and fully counted: what the reaper relies on between its snapshot and the unmap. */
  predicate Reclaimable(s: State, b: Addr) {
    b in s.segs && s.segs[b].retired && s.segs[b].live == 0
  }

  ghost predicate ReaperOk(s: State) {
    Distinct(s.index) && (forall b :: b in s.index ==> b in s.segs) &&
    match s.reaper
    case Resting => true
    case Scanning(i, elig) =>
      i <= |s.index| && Distinct(elig) && (forall b :: b in elig ==> Reclaimable(s, b) && b in s.index[..i])
    case Weighing(i, elig) =>
      i < |s.index| && Distinct(elig) && (forall b :: b in elig ==> Reclaimable(s, b) && b in s.index[..i]) &&
      s.segs[s.index[i]].retired
    case Reaping(elig) => Distinct(elig) && (forall b :: b in elig ==> Reclaimable(s, b))
    case Unmapping(elig) =>
      elig != [] && Distinct(elig) && (forall b :: b in elig ==> Reclaimable(s, b)) && elig[0] !in s.index
  }

  ghost predicate ChunksOk(s: State) { forall c :: c in s.place ==> ChunkOk(s, c) }
  ghost predicate SegsOk(s: State) { forall b :: b in s.segs ==> SegOk(s, b) }
  ghost predicate CellsOk(s: State) { forall l: Cell :: CellOk(s, l) }
  ghost predicate ThreadsOk(s: State) { forall t: Tid :: ThreadOk(s, t) }

  ghost predicate Inv(s: State) {
    ChunksOk(s) && SegsOk(s) && CellsOk(s) && ThreadsOk(s) && ReaperOk(s)
  }

  lemma InitInv(mode: Mode)
    ensures Inv(Init(mode))
  {
  }

  ghost predicate Safe(o: Outcome) { o.Ok? && Inv(o.s) }

  // ----- steps that only move the reaper -----

  lemma ReaperMovesChunks(s: State, ix: seq<Addr>, r: Reaper)
    requires ChunksOk(s)
    ensures ChunksOk(s.(index := ix, reaper := r))
  {
    hide Of, IsChunk, ChunksInSegment, Chain, Distinct;
    var n := s.(index := ix, reaper := r);
    forall c | c in n.place
      ensures ChunkOk(n, c)
    {
      assert ChunkOk(s, c);
    }
  }

  lemma ReaperMovesSegs(s: State, ix: seq<Addr>, r: Reaper)
    requires SegsOk(s)
    ensures SegsOk(s.(index := ix, reaper := r))
  {
    hide Of, IsChunk, ChunksInSegment, Chain, Distinct;
    var n := s.(index := ix, reaper := r);
    forall b | b in n.segs
      ensures SegOk(n, b)
    {
      assert SegOk(s, b);
    }
  }

  lemma ReaperMovesCells(s: State, ix: seq<Addr>, r: Reaper)
    requires CellsOk(s)
    ensures CellsOk(s.(index := ix, reaper := r))
  {
    hide Of, IsChunk, ChunksInSegment, Chain, Distinct;
    var n := s.(index := ix, reaper := r);
    forall l: Cell
      ensures CellOk(n, l)
    {
      assert CellOk(s, l);
    }
  }

  lemma ReaperMovesThreads(s: State, ix: seq<Addr>, r: Reaper)
    requires ThreadsOk(s)
    ensures ThreadsOk(s.(index := ix, reaper := r))
  {
    hide Of, IsChunk, ChunksInSegment, Chain, Distinct;
    var n := s.(index := ix, reaper := r);
    forall u: Tid
      ensures ThreadOk(n, u)
    {
      assert ThreadOk(s, u);
    }
  }

  lemma ReaperMoves(s: State, ix: seq<Addr>, r: Reaper)
    requires Inv(s) && ReaperOk(s.(index := ix, reaper := r))
    ensures Inv(s.(index := ix, reaper := r))
  {
    hide ChunksOk, SegsOk, CellsOk, ThreadsOk, ReaperOk;
    ReaperMovesChunks(s, ix, r);
    ReaperMovesSegs(s, ix, r);
    ReaperMovesCells(s, ix, r);
    ReaperMovesThreads(s, ix, r);
  }

  // ----- steps that only move one thread -----

  lemma ThreadMovesChunks(s: State, t: Tid, pc: Pc)
    requires ChunksOk(s) && Freed(pc) == Freed(s.Pc(t))
    ensures ChunksOk(s.Goto(t, pc))
  {
    hide Of, IsChunk, ChunksInSegment, Chain, Distinct;
    var n := s.Goto(t, pc);
    forall c | c in n.place
      ensures ChunkOk(n, c)
    {
      assert ChunkOk(s, c);
    }
  }

  lemma ThreadMovesSegs(s: State, t: Tid, pc: Pc)
    requires SegsOk(s)
    ensures SegsOk(s.Goto(t, pc))
  {
    hide Of, IsChunk, ChunksInSegment, Chain, Distinct;
    var n := s.Goto(t, pc);
    forall b | b in n.segs
      ensures SegOk(n, b)
    {
      assert SegOk(s, b);
    }
  }

  lemma ThreadMovesCells(s: State, t: Tid, pc: Pc)
    requires CellsOk(s)
    requires forall key :: Refilling(pc, key) ==> s.Head(Cell(t, key)) == 0
    requires s.Pc(t).Mapping? ==> pc.Mapping? && pc.key == s.Pc(t).key
    ensures CellsOk(s.Goto(t, pc))
  {
    hide Of, IsChunk, ChunksInSegment, Chain, Distinct;
    var n := s.Goto(t, pc);
    forall l: Cell
      ensures CellOk(n, l)
    {
      assert CellOk(s, l);
    }
  }

  lemma ThreadMovesThreads(s: State, t: Tid, pc: Pc)
    requires ThreadsOk(s) && ThreadOk(s.Goto(t, pc), t)
    ensures ThreadsOk(s.Goto(t, pc))
  {
    hide Of, IsChunk, ChunksInSegment, Chain, Distinct;
    var n := s.Goto(t, pc);
    forall u: Tid
      ensures ThreadOk(n, u)
    {
      assert ThreadOk(s, u);
    }
  }

  lemma ThreadMoves(s: State, t: Tid, pc: Pc)
    requires Inv(s) && Freed(pc) == Freed(s.Pc(t)) && ThreadOk(s.Goto(t, pc), t)
    requires forall key :: Refilling(pc, key) ==> s.Head(Cell(t, key)) == 0
    requires s.Pc(t).Mapping? ==> pc.Mapping? && pc.key == s.Pc(t).key
    ensures Inv(s.Goto(t, pc))
  {
    hide ChunksOk, SegsOk, CellsOk, ThreadsOk, ThreadOk, Distinct;
    ThreadMovesChunks(s, t, pc);
    ThreadMovesSegs(s, t, pc);
    ThreadMovesCells(s, t, pc);
    ThreadMovesThreads(s, t, pc);
  }
}
