/** Life after retirement: which chunks a retired segment's remote queue can still receive, that they
    stay there, and that what is reclaimable stays so. */
module Stranding {
  import opened Lists
  import opened Segments
  import opened Reclamation
  import opened ReclamationSteps
  import opened ReclamationResults

  /** A chunk on the remote queue of a retired segment: nobody harvests such a queue. */
  ghost predicate Stranded(s: State, b: Addr, c: Addr) {
    b in s.segs && s.segs[b].retired && c in s.segs[b].queue
  }

  /** The free of c has been routed to the remote queue and has not pushed yet. */
  predicate ToQueue(pc: Pc) { pc.Loading? || pc.Linking? || pc.Swapping? }

  predicate OnItsWay(s: State, c: Addr) {
    c in s.place && s.place[c].Flight? && ToQueue(s.Pc(s.place[c].t)) && s.Pc(s.place[c].t).c == c
  }

  /** On segment b's remote queue, or on its way there. */
  ghost predicate Coming(s: State, b: Addr, c: Addr) {
    b in s.segs && Of(c) == b && (c in s.segs[b].queue || OnItsWay(s, c))
  }

  /** The step is the compare-and-swap that pushes c. */
  predicate Swaps(s: State, step: Step, c: Addr) {
    step.Cas? && s.Pc(step.t).Swapping? && s.Pc(step.t).c == c && !step.spurious &&
    Of(c) in s.segs && s.segs[Of(c)].remote == s.Pc(step.t).cur
  }

  // ----- one step -----

  /** The step counts a chunk of b. */
  predicate Counts(s: State, step: Step, b: Addr) {
    step.Decrement? && s.Pc(step.t).Dropping? && Of(s.Pc(step.t).c) == b
  }

  /** The step unmaps b. */
  predicate Unmaps(s: State, step: Step, b: Addr) {
    step.Unmap? && s.reaper.Unmapping? && s.reaper.elig != [] && s.reaper.elig[0] == b
  }

  /** What a step does to a retired segment. */
  ghost predicate Settled(s: State, step: Step, n: State, b: Addr, c: Addr)
    requires b in s.segs
  {
    if b !in n.segs then Unmaps(s, step, b)
    else
      n.segs[b].retired && (n.segs[b].live == s.segs[b].live || Counts(s, step, b)) &&
      (c in n.segs[b].queue <==> c in s.segs[b].queue || Swaps(s, step, c)) &&
      (Coming(n, b, c) <==> Coming(s, b, c))
  }

  ghost predicate Retired(s: State, b: Addr, c: Addr) {
    b in s.segs && s.segs[b].retired && Of(c) == b
  }

  lemma QueuedPlace(s: State, b: Addr, c: Addr)
    requires Inv(s) && b in s.segs && c in s.segs[b].queue
    ensures c in s.place && s.place[c].Queued? && Of(c) == b
  {
    hide Of, IsChunk, ChunksInSegment, Chain, Distinct, ChunksOk, CellsOk, ThreadsOk, ReaperOk;
    assert SegOk(s, b);
  }

  predicate BySweep(step: Step) {
    step.SweepStart? || step.SweepRead? || step.SweepWeigh? || step.SweepUnlock? || step.SweepEnd? || step.Unregister?
  }

  lemma SweepSettles(s: State, step: Step, b: Addr, c: Addr)
    requires Enabled(s, step) && Retired(s, b, c) && BySweep(step) && Next(s, step).Ok?
    ensures Settled(s, step, Next(s, step).s, b, c)
  {
    hide Of, Settled, SwapRemove, DoSweepRead, DoSweepWeigh;
    if step.SweepRead? {
      SweepReadLeaves(s);
    } else if step.SweepWeigh? {
      SweepWeighLeaves(s, step.wanted);
    }
    SameSettles(s, step, Next(s, step).s, b, c);
  }

  lemma SweepReadLeaves(s: State)
    requires Enabled(s, SweepRead) && s.reaper.Scanning? && s.reaper.i < |s.index| && DoSweepRead(s).Ok?
    ensures var n := DoSweepRead(s).s; n.segs == s.segs && n.place == s.place && n.pcs == s.pcs
  {
    hide Enabled;
    var h := s.index[s.reaper.i];
    if s.segs[h].retired {
      assert DoSweepRead(s).s == s.(reaper := Weighing(s.reaper.i, s.reaper.elig));
    } else {
      assert DoSweepRead(s).s == s.(reaper := Scanning(s.reaper.i + 1, s.reaper.elig));
    }
  }

  lemma SweepWeighLeaves(s: State, wanted: bool)
    requires Enabled(s, SweepWeigh(wanted)) && DoSweepWeigh(s, wanted).Ok?
    ensures var n := DoSweepWeigh(s, wanted).s; n.segs == s.segs && n.place == s.place && n.pcs == s.pcs
  {
    hide Enabled;
  }

  lemma SameSettles(s: State, step: Step, n: State, b: Addr, c: Addr)
    requires Retired(s, b, c) && !step.Cas? && n.segs == s.segs && n.place == s.place && n.pcs == s.pcs
    ensures Settled(s, step, n, b, c)
  {
    hide Of;
  }

  lemma UnmapSettles(s: State, step: Step, b: Addr, c: Addr)
    requires Enabled(s, step) && Retired(s, b, c) && (step.Unmap? || step.Decommit?) && Next(s, step).Ok?
    ensures Settled(s, step, Next(s, step).s, b, c)
  {
    hide Of, DoAllocPop, DoHarvest, DoStoreLive, DoStoreRetired, DoNewSegment, DoReadRetired, DoPushLocal,
         DoLoadRemote, DoWriteLink, DoCas, DoDecrement, DoSweepRead, DoSweepWeigh;
  }

  predicate ByRefill(step: Step) { step.RefillStart? || step.StoreLive? || step.StoreRetired? }

  lemma RefillSettles(s: State, step: Step, b: Addr, c: Addr)
    requires Inv(s) && Enabled(s, step) && Retired(s, b, c) && ByRefill(step) && Next(s, step).Ok?
    ensures Settled(s, step, Next(s, step).s, b, c)
  {
    hide Inv, Of, DoAllocPop, DoHarvest, DoNewSegment, DoReadRetired, DoPushLocal, DoLoadRemote, DoWriteLink,
         DoCas, DoDecrement, DoSweepRead, DoSweepWeigh, DoUnmap, DoDecommit;
    if !step.RefillStart? {
      ActiveIsLive(s, step.t);
    }
  }

  lemma HarvestLeaves(s: State, t: Tid, key: Key, size: nat, b: Addr, c: Addr)
    requires DoHarvest(s, t, key, size).Ok? && b in s.segs
    requires var a := s.Active(Cell(t, key));
             a in s.segs && b != a && c !in s.segs[a].queue && (s.segs[a].remote != 0 ==> c != s.segs[a].remote)
    ensures var n := DoHarvest(s, t, key, size).s;
            b in n.segs && n.segs[b] == s.segs[b] && (c in n.place <==> c in s.place) &&
            (c in s.place ==> n.place[c] == s.place[c]) && (n.Pc(t).Idle? || n.Pc(t).Storing?) &&
            forall u :: u != t ==> n.Pc(u) == s.Pc(u)
  {
    hide Of;
    var g := s.segs[s.Active(Cell(t, key))];
    if g.remote == 0 {
      assert DoHarvest(s, t, key, size).s == s.Goto(t, Storing(key, size));
    }
  }

  /** Only the active segment's queue is harvested, and its chunks are its own. */
  lemma HarvestSettles(s: State, t: Tid, b: Addr, c: Addr)
    requires Inv(s) && Enabled(s, Harvest(t)) && Retired(s, b, c) && Next(s, Harvest(t)).Ok?
    ensures Settled(s, Harvest(t), Next(s, Harvest(t)).s, b, c)
  {
    hide Inv, Of, DoHarvest;
    ActiveIsLive(s, t);
    var a := s.Active(Cell(t, s.Pc(t).key));
    assert c !in s.segs[a].queue by {
      if c in s.segs[a].queue { QueuedPlace(s, a, c); }
    }
    if s.segs[a].remote != 0 {
      RemoteIsQueued(s, a);
    }
    HarvestLeaves(s, t, s.Pc(t).key, s.Pc(t).size, b, c);
  }

  lemma RemoteIsQueued(s: State, a: Addr)
    requires Inv(s) && a in s.segs && s.segs[a].remote != 0
    ensures s.segs[a].remote in s.segs[a].queue
  {
    hide Of, IsChunk, ChunksInSegment, Distinct, ChunksOk, CellsOk, ThreadsOk, ReaperOk;
    assert SegOk(s, a);
    ChainEnds(s.link, s.segs[a].remote, s.segs[a].queue);
  }

  lemma NewSegmentSettles(s: State, t: Tid, base: Addr, b: Addr, c: Addr)
    requires Inv(s) && Enabled(s, NewSegment(t, base)) && Retired(s, b, c) && Next(s, NewSegment(t, base)).Ok?
    ensures Settled(s, NewSegment(t, base), Next(s, NewSegment(t, base)).s, b, c)
  {
    hide Inv, Of, Carved, CarvedLinks, IsChunk, ChunksInSegment, DoAllocPop, DoHarvest, DoStoreLive,
         DoStoreRetired, DoReadRetired, DoPushLocal, DoLoadRemote, DoWriteLink, DoCas, DoDecrement,
         DoSweepRead, DoSweepWeigh, DoUnmap, DoDecommit;
    var size := s.Pc(t).size;
    assert Carvable(size) by { MappingFits(s, t); }
    var q := Carved(base, size, ChunksInSegment(size));
    CarvedIsAll(base, size);
    assert c !in q by {
      if c in q { ChunkInside(base, size, c); }
    }
  }

  lemma MappingFits(s: State, t: Tid)
    requires Inv(s) && s.Pc(t).Mapping?
    ensures Carvable(s.Pc(t).size)
  {
    hide Of, IsChunk, ChunksInSegment, Chain, Distinct, ChunksOk, CellsOk, SegsOk, ReaperOk;
    assert ThreadOk(s, t);
  }

  lemma AllocPopSettles(s: State, t: Tid, key: Key, b: Addr, c: Addr)
    requires Inv(s) && Enabled(s, AllocPop(t, key)) && Retired(s, b, c) && Next(s, AllocPop(t, key)).Ok?
    ensures Settled(s, AllocPop(t, key), Next(s, AllocPop(t, key)).s, b, c)
  {
    hide Inv, Of, DoHarvest, DoStoreLive, DoStoreRetired, DoNewSegment, DoReadRetired, DoPushLocal,
         DoLoadRemote, DoWriteLink, DoCas, DoDecrement, DoSweepRead, DoSweepWeigh, DoUnmap, DoDecommit;
    HeadIsLocal(s, Cell(t, key));
    if c in s.segs[b].queue {
      QueuedPlace(s, b, c);
    }
  }

  lemma HeadIsLocal(s: State, l: Cell)
    requires Inv(s) && s.Head(l) != 0
    ensures s.Head(l) in s.place && s.place[s.Head(l)].Local?
  {
    hide Of, IsChunk, ChunksInSegment, Distinct, ChunksOk, SegsOk, ThreadsOk, ReaperOk;
    assert CellOk(s, l);
    ChainEnds(s.link, s.Head(l), s.List(l));
  }

  predicate ByFree(step: Step) {
    step.ReadRetired? || step.PushLocal? || step.Decrement?
  }

  lemma StoreSettles(s: State, d: Addr, v: Addr, b: Addr, c: Addr)
    requires Enabled(s, ClientStore(d, v)) && Retired(s, b, c) && Next(s, ClientStore(d, v)).Ok?
    ensures Settled(s, ClientStore(d, v), Next(s, ClientStore(d, v)).s, b, c)
  {
    hide Of, Settled;
    SameSettles(s, ClientStore(d, v), Next(s, ClientStore(d, v)).s, b, c);
  }

  lemma FreeStartSettles(s: State, t: Tid, d: Addr, b: Addr, c: Addr)
    requires Inv(s) && Enabled(s, FreeStart(t, d)) && Retired(s, b, c) && Next(s, FreeStart(t, d)).Ok?
    ensures Settled(s, FreeStart(t, d), Next(s, FreeStart(t, d)).s, b, c)
  {
    hide Inv, Of, DoAllocPop, DoHarvest, DoStoreLive, DoStoreRetired, DoNewSegment, DoReadRetired, DoPushLocal,
         DoLoadRemote, DoWriteLink, DoCas, DoDecrement, DoSweepRead, DoSweepWeigh, DoUnmap, DoDecommit;
    if c in s.segs[b].queue {
      QueuedPlace(s, b, c);
    }
  }

  /** A free that reads "retired", pushes on an own list or counts does not concern c. */
  lemma FreeSettles(s: State, step: Step, b: Addr, c: Addr)
    requires Inv(s) && Enabled(s, step) && Retired(s, b, c) && ByFree(step) && Next(s, step).Ok?
    ensures Settled(s, step, Next(s, step).s, b, c)
  {
    hide Inv, Of, DoAllocPop, DoHarvest, DoStoreLive, DoStoreRetired, DoNewSegment, DoLoadRemote, DoWriteLink,
         DoCas, DoSweepRead, DoSweepWeigh, DoUnmap, DoDecommit;
    FreeInFlight(s, step.t);
    if c in s.segs[b].queue {
      QueuedPlace(s, b, c);
    }
  }

  lemma FreeInFlight(s: State, t: Tid)
    requires Inv(s) && (s.Pc(t).Freeing? || s.Pc(t).Pushing? || s.Pc(t).Dropping? || ToQueue(s.Pc(t)))
    ensures s.Pc(t).c in s.place && s.place[s.Pc(t).c] == Flight(t) && Of(s.Pc(t).c) in s.segs
    ensures s.Pc(t).Pushing? ==> !s.segs[Of(s.Pc(t).c)].retired
  {
    hide Inv, Of;
    InFlight(s, t);
  }

  predicate ByPush(step: Step) { step.LoadRemote? || step.WriteLink? }

  lemma PushSettles(s: State, step: Step, b: Addr, c: Addr)
    requires Inv(s) && Enabled(s, step) && Retired(s, b, c) && ByPush(step) && Next(s, step).Ok?
    ensures Settled(s, step, Next(s, step).s, b, c)
  {
    hide Inv, Of, DoAllocPop, DoHarvest, DoStoreLive, DoStoreRetired, DoNewSegment, DoReadRetired, DoPushLocal,
         DoCas, DoDecrement, DoSweepRead, DoSweepWeigh, DoUnmap, DoDecommit;
    FreeInFlight(s, step.t);
  }

  lemma CasSettles(s: State, t: Tid, spurious: bool, b: Addr, c: Addr)
    requires Inv(s) && Enabled(s, Cas(t, spurious)) && Retired(s, b, c) && Next(s, Cas(t, spurious)).Ok?
    ensures Settled(s, Cas(t, spurious), Next(s, Cas(t, spurious)).s, b, c)
  {
    hide Inv, Of, DoCas, Settled;
    FreeInFlight(s, t);
    var pc := s.Pc(t);
    if s.segs[Of(pc.c)].remote == pc.cur && !spurious {
      CasSucceeds(s, t, spurious, b, c);
    } else {
      CasFails(s, t, spurious, b, c);
    }
  }

  lemma CasSucceeds(s: State, t: Tid, spurious: bool, b: Addr, c: Addr)
    requires s.Pc(t).Swapping? && Of(s.Pc(t).c) in s.segs && Retired(s, b, c)
    requires s.Pc(t).c in s.place && s.place[s.Pc(t).c] == Flight(t)
    requires s.segs[Of(s.Pc(t).c)].remote == s.Pc(t).cur && !spurious
    ensures Settled(s, Cas(t, spurious), DoCas(s, t, s.Pc(t).c, s.Pc(t).cur, spurious).s, b, c)
  {
    hide Of;
    var d := s.Pc(t).c;
    var n := DoCas(s, t, d, s.Pc(t).cur, spurious).s;
    assert b != Of(d) ==> n.segs[b] == s.segs[b];
  }

  lemma CasFails(s: State, t: Tid, spurious: bool, b: Addr, c: Addr)
    requires s.Pc(t).Swapping? && Of(s.Pc(t).c) in s.segs && Retired(s, b, c)
    requires s.Pc(t).c in s.place && s.place[s.Pc(t).c] == Flight(t)
    requires s.segs[Of(s.Pc(t).c)].remote != s.Pc(t).cur || spurious
    ensures Settled(s, Cas(t, spurious), DoCas(s, t, s.Pc(t).c, s.Pc(t).cur, spurious).s, b, c)
  {
    hide Of;
  }

  lemma StepSettles(s: State, step: Step, b: Addr, c: Addr)
    requires Inv(s) && Enabled(s, step) && Retired(s, b, c)
    ensures Safe(Next(s, step)) && Settled(s, step, Next(s, step).s, b, c)
  {
    hide Inv, Next, Enabled, Settled, Of;
    StepKeeps(s, step);
    match step
    case AllocPop(t, key) => AllocPopSettles(s, t, key, b, c);
    case Harvest(t) => HarvestSettles(s, t, b, c);
    case NewSegment(t, base) => NewSegmentSettles(s, t, base, b, c);
    case ClientStore(d, v) => StoreSettles(s, d, v, b, c);
    case FreeStart(t, d) => FreeStartSettles(s, t, d, b, c);
    case Cas(t, spurious) => CasSettles(s, t, spurious, b, c);
    case _ =>
      if BySweep(step) {
        SweepSettles(s, step, b, c);
      } else if step.Unmap? || step.Decommit? {
        UnmapSettles(s, step, b, c);
      } else if ByRefill(step) {
        RefillSettles(s, step, b, c);
      } else if ByPush(step) {
        PushSettles(s, step, b, c);
      } else {
        FreeSettles(s, step, b, c);
      }
  }

  // ----- what is reclaimable stays so -----

  /** b is mapped in every state of the run. */
  predicate Lives(s: State, steps: seq<Step>, b: Addr)
    decreases |steps|
  {
    b in s.segs && (steps == [] ||
      if !Enabled(s, steps[0]) then Lives(s, steps[1..], b)
      else Next(s, steps[0]).Ok? && Lives(Next(s, steps[0]).s, steps[1..], b))
  }

  lemma ReclaimableStep(s: State, step: Step, b: Addr)
    requires Inv(s) && Enabled(s, step) && Reclaimable(s, b)
    ensures Safe(Next(s, step)) && (b in Next(s, step).s.segs ==> Reclaimable(Next(s, step).s, b))
  {
    hide Inv, Next, Enabled, Of, Coming, Swaps, IsChunk;
    assert Of(b) == b by { BaseIsOwn(s, b); }
    StepSettles(s, step, b, b);
    if Counts(s, step, b) {
      FreeInFlight(s, step.t);
      ReclaimableIsEmpty(s, b);
      assert false;
    }
  }

  lemma BaseIsOwn(s: State, b: Addr)
    requires Inv(s) && b in s.segs
    ensures Of(b) == b
  {
    hide Inv, Of;
    SegFacts(s, b);
    OfInside(b, b);
  }

  /** "Retired and zero" cannot lapse while the segment is mapped, sweep or no sweep; and it holds of all
      that a sweep has yet to reclaim. */
  lemma ReclaimableStays(s: State, steps: seq<Step>, b: Addr)
    requires Reached(s) && Lives(s, steps, b)
    requires Reclaimable(s, b) || (!s.reaper.Resting? && b in s.reaper.elig)
    ensures Exec(s, steps).Ok? && Reclaimable(Exec(s, steps).s, b)
  {
    hide Inv, Exec, Lives;
    ReachedInv(s);
    if !s.reaper.Resting? && b in s.reaper.elig {
      EligibleIsReclaimable(s, b);
    }
    RunReclaimable(s, steps, b);
  }

  lemma {:induction false} RunReclaimable(s: State, steps: seq<Step>, b: Addr)
    requires Inv(s) && Lives(s, steps, b) && Reclaimable(s, b)
    ensures Exec(s, steps).Ok? && Reclaimable(Exec(s, steps).s, b)
    decreases |steps|
  {
    hide Inv, Next, Enabled, Reclaimable;
    if steps == [] {
    } else if Enabled(s, steps[0]) {
      ReclaimableStep(s, steps[0], b);
      RunReclaimable(Next(s, steps[0]).s, steps[1..], b);
    } else {
      RunReclaimable(s, steps[1..], b);
    }
  }

  // ----- what is coming pins the segment, and is stranded exactly when it is pushed -----

  /** Some step of the run pushes c. */
  predicate Pushes(s: State, steps: seq<Step>, c: Addr)
    decreases |steps|
  {
    steps != [] &&
    if !Enabled(s, steps[0]) then Pushes(s, steps[1..], c)
    else Swaps(s, steps[0], c) || (Next(s, steps[0]).Ok? && Pushes(Next(s, steps[0]).s, steps[1..], c))
  }

  lemma ComingPins(s: State, step: Step, b: Addr, c: Addr)
    requires Inv(s) && Enabled(s, step) && Retired(s, b, c) && Coming(s, b, c)
    ensures !Unmaps(s, step, b)
  {
    hide Inv, Next, Enabled, Of, IsChunk;
    if Unmaps(s, step, b) {
      EligibleIsReclaimable(s, b);
      ReclaimableIsEmpty(s, b);
      if c in s.segs[b].queue {
        QueuedPlace(s, b, c);
      }
      assert false;
    }
  }

  /** Of a retired segment. */
  lemma {:induction false} Fate(s: State, steps: seq<Step>, b: Addr, c: Addr)
    requires Inv(s) && Retired(s, b, c) && (Coming(s, b, c) || Lives(s, steps, b))
    ensures Lives(s, steps, b) && Safe(Exec(s, steps))
    ensures var m := Exec(s, steps).s;
            Retired(m, b, c) && (Coming(m, b, c) <==> Coming(s, b, c)) &&
            (Stranded(m, b, c) <==> Stranded(s, b, c) || Pushes(s, steps, c))
    decreases |steps|
  {
    hide Inv, Next, Enabled, Of, Coming, Swaps, Unmaps, Counts;
    if steps == [] {
    } else if Enabled(s, steps[0]) {
      StepSettles(s, steps[0], b, c);
      if Coming(s, b, c) {
        ComingPins(s, steps[0], b, c);
      }
      Fate(Next(s, steps[0]).s, steps[1..], b, c);
    } else {
      Fate(s, steps[1..], b, c);
    }
  }

  lemma RetiringLeaves(s: State, t: Tid, c: Addr)
    requires Inv(s) && Enabled(s, StoreRetired(t))
    ensures var b := s.Active(Cell(t, s.Pc(t).key));
            b in s.segs && Safe(Next(s, StoreRetired(t))) && b in Next(s, StoreRetired(t)).s.segs &&
            Next(s, StoreRetired(t)).s.segs[b].retired &&
            Next(s, StoreRetired(t)).s.segs[b].queue == s.segs[b].queue &&
            (Coming(Next(s, StoreRetired(t)).s, b, c) <==> Coming(s, b, c))
  {
    hide Inv, Of;
    ActiveIsLive(s, t);
    StoreRetiredKeeps(s, t, s.Pc(t).key, s.Pc(t).size);
  }

  /** The leak, exactly.  Of the chunks of a segment that is being retired, those queued at that moment
      and those whose free is then loading, linking or swapping pin the segment, in every continuation;
      and at any later time the stranded chunks are the ones queued then, plus those of the others whose
      compare-and-swap has succeeded.  No other chunk of the segment is ever stranded. */
  lemma StrandedExactly(s: State, t: Tid, steps: seq<Step>, c: Addr)
    requires Reached(s) && Enabled(s, StoreRetired(t))
    ensures Next(s, StoreRetired(t)).Ok?
    ensures var b, n := s.Active(Cell(t, s.Pc(t).key)), Next(s, StoreRetired(t)).s;
            b in s.segs && (Coming(s, b, c) ==> Lives(n, steps, b))
    ensures var b, n := s.Active(Cell(t, s.Pc(t).key)), Next(s, StoreRetired(t)).s;
            Lives(n, steps, b) ==>
              Exec(n, steps).Ok? && (Stranded(Exec(n, steps).s, b, c) <==>
                                     Coming(s, b, c) && (c in s.segs[b].queue || Pushes(n, steps, c)))
  {
    hide Inv, Next, Of, Coming, Exec, Lives, Pushes;
    ReachedInv(s);
    RetiringLeaves(s, t, c);
    var b, n := s.Active(Cell(t, s.Pc(t).key)), Next(s, StoreRetired(t)).s;
    if Lives(n, steps, b) || Coming(s, b, c) {
      FateAnywhere(n, steps, b, c);
    }
  }

  /** The same for any address: those outside b never appear. */
  lemma FateAnywhere(s: State, steps: seq<Step>, b: Addr, c: Addr)
    requires Inv(s) && b in s.segs && s.segs[b].retired && (Coming(s, b, c) || Lives(s, steps, b))
    ensures Lives(s, steps, b) && Exec(s, steps).Ok?
    ensures Stranded(Exec(s, steps).s, b, c) <==> Coming(s, b, c) && (Stranded(s, b, c) || Pushes(s, steps, c))
  {
    hide Inv, Enabled, Next, Of, Exec, Lives, Pushes, OnItsWay;
    if Of(c) == b {
      Fate(s, steps, b, c);
    } else {
      BaseIsOwn(s, b);
      Fate(s, steps, b, b);
      if Stranded(Exec(s, steps).s, b, c) {
        QueuedPlace(Exec(s, steps).s, b, c);
      }
    }
  }

  lemma StrandedCounts(s: State, b: Addr, c: Addr)
    requires Inv(s) && Stranded(s, b, c)
    ensures s.segs[b].live > 0
  {
    hide Inv, Of, IsChunk;
    QueuedPlace(s, b, c);
    if s.segs[b].live == 0 {
      ReclaimableIsEmpty(s, b);
      assert false;
    }
  }

  /** A stranded chunk is never reused and pins its segment: whatever happens later, the chunk stays
      queued, the segment stays mapped, and its counter never reaches zero. */
  lemma StrandedForever(s: State, steps: seq<Step>, b: Addr, c: Addr)
    requires Reached(s) && Stranded(s, b, c)
    ensures Lives(s, steps, b) && Exec(s, steps).Ok? && Stranded(Exec(s, steps).s, b, c) &&
            Exec(s, steps).s.segs[b].live > 0
  {
    hide Inv, Exec, Lives, Pushes, OnItsWay, Of;
    ReachedInv(s);
    QueuedPlace(s, b, c);
    Fate(s, steps, b, c);
    StrandedCounts(Exec(s, steps).s, b, c);
  }

  // ----- each of them can be stranded -----

  lemma ThenPushes(s: State, step: Step, n: State, rest: seq<Step>, c: Addr)
    requires Enabled(s, step) && Next(s, step) == Ok(n) && Pushes(n, rest, c)
    ensures Pushes(s, [step] + rest, c)
  {
    hide Enabled, Next, Swaps;
    assert ([step] + rest)[1..] == rest;
  }

  lemma PushesNow(s: State, t: Tid, c: Addr)
    requires s.Pc(t).Swapping? && s.Pc(t).c == c && Of(c) in s.segs && s.segs[Of(c)].remote == s.Pc(t).cur
    ensures Pushes(s, [Cas(t, false)], c)
  {
    hide Of;
  }

  lemma WritesThenPushes(s: State, t: Tid, c: Addr)
    requires s.Pc(t).Linking? && s.Pc(t).c == c && Of(c) in s.segs && s.segs[Of(c)].remote == s.Pc(t).cur
    ensures Pushes(s, [WriteLink(t)] + [Cas(t, false)], c)
  {
    hide Of, Pushes;
    var n := s.(link := s.link[c := s.Pc(t).cur]).Goto(t, Swapping(c, s.Pc(t).cur));
    PushesNow(n, t, c);
    ThenPushes(s, WriteLink(t), n, [Cas(t, false)], c);
  }

  lemma SwapsInTime(s: State, t: Tid, c: Addr) returns (steps: seq<Step>)
    requires s.Pc(t).Swapping? && s.Pc(t).c == c && Of(c) in s.segs
    ensures Pushes(s, steps, c)
  {
    hide Of, Pushes;
    if s.segs[Of(c)].remote == s.Pc(t).cur {
      steps := [Cas(t, false)];
      PushesNow(s, t, c);
    } else {
      var n := s.Goto(t, Linking(c, s.segs[Of(c)].remote));
      WritesThenPushes(n, t, c);
      steps := [Cas(t, false)] + ([WriteLink(t)] + [Cas(t, false)]);
      ThenPushes(s, Cas(t, false), n, [WriteLink(t)] + [Cas(t, false)], c);
    }
  }

  /** Nothing in StrandedExactly is idle: whatever is on its way to a retired segment's queue is pushed
      by some continuation. */
  lemma CanBeStranded(s: State, b: Addr, c: Addr)
    requires Reached(s) && b in s.segs && s.segs[b].retired && Coming(s, b, c)
    ensures exists steps :: Exec(s, steps).Ok? && Stranded(Exec(s, steps).s, b, c)
  {
    hide Inv, Of, Pushes, Next, Enabled, Exec, Lives;
    ReachedInv(s);
    if c in s.segs[b].queue {
      StrandedForever(s, [], b, c);
    } else {
      var steps := PushesInTime(s, b, c);
      FateAnywhere(s, steps, b, c);
    }
  }

  lemma PushesInTime(s: State, b: Addr, c: Addr) returns (steps: seq<Step>)
    requires b in s.segs && Of(c) == b && OnItsWay(s, c)
    ensures Pushes(s, steps, c)
  {
    hide Of, Pushes;
    var t := s.place[c].t;
    match s.Pc(t)
    case Loading(_) =>
      var n := s.Goto(t, Linking(c, s.segs[b].remote));
      WritesThenPushes(n, t, c);
      steps := [LoadRemote(t)] + ([WriteLink(t)] + [Cas(t, false)]);
      ThenPushes(s, LoadRemote(t), n, [WriteLink(t)] + [Cas(t, false)], c);
    case Linking(_, cur) =>
      var n := s.(link := s.link[c := cur]).Goto(t, Swapping(c, cur));
      var rest := SwapsInTime(n, t, c);
      steps := [WriteLink(t)] + rest;
      ThenPushes(s, WriteLink(t), n, rest, c);
    case Swapping(_, _) =>
      steps := SwapsInTime(s, t, c);
  }
}
