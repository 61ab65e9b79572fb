/** The pagemap beside the reclamation protocol: driven by the protocol's mappings and unregistrations, its
    lookup finds every chunk in use, and no address outside the mapped segments. */
module Managed {
  import opened Lists
  import opened Segments
  import opened Reclamation
  import opened ReclamationSteps
  import opened ReclamationResults
  import opened Pagemap

  /** The segments whose bit is set: those mapped, but for the one between its clearing and its munmap. */
  function Bits(s: State): set<Addr> {
    if s.reaper.Unmapping? && s.reaper.elig != [] then s.segs.Keys - {s.reaper.elig[0]} else s.segs.Keys
  }

  /** What the runtime does to the bits at a step: set at mapping, cleared before the munmap. */
  function MarkedBy(s: State, step: Step, bits: set<Addr>): set<Addr>
    requires Enabled(s, step)
  {
    match step
    case NewSegment(_, b) => bits + {b}
    case Unregister => bits - {s.reaper.elig[0]}
    case _ => bits
  }

  predicate ByReaper(step: Step) {
    step.SweepStart? || step.SweepRead? || step.SweepWeigh? || step.SweepUnlock? || step.SweepEnd? ||
    step.Unregister? || step.Unmap? || step.Decommit?
  }

  lemma UnmappingMapped(s: State)
    requires Inv(s) && s.reaper.Unmapping? && s.reaper.elig != []
    ensures s.reaper.elig[0] in s.segs
  {
    hide ChunksOk, SegsOk, CellsOk, ThreadsOk, Distinct;
    assert s.reaper.elig[0] in s.reaper.elig;
  }

  lemma ReaperMarks(s: State, step: Step)
    requires Inv(s) && Enabled(s, step) && ByReaper(step) && Next(s, step).Ok?
    ensures Bits(Next(s, step).s) == MarkedBy(s, step, Bits(s))
  {
    hide Inv, Of, SwapRemove, DoAllocPop, DoHarvest, DoStoreLive, DoStoreRetired, DoNewSegment, DoClientStore, DoReadRetired,
         DoPushLocal, DoLoadRemote, DoWriteLink, DoCas, DoDecrement, DoSweepRead, DoSweepWeigh;
    if step.SweepRead? {
      ReadStays(s);
    } else if step.SweepWeigh? {
      WeighStays(s, step.wanted);
    }
  }

  lemma ReadStays(s: State)
    requires Enabled(s, SweepRead) && s.reaper.Scanning? && s.reaper.i < |s.index| && DoSweepRead(s).Ok?
    ensures var n := DoSweepRead(s).s; n.segs == s.segs && n.index == s.index && (n.reaper.Weighing? || n.reaper.Scanning?)
  {
    hide Enabled;
  }

  lemma WeighStays(s: State, wanted: bool)
    requires Enabled(s, SweepWeigh(wanted)) && s.reaper.Weighing? && s.reaper.i < |s.index| && DoSweepWeigh(s, wanted).Ok?
    ensures var n := DoSweepWeigh(s, wanted).s; n.segs == s.segs && n.index == s.index && n.reaper.Scanning?
  {
    hide Enabled;
  }

  lemma NewSegmentMarks(s: State, t: Tid, b: Addr)
    requires Inv(s) && Enabled(s, NewSegment(t, b)) && Next(s, NewSegment(t, b)).Ok?
    ensures Bits(Next(s, NewSegment(t, b)).s) == MarkedBy(s, NewSegment(t, b), Bits(s))
  {
    hide Inv, Of, Carved, CarvedLinks, IsBase, PlaceAll;
    if s.reaper.Unmapping? && s.reaper.elig != [] {
      UnmappingMapped(s);
    }
  }

  predicate ByAlloc(step: Step) {
    step.AllocPop? || step.RefillStart? || step.Harvest? || step.StoreLive? || step.StoreRetired?
  }

  lemma AllocMarks(s: State, step: Step)
    requires Enabled(s, step) && ByAlloc(step) && Next(s, step).Ok?
    ensures Next(s, step).s.segs.Keys == s.segs.Keys && Next(s, step).s.reaper == s.reaper
    ensures Next(s, step).s.index == s.index
  {
    hide Of, PlaceAll, ChunksInSegment, DoNewSegment, DoClientStore, DoReadRetired, DoPushLocal, DoLoadRemote, DoWriteLink,
         DoCas, DoDecrement, DoSweepRead, DoSweepWeigh, DoUnmap, DoDecommit;
  }

  lemma FreeMarks(s: State, step: Step)
    requires Enabled(s, step) && !ByAlloc(step) && !ByReaper(step) && !step.NewSegment? && Next(s, step).Ok?
    ensures Next(s, step).s.segs.Keys == s.segs.Keys && Next(s, step).s.reaper == s.reaper
    ensures Next(s, step).s.index == s.index
  {
    hide Next, Enabled;
    if step.Cas? || step.Decrement? {
      CountMarks(s, step);
    } else {
      MoveMarks(s, step);
    }
  }

  lemma CountMarks(s: State, step: Step)
    requires Enabled(s, step) && (step.Cas? || step.Decrement?) && Next(s, step).Ok?
    ensures Next(s, step).s.segs.Keys == s.segs.Keys && Next(s, step).s.reaper == s.reaper
    ensures Next(s, step).s.index == s.index
  {
    hide Of, DoAllocPop, DoHarvest, DoStoreLive, DoStoreRetired, DoNewSegment, DoClientStore, DoReadRetired, DoPushLocal,
         DoLoadRemote, DoWriteLink, DoSweepRead, DoSweepWeigh, DoUnmap, DoDecommit;
  }

  lemma MoveMarks(s: State, step: Step)
    requires Enabled(s, step) && !ByAlloc(step) && !ByReaper(step) && !step.NewSegment? && Next(s, step).Ok?
    requires !step.Cas? && !step.Decrement?
    ensures Next(s, step).s.segs == s.segs && Next(s, step).s.reaper == s.reaper && Next(s, step).s.index == s.index
  {
    hide Of, DoAllocPop, DoHarvest, DoStoreLive, DoStoreRetired, DoNewSegment, DoCas, DoDecrement, DoSweepRead, DoSweepWeigh,
         DoUnmap, DoDecommit;
  }

  /** Setting and clearing bits where the runtime does keeps them exactly the mapped segments, but for one
      about to be unmapped. */
  lemma StepMarks(s: State, step: Step)
    requires Inv(s) && Enabled(s, step)
    ensures Safe(Next(s, step)) && Bits(Next(s, step).s) == MarkedBy(s, step, Bits(s))
  {
    hide Inv, Bits, Next, Enabled;
    StepKeeps(s, step);
    if ByReaper(step) {
      ReaperMarks(s, step);
    } else if step.NewSegment? {
      NewSegmentMarks(s, step.t, step.base);
    } else {
      if ByAlloc(step) {
        AllocMarks(s, step);
      } else {
        FreeMarks(s, step);
      }
      SameBits(s, Next(s, step).s);
    }
  }

  lemma SameBits(s: State, n: State)
    requires n.segs.Keys == s.segs.Keys && n.reaper == s.reaper
    ensures Bits(n) == Bits(s)
  {
  }

  /** A pointer into a chunk that has not been counted as freed is found managed, at every moment of every
      run: free's lookup never takes it for one of libc's, and no bit is cleared while a free is under way. */
  lemma ChunkIsManaged(s: State, c: Addr)
    requires Reached(s) && c in s.place && !s.place[c].Done?
    ensures Of(c) in s.segs && forall p :: c <= p < c + s.segs[Of(c)].size ==> Of(p) == Of(c) && Of(p) in Bits(s)
  {
    hide Inv, Of, IsChunk, Reached;
    ReachedInv(s);
    PlacedIsMapped(s, c);
    SegFacts(s, Of(c));
    ChunkInside(Of(c), s.segs[Of(c)].size, c);
    if s.reaper.Unmapping? && s.reaper.elig != [] && s.reaper.elig[0] == Of(c) {
      EligibleIsReclaimable(s, Of(c));
      ReclaimableIsEmpty(s, Of(c));
      assert false;
    }
    forall p | c <= p < c + s.segs[Of(c)].size
      ensures Of(p) == Of(c)
    {
      OfInside(Of(c), p);
    }
  }

  /** And an address in no mapped segment is never taken for the allocator's. */
  lemma OthersAreNot(s: State, p: Addr)
    requires Of(p) !in s.segs
    ensures Of(p) !in Bits(s)
  {
    hide Of;
  }

  /** The pagemap and the index hold what the protocol's state says. */
  ghost predicate Agrees(r: Registry, s: State)
    reads r, r.words, r.index
  {
    r.Valid() && r.registered == Bits(s) && r.index[..r.count] == s.index
  }

  /** One step of the protocol, with the calls the runtime makes at it. */
  method Follow(r: Registry, s: State, step: Step)
    requires Inv(s) && Enabled(s, step) && Agrees(r, s)
    modifies r, r.words, r.index
    ensures Safe(Next(s, step)) && Agrees(r, Next(s, step).s)
  {
    hide Inv, Bits, Next, IsBase, SwapRemove;
    StepMarks(s, step);
    IndexFollows(s, step);
    match step
    case NewSegment(_, b) =>
      FreshBit(s, b);
      r.Register(b);
    case Unregister =>
      BaseEligible(s);
      r.Unregister(s.reaper.elig[0]);
    case _ =>
  }

  lemma FreshBit(s: State, b: Addr)
    requires b !in s.segs
    ensures b !in Bits(s)
  {
  }

  lemma BaseEligible(s: State)
    requires Inv(s) && s.reaper.Reaping? && s.reaper.elig != []
    ensures IsBase(s.reaper.elig[0])
  {
    hide Inv;
    EligibleIsReclaimable(s, s.reaper.elig[0]);
    SegFacts(s, s.reaper.elig[0]);
  }

  lemma IndexFollows(s: State, step: Step)
    requires Enabled(s, step) && Next(s, step).Ok?
    ensures Next(s, step).s.index ==
            match step
            case NewSegment(_, b) => if |s.index| < Reclamation.MAX_SEGMENTS then s.index + [b] else s.index
            case Unregister => SwapRemove(s.index, s.reaper.elig[0])
            case _ => s.index
  {
    hide Of, SwapRemove, Next;
    if ByReaper(step) {
      ReaperIndexes(s, step);
    } else if step.NewSegment? {
      SegmentIndexes(s, step.t, step.base);
    } else if ByAlloc(step) {
      AllocMarks(s, step);
    } else {
      FreeMarks(s, step);
    }
  }

  lemma ReaperIndexes(s: State, step: Step)
    requires Enabled(s, step) && ByReaper(step) && Next(s, step).Ok?
    ensures Next(s, step).s.index == if step.Unregister? then SwapRemove(s.index, s.reaper.elig[0]) else s.index
  {
    hide Of, SwapRemove, DoAllocPop, DoHarvest, DoStoreLive, DoStoreRetired, DoNewSegment, DoClientStore, DoReadRetired,
         DoPushLocal, DoLoadRemote, DoWriteLink, DoCas, DoDecrement, DoSweepRead, DoSweepWeigh;
    if step.SweepRead? {
      ReadStays(s);
    } else if step.SweepWeigh? {
      WeighStays(s, step.wanted);
    }
  }

  lemma SegmentIndexes(s: State, t: Tid, b: Addr)
    requires Enabled(s, NewSegment(t, b)) && Next(s, NewSegment(t, b)).Ok?
    ensures Next(s, NewSegment(t, b)).s.index == if |s.index| < Reclamation.MAX_SEGMENTS then s.index + [b] else s.index
  {
    hide Of, PlaceAll, Carved, CarvedLinks, IsBase;
  }

  /** Over any run the pagemap's words hold exactly those bits, and the index its segments. */
  method Drive(r: Registry, mode: Mode, steps: seq<Step>)
    requires Agrees(r, Init(mode))
    modifies r, r.words, r.index
    ensures Exec(Init(mode), steps).Ok? && Agrees(r, Exec(Init(mode), steps).s)
  {
    hide Inv, Bits, Next, Enabled, Agrees;
    InitInv(mode);
    var s := Init(mode);
    var i := 0;
    assert steps[0..] == steps;
    while i < |steps|
      invariant 0 <= i <= |steps| && Inv(s) && Agrees(r, s)
      invariant Exec(Init(mode), steps) == Exec(s, steps[i..])
    {
      assert steps[i..][0] == steps[i] && steps[i..][1..] == steps[i + 1..];
      if Enabled(s, steps[i]) {
        Follow(r, s, steps[i]);
        StepKeeps(s, steps[i]);
        s := Next(s, steps[i]).s;
      }
      i := i + 1;
    }
    assert steps[i..] == [];
  }
}
