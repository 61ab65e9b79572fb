/** What a pop and a refill change, as seen in memory: the words they write, where these lie, and the
    chunk they hand over. */
module Serving {
  import opened Lists
  import opened Segments
  import opened Reclamation
  import opened ReclamationSteps
  import opened ReclamationResults
  import opened Refill

  // ----- links lie in chunks -----

  ghost predicate LinksPlaced(s: State) { forall c :: c in s.link ==> c in s.place }

  predicate Pushes(step: Step) {
    step.ClientStore? || step.PushLocal? || step.WriteLink?
  }

  lemma PushPlaced(s: State, step: Step)
    requires Inv(s) && LinksPlaced(s) && Enabled(s, step) && Pushes(step) && Next(s, step).Ok?
    ensures LinksPlaced(Next(s, step).s)
  {
    hide Inv, Of, DoAllocPop, DoHarvest, DoStoreLive, DoStoreRetired, DoNewSegment, DoReadRetired, DoLoadRemote, DoCas,
         DoDecrement, DoSweepRead, DoSweepWeigh, DoUnmap, DoDecommit;
    if !step.ClientStore? {
      InFlight(s, step.t);
    }
  }

  lemma SegmentPlaced(s: State, step: Step)
    requires LinksPlaced(s) && Enabled(s, step) && (step.NewSegment? || step.Unmap? || step.Decommit?) && Next(s, step).Ok?
    ensures LinksPlaced(Next(s, step).s)
  {
    hide Of, ChunksInSegment, Carved, DoAllocPop, DoHarvest, DoStoreLive, DoStoreRetired, DoClientStore, DoReadRetired,
         DoPushLocal, DoLoadRemote, DoWriteLink, DoCas, DoDecrement, DoSweepRead, DoSweepWeigh;
  }

  lemma ServingPlaced(s: State, step: Step)
    requires LinksPlaced(s) && Enabled(s, step) && (step.AllocPop? || step.Harvest? || step.Cas? || step.Decrement?)
    requires Next(s, step).Ok?
    ensures LinksPlaced(Next(s, step).s)
  {
    hide Of, DoStoreLive, DoStoreRetired, DoNewSegment, DoClientStore, DoReadRetired, DoPushLocal, DoLoadRemote,
         DoWriteLink, DoSweepRead, DoSweepWeigh, DoUnmap, DoDecommit;
  }

  lemma StepPlaced(s: State, step: Step)
    requires Inv(s) && LinksPlaced(s) && Enabled(s, step)
    ensures Safe(Next(s, step)) && LinksPlaced(Next(s, step).s)
  {
    hide Inv, Of, LinksPlaced, DoAllocPop, DoHarvest, DoNewSegment, DoClientStore, DoPushLocal, DoWriteLink, DoCas,
         DoDecrement, DoUnmap, DoDecommit;
    StepKeeps(s, step);
    if Pushes(step) {
      PushPlaced(s, step);
    } else if step.NewSegment? || step.Unmap? || step.Decommit? {
      SegmentPlaced(s, step);
    } else if step.AllocPop? || step.Harvest? || step.Cas? || step.Decrement? {
      ServingPlaced(s, step);
    } else {
      SamePlaced(s, Next(s, step).s);
    }
  }

  lemma SamePlaced(s: State, n: State)
    requires LinksPlaced(s) && n.link == s.link && (n.place == s.place || forall c :: c in s.place ==> c in n.place)
    ensures LinksPlaced(n)
  {
  }

  lemma {:induction false} ExecPlaced(s: State, steps: seq<Step>)
    requires Inv(s) && LinksPlaced(s)
    ensures Safe(Exec(s, steps)) && LinksPlaced(Exec(s, steps).s)
    decreases |steps|
  {
    hide Inv, Next, Enabled, LinksPlaced;
    if steps != [] {
      if Enabled(s, steps[0]) {
        StepPlaced(s, steps[0]);
        ExecPlaced(Next(s, steps[0]).s, steps[1..]);
      } else {
        ExecPlaced(s, steps[1..]);
      }
    }
  }

  lemma ReachedPlaced(s: State)
    requires Reached(s)
    ensures LinksPlaced(s)
  {
    hide Inv, Exec;
    var mode, steps :| Exec(Init(mode), steps) == Ok(s);
    InitInv(mode);
    ExecPlaced(Init(mode), steps);
  }

  /** Two links are never in overlapping words. */
  lemma LinksApart(s: State, c: Addr, d: Addr)
    requires Reached(s) && c in s.link && d in s.link && c < d
    ensures c + 8 <= d
  {
    hide Reached, Inv, Of, IsChunk;
    ReachedPlaced(s);
    ReachedInv(s);
    ChunksDisjoint(s, c, d);
    SegFacts(s, Of(c));
  }

  /** A word of segment b's memory is no link while b is not mapped. */
  lemma LinkOutside(s: State, c: Addr, b: Addr)
    requires Reached(s) && c in s.link && IsBase(b) && b !in s.segs
    ensures c + 8 <= b || SegmentEnd(b) <= c
  {
    hide Reached, Inv, Of, IsChunk;
    ReachedPlaced(s);
    ReachedInv(s);
    PlacedIsMapped(s, c);
    SegFacts(s, Of(c));
    ChunkInside(Of(c), s.segs[Of(c)].size, c);
    BasesApart(Of(c), b);
  }

  // ----- more of a run -----

  lemma {:induction false} ExecMore(s: State, a: seq<Step>, b: seq<Step>)
    requires Exec(s, a).Ok?
    ensures Exec(s, a + b) == Exec(Exec(s, a).s, b)
    decreases |a|
  {
    hide Enabled, Next;
    if a == [] {
      assert a + b == b;
    } else {
      assert (a + b)[1..] == a[1..] + b;
      ExecMore(if Enabled(s, a[0]) then Next(s, a[0]).s else s, a[1..], b);
    }
  }

  lemma StillReached(s: State, steps: seq<Step>)
    requires Reached(s)
    ensures Safe(Exec(s, steps)) && Reached(Exec(s, steps).s)
  {
    hide Inv, Exec;
    ReachedInv(s);
    ExecKeeps(s, steps);
    var mode, before :| Exec(Init(mode), before) == Ok(s);
    ExecMore(Init(mode), before, steps);
  }

  // ----- what a refill leaves -----

  /** It harvests; otherwise it maps a segment. */
  predicate Harvests(s: State, l: Cell) {
    s.Active(l) != 0 && s.Active(l) in s.segs && s.segs[s.Active(l)].remote != 0
  }

  function Served(s: State, l: Cell, size: nat, b: Addr): Addr {
    if Harvests(s, l) then s.segs[s.Active(l)].remote else Nth(Carved(b, size, ChunksInSegment(size)), 0)
  }

  /** The links it writes. */
  function NewLinks(s: State, l: Cell, size: nat, b: Addr): map<Addr, Addr> {
    if Harvests(s, l) then map[] else CarvedLinks(b, size)
  }

  /** The list head it writes: the link of the chunk it serves. */
  function NewHead(s: State, l: Cell, size: nat, b: Addr): Addr {
    var link := s.link + NewLinks(s, l, size, b);
    var c := Served(s, l, size, b);
    if c in link then link[c] else 0
  }

  ghost predicate Refilled(s: State, n: State, l: Cell, size: nat, b: Addr) {
    n.heads == s.heads[l := NewHead(s, l, size, b)] && n.link == s.link + NewLinks(s, l, size, b) &&
    n.pcs == s.pcs[l.t := Idle] && Gives(s, n, Served(s, l, size, b))
  }

  /** Handing over chunk c: held afterwards, not before. */
  predicate Gives(s: State, n: State, c: Addr) {
    c in n.place && n.place[c].Held? && !(c in s.place && s.place[c].Held?)
  }

  lemma MappedRefills(s: State, m: State, l: Cell, size: nat, b: Addr)
    requires Inv(s) && IsBase(b) && Carvable(size) && b !in s.segs && !Harvests(s, l)
    requires m.heads == s.heads && m.link == s.link && m.pcs == s.pcs && m.place == s.place
    ensures var q := Carved(b, size, ChunksInSegment(size)); q != [] && Refilled(s, Mapped(m, l, size, b, q), l, size, b)
  {
    hide Inv, Of, IsChunk, ChunksInSegment, Carved, CarvedLinks, Mapped, IsBase;
    CarvedChain(b, size);
    FreshChunk(s, size, b);
    MappedShape(m, l, size, b);
  }

  lemma MappedShape(m: State, l: Cell, size: nat, b: Addr)
    requires Carved(b, size, ChunksInSegment(size)) != []
    ensures var q := Carved(b, size, ChunksInSegment(size));
            var n := Mapped(m, l, size, b, q);
            n.link == m.link + CarvedLinks(b, size) && n.pcs == m.pcs[l.t := Idle] &&
            n.heads == m.heads[l := if q[0] in n.link then n.link[q[0]] else 0] &&
            q[0] in n.place && n.place[q[0]].Held?
  {
    hide Of, IsChunk, ChunksInSegment, Carved, CarvedLinks;
  }

  lemma FreshChunk(s: State, size: nat, b: Addr)
    requires Inv(s) && IsBase(b) && Carvable(size) && b !in s.segs
    ensures var q := Carved(b, size, ChunksInSegment(size)); q != [] && q[0] !in s.place
  {
    hide Inv, Of, IsChunk, ChunksInSegment, Carved, CarvedLinks, Chain, Distinct, IsBase;
    CarvedChain(b, size);
    var q := Carved(b, size, ChunksInSegment(size));
    assert q[0] in q;
    if q[0] in s.place {
      PlacedIsMapped(s, q[0]);
      assert false;
    }
  }

  lemma HarvestRefills(s: State, l: Cell, size: nat, b: Addr)
    requires Inv(s) && Harvests(s, l)
    ensures Refilled(s, Harvested(s, l, s.Active(l)), l, size, b)
  {
    hide Inv, Of, PlaceAll, Tail;
    RemotePlaced(s, s.Active(l));
  }

  lemma RemotePlaced(s: State, a: Addr)
    requires Inv(s) && a in s.segs && s.segs[a].remote != 0
    ensures s.segs[a].remote in s.link && s.segs[a].remote in s.place && s.place[s.segs[a].remote].Queued?
  {
    hide Of, IsChunk, ChunksInSegment, Distinct, ChunksOk, CellsOk, ThreadsOk, ReaperOk;
    assert SegOk(s, a);
    ChainEnds(s.link, s.segs[a].remote, s.segs[a].queue);
    assert s.segs[a].remote in s.segs[a].queue;
  }

  /** An uninterrupted refill, whichever way it goes. */
  lemma RefillLeads(s: State, t: Tid, key: Key, size: nat, b: Addr)
    requires Inv(s) && Enabled(s, RefillStart(t, key, size)) && IsBase(b) && b !in s.segs && s.LockFree()
    ensures var o := Exec(s, RefillSteps(s, t, key, size, b)); o.Ok? && Refilled(s, o.s, Cell(t, key), size, b)
  {
    hide Inv, Exec, Of, IsBase, Carved, CarvedLinks, ChunksInSegment, Mapped, Harvested, RetiredSegment, Refilled, Next;
    var l := Cell(t, key);
    var a := s.Active(l);
    RefillBegins(s, t, key, size);
    if a == 0 {
      FirstPath(s, t, key, size, b);
      MappedRefills(s, s, l, size, b);
    } else if s.segs[a].remote != 0 {
      HarvestPath(s, t, key, size);
      HarvestRefills(s, l, size, b);
    } else {
      RetirePath(s, t, key, size, b);
      RetiredSame(s, a);
      MappedRefills(s, RetiredSegment(s, a), l, size, b);
    }
  }

  lemma RetiredSame(s: State, a: Addr)
    requires a in s.segs
    ensures var m := RetiredSegment(s, a);
            m.heads == s.heads && m.link == s.link && m.pcs == s.pcs && m.place == s.place
  {
  }
}
