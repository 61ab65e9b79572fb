/** A compiled free-list page as a client of the reclamation protocol: what a call of the page does to
    memory is what a pop, or a refill, does to the protocol's state. */
module Composition {
  import opened X86
  import opened Routines
  import opened Codegen
  import Lists
  import Segments
  import R = Reclamation
  import Steps = ReclamationSteps
  import Results = ReclamationResults
  import Refill
  import Serving

  /** Memory holds the list heads, each in its cell, and the links of the chunks. */
  ghost predicate Shows(mem: Mem, r: R.State, at: map<R.Cell, U64>) {
    (forall l :: l in at ==> Read64(mem, at[l]) == r.Head(l)) &&
    forall c :: c in r.link ==> Read64(mem, c) == r.link[c]
  }

  /** The cells overlap neither each other nor any link, and all addresses have 64 bits. */
  ghost predicate Laid(r: R.State, at: map<R.Cell, U64>) {
    (forall l, m :: l in at && m in at && l != m ==> Apart(at[l], at[m])) &&
    (forall l, c :: l in at && c in r.link ==> Apart(at[l], c)) && forall c :: c in r.link ==> c + 8 <= W64
  }

  /** A word outside the page's frame: the return address it is entered with, and the sixteen bytes below. */
  predicate Outside(a: int, rsp: U64) { a + 8 <= rsp - 16 || rsp + 8 <= a }

  ghost predicate OffStack(r: R.State, at: map<R.Cell, U64>, rsp: U64) {
    (forall l :: l in at ==> Outside(at[l], rsp)) && forall c :: c in r.link ==> Outside(c, rsp)
  }

  /** Segment b is mapped clear of the cells and of the frame. */
  ghost predicate Clear(b: nat, at: map<R.Cell, U64>, rsp: U64) {
    b + Segments.SEGMENT_SIZE <= W64 && (rsp + 8 <= b || b + Segments.SEGMENT_SIZE <= rsp - 16) &&
    forall l :: l in at ==> at[l] + 8 <= b || b + Segments.SEGMENT_SIZE <= at[l]
  }

  // ----- writing words -----

  /** Every word of m is written; where m's words do not overlap, each then reads as written. */
  ghost function WriteAll(mem: Mem, m: map<nat, nat>): Mem
    decreases |m|
  {
    if m == map[] then mem
    else
      var x :| x in m;
      Smaller(m, x);
      Write64(WriteAll(mem, m - {x}), x, Wrap(m[x]))
  }

  lemma Smaller(m: map<nat, nat>, x: nat)
    requires x in m
    ensures |m - {x}| < |m|
  {
    assert (m - {x}).Keys == m.Keys - {x};
    assert |m.Keys - {x}| == |m.Keys| - 1;
  }

  lemma {:induction false} WrittenReads(mem: Mem, m: map<nat, nat>, a: int)
    requires forall x, y :: x in m && y in m && x != y ==> Apart(x, y)
    requires a in m || forall x :: x in m ==> Apart(x, a)
    ensures Read64(WriteAll(mem, m), a) == if a in m then Wrap(m[a]) else Read64(mem, a)
    decreases |m|
  {
    hide Read64, Write64, Wrap, Apart;
    if m != map[] {
      var x :| x in m && WriteAll(mem, m) == Write64(WriteAll(mem, m - {x}), x, Wrap(m[x]));
      Smaller(m, x);
      if a == x {
        ReadBack(WriteAll(mem, m - {x}), x, Wrap(m[x]));
      } else {
        ReadElsewhere(WriteAll(mem, m - {x}), x, Wrap(m[x]), a);
        WrittenReads(mem, m - {x}, a);
      }
    }
  }

  // ----- what memory shows -----

  lemma HeadLinked(r: R.State, l: R.Cell)
    requires R.Inv(r) && r.Head(l) != 0
    ensures r.Head(l) in r.link
  {
    hide R.ChunksOk, R.SegsOk, R.ThreadsOk, R.ReaperOk;
    assert R.CellOk(r, l);
  }

  lemma PopShows(mem: Mem, r: R.State, l: R.Cell, at: map<R.Cell, U64>)
    requires R.Inv(r) && Shows(mem, r, at) && Laid(r, at) && l in at && r.Pc(l.t).Idle? && r.Head(l) != 0
    ensures R.DoAllocPop(r, l.t, l.key).Ok?
    ensures var n := R.DoAllocPop(r, l.t, l.key).s;
            Shows(Write64(mem, at[l], Read64(mem, r.Head(l))), n, at) && Laid(n, at)
  {
    hide R.Inv, Read64, Write64, Apart;
    HeadLinked(r, l);
    Steps.AllocPopKeeps(r, l.t, l.key);
    var n := R.DoAllocPop(r, l.t, l.key).s;
    var v := Read64(mem, r.Head(l));
    ReadBack(mem, at[l], v);
    forall m | m in at
      ensures Read64(Write64(mem, at[l], v), at[m]) == n.Head(m)
    {
      if m != l {
        ReadElsewhere(mem, at[l], v, at[m]);
      }
    }
    forall c | c in n.link
      ensures Read64(Write64(mem, at[l], v), c) == n.link[c]
    {
      ReadElsewhere(mem, at[l], v, c);
    }
  }

  lemma PopGives(r: R.State, l: R.Cell)
    requires R.Inv(r) && r.Head(l) != 0 && R.DoAllocPop(r, l.t, l.key).Ok?
    ensures Serving.Gives(r, R.DoAllocPop(r, l.t, l.key).s, r.Head(l))
  {
    hide R.ChunksOk, R.SegsOk, R.ThreadsOk, R.ReaperOk;
    assert R.CellOk(r, l);
  }

  /** The calling sequence leaves what the protocol sees alone. */
  lemma CallShows(out: State, s: State, c: Call, r: R.State, at: map<R.Cell, U64>)
    requires OneCall(out, s, c) && Shows(s.mem, r, at) && OffStack(r, at, s.regs.rsp)
    ensures Shows(c.mem, r, at)
  {
    hide Read64;
    forall l | l in at
      ensures Read64(c.mem, at[l]) == Read64(s.mem, at[l])
    {
      SameWord(c.mem, s.mem, at[l]);
    }
    forall a | a in r.link
      ensures Read64(c.mem, a) == Read64(s.mem, a)
    {
      SameWord(c.mem, s.mem, a);
    }
  }

  lemma SameWord(m: Mem, n: Mem, a: int)
    requires forall i :: a <= i < a + 8 ==> ByteAt(m, i) == ByteAt(n, i)
    ensures Read64(m, a) == Read64(n, a)
  {
    hide Word64, ByteAt;
    assert BytesAt(m, a, 8) == BytesAt(n, a, 8);
  }

  /** The client writing the first word of a chunk it holds is the protocol's step. */
  lemma StoreShows(mem: Mem, r: R.State, c: U64, v: U64, at: map<R.Cell, U64>)
    requires Results.Reached(r) && Shows(mem, r, at) && Laid(r, at) && c in r.link
    requires c in r.place && r.place[c].Held?
    ensures R.DoClientStore(r, c, v).Ok?
    ensures Shows(Write64(mem, c, v), R.DoClientStore(r, c, v).s, at) && Laid(R.DoClientStore(r, c, v).s, at)
  {
    hide R.Inv, Read64, Write64, Results.Reached, Segments.Of;
    Results.ReachedInv(r);
    Steps.PlacedIsMapped(r, c);
    var n := R.DoClientStore(r, c, v).s;
    ReadBack(mem, c, v);
    forall l | l in at
      ensures Read64(Write64(mem, c, v), at[l]) == n.Head(l)
    {
      ReadElsewhere(mem, c, v, at[l]);
    }
    forall d | d in n.link
      ensures Read64(Write64(mem, c, v), d) == n.link[d]
    {
      if d < c {
        Serving.LinksApart(r, d, c);
        ReadElsewhere(mem, c, v, d);
      } else if c < d {
        Serving.LinksApart(r, c, d);
        ReadElsewhere(mem, c, v, d);
      }
    }
  }

  // ----- the page's view of a list -----

  predicate Threads(spec: Spec) { spec.strategy == ThreadLocalFreeList || spec.strategy == MultiSizeFreeList }

  /** The k-th list is the first whose size is requested; a single list is list 0. */
  predicate Matches(spec: Spec, s: State, k: nat) {
    if spec.strategy == MultiSizeFreeList then
      k < |spec.classSizes| && s.regs.rdi == Sext32(spec.classSizes[k]) &&
      forall i :: 0 <= i < k ==> s.regs.rdi != Sext32(spec.classSizes[i])
    else k == 0 && s.regs.rdi == Sext32(spec.size)
  }

  function ListSize(spec: Spec, k: nat): U32 {
    if spec.strategy == MultiSizeFreeList && k < |spec.classSizes| then spec.classSizes[k] else spec.size
  }

  /** Where the page keeps the head of list k. */
  function HeadAt(spec: Spec, env: Env, slot: U32, page: U64, s: State, k: nat): U64 {
    if spec.strategy == MultiSizeFreeList then FsAddr(s, HeadCell(MultiParamsFor(spec, env, slot, page), k))
    else FsAddr(s, ParamsFor(spec, env, slot, page).ptr)
  }

  function RefillFn(spec: Spec, env: Env): U64 {
    if spec.strategy == MultiSizeFreeList then env.multiRefill else env.freelistRefill
  }

  /** The page's own call, from a frame at rsp, for a refill of list k. */
  predicate Asks(c: Call, spec: Spec, env: Env, slot: U32, k: nat, rsp: U64) {
    c.target == RefillFn(spec, env) && c.rdi == slot && c.rsi == ListSize(spec, k) && c.rsp == rsp - 8 &&
    (spec.strategy == MultiSizeFreeList ==> c.rdx == k)
  }

  /** Asked in a memory that shows r, the refill does what the protocol's refill steps do, b being the
      segment it maps if it has to, and returns a chunk it gives. */
  ghost predicate Refills(world: World, spec: Spec, env: Env, slot: U32, k: nat, r: R.State, t: R.Tid, b: nat,
                          at: map<R.Cell, U64>, rsp: U64) {
    var o := R.Exec(r, Refill.RefillSteps(r, t, R.Key(slot, k), ListSize(spec, k), b));
    forall c: Call :: Asks(c, spec, env, slot, k, rsp) && Shows(c.mem, r, at) ==>
      o.Ok? && Shows(world(c).mem, o.s, at) && Serving.Gives(r, o.s, world(c).rax)
  }

  /** When the page needs a refill: there is room for a chunk, and a segment that could be mapped. */
  ghost predicate CanRefill(size: nat, r: R.State, b: nat, at: map<R.Cell, U64>, rsp: U64) {
    Segments.Carvable(size) && Segments.IsBase(b) && b !in r.segs && r.LockFree() && Clear(b, at, rsp)
  }

  /** What a call of the page amounts to. */
  function ServingSteps(spec: Spec, slot: U32, k: nat, r: R.State, t: R.Tid, b: nat): seq<R.Step> {
    if r.Head(R.Cell(t, R.Key(slot, k))) != 0 then [R.AllocPop(t, R.Key(slot, k))]
    else Refill.RefillSteps(r, t, R.Key(slot, k), ListSize(spec, k), b)
  }

  /** Served as FreeListSpec and LadderSpec put it. */
  ghost predicate ServesList(out: Status, s: State, world: World, spec: Spec, env: Env, slot: U32, page: U64, k: nat) {
    var cell := HeadAt(spec, env, slot, page, s, k);
    var top := Read64(s.mem, cell);
    if top != 0 then ServedInline(out, s, top, Write64(s.mem, cell, Read64(s.mem, top)))
    else
      BackAtCaller(out, s) && exists c: Call ::
        OneCall(out.s, s, c) && Asks(c, spec, env, slot, k, s.regs.rsp) && out.s.regs.rax == world(c).rax && out.s.mem == world(c).mem
  }

  lemma {:induction false} LadderServes(out: Status, s: State, world: World, spec: Spec, env: Env, slot: U32, page: U64,
                                        i: nat, k: nat)
    requires Admissible(spec) && spec.strategy == MultiSizeFreeList && Matches(spec, s, k) && i <= k
    requires LadderSpec(out, s, world, MultiParamsFor(spec, env, slot, page), i)
    ensures ServesList(out, s, world, spec, env, slot, page, k)
    decreases k - i
  {
    hide Read64, Write64, ServedInline, BackAtCaller, FsAddr, HeadCell;
    if i < k {
      LadderServes(out, s, world, spec, env, slot, page, i + 1, k);
    }
  }

  /** A finished free-list page is entered for its k-th list. */
  ghost predicate Calls(code: seq<Byte>, n: nat, spec: Spec, env: Env, slot: U32, page: U64, s: State, fuel: nat, k: nat) {
    Admissible(spec) && n <= |code| && code[..n] == Assemble(RoutineFor(spec, env, slot, page)) &&
    Entry(s) && CellsApart(spec, env, slot, page, s) && fuel >= 19 && Threads(spec) && Matches(spec, s, k)
  }

  lemma PageServesList(code: seq<Byte>, n: nat, spec: Spec, env: Env, slot: U32, page: U64,
                       s: State, world: World, fuel: nat, k: nat)
    requires Calls(code, n, spec, env, slot, page, s, fuel, k) && Honest(world)
    ensures ServesList(Run(code, s, world, fuel), s, world, spec, env, slot, page, k)
  {
    hide Run, Assemble, Honest, CellsApart, RoutineFor, Read64, Write64, ServedInline, BackAtCaller, FsAddr, HeadCell,
         Entry;
    CompiledPageRuns(code, n, spec, env, slot, page, s, world, fuel);
    if spec.strategy == MultiSizeFreeList {
      LadderServes(Run(code, s, world, fuel), s, world, spec, env, slot, page, 0, k);
    }
  }

  // ----- a call is a run of the protocol -----

  /** Everything the next call relies on. */
  ghost predicate Ready(mem: Mem, r: R.State, t: R.Tid, at: map<R.Cell, U64>, rsp: U64) {
    Results.Reached(r) && r.Pc(t).Idle? && Shows(mem, r, at) && Laid(r, at) && OffStack(r, at, rsp)
  }

  lemma NewLinkInside(r: R.State, l: R.Cell, size: nat, b: nat, x: nat)
    requires Segments.Carvable(size) && Segments.IsBase(b) && x in Serving.NewLinks(r, l, size, b)
    ensures Segments.IsChunk(b, size, x) && b <= x && x + 8 <= b + Segments.SEGMENT_SIZE
    ensures Serving.NewLinks(r, l, size, b)[x] <= x
  {
    hide Segments.Of, Segments.IsChunk, Segments.ChunksInSegment, Segments.Carved;
    Steps.CarvedChain(b, size);
    Segments.ChunkInside(b, size, x);
  }

  lemma NewLinkClear(r: R.State, l: R.Cell, size: nat, b: nat, at: map<R.Cell, U64>, rsp: U64, x: nat)
    requires CanRefill(size, r, b, at, rsp) && x in Serving.NewLinks(r, l, size, b)
    ensures Outside(x, rsp) && x + 8 <= W64 && forall i :: i in at ==> Apart(at[i], x)
  {
    hide Segments.IsBase, Segments.IsChunk, Serving.NewLinks;
    NewLinkInside(r, l, size, b, x);
  }

  lemma RefillLaid(r: R.State, n: R.State, l: R.Cell, size: nat, b: nat, at: map<R.Cell, U64>, rsp: U64)
    requires Laid(r, at) && OffStack(r, at, rsp) && CanRefill(size, r, b, at, rsp)
    requires n.link == r.link + Serving.NewLinks(r, l, size, b)
    ensures Laid(n, at) && OffStack(n, at, rsp)
  {
    hide Serving.NewLinks, CanRefill, Apart, Outside;
    forall c | c in n.link && c !in r.link
      ensures Outside(c, rsp) && c + 8 <= W64 && forall i :: i in at ==> Apart(at[i], c)
    {
      NewLinkClear(r, l, size, b, at, rsp, c);
    }
  }

  /** A call of a compiled free-list page, single or multi-size, is a pop of the protocol, or its refill:
      memory afterwards shows the state those steps lead to, the chunk returned is one they hand over, and
      the next call finds what this one found. */
  lemma PageIsProtocolRun(code: seq<Byte>, n: nat, spec: Spec, env: Env, slot: U32, page: U64,
                          s: State, world: World, fuel: nat, k: nat, r: R.State, t: R.Tid, b: nat, at: map<R.Cell, U64>)
    requires Calls(code, n, spec, env, slot, page, s, fuel, k) && Honest(world) && Ready(s.mem, r, t, at, s.regs.rsp)
    requires R.Cell(t, R.Key(slot, k)) in at && at[R.Cell(t, R.Key(slot, k))] == HeadAt(spec, env, slot, page, s, k)
    requires r.Head(R.Cell(t, R.Key(slot, k))) == 0 ==>
               CanRefill(ListSize(spec, k), r, b, at, s.regs.rsp) &&
               Refills(world, spec, env, slot, k, r, t, b, at, s.regs.rsp)
    ensures var out, o := Run(code, s, world, fuel), R.Exec(r, ServingSteps(spec, slot, k, r, t, b));
            BackAtCaller(out, s) && o.Ok? && Ready(out.s.mem, o.s, t, at, s.regs.rsp) &&
            Serving.Gives(r, o.s, out.s.regs.rax)
  {
    hide Run, Calls, Honest, Read64, Write64, OneCall, FsAddr, HeadCell, R.Inv, R.Exec, R.DoAllocPop, HeadAt,
         Serving.Gives, Asks, ListSize, Refill.RefillSteps, OffStack, Laid, CanRefill,
         Results.Reached, Shows;
    PageServesList(code, n, spec, env, slot, page, s, world, fuel, k);
    Results.ReachedInv(r);
    var out, l := Run(code, s, world, fuel), R.Cell(t, R.Key(slot, k));
    Serving.StillReached(r, ServingSteps(spec, slot, k, r, t, b));
    assert Read64(s.mem, at[l]) == r.Head(l) by { ShownHead(s.mem, r, at, l); }
    if r.Head(l) != 0 {
      PopRuns(s.mem, r, l, at, s.regs.rsp);
    } else {
      var c: Call :| OneCall(out.s, s, c) && Asks(c, spec, env, slot, k, s.regs.rsp) && out.s.regs.rax == world(c).rax &&
                     out.s.mem == world(c).mem;
      CallShows(out.s, s, c, r, at);
      RefillRuns(r, t, l.key, ListSize(spec, k), b, at, s.regs.rsp);
    }
  }

  lemma ShownHead(mem: Mem, r: R.State, at: map<R.Cell, U64>, l: R.Cell)
    requires Shows(mem, r, at) && l in at
    ensures Read64(mem, at[l]) == r.Head(l)
    ensures r.Head(l) in r.link ==> Read64(mem, r.Head(l)) == r.link[r.Head(l)]
  {
  }

  lemma PopRuns(mem: Mem, r: R.State, l: R.Cell, at: map<R.Cell, U64>, rsp: U64)
    requires R.Inv(r) && r.Pc(l.t).Idle? && r.Head(l) != 0 && l in at
    requires Shows(mem, r, at) && Laid(r, at) && OffStack(r, at, rsp)
    ensures var o := R.Exec(r, [R.AllocPop(l.t, l.key)]);
            o.Ok? && o.s.Pc(l.t).Idle? && Serving.Gives(r, o.s, r.Head(l)) && Laid(o.s, at) && OffStack(o.s, at, rsp) &&
            Shows(Write64(mem, at[l], Read64(mem, r.Head(l))), o.s, at)
  {
    hide R.Inv, R.Exec, Shows, Laid, Serving.Gives, Read64, Write64;
    PopShows(mem, r, l, at);
    PopGives(r, l);
    Steps.GoLast(r, R.AllocPop(l.t, l.key), R.DoAllocPop(r, l.t, l.key).s);
  }

  lemma RefillRuns(r: R.State, t: R.Tid, key: R.Key, size: nat, b: nat, at: map<R.Cell, U64>, rsp: U64)
    requires R.Inv(r) && r.Pc(t).Idle? && r.Head(R.Cell(t, key)) == 0
    requires CanRefill(size, r, b, at, rsp) && Laid(r, at) && OffStack(r, at, rsp)
    ensures var o := R.Exec(r, Refill.RefillSteps(r, t, key, size, b));
            o.Ok? && Serving.Refilled(r, o.s, R.Cell(t, key), size, b) && o.s.Pc(t).Idle? &&
            Laid(o.s, at) && OffStack(o.s, at, rsp)
  {
    hide R.Inv, R.Exec, Laid, OffStack, Clear, Refill.RefillSteps, Serving.NewHead, Serving.NewLinks, Serving.Gives,
         Serving.Served;
    Serving.RefillLeads(r, t, key, size, b);
    RefillLaid(r, R.Exec(r, Refill.RefillSteps(r, t, key, size, b)).s, R.Cell(t, key), size, b, at, rsp);
  }

  // ----- the assumptions can be met -----

  /** The words a refill writes: the links of a segment it maps, and the list's cell. */
  ghost function Written(r: R.State, l: R.Cell, size: nat, b: nat, cell: U64): map<nat, nat> {
    Serving.NewLinks(r, l, size, b) + map[cell := Serving.NewHead(r, l, size, b)]
  }

  /** A world whose refill writes exactly those words, and whose other functions do nothing. */
  ghost function Refiller(spec: Spec, env: Env, slot: U32, k: nat, r: R.State, t: R.Tid, b: nat, at: map<R.Cell, U64>,
                          rsp: U64): World
    requires R.Cell(t, R.Key(slot, k)) in at
  {
    var l := R.Cell(t, R.Key(slot, k));
    (c: Call) =>
      if Asks(c, spec, env, slot, k, rsp) then
        Reply(Wrap(Serving.Served(r, l, ListSize(spec, k), b)), 0, 0, 0, 0, false, false,
              WriteAll(c.mem, Written(r, l, ListSize(spec, k), b, at[l])))
      else Reply(0, 0, 0, 0, 0, false, false, c.mem)
  }

  lemma ChunkWordsApart(b: nat, size: nat, x: nat, y: nat)
    requires size >= 8 && Segments.IsChunk(b, size, x) && Segments.IsChunk(b, size, y) && x != y
    ensures Apart(x, y)
  {
    hide Segments.ChunksInSegment;
    var i: nat :| i < Segments.ChunksInSegment(size) && x == Segments.ChunkAt(b, size, i);
    var j: nat :| j < Segments.ChunksInSegment(size) && y == Segments.ChunkAt(b, size, j);
    if i < j {
      Segments.ChunksApart(b, size, i, j);
    } else if j < i {
      Segments.ChunksApart(b, size, j, i);
    }
  }

  lemma WrittenApart(r: R.State, l: R.Cell, size: nat, b: nat, at: map<R.Cell, U64>, rsp: U64)
    requires CanRefill(size, r, b, at, rsp) && l in at
    ensures var m := Written(r, l, size, b, at[l]); forall x, y :: x in m && y in m && x != y ==> Apart(x, y)
  {
    hide Segments.IsBase, Segments.IsChunk, Serving.NewLinks, Serving.NewHead;
    var m := Written(r, l, size, b, at[l]);
    forall x, y | x in m && y in m && x != y
      ensures Apart(x, y)
    {
      if x != at[l] {
        NewLinkInside(r, l, size, b, x);
      }
      if y != at[l] {
        NewLinkInside(r, l, size, b, y);
      }
      if x != at[l] && y != at[l] {
        ChunkWordsApart(b, size, x, y);
      }
    }
  }

  /** What does not overlap the segment, nor the cell, is not written. */
  lemma NotWritten(r: R.State, l: R.Cell, size: nat, b: nat, at: map<R.Cell, U64>, rsp: U64, a: int)
    requires CanRefill(size, r, b, at, rsp) && l in at && Apart(at[l], a)
    requires a + 8 <= b || b + Segments.SEGMENT_SIZE <= a
    ensures var m := Written(r, l, size, b, at[l]); a !in m && forall x :: x in m ==> Apart(x, a)
  {
    hide Segments.IsBase, Segments.IsChunk, Serving.NewLinks, Serving.NewHead;
    forall x | x in Written(r, l, size, b, at[l])
      ensures Apart(x, a)
    {
      if x != at[l] {
        NewLinkInside(r, l, size, b, x);
      }
    }
  }

  /** Addresses and links that are written have 64 bits. */
  lemma WrittenFits(mem: Mem, r: R.State, l: R.Cell, size: nat, b: nat, at: map<R.Cell, U64>, rsp: U64)
    requires R.Inv(r) && CanRefill(size, r, b, at, rsp) && Shows(mem, r, at) && Laid(r, at)
    ensures Serving.Served(r, l, size, b) < W64 && Serving.NewHead(r, l, size, b) < W64
    ensures forall x :: x in Serving.NewLinks(r, l, size, b) ==> Serving.NewLinks(r, l, size, b)[x] < W64
  {
    hide R.Inv, Segments.IsBase, Segments.IsChunk, Segments.Carved, Segments.ChunksInSegment, Read64, Serving.NewLinks;
    var c := Serving.Served(r, l, size, b);
    if Serving.Harvests(r, l) {
      Refill.RemoteIsMapped(r, r.Active(l));
    } else {
      Steps.CarvedChain(b, size);
      FirstCarved(b, size);
      Segments.ChunkInside(b, size, c);
    }
    forall x | x in Serving.NewLinks(r, l, size, b)
      ensures Serving.NewLinks(r, l, size, b)[x] < W64
    {
      NewLinkInside(r, l, size, b, x);
    }
    if c in r.link {
      assert Read64(mem, c) == r.link[c];
    }
  }

  lemma FirstCarved(b: nat, size: nat)
    requires Segments.IsBase(b) && Segments.Carvable(size)
    ensures Segments.IsChunk(b, size, Lists.Nth(Segments.Carved(b, size, Segments.ChunksInSegment(size)), 0))
  {
    hide Segments.IsChunk, Segments.IsBase, Segments.ChunksInSegment, Segments.Carved;
    Segments.CarvedIsAll(b, size);
    var q := Segments.Carved(b, size, Segments.ChunksInSegment(size));
    assert q[0] in q;
  }

  lemma RefillerShows(mem: Mem, r: R.State, n: R.State, l: R.Cell, size: nat, b: nat, at: map<R.Cell, U64>, rsp: U64)
    requires Results.Reached(r) && CanRefill(size, r, b, at, rsp) && l in at
    requires Shows(mem, r, at) && Laid(r, at) && Serving.Refilled(r, n, l, size, b)
    ensures Shows(WriteAll(mem, Written(r, l, size, b, at[l])), n, at)
  {
    hide Results.Reached, R.Inv, Read64, Segments.IsBase, Serving.NewLinks, Serving.NewHead, Serving.Served, WriteAll,
         Serving.Gives, Apart;
    Results.ReachedInv(r);
    WrittenFits(mem, r, l, size, b, at, rsp);
    WrittenApart(r, l, size, b, at, rsp);
    var m := Written(r, l, size, b, at[l]);
    forall i | i in at
      ensures Read64(WriteAll(mem, m), at[i]) == n.Head(i)
    {
      if i != l {
        NotWritten(r, l, size, b, at, rsp, at[i]);
      }
      WrittenReads(mem, m, at[i]);
    }
    forall c | c in n.link
      ensures Read64(WriteAll(mem, m), c) == n.link[c]
    {
      if c in Serving.NewLinks(r, l, size, b) {
        NewLinkInside(r, l, size, b, c);
        CellOutside(b, at, rsp, l, c);
        assert m[c] == Serving.NewLinks(r, l, size, b)[c];
      } else {
        Serving.LinkOutside(r, c, b);
        NotWritten(r, l, size, b, at, rsp, c);
      }
      WrittenReads(mem, m, c);
    }
  }

  lemma CellOutside(b: nat, at: map<R.Cell, U64>, rsp: U64, l: R.Cell, c: nat)
    requires Clear(b, at, rsp) && l in at && b <= c && c + 8 <= b + Segments.SEGMENT_SIZE
    ensures at[l] != c
  {
  }

  lemma RefillerHonest(spec: Spec, env: Env, slot: U32, k: nat, r: R.State, t: R.Tid, b: nat, at: map<R.Cell, U64>,
                       rsp: U64)
    requires R.Cell(t, R.Key(slot, k)) in at && CanRefill(ListSize(spec, k), r, b, at, rsp) && OffStack(r, at, rsp)
    ensures Honest(Refiller(spec, env, slot, k, r, t, b, at, rsp))
  {
    hide Read64, ListSize, Written, WriteAll;
    var l, size, world := R.Cell(t, R.Key(slot, k)), ListSize(spec, k), Refiller(spec, env, slot, k, r, t, b, at, rsp);
    WrittenApart(r, l, size, b, at, rsp);
    forall c: Call
      ensures Read64(world(c).mem, c.rsp) == Read64(c.mem, c.rsp)
      ensures Read64(world(c).mem, c.rsp + 8) == Read64(c.mem, c.rsp + 8)
    {
      if Asks(c, spec, env, slot, k, rsp) {
        NotWritten(r, l, size, b, at, rsp, c.rsp);
        NotWritten(r, l, size, b, at, rsp, c.rsp + 8);
        WrittenReads(c.mem, Written(r, l, size, b, at[l]), c.rsp);
        WrittenReads(c.mem, Written(r, l, size, b, at[l]), c.rsp + 8);
      }
    }
  }

  /** In every reached state in which a list is empty, whether its refill will harvest, retire or map its
      first segment, some world is honest and refills as PageIsProtocolRun asks. */
  lemma RefillCanBeServed(spec: Spec, env: Env, slot: U32, k: nat, r: R.State, t: R.Tid, b: nat, at: map<R.Cell, U64>,
                          rsp: U64)
    requires Results.Reached(r) && r.Pc(t).Idle? && Laid(r, at) && OffStack(r, at, rsp)
    requires R.Cell(t, R.Key(slot, k)) in at && r.Head(R.Cell(t, R.Key(slot, k))) == 0
    requires CanRefill(ListSize(spec, k), r, b, at, rsp)
    ensures var world := Refiller(spec, env, slot, k, r, t, b, at, rsp);
            Honest(world) && Refills(world, spec, env, slot, k, r, t, b, at, rsp)
  {
    hide Results.Reached, R.Inv, R.Exec, Refill.RefillSteps, ListSize, Honest, Laid, OffStack, CanRefill, Shows, Written,
         WriteAll, Serving.Served, Serving.NewHead, Serving.NewLinks, Serving.Gives;
    Results.ReachedInv(r);
    var l, size := R.Cell(t, R.Key(slot, k)), ListSize(spec, k);
    RefillerHonest(spec, env, slot, k, r, t, b, at, rsp);
    RefillRuns(r, t, l.key, size, b, at, rsp);
    var n := R.Exec(r, Refill.RefillSteps(r, t, l.key, size, b)).s;
    forall c: Call | Asks(c, spec, env, slot, k, rsp) && Shows(c.mem, r, at)
      ensures Shows(Refiller(spec, env, slot, k, r, t, b, at, rsp)(c).mem, n, at)
      ensures Serving.Gives(r, n, Refiller(spec, env, slot, k, r, t, b, at, rsp)(c).rax)
    {
      RefillerShows(c.mem, r, n, l, size, b, at, rsp);
      WrittenFits(c.mem, r, l, size, b, at, rsp);
    }
  }

  lemma StartReady(mem: Mem, mode: R.Mode, t: R.Tid, l: R.Cell, cell: U64, rsp: U64)
    requires Read64(mem, cell) == 0 && Outside(cell, rsp)
    ensures Ready(mem, R.Init(mode), t, map[l := cell], rsp) && R.Init(mode).Head(l) == 0
  {
    hide Read64;
    assert R.Exec(R.Init(mode), []) == R.Ok(R.Init(mode));
  }

  /** After the first refill of a list, the chunk under the one served heads it. */
  lemma FirstListLeft(mode: R.Mode, n: R.State, l: R.Cell, size: nat, b: nat)
    requires Segments.IsBase(b) && Segments.Carvable(size) && Segments.ChunksInSegment(size) >= 2
    requires Serving.Refilled(R.Init(mode), n, l, size, b)
    ensures n.Head(l) != 0
  {
    hide Segments.IsBase, Segments.IsChunk, Segments.ChunksInSegment, Segments.Carved, R.CarvedLinks, Segments.Of;
    Steps.CarvedChain(b, size);
    Segments.CarvedAt(b, size, Segments.ChunksInSegment(size));
    var q := Segments.Carved(b, size, Segments.ChunksInSegment(size));
    assert q[0] in q && q[1] in q;
    assert R.CarvedLinks(b, size)[q[0]] == q[1];
  }

  lemma PopKeepsHeld(r: R.State, t: R.Tid, key: R.Key, c: nat)
    requires R.Inv(r) && r.Pc(t).Idle? && r.Head(R.Cell(t, key)) != 0 && c in r.place && r.place[c].Held?
    ensures var o := R.Exec(r, [R.AllocPop(t, key)]); o.Ok? && c in o.s.place && o.s.place[c].Held?
  {
    hide R.Inv, R.Exec;
    Steps.AllocPopKeeps(r, t, key);
    Steps.GoLast(r, R.AllocPop(t, key), R.DoAllocPop(r, t, key).s);
  }

  /** So a page entered twice by a fresh thread, against such a world, first has its list refilled and then
      pops it, without a call; the two chunks it returns differ, and the client holds both. */
  lemma TwoCalls(code: seq<Byte>, n: nat, spec: Spec, env: Env, slot: U32, page: U64, s: State, fuel: nat, k: nat,
                 mode: R.Mode, t: R.Tid, b: nat)
    requires Calls(code, n, spec, env, slot, page, s, fuel, k)
    requires Segments.Carvable(ListSize(spec, k)) && Segments.ChunksInSegment(ListSize(spec, k)) >= 2
    requires var cell := HeadAt(spec, env, slot, page, s, k);
             Read64(s.mem, cell) == 0 && Outside(cell, s.regs.rsp) && Segments.IsBase(b) &&
             Clear(b, map[R.Cell(t, R.Key(slot, k)) := cell], s.regs.rsp)
    ensures var at := map[R.Cell(t, R.Key(slot, k)) := HeadAt(spec, env, slot, page, s, k)];
            var world := Refiller(spec, env, slot, k, R.Init(mode), t, b, at, s.regs.rsp);
            var one := Run(code, s, world, fuel);
            one.Returned? &&
            var two := Run(code, s.(mem := one.s.mem, calls := one.s.calls), world, fuel);
            two.Returned? && two.s.calls == one.s.calls && one.s.regs.rax != two.s.regs.rax &&
            exists r :: Ready(two.s.mem, r, t, at, s.regs.rsp) &&
              forall c :: c == one.s.regs.rax || c == two.s.regs.rax ==> c in r.place && r.place[c].Held?
  {
    hide Run, Calls, HeadAt, Read64, R.Exec, Ready, Refiller, Clear, Outside, Segments.IsBase, Segments.ChunksInSegment,
         ListSize, R.Init, Honest, Entry, CellsApart, Matches;
    var at := map[R.Cell(t, R.Key(slot, k)) := HeadAt(spec, env, slot, page, s, k)];
    var world := Refiller(spec, env, slot, k, R.Init(mode), t, b, at, s.regs.rsp);
    var r := FirstCall(code, n, spec, env, slot, page, s, fuel, k, mode, t, b, at);
    var one := Run(code, s, world, fuel);
    CalledAgain(code, n, spec, env, slot, page, s, fuel, k, one.s.mem, one.s.calls);
    SecondCall(code, n, spec, env, slot, page, s.(mem := one.s.mem, calls := one.s.calls), world, fuel, k, r, t, b, at,
               one.s.regs.rax);
  }

  lemma CalledAgain(code: seq<Byte>, n: nat, spec: Spec, env: Env, slot: U32, page: U64, s: State, fuel: nat, k: nat,
                    mem: Mem, calls: seq<Call>)
    requires Calls(code, n, spec, env, slot, page, s, fuel, k)
    ensures Calls(code, n, spec, env, slot, page, s.(mem := mem, calls := calls), fuel, k)
    ensures HeadAt(spec, env, slot, page, s.(mem := mem, calls := calls), k) == HeadAt(spec, env, slot, page, s, k)
  {
    hide Assemble, RoutineFor, ParamsFor, MultiParamsFor, HeadCell;
  }

  lemma FirstCall(code: seq<Byte>, n: nat, spec: Spec, env: Env, slot: U32, page: U64, s: State, fuel: nat, k: nat,
                  mode: R.Mode, t: R.Tid, b: nat, at: map<R.Cell, U64>) returns (r: R.State)
    requires Calls(code, n, spec, env, slot, page, s, fuel, k)
    requires Segments.Carvable(ListSize(spec, k)) && Segments.ChunksInSegment(ListSize(spec, k)) >= 2
    requires at == map[R.Cell(t, R.Key(slot, k)) := HeadAt(spec, env, slot, page, s, k)]
    requires Read64(s.mem, HeadAt(spec, env, slot, page, s, k)) == 0
    requires Outside(HeadAt(spec, env, slot, page, s, k), s.regs.rsp) && Segments.IsBase(b) && Clear(b, at, s.regs.rsp)
    ensures var world := Refiller(spec, env, slot, k, R.Init(mode), t, b, at, s.regs.rsp);
            var out := Run(code, s, world, fuel);
            Honest(world) && out.Returned? && Ready(out.s.mem, r, t, at, s.regs.rsp) &&
            r.Head(R.Cell(t, R.Key(slot, k))) != 0 && out.s.regs.rax in r.place && r.place[out.s.regs.rax].Held?
  {
    hide Run, Calls, HeadAt, Read64, R.Inv, R.Exec, Refill.RefillSteps, Ready, Refills, Refiller, Clear, Outside,
         Segments.IsBase, Segments.ChunksInSegment, ListSize, R.Init, Honest, Serving.Refilled;
    var l, r0, rsp, size := R.Cell(t, R.Key(slot, k)), R.Init(mode), s.regs.rsp, ListSize(spec, k);
    StartReady(s.mem, mode, t, l, at[l], rsp);
    InitFree(mode, b);
    ReadyFacts(s.mem, r0, t, at, rsp);
    RefillCanBeServed(spec, env, slot, k, r0, t, b, at, rsp);
    PageIsProtocolRun(code, n, spec, env, slot, page, s, Refiller(spec, env, slot, k, r0, t, b, at, rsp), fuel, k, r0, t, b,
                      at);
    RefillRuns(r0, t, l.key, size, b, at, rsp);
    r := R.Exec(r0, Refill.RefillSteps(r0, t, l.key, size, b)).s;
    FirstListLeft(mode, r, l, size, b);
  }

  lemma InitFree(mode: R.Mode, b: nat)
    ensures b !in R.Init(mode).segs && R.Init(mode).LockFree()
  {
  }

  lemma ReadyFacts(mem: Mem, r: R.State, t: R.Tid, at: map<R.Cell, U64>, rsp: U64)
    requires Ready(mem, r, t, at, rsp)
    ensures Results.Reached(r) && R.Inv(r) && r.Pc(t).Idle? && Shows(mem, r, at) && Laid(r, at) && OffStack(r, at, rsp)
  {
    hide R.Inv, Results.Reached;
    Results.ReachedInv(r);
  }

  lemma SecondCall(code: seq<Byte>, n: nat, spec: Spec, env: Env, slot: U32, page: U64, s: State, world: World, fuel: nat,
                   k: nat, r: R.State, t: R.Tid, b: nat, at: map<R.Cell, U64>, first: nat)
    requires Calls(code, n, spec, env, slot, page, s, fuel, k) && Honest(world) && Ready(s.mem, r, t, at, s.regs.rsp)
    requires R.Cell(t, R.Key(slot, k)) in at && at[R.Cell(t, R.Key(slot, k))] == HeadAt(spec, env, slot, page, s, k)
    requires r.Head(R.Cell(t, R.Key(slot, k))) != 0 && first in r.place && r.place[first].Held?
    ensures var out := Run(code, s, world, fuel);
            out.Returned? && out.s.calls == s.calls && first != out.s.regs.rax &&
            exists m :: Ready(out.s.mem, m, t, at, s.regs.rsp) &&
              forall c :: c == first || c == out.s.regs.rax ==> c in m.place && m.place[c].Held?
  {
    hide Run, Calls, Honest, Read64, Write64, OneCall, FsAddr, HeadCell, R.Inv, R.Exec, Refill.RefillSteps, Ready, ListSize,
         HeadAt;
    var l := R.Cell(t, R.Key(slot, k));
    PageServesList(code, n, spec, env, slot, page, s, world, fuel, k);
    PageIsProtocolRun(code, n, spec, env, slot, page, s, world, fuel, k, r, t, b, at);
    ReadyFacts(s.mem, r, t, at, s.regs.rsp);
    ShownHead(s.mem, r, at, l);
    PopKeepsHeld(r, t, l.key, first);
    var m := R.Exec(r, [R.AllocPop(t, l.key)]).s;
    assert Ready(Run(code, s, world, fuel).s.mem, m, t, at, s.regs.rsp);
  }
}
