/** What a compiled page does, in terms of the request and of the addresses given to the compiler alone; and
    which thread-local words it owns. */
module Pages {
  import opened X86
  import opened Routines
  import opened Codegen

  /** The thread-local word at offset x from the thread pointer; offsets are 32-bit and sign-extended. */
  function WordAt(s: State, x: int): U64 { Wrap(s.fs + Sext32(x % 0x1_0000_0000)) }

  // ----- the words a slot owns -----

  /** Where the array of a strategy starts, and what one slot of it takes. */
  function Base(env: Env, strategy: Strategy): int {
    match strategy
    case ThreadLocalFreeList => env.tlFreelists
    case EpochArena => env.tlArenas
    case MultiSizeFreeList => env.tlMulti
    case _ => env.tlBumps
  }

  function SlotSize(strategy: Strategy): int {
    match strategy
    case EpochArena => 24
    case MultiSizeFreeList => 64
    case _ => 16
  }

  /** x is the offset of one of the slot's words. */
  ghost predicate Owns(env: Env, strategy: Strategy, slot: nat, x: int) {
    exists j: nat :: 8 * j < SlotSize(strategy) && x == Base(env, strategy) + SlotSize(strategy) * slot + 8 * j
  }

  predicate SameArray(a: Strategy, b: Strategy) {
    a == b || (a != ThreadLocalFreeList && a != EpochArena && a != MultiSizeFreeList &&
               b != ThreadLocalFreeList && b != EpochArena && b != MultiSizeFreeList)
  }

  /** The arrays of 4096 slots do not overlap, offsets being taken modulo 2^32. */
  predicate ArraysApart(env: Env, a: Strategy, b: Strategy) {
    (Base(env, b) - Base(env, a)) % 0x1_0000_0000 >= 4096 * SlotSize(a) &&
    (Base(env, a) - Base(env, b)) % 0x1_0000_0000 >= 4096 * SlotSize(b)
  }

  lemma SameResidue(s: State, x: int)
    ensures exists k: int :: WordAt(s, x) == s.fs + x + 0x1_0000_0000 * k
  {
    var m := 0x1_0000_0000;
    var r := x % m;
    var q := x / m;
    assert x == m * q + r;
    var v := s.fs + Sext32(r);
    var p := v / W64;
    assert v == W64 * p + v % W64;
    var e := if r < 0x8000_0000 then 0 else m - 1;
    assert Sext32(r) == r + m * e;
    assert WordAt(s, x) == s.fs + x + m * (e - q - m * p);
  }

  lemma RingApart(s: State, x: int, y: int, d: int)
    requires 8 <= d <= 0x1_0000_0000 - 8 && (y - x - d) % 0x1_0000_0000 == 0
    ensures Apart(WordAt(s, x), WordAt(s, y))
  {
    hide WordAt;
    var m := 0x1_0000_0000;
    SameResidue(s, x);
    SameResidue(s, y);
    var i :| WordAt(s, x) == s.fs + x + m * i;
    var j :| WordAt(s, y) == s.fs + y + m * j;
    var k := (y - x - d) / m;
    assert y - x - d == m * k;
    var n := j - i + k;
    assert WordAt(s, y) - WordAt(s, x) == d + m * n;
    if n >= 0 {
      assert m * n >= 0;
    } else {
      assert m * n <= -m;
    }
  }

  lemma OneArray(s: State, base: int, size: int, i: nat, u: nat, j: nat, v: nat)
    requires (size == 16 || size == 24 || size == 64) && i < j < 4096 && 8 * u < size && 8 * v < size
    ensures Apart(WordAt(s, base + size * i + 8 * u), WordAt(s, base + size * j + 8 * v))
  {
    hide WordAt, Apart;
    InArray(size, i, u, j, v);
    var x, y := base + size * i + 8 * u, base + size * j + 8 * v;
    RingApart(s, x, y, y - x);
  }

  lemma TwoArrays(s: State, a: int, size: int, i: nat, u: nat, b: int, width: int, j: nat, v: nat)
    requires (size == 16 || size == 24 || size == 64) && i < 4096 && 8 * u < size
    requires (width == 16 || width == 24 || width == 64) && j < 4096 && 8 * v < width
    requires (b - a) % 0x1_0000_0000 >= 4096 * size && (a - b) % 0x1_0000_0000 >= 4096 * width
    ensures Apart(WordAt(s, a + size * i + 8 * u), WordAt(s, b + width * j + 8 * v))
  {
    hide WordAt, Apart;
    var m := 0x1_0000_0000;
    var d, k := (b - a) % m, (b - a) / m;
    Opposite(b - a);
    Within(size, i, u);
    Within(width, j, v);
    var p, q := size * i + 8 * u, width * j + 8 * v;
    assert b - a == m * k + d && (b + q) - (a + p) - (d + q - p) == m * k;
    RingApart(s, a + p, b + q, d + q - p);
  }

  /** Different slots own words that do not overlap: in one array always, in two when the arrays do not. */
  lemma OwnedApart(s: State, env: Env, a: Strategy, i: nat, x: int, b: Strategy, j: nat, y: int)
    requires i < 4096 && j < 4096 && Owns(env, a, i, x) && Owns(env, b, j, y)
    requires if SameArray(a, b) then i != j else ArraysApart(env, a, b)
    ensures Apart(WordAt(s, x), WordAt(s, y))
  {
    hide WordAt;
    var u: nat :| 8 * u < SlotSize(a) && x == Base(env, a) + SlotSize(a) * i + 8 * u;
    var v: nat :| 8 * v < SlotSize(b) && y == Base(env, b) + SlotSize(b) * j + 8 * v;
    SlotSizes(a);
    SlotSizes(b);
    if SameArray(a, b) {
      OneBase(env, a, b);
      hide Base, SlotSize;
      if i < j {
        OneArray(s, Base(env, a), SlotSize(a), i, u, j, v);
      } else {
        OneArray(s, Base(env, a), SlotSize(a), j, v, i, u);
      }
    } else {
      hide Base, SlotSize;
      TwoArrays(s, Base(env, a), SlotSize(a), i, u, Base(env, b), SlotSize(b), j, v);
    }
  }

  lemma SlotSizes(a: Strategy)
    ensures SlotSize(a) == 16 || SlotSize(a) == 24 || SlotSize(a) == 64
  {
  }

  lemma OneBase(env: Env, a: Strategy, b: Strategy)
    requires SameArray(a, b)
    ensures Base(env, a) == Base(env, b) && SlotSize(a) == SlotSize(b)
  {
  }

  lemma Opposite(z: int)
    requires z % 0x1_0000_0000 > 0
    ensures (-z) % 0x1_0000_0000 == 0x1_0000_0000 - z % 0x1_0000_0000
  {
  }

  lemma Within(size: int, i: nat, u: nat)
    requires (size == 16 || size == 24 || size == 64) && i < 4096 && 8 * u < size
    ensures 0 <= size * i + 8 * u <= 4096 * size - 8
  {
    assert 8 * u <= size - 8;
    assert size * i <= size * 4095;
  }

  lemma InArray(size: int, i: nat, u: nat, j: nat, v: nat)
    requires (size == 16 || size == 24 || size == 64) && i < j < 4096 && 8 * u < size && 8 * v < size
    ensures 8 <= (size * j + 8 * v) - (size * i + 8 * u) <= 0x1_0000_0000 - 8
  {
    assert size * j >= size * i + size;
    assert 8 * u <= size - 8;
    Within(size, j, v);
  }

  // ----- running a page -----

  /** The words of its own the page may write do not overlap the return address. */
  ghost predicate OffReturn(spec: Spec, env: Env, slot: U32, s: State) {
    forall x :: Owns(env, spec.strategy, slot, x) ==> Apart(WordAt(s, x), s.regs.rsp)
  }

  /** A finished page of a request is entered. */
  ghost predicate Entered(code: seq<Byte>, n: nat, spec: Spec, env: Env, slot: U32, page: U64, s: State, world: World,
                          fuel: nat) {
    Admissible(spec) && n <= |code| && code[..n] == Assemble(RoutineFor(spec, env, slot, page)) &&
    Entry(s) && Honest(world) && OffReturn(spec, env, slot, s) && fuel >= 19
  }

  /** The handler heard of this site and page, with the given reason, and malloc got the call. */
  ghost predicate LeavesFor(out: Status, s: State, world: World, spec: Spec, env: Env, page: U64, reason: nat) {
    out.LeftTo? && out.target == env.malloc && out.s.regs.rdi == s.regs.rdi &&
    out.s.regs.rsp == s.regs.rsp && out.s.regs.rbx == s.regs.rbx && out.s.regs.rbp == s.regs.rbp &&
    Read64(out.s.mem, s.regs.rsp) == Read64(s.mem, s.regs.rsp) &&
    exists c: Call ::
      OneCall(out.s, s, c) && c.target == env.handle && c.rdi == spec.id && c.rsi == page && c.rdx == reason &&
      out.s.mem == world(c).mem
  }

  /** Served by fn(slot, size). */
  ghost predicate Calls(out: Status, s: State, world: World, fn: U64, slot: U32, size: U32) {
    BackAtCaller(out, s) && exists c: Call ::
      OneCall(out.s, s, c) && c.target == fn && c.rdi == slot && c.rsi == size &&
      out.s.regs.rax == world(c).rax && out.s.mem == world(c).mem
  }

  lemma OwnsWord(env: Env, strategy: Strategy, slot: nat, j: nat)
    requires 8 * j < SlotSize(strategy)
    ensures Owns(env, strategy, slot, Base(env, strategy) + SlotSize(strategy) * slot + 8 * j)
  {
  }

  lemma OwnCells(spec: Spec, env: Env, slot: U32, page: U64, s: State)
    requires Admissible(spec) && OffReturn(spec, env, slot, s)
    ensures CellsApart(spec, env, slot, page, s)
  {
    hide OffReturn, Owns, WordAt, FsAddr, Apart;
    if spec.strategy == MultiSizeFreeList {
      forall j: nat | j < |spec.classSizes|
        ensures Apart(FsAddr(s, HeadCell(MultiParamsFor(spec, env, slot, page), j)), s.regs.rsp)
      {
        OwnsWord(env, spec.strategy, slot, j);
        ClassCell(s, spec, env, slot, page, j);
        Off(spec, env, slot, s, env.tlMulti + 64 * slot + 8 * j);
      }
    } else {
      OwnsWord(env, spec.strategy, slot, 0);
      var x := Base(env, spec.strategy) + SlotSize(spec.strategy) * slot;
      assert ParamsFor(spec, env, slot, page).ptr == x % W32;
      CellSame(s, x);
      Off(spec, env, slot, s, x);
    }
  }

  lemma CellSame(s: State, x: int)
    ensures FsAddr(s, x % W32) == WordAt(s, x)
  {
  }

  lemma Off(spec: Spec, env: Env, slot: U32, s: State, x: int)
    requires OffReturn(spec, env, slot, s) && Owns(env, spec.strategy, slot, x)
    ensures Apart(WordAt(s, x), s.regs.rsp)
  {
  }

  /** BumpAlloc and PairedStack: the slot's two words of tl_bumps, its own first-use function, reason 2. */
  lemma BumpPage(code: seq<Byte>, n: nat, spec: Spec, env: Env, slot: U32, page: U64, s: State, world: World, fuel: nat)
    requires Entered(code, n, spec, env, slot, page, s, world, fuel)
    requires spec.strategy == BumpAlloc || spec.strategy == PairedStack
    ensures var out := Run(code, s, world, fuel);
            var ptr, end := WordAt(s, env.tlBumps + 16 * slot), WordAt(s, env.tlBumps + 16 * slot + 8);
            var cur := Read64(s.mem, ptr);
            var next := Wrap(cur + Sext32(spec.size));
            if s.regs.rdi != Sext32(spec.size) then LeavesFor(out, s, world, spec, env, page, 2)
            else if next < Read64(s.mem, end) then
              BackAtCaller(out, s) && out.s.regs.rax == cur && out.s.mem == Write64(s.mem, ptr, next) && out.s.calls == s.calls
            else if cur == 0 then
              Calls(out, s, world, if spec.strategy == BumpAlloc then env.bumpInit else env.pairedInit, slot, spec.size)
            else LeavesFor(out, s, world, spec, env, page, 2)
  {
    hide Run, Assemble, RoutineFor, CellsApart, OffReturn, Honest, Read64, Write64, OneCall, BackAtCaller, Entry;
    OwnCells(spec, env, slot, page, s);
    CompiledPageRuns(code, n, spec, env, slot, page, s, world, fuel);
  }

  /** ProducerConsumer: the same words, always pc_refill when they are used up, reason 1. */
  lemma PcPage(code: seq<Byte>, n: nat, spec: Spec, env: Env, slot: U32, page: U64, s: State, world: World, fuel: nat)
    requires Entered(code, n, spec, env, slot, page, s, world, fuel) && spec.strategy == ProducerConsumer
    ensures var out := Run(code, s, world, fuel);
            var ptr, end := WordAt(s, env.tlBumps + 16 * slot), WordAt(s, env.tlBumps + 16 * slot + 8);
            var cur := Read64(s.mem, ptr);
            var next := Wrap(cur + Sext32(spec.size));
            if s.regs.rdi != Sext32(spec.size) then LeavesFor(out, s, world, spec, env, page, 1)
            else if next < Read64(s.mem, end) then
              BackAtCaller(out, s) && out.s.regs.rax == cur && out.s.mem == Write64(s.mem, ptr, next) && out.s.calls == s.calls
            else Calls(out, s, world, env.pcRefill, slot, spec.size)
  {
    hide Run, Assemble, RoutineFor, CellsApart, OffReturn, Honest, Read64, Write64, OneCall, BackAtCaller, Entry;
    OwnCells(spec, env, slot, page, s);
    CompiledPageRuns(code, n, spec, env, slot, page, s, world, fuel);
  }

  /** EpochArena: the first two of the slot's three words of tl_arenas, arena_reset_alloc, reason 1. */
  lemma ArenaPage(code: seq<Byte>, n: nat, spec: Spec, env: Env, slot: U32, page: U64, s: State, world: World, fuel: nat)
    requires Entered(code, n, spec, env, slot, page, s, world, fuel) && spec.strategy == EpochArena
    ensures var out := Run(code, s, world, fuel);
            var ptr, end := WordAt(s, env.tlArenas + 24 * slot), WordAt(s, env.tlArenas + 24 * slot + 8);
            var cur := Read64(s.mem, ptr);
            var next := Wrap(cur + Sext32(spec.size));
            if s.regs.rdi != Sext32(spec.size) then LeavesFor(out, s, world, spec, env, page, 1)
            else if next < Read64(s.mem, end) then
              BackAtCaller(out, s) && out.s.regs.rax == cur && out.s.mem == Write64(s.mem, ptr, next) && out.s.calls == s.calls
            else Calls(out, s, world, env.arenaReset, slot, spec.size)
  {
    hide Run, Assemble, RoutineFor, CellsApart, OffReturn, Honest, Read64, Write64, OneCall, BackAtCaller, Entry;
    OwnCells(spec, env, slot, page, s);
    CompiledPageRuns(code, n, spec, env, slot, page, s, world, fuel);
  }

  /** ThreadLocalFreeList: the first of the slot's two words of tl_freelists, freelist_refill, reason 1. */
  lemma ListPage(code: seq<Byte>, n: nat, spec: Spec, env: Env, slot: U32, page: U64, s: State, world: World, fuel: nat)
    requires Entered(code, n, spec, env, slot, page, s, world, fuel) && spec.strategy == ThreadLocalFreeList
    ensures var out := Run(code, s, world, fuel);
            var head := WordAt(s, env.tlFreelists + 16 * slot);
            var top := Read64(s.mem, head);
            if s.regs.rdi != Sext32(spec.size) then LeavesFor(out, s, world, spec, env, page, 1)
            else if top != 0 then
              BackAtCaller(out, s) && out.s.regs.rax == top && out.s.mem == Write64(s.mem, head, Read64(s.mem, top)) &&
              out.s.calls == s.calls
            else Calls(out, s, world, env.freelistRefill, slot, spec.size)
  {
    hide Run, Assemble, RoutineFor, CellsApart, OffReturn, Honest, Read64, Write64, OneCall, BackAtCaller, Entry;
    OwnCells(spec, env, slot, page, s);
    CompiledPageRuns(code, n, spec, env, slot, page, s, world, fuel);
  }

  /** The k-th class is the first of the requested size; with no such class, all of them. */
  predicate FirstClass(spec: Spec, s: State, k: nat) {
    k <= |spec.classSizes| && (k < |spec.classSizes| ==> s.regs.rdi == Sext32(spec.classSizes[k])) &&
    forall i :: 0 <= i < k ==> s.regs.rdi != Sext32(spec.classSizes[i])
  }

  ghost predicate CallsClass(out: Status, s: State, world: World, fn: U64, slot: U32, size: U32, k: nat) {
    BackAtCaller(out, s) && exists c: Call ::
      OneCall(out.s, s, c) && c.target == fn && c.rdi == slot && c.rsi == size && c.rdx == k &&
      out.s.regs.rax == world(c).rax && out.s.mem == world(c).mem
  }

  ghost predicate ClassServed(out: Status, s: State, world: World, spec: Spec, env: Env, slot: U32, page: U64, k: nat) {
    if k >= |spec.classSizes| then LeavesFor(out, s, world, spec, env, page, 1)
    else
      var head := WordAt(s, env.tlMulti + 64 * slot + 8 * k);
      var top := Read64(s.mem, head);
      if top != 0 then
        BackAtCaller(out, s) && out.s.regs.rax == top && out.s.mem == Write64(s.mem, head, Read64(s.mem, top)) &&
        out.s.calls == s.calls
      else CallsClass(out, s, world, env.multiRefill, slot, spec.classSizes[k], k)
  }

  lemma {:induction false} LadderFirst(out: Status, s: State, world: World, spec: Spec, env: Env, slot: U32, page: U64,
                                       i: nat, k: nat)
    requires Admissible(spec) && spec.strategy == MultiSizeFreeList && FirstClass(spec, s, k) && i <= k
    requires LadderSpec(out, s, world, MultiParamsFor(spec, env, slot, page), i)
    ensures ClassServed(out, s, world, spec, env, slot, page, k)
    decreases k - i
  {
    hide Read64, Write64, OneCall, BackAtCaller, FsAddr, WordAt, Wrap, Sext32;
    if i < k {
      LadderFirst(out, s, world, spec, env, slot, page, i + 1, k);
    } else if i < |spec.classSizes| {
      assert FsAddr(s, HeadCell(MultiParamsFor(spec, env, slot, page), i)) == WordAt(s, env.tlMulti + 64 * slot + 8 * i) by {
        ClassCell(s, spec, env, slot, page, i);
      }
    }
  }

  lemma ClassCell(s: State, spec: Spec, env: Env, slot: U32, page: U64, i: nat)
    ensures FsAddr(s, HeadCell(MultiParamsFor(spec, env, slot, page), i)) == WordAt(s, env.tlMulti + 64 * slot + 8 * i)
  {
    assert ((env.tlMulti + 64 * slot) % W32 + 8 * i) % W32 == (env.tlMulti + 64 * slot + 8 * i) % W32;
  }

  /** MultiSizeFreeList: the class's word of tl_multi_freelists, multi_refill with slot, size and class, reason 1. */
  lemma LadderPage(code: seq<Byte>, n: nat, spec: Spec, env: Env, slot: U32, page: U64, s: State, world: World, fuel: nat,
                   k: nat)
    requires Entered(code, n, spec, env, slot, page, s, world, fuel)
    requires spec.strategy == MultiSizeFreeList && FirstClass(spec, s, k)
    ensures ClassServed(Run(code, s, world, fuel), s, world, spec, env, slot, page, k)
  {
    hide Run, Assemble, RoutineFor, CellsApart, OffReturn, Honest, LadderSpec, ClassServed, Entry;
    OwnCells(spec, env, slot, page, s);
    CompiledPageRuns(code, n, spec, env, slot, page, s, world, fuel);
    LadderFirst(Run(code, s, world, fuel), s, world, spec, env, slot, page, 0, k);
  }

  // ----- slots do not interfere -----

  /** What is served within the page writes one word, its slot's own. */
  lemma InlineWritesOwn(code: seq<Byte>, n: nat, spec: Spec, env: Env, slot: U32, page: U64, s: State, world: World,
                        fuel: nat) returns (x: int, v: U64)
    requires Entered(code, n, spec, env, slot, page, s, world, fuel) && Run(code, s, world, fuel).Returned?
    requires Run(code, s, world, fuel).s.calls == s.calls
    ensures Owns(env, spec.strategy, slot, x) && Run(code, s, world, fuel).s.mem == Write64(s.mem, WordAt(s, x), v)
  {
    hide Run, Entered, Read64, Write64, BackAtCaller, WordAt, Owns, Wrap, Sext32;
    x := Base(env, spec.strategy) + SlotSize(spec.strategy) * slot;
    assert Admissible(spec) by { EnteredFacts(code, n, spec, env, slot, page, s, world, fuel); }
    var word := Read64(s.mem, WordAt(s, x));
    OwnsWord(env, spec.strategy, slot, 0);
    v := Wrap(word + Sext32(spec.size));
    match spec.strategy
    case BumpAlloc => BumpPage(code, n, spec, env, slot, page, s, world, fuel);
    case PairedStack => BumpPage(code, n, spec, env, slot, page, s, world, fuel);
    case ProducerConsumer => PcPage(code, n, spec, env, slot, page, s, world, fuel);
    case EpochArena => ArenaPage(code, n, spec, env, slot, page, s, world, fuel);
    case ThreadLocalFreeList =>
      ListPage(code, n, spec, env, slot, page, s, world, fuel);
      v := Read64(s.mem, word);
    case MultiSizeFreeList =>
      var k := ClassOf(spec, s);
      LadderPage(code, n, spec, env, slot, page, s, world, fuel, k);
      x := env.tlMulti + 64 * slot + 8 * k;
      if k < |spec.classSizes| {
        OwnsWord(env, spec.strategy, slot, k);
      }
      v := Read64(s.mem, Read64(s.mem, WordAt(s, x)));
  }

  lemma EnteredFacts(code: seq<Byte>, n: nat, spec: Spec, env: Env, slot: U32, page: U64, s: State, world: World, fuel: nat)
    requires Entered(code, n, spec, env, slot, page, s, world, fuel)
    ensures Admissible(spec)
  {
    hide Assemble, RoutineFor, OffReturn, Honest, Entry, Admissible;
  }

  function ClassOf(spec: Spec, s: State, i: nat := 0): (k: nat)
    requires i <= |spec.classSizes| && forall j :: 0 <= j < i ==> s.regs.rdi != Sext32(spec.classSizes[j])
    ensures FirstClass(spec, s, k)
    decreases |spec.classSizes| - i
  {
    if i == |spec.classSizes| || s.regs.rdi == Sext32(spec.classSizes[i]) then i else ClassOf(spec, s, i + 1)
  }

  /** So a page serving from its own slot leaves every word of every other slot as it was. */
  lemma SlotsDoNotInterfere(code: seq<Byte>, n: nat, spec: Spec, env: Env, slot: U32, page: U64, s: State, world: World,
                            fuel: nat, other: Strategy, j: nat, y: int)
    requires Entered(code, n, spec, env, slot, page, s, world, fuel) && Run(code, s, world, fuel).Returned?
    requires Run(code, s, world, fuel).s.calls == s.calls && slot < 4096 && j < 4096 && Owns(env, other, j, y)
    requires if SameArray(spec.strategy, other) then slot != j else ArraysApart(env, spec.strategy, other)
    ensures Read64(Run(code, s, world, fuel).s.mem, WordAt(s, y)) == Read64(s.mem, WordAt(s, y))
  {
    hide Run, Entered, Read64, Write64, WordAt, Owns, ArraysApart, Apart;
    var x, v := InlineWritesOwn(code, n, spec, env, slot, page, s, world, fuel);
    OwnedApart(s, env, spec.strategy, slot, x, other, j, y);
    ReadElsewhere(s.mem, WordAt(s, x), v, WordAt(s, y));
  }
}
