/** compile(): admission of a routine specification, slot assignment, and the finished code page. */
module Codegen {
  import opened X86
  import opened Routines
  import Emitter
  import Histogram

  datatype Strategy = Generic | BumpAlloc | ThreadLocalFreeList | EpochArena | PairedStack | ProducerConsumer
                    | MultiSizeFreeList

  datatype Spec = Spec(id: U32, strategy: Strategy, size: U32, classSizes: seq<U32>)

  const PAGE_SIZE: nat := 4096
  const MAX_COMPILED_SITES: nat := 4096

  /** Addresses baked into the routines: external functions, and the fs offsets of the
      thread-local slot arrays. */
  datatype Env = Env(handle: U64, malloc: U64, bumpInit: U64, pairedInit: U64, freelistRefill: U64,
                     pcRefill: U64, arenaReset: U64, multiRefill: U64,
                     tlBumps: U32, tlFreelists: U32, tlArenas: U32, tlMulti: U32)

  const SIZE_DRIFT: U32 := 1
  const REGION_EXHAUST: U32 := 2

  /** The guards in front of slot assignment. */
  predicate Admissible(s: Spec) {
    0 < s.size < Histogram.MAX_SIZE && s.strategy != Generic &&
    (s.strategy == ThreadLocalFreeList ==> s.size >= 8) &&
    (s.strategy == MultiSizeFreeList ==>
      0 < |s.classSizes| <= 4 && forall i :: 0 <= i < |s.classSizes| ==> s.classSizes[i] >= 8)
  }

  function ExitFor(s: Spec, env: Env, page: U64): Exit {
    Exit(s.id, page, if s.strategy == BumpAlloc || s.strategy == PairedStack then REGION_EXHAUST else SIZE_DRIFT,
         env.handle, env.malloc)
  }

  /** Parameters of a single-size routine. Slots of tl_bumps and tl_freelists are 16 bytes,
      slots of tl_arenas 24. */
  function ParamsFor(s: Spec, env: Env, slot: U32, page: U64): Params {
    var cell := if s.strategy == ThreadLocalFreeList then env.tlFreelists + 16 * slot
                else if s.strategy == EpochArena then env.tlArenas + 24 * slot
                else env.tlBumps + 16 * slot;
    var fn := match s.strategy
      case PairedStack => env.pairedInit
      case ThreadLocalFreeList => env.freelistRefill
      case EpochArena => env.arenaReset
      case ProducerConsumer => env.pcRefill
      case _ => env.bumpInit;
    Params(cell % W32, (cell + 8) % W32, slot, s.size, fn, ExitFor(s, env, page))
  }

  function MultiParamsFor(s: Spec, env: Env, slot: U32, page: U64): MultiParams {
    MultiParams((env.tlMulti + 64 * slot) % W32, slot, s.classSizes, env.multiRefill, ExitFor(s, env, page))
  }

  function RoutineFor(s: Spec, env: Env, slot: U32, page: U64): seq<Instr>
    requires Admissible(s)
  {
    match s.strategy
    case BumpAlloc => BumpRoutine(ParamsFor(s, env, slot, page))
    case PairedStack => BumpRoutine(ParamsFor(s, env, slot, page))
    case ThreadLocalFreeList => FreeListRoutine(ParamsFor(s, env, slot, page))
    case MultiSizeFreeList => LadderFrom(MultiParamsFor(s, env, slot, page), 0)
    case _ => RefillRoutine(ParamsFor(s, env, slot, page))
  }

  /** What calling the finished page does, by strategy. */
  ghost predicate Promise(out: Status, s: State, world: World, spec: Spec, env: Env, slot: U32, page: U64)
    requires Admissible(spec)
  {
    match spec.strategy
    case BumpAlloc => BumpSpec(out, s, world, ParamsFor(spec, env, slot, page))
    case PairedStack => BumpSpec(out, s, world, ParamsFor(spec, env, slot, page))
    case ThreadLocalFreeList => FreeListSpec(out, s, world, ParamsFor(spec, env, slot, page))
    case MultiSizeFreeList => LadderSpec(out, s, world, MultiParamsFor(spec, env, slot, page), 0)
    case _ => RefillSpec(out, s, world, ParamsFor(spec, env, slot, page))
  }

  /** The thread-local cells the routine writes do not overlap the return address on the stack. */
  predicate CellsApart(spec: Spec, env: Env, slot: U32, page: U64, s: State) {
    if spec.strategy == MultiSizeFreeList then
      forall j: nat :: j < |spec.classSizes| ==>
        Apart(FsAddr(s, HeadCell(MultiParamsFor(spec, env, slot, page), j)), s.regs.rsp)
    else Apart(FsAddr(s, ParamsFor(spec, env, slot, page).ptr), s.regs.rsp)
  }

  /** Every page compile produces behaves as its strategy promises, from every entry state and
      against every honest world; nineteen instructions are always enough. */
  lemma CompiledPageRuns(code: seq<Byte>, n: nat, spec: Spec, env: Env, slot: U32, page: U64,
                         s: State, world: World, fuel: nat)
    requires Admissible(spec) && n <= |code| && code[..n] == Assemble(RoutineFor(spec, env, slot, page))
    requires Entry(s) && Honest(world) && CellsApart(spec, env, slot, page, s) && fuel >= 19
    ensures Promise(Run(code, s, world, fuel), s, world, spec, env, slot, page)
  {
    hide Assemble, Encode, Run, BumpRoutine, RefillRoutine, FreeListRoutine, BumpSpec, RefillSpec, FreeListSpec,
         LadderSpec, LadderFrom, Honest, ParamsFor, MultiParamsFor, FsAddr, HeadCell;
    var p := ParamsFor(spec, env, slot, page);
    assert code[0..n] == code[..n];
    assert Holding(code, 0, RoutineFor(spec, env, slot, page));
    match spec.strategy
    case BumpAlloc => BumpRoutineRuns(code, p, s, world, fuel);
    case PairedStack => BumpRoutineRuns(code, p, s, world, fuel);
    case ThreadLocalFreeList => FreeListRoutineRuns(code, p, s, world, fuel);
    case MultiSizeFreeList =>
      var q := MultiParamsFor(spec, env, slot, page);
      assert q.sizes == spec.classSizes by { MultiSizes(spec, env, slot, page); }
      LadderRuns(code, q, 0, s, s, world, fuel);
    case _ => RefillRoutineRuns(code, p, s, world, fuel);
  }

  lemma MultiSizes(s: Spec, env: Env, slot: U32, page: U64)
    ensures MultiParamsFor(s, env, slot, page).sizes == s.classSizes
  {
  }

  /** The process-wide compile state: the slot counter and the slot-to-site table. */
  class Compiler {
    var nextIndex: nat
    var slotToSite: map<nat, U32>

    constructor ()
      ensures nextIndex == 0 && slotToSite == map[]
    {
      nextIndex := 0;
      slotToSite := map[];
    }

    /** base is the address mmap returns for the new page. A page is produced exactly when the
        specification is admissible and a slot is left; emission itself never fails. */
    method Compile(spec: Spec, env: Env, base: U64) returns (page: array?<Byte>, n: nat)
      modifies this
      ensures page != null <==> Admissible(spec) && old(nextIndex) < MAX_COMPILED_SITES
      ensures page != null ==> 0 < spec.size < 4096 && spec.strategy != Generic && old(nextIndex) < 4096
      ensures page == null ==>
                spec.size == 0 || spec.size >= 4096 || spec.strategy == Generic || old(nextIndex) >= 4096 ||
                (spec.strategy == ThreadLocalFreeList && spec.size < 8) ||
                (spec.strategy == MultiSizeFreeList && (spec.classSizes == [] || |spec.classSizes| > 4 ||
                                                        exists i :: 0 <= i < |spec.classSizes| && spec.classSizes[i] < 8))
      ensures page != null && spec.strategy == ThreadLocalFreeList ==> spec.size >= 8
      ensures page != null && spec.strategy == MultiSizeFreeList ==>
                1 <= |spec.classSizes| <= 4 && forall i :: 0 <= i < |spec.classSizes| ==> spec.classSizes[i] >= 8
      ensures !Admissible(spec) ==> nextIndex == old(nextIndex)
      ensures Admissible(spec) ==> nextIndex == old(nextIndex) + 1
      ensures page == null ==> slotToSite == old(slotToSite)
      ensures page != null ==> fresh(page) && slotToSite == old(slotToSite)[old(nextIndex) := spec.id]
      ensures page != null ==> n <= page.Length == PAGE_SIZE &&
                               page[..n] == Assemble(RoutineFor(spec, env, old(nextIndex), base))
    {
      hide Assemble, Encode, BumpRoutine, RefillRoutine, FreeListRoutine, LadderFrom, ParamsFor;
      page, n := null, 0;
      if !Admissible(spec) { return; }
      var slot := nextIndex;
      nextIndex := nextIndex + 1;
      if slot >= MAX_COMPILED_SITES { return; }
      slotToSite := slotToSite[slot := spec.id];
      page := new Byte[PAGE_SIZE](_ => 0);
      var p := ParamsFor(spec, env, slot, base);
      match spec.strategy
      case BumpAlloc => n := Emitter.EmitBumpAlloc(page, p);
      case PairedStack => n := Emitter.EmitBumpAlloc(page, p);
      case ThreadLocalFreeList => n := Emitter.EmitFreeListAlloc(page, p);
      case ProducerConsumer => n := Emitter.EmitPcAlloc(page, p);
      case MultiSizeFreeList => n := Emitter.EmitMultiFreeListAlloc(page, MultiParamsFor(spec, env, slot, base));
      case EpochArena => n := Emitter.EmitEpochArena(page, p);
      case Generic => assert false;
    }
  }
}
