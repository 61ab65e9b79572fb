/** The five allocation routines as instruction blocks, and what running each one amounts to. */
module Routines {
  import opened X86

  // ----- building blocks (displacements are the patched ones) -----

  function Guard(size: U32, d: Byte): seq<Instr> {
    [Alu32(Cmp, Rdi, size), Jcc(NotEqual, d)]
  }

  function Advance(size: U32): Instr {
    if size < 128 then Lea8(Rcx, Rax, size) else Lea32(Rcx, Rax, size)
  }

  function BumpLoad(ptr: U32, size: U32): seq<Instr> {
    [LoadFs(Rax, ptr), Advance(size)]
  }

  function BumpCheck(end: U32, d: Byte): seq<Instr> {
    [CmpFs(Rcx, end), Jcc(AboveEq, d)]
  }

  function PopProbe(head: U32, d: Byte): seq<Instr> {
    [LoadFs(Rax, head), TestSelf(Rax), Jcc(Equal, d)]
  }

  /** Store rcx to the thread-local cell and return. */
  function Commit(cell: U32): seq<Instr> {
    [StoreFs(cell, Rcx), Ret]
  }

  function Unlink(head: U32): seq<Instr> {
    [LoadInd(Rcx, Rax), StoreFs(head, Rcx), Ret]
  }

  function FreshCheck(d: Byte): seq<Instr> {
    [Alu8(Cmp, Rax, 0), Jcc(NotEqual, d)]
  }

  /** Realign the stack before an external call. */
  function Realign(): seq<Instr> {
    [Alu8(Sub, Rsp, 8)]
  }

  /** Load the arguments of fn(slot, size). */
  function CallArgs(slot: U32, size: U32, fn: U64): seq<Instr> {
    [MovImm32(Rdi, slot), MovImm32(Rsi, size), MovImm64(Rax, fn)]
  }

  /** The same for fn(slot, size, class). */
  function CallArgs3(slot: U32, size: U32, class_: U32, fn: U64): seq<Instr> {
    [MovImm32(Rdi, slot), MovImm32(Rsi, size), MovImm32(Rdx, class_), MovImm64(Rax, fn)]
  }

  function CallAndReturn(): seq<Instr> {
    [CallReg(Rax), Alu8(Add, Rsp, 8), Ret]
  }

  /** What the deopt epilogue needs; page is the address the routine is emitted at. */
  datatype Exit = Exit(site: U32, page: U64, reason: U32, handler: U64, malloc: U64)

  /** Save the requested size; the first two handler arguments. */
  function DeoptSave(e: Exit): seq<Instr> {
    [Push(Rdi), MovImm32(Rdi, e.site), MovImm64(Rsi, e.page)]
  }

  /** The third argument and the handler itself. */
  function DeoptAim(e: Exit): seq<Instr> {
    [MovImm32(Rdx, e.reason), MovImm64(Rax, e.handler)]
  }

  /** The call, and the requested size back. */
  function DeoptCall(): seq<Instr> {
    [CallReg(Rax), Pop(Rdi)]
  }

  function DeoptLeave(e: Exit): seq<Instr> {
    [MovImm64(Rax, e.malloc), JmpReg(Rax)]
  }

  // ----- what the routines promise -----

  /** The state in which a compiled routine is entered: just after the trampoline's call, so
      rsp is 8 mod 16 and the return address is on top of the stack. */
  predicate Entry(s: State) {
    s.pc == 0 && s.regs.rsp % 16 == 8 && 64 <= s.regs.rsp && s.regs.rsp + 16 <= W64
  }

  /** A callee leaves the sixteen bytes above its return address alone: they belong to the
      routine's own frame and to the routine's return address. */
  ghost predicate Honest(world: World) {
    forall c: Call :: Read64(world(c).mem, c.rsp) == Read64(c.mem, c.rsp) &&
                      Read64(world(c).mem, c.rsp + 8) == Read64(c.mem, c.rsp + 8)
  }

  /** Control is back at the caller with the stack and the callee-saved registers as it left them. */
  ghost predicate BackAtCaller(out: Status, s: State) {
    out.Returned? && out.target == Read64(s.mem, s.regs.rsp) &&
    out.s.regs.rsp == Wrap(s.regs.rsp + 8) &&
    out.s.regs.rbx == s.regs.rbx && out.s.regs.rbp == s.regs.rbp
  }

  /** Served without leaving the page. */
  ghost predicate ServedInline(out: Status, s: State, result: U64, mem: Mem) {
    BackAtCaller(out, s) && out.s.regs.rax == result && out.s.mem == mem && out.s.calls == s.calls
  }

  /** Exactly one external call was made, with the stack 16-byte aligned (System V AMD64 psABI,
      section 3.2.2) and memory as it was apart from the sixteen bytes below the entry rsp. */
  ghost predicate OneCall(out: State, s: State, c: Call) {
    out.calls == s.calls + [c] && c.rsp == s.regs.rsp - 8 && c.rsp % 16 == 0 &&
    forall a :: a >= s.regs.rsp || a < s.regs.rsp - 16 ==> ByteAt(c.mem, a) == ByteAt(s.mem, a)
  }

  /** Served by fn(slot, size): its result is the routine's result. */
  ghost predicate ServedBy(out: Status, s: State, world: World, fn: U64, slot: U32, size: U32) {
    BackAtCaller(out, s) && exists c: Call ::
      OneCall(out.s, s, c) && c.target == fn && c.rdi == slot && c.rsi == size &&
      out.s.regs.rax == world(c).rax && out.s.mem == world(c).mem
  }

  /** As ServedBy with a third argument. */
  ghost predicate ServedBy3(out: Status, s: State, world: World, fn: U64, slot: U32, size: U32, class_: U32) {
    BackAtCaller(out, s) && exists c: Call ::
      OneCall(out.s, s, c) && c.target == fn && c.rdi == slot && c.rsi == size && c.rdx == class_ &&
      out.s.regs.rax == world(c).rax && out.s.mem == world(c).mem
  }

  /** Deoptimised: handler(site, page, reason) was told, then malloc was tail-called with the
      requested size, the stack exactly as at entry. */
  ghost predicate Declined(out: Status, s: State, world: World, e: Exit) {
    out.LeftTo? && out.target == e.malloc && out.s.regs.rdi == s.regs.rdi &&
    out.s.regs.rsp == s.regs.rsp && out.s.regs.rbx == s.regs.rbx && out.s.regs.rbp == s.regs.rbp &&
    Read64(out.s.mem, s.regs.rsp) == Read64(s.mem, s.regs.rsp) &&
    exists c: Call ::
      OneCall(out.s, s, c) && c.target == e.handler && c.rdi == e.site && c.rsi == e.page &&
      c.rdx == e.reason && out.s.mem == world(c).mem
  }

  // ----- running the blocks -----

  lemma GuardRuns(code: seq<Byte>, at: nat, size: U32, d: Byte, s: State, world: World, fuel: nat)
    requires Holding(code, at, Guard(size, d)) && s.pc == at && d < 128
    ensures Run(code, s, world, fuel + 2) ==
            Run(code, s.(zf := s.regs.rdi == Sext32(size), cf := s.regs.rdi < Sext32(size),
                         pc := if s.regs.rdi == Sext32(size) then at + 9 else at + 9 + d), world, fuel)
  {
    hide Run, Holding, Encode, Assemble, Decode;
    var blk := Guard(size, d);
    StepAt(code, at, blk, 0, s, world, fuel + 1);
    var s1 := Exec(blk[0], Size(blk[0]), s, world).s;
    StepAt(code, at, blk, 1, s1, world, fuel);
  }

  lemma FreshCheckRuns(code: seq<Byte>, at: nat, d: Byte, s: State, world: World, fuel: nat)
    requires Holding(code, at, FreshCheck(d)) && s.pc == at && d < 128
    ensures Run(code, s, world, fuel + 2) ==
            Run(code, s.(zf := s.regs.rax == 0, cf := false,
                         pc := if s.regs.rax == 0 then at + 6 else at + 6 + d), world, fuel)
  {
    hide Run, Holding, Encode, Assemble, Decode;
    var blk := FreshCheck(d);
    StepAt(code, at, blk, 0, s, world, fuel + 1);
    var s1 := Exec(blk[0], Size(blk[0]), s, world).s;
    StepAt(code, at, blk, 1, s1, world, fuel);
  }

  lemma BumpLoadRuns(code: seq<Byte>, at: nat, ptr: U32, size: U32, s: State, world: World, fuel: nat)
    requires Holding(code, at, BumpLoad(ptr, size)) && s.pc == at
    ensures var cur := Read64(s.mem, FsAddr(s, ptr));
            Run(code, s, world, fuel + 2) ==
            Run(code, s.(regs := s.regs.(rax := cur, rcx := Wrap(cur + Sext32(size))),
                         pc := at + 9 + Size(Advance(size))), world, fuel)
  {
    hide Run, Holding, Encode, Assemble, Decode, Read64;
    var blk := BumpLoad(ptr, size);
    StepAt(code, at, blk, 0, s, world, fuel + 1);
    var s1 := Exec(blk[0], Size(blk[0]), s, world).s;
    StepAt(code, at, blk, 1, s1, world, fuel);
  }

  lemma BumpCheckRuns(code: seq<Byte>, at: nat, end: U32, d: Byte, s: State, world: World, fuel: nat)
    requires Holding(code, at, BumpCheck(end, d)) && s.pc == at && d < 128
    ensures var limit := Read64(s.mem, FsAddr(s, end));
            Run(code, s, world, fuel + 2) ==
            Run(code, s.(zf := s.regs.rcx == limit, cf := s.regs.rcx < limit,
                         pc := at + 11 + if s.regs.rcx < limit then 0 else d), world, fuel)
  {
    hide Run, Holding, Encode, Assemble, Decode, Read64;
    var blk := BumpCheck(end, d);
    StepAt(code, at, blk, 0, s, world, fuel + 1);
    var s1 := Exec(blk[0], Size(blk[0]), s, world).s;
    StepAt(code, at, blk, 1, s1, world, fuel);
  }

  lemma PopProbeRuns(code: seq<Byte>, at: nat, head: U32, d: Byte, s: State, world: World, fuel: nat)
    requires Holding(code, at, PopProbe(head, d)) && s.pc == at && d < 128
    ensures var top := Read64(s.mem, FsAddr(s, head));
            Run(code, s, world, fuel + 3) ==
            Run(code, s.(regs := s.regs.(rax := top), zf := top == 0, cf := false,
                         pc := at + 14 + if top == 0 then d else 0), world, fuel)
  {
    hide Run, Holding, Encode, Assemble, Decode, Read64, Write64;
    var blk := PopProbe(head, d);
    StepAt(code, at, blk, 0, s, world, fuel + 2);
    var s1 := Exec(blk[0], Size(blk[0]), s, world).s;
    StepAt(code, at, blk, 1, s1, world, fuel + 1);
    var s2 := Exec(blk[1], Size(blk[1]), s1, world).s;
    StepAt(code, at, blk, 2, s2, world, fuel);
  }

  lemma CommitRuns(code: seq<Byte>, at: nat, cell: U32, s: State, world: World, fuel: nat)
    requires Holding(code, at, Commit(cell)) && s.pc == at
    requires Apart(FsAddr(s, cell), s.regs.rsp)
    ensures ServedInline(Run(code, s, world, fuel + 2), s, s.regs.rax,
                         Write64(s.mem, FsAddr(s, cell), s.regs.rcx))
  {
    hide Run, Holding, Encode, Assemble, Decode, Read64, Write64;
    var blk := Commit(cell);
    StepAt(code, at, blk, 0, s, world, fuel + 1);
    var s1 := Exec(blk[0], Size(blk[0]), s, world).s;
    StepAt(code, at, blk, 1, s1, world, fuel);
    ReadElsewhere(s.mem, FsAddr(s, cell), s.regs.rcx, s.regs.rsp);
  }

  lemma UnlinkRuns(code: seq<Byte>, at: nat, head: U32, s: State, world: World, fuel: nat)
    requires Holding(code, at, Unlink(head)) && s.pc == at
    requires Apart(FsAddr(s, head), s.regs.rsp)
    ensures ServedInline(Run(code, s, world, fuel + 3), s, s.regs.rax,
                         Write64(s.mem, FsAddr(s, head), Read64(s.mem, s.regs.rax)))
  {
    hide Run, Holding, Encode, Assemble, Decode, Read64, Write64;
    var blk := Unlink(head);
    StepAt(code, at, blk, 0, s, world, fuel + 2);
    var s1 := Exec(blk[0], Size(blk[0]), s, world).s;
    StepAt(code, at, blk, 1, s1, world, fuel + 1);
    var s2 := Exec(blk[1], Size(blk[1]), s1, world).s;
    StepAt(code, at, blk, 2, s2, world, fuel);
    ReadElsewhere(s.mem, FsAddr(s, head), s1.regs.rcx, s.regs.rsp);
  }

  /** The machine state in which an external call is made, and the call itself. */
  function CallAt(s: State, next: int): Call {
    Call(s.regs.rax, s.regs.rdi, s.regs.rsi, s.regs.rdx, s.regs.rsp,
         Write64(s.mem, s.regs.rsp - 8, Wrap(s.base + next)))
  }

  lemma PushedBelow(mem: Mem, rsp: int, v: U64)
    ensures forall a :: a >= rsp || a < rsp - 8 ==> ByteAt(Write64(mem, rsp - 8, v), a) == ByteAt(mem, a)
  {
    forall a | a >= rsp || a < rsp - 8
      ensures ByteAt(Write64(mem, rsp - 8, v), a) == ByteAt(mem, a)
    {
      WrittenByte(mem, rsp - 8, Le64(v), a);
    }
  }

  lemma RealignRuns(code: seq<Byte>, at: nat, s: State, world: World, fuel: nat)
    requires Holding(code, at, Realign()) && s.pc == at && s.regs.rsp > 8
    ensures Run(code, s, world, fuel + 1) ==
            Run(code, s.(regs := s.regs.(rsp := s.regs.rsp - 8), zf := false, cf := false, pc := at + 4), world, fuel)
  {
    hide Run, Holding, Encode, Assemble, Decode;
    StepAt(code, at, Realign(), 0, s, world, fuel);
  }

  lemma CallArgsRun(code: seq<Byte>, at: nat, slot: U32, size: U32, fn: U64,
                    s: State, world: World, fuel: nat)
    requires Holding(code, at, CallArgs(slot, size, fn)) && s.pc == at
    ensures Run(code, s, world, fuel + 3) ==
            Run(code, s.(regs := s.regs.(rdi := slot, rsi := size, rax := fn), pc := at + 20), world, fuel)
  {
    hide Run, Holding, Encode, Assemble, Decode;
    var blk := CallArgs(slot, size, fn);
    StepAt(code, at, blk, 0, s, world, fuel + 2);
    var s1 := Exec(blk[0], Size(blk[0]), s, world).s;
    StepAt(code, at, blk, 1, s1, world, fuel + 1);
    var s2 := Exec(blk[1], Size(blk[1]), s1, world).s;
    StepAt(code, at, blk, 2, s2, world, fuel);
  }

  lemma CallArgs3Run(code: seq<Byte>, at: nat, slot: U32, size: U32, class_: U32, fn: U64,
                     s: State, world: World, fuel: nat)
    requires Holding(code, at, CallArgs3(slot, size, class_, fn)) && s.pc == at
    ensures Run(code, s, world, fuel + 4) ==
            Run(code, s.(regs := s.regs.(rdi := slot, rsi := size, rdx := class_, rax := fn), pc := at + 25),
                world, fuel)
  {
    hide Run, Holding, Encode, Assemble, Decode;
    var blk := CallArgs3(slot, size, class_, fn);
    StepAt(code, at, blk, 0, s, world, fuel + 3);
    var s1 := Exec(blk[0], Size(blk[0]), s, world).s;
    StepAt(code, at, blk, 1, s1, world, fuel + 2);
    var s2 := Exec(blk[1], Size(blk[1]), s1, world).s;
    StepAt(code, at, blk, 2, s2, world, fuel + 1);
    var s3 := Exec(blk[2], Size(blk[2]), s2, world).s;
    StepAt(code, at, blk, 3, s3, world, fuel);
  }

  /** Call, undo the realignment, return: the callee's result and memory, nothing else touched. */
  lemma CallAndReturnRuns(code: seq<Byte>, at: nat, s: State, world: World, fuel: nat)
    requires Holding(code, at, CallAndReturn()) && s.pc == at && s.regs.rsp + 16 < W64
    ensures var c := CallAt(s, at + 2);
            var out := Run(code, s, world, fuel + 3);
            out.Returned? && out.target == Read64(world(c).mem, s.regs.rsp + 8) &&
            out.s.mem == world(c).mem && out.s.calls == s.calls + [c] &&
            out.s.regs.rax == world(c).rax && out.s.regs.rsp == s.regs.rsp + 16 &&
            out.s.regs.rbx == s.regs.rbx && out.s.regs.rbp == s.regs.rbp
  {
    hide Run, Holding, Encode, Assemble, Decode, Read64, Write64;
    var blk := CallAndReturn();
    StepAt(code, at, blk, 0, s, world, fuel + 2);
    var s1 := Exec(blk[0], Size(blk[0]), s, world).s;
    StepAt(code, at, blk, 1, s1, world, fuel + 1);
    var s2 := Exec(blk[1], Size(blk[1]), s1, world).s;
    StepAt(code, at, blk, 2, s2, world, fuel);
  }

  /** Both slow paths end alike once the arguments are loaded. */
  lemma SlowPathEnds(out: Status, s: State, t: State, next: int, world: World)
    requires Entry(s.(pc := 0)) && Honest(world)
    requires t.mem == s.mem && t.calls == s.calls && t.regs.rsp == s.regs.rsp - 8
    requires t.regs.rbx == s.regs.rbx && t.regs.rbp == s.regs.rbp
    requires var c := CallAt(t, next);
             out.Returned? && out.target == Read64(world(c).mem, t.regs.rsp + 8) &&
             out.s.calls == t.calls + [c] &&
             out.s.regs.rsp == t.regs.rsp + 16 &&
             out.s.regs.rbx == t.regs.rbx && out.s.regs.rbp == t.regs.rbp
    ensures BackAtCaller(out, s) && OneCall(out.s, s, CallAt(t, next))
  {
    hide Read64, Write64;
    var c := CallAt(t, next);
    PushedBelow(s.mem, c.rsp, Wrap(t.base + next));
    ReadElsewhere(s.mem, c.rsp - 8, Wrap(t.base + next), s.regs.rsp);
  }

  ghost predicate HoldsSlowPath(code: seq<Byte>, at: nat, slot: U32, size: U32, fn: U64) {
    Holding(code, at, Realign()) && Holding(code, at + 4, CallArgs(slot, size, fn)) &&
    Holding(code, at + 24, CallAndReturn())
  }

  lemma SlowPathRuns(code: seq<Byte>, at: nat, slot: U32, size: U32, fn: U64,
                     s: State, world: World, fuel: nat)
    requires HoldsSlowPath(code, at, slot, size, fn) && s.pc == at
    requires Entry(s.(pc := 0)) && Honest(world)
    ensures ServedBy(Run(code, s, world, fuel + 7), s, world, fn, slot, size)
  {
    hide Run, Holding, Read64, Write64, OneCall, BackAtCaller, Honest;
    RealignRuns(code, at, s, world, fuel + 6);
    var r := s.(regs := s.regs.(rsp := s.regs.rsp - 8), zf := false, cf := false, pc := at + 4);
    CallArgsRun(code, at + 4, slot, size, fn, r, world, fuel + 3);
    var t := r.(regs := r.regs.(rdi := slot, rsi := size, rax := fn), pc := at + 24);
    CallAndReturnRuns(code, at + 24, t, world, fuel);
    SlowPathEnds(Run(code, s, world, fuel + 7), s, t, at + 26, world);
  }

  ghost predicate HoldsSlowPath3(code: seq<Byte>, at: nat, slot: U32, size: U32, class_: U32, fn: U64) {
    Holding(code, at, Realign()) && Holding(code, at + 4, CallArgs3(slot, size, class_, fn)) &&
    Holding(code, at + 29, CallAndReturn())
  }

  lemma SlowPath3Runs(code: seq<Byte>, at: nat, slot: U32, size: U32, class_: U32, fn: U64,
                      s: State, world: World, fuel: nat)
    requires HoldsSlowPath3(code, at, slot, size, class_, fn) && s.pc == at
    requires Entry(s.(pc := 0)) && Honest(world)
    ensures ServedBy3(Run(code, s, world, fuel + 8), s, world, fn, slot, size, class_)
  {
    hide Run, Holding, Read64, Write64, OneCall, BackAtCaller, Honest;
    RealignRuns(code, at, s, world, fuel + 7);
    var r := s.(regs := s.regs.(rsp := s.regs.rsp - 8), zf := false, cf := false, pc := at + 4);
    CallArgs3Run(code, at + 4, slot, size, class_, fn, r, world, fuel + 3);
    var t := r.(regs := r.regs.(rdi := slot, rsi := size, rdx := class_, rax := fn), pc := at + 29);
    CallAndReturnRuns(code, at + 29, t, world, fuel);
    SlowPathEnds(Run(code, s, world, fuel + 8), s, t, at + 31, world);
  }

  lemma DeoptSaveRuns(code: seq<Byte>, at: nat, e: Exit, s: State, world: World, fuel: nat)
    requires Holding(code, at, DeoptSave(e)) && s.pc == at && s.regs.rsp > 8
    ensures Run(code, s, world, fuel + 3) ==
            Run(code, s.(regs := s.regs.(rsp := s.regs.rsp - 8, rdi := e.site, rsi := e.page),
                         mem := Write64(s.mem, s.regs.rsp - 8, s.regs.rdi), pc := at + 16), world, fuel)
  {
    hide Run, Holding, Encode, Assemble, Decode, Write64;
    var blk := DeoptSave(e);
    StepAt(code, at, blk, 0, s, world, fuel + 2);
    var s1 := Exec(blk[0], Size(blk[0]), s, world).s;
    StepAt(code, at, blk, 1, s1, world, fuel + 1);
    var s2 := Exec(blk[1], Size(blk[1]), s1, world).s;
    StepAt(code, at, blk, 2, s2, world, fuel);
  }

  lemma DeoptAimRuns(code: seq<Byte>, at: nat, e: Exit, s: State, world: World, fuel: nat)
    requires Holding(code, at, DeoptAim(e)) && s.pc == at
    ensures Run(code, s, world, fuel + 2) ==
            Run(code, s.(regs := s.regs.(rdx := e.reason, rax := e.handler), pc := at + 15), world, fuel)
  {
    hide Run, Holding, Encode, Assemble, Decode;
    var blk := DeoptAim(e);
    StepAt(code, at, blk, 0, s, world, fuel + 1);
    var s1 := Exec(blk[0], Size(blk[0]), s, world).s;
    StepAt(code, at, blk, 1, s1, world, fuel);
  }

  /** The state after DeoptCall. */
  function AfterDeoptCall(s: State, at: nat, world: World): State
    requires s.regs.rsp + 8 < W64
  {
    var c := CallAt(s, at + 2);
    var reply := world(c);
    s.(regs := s.regs.(rax := reply.rax, rcx := reply.rcx, rdx := reply.rdx, rsi := reply.rsi,
                       rdi := Read64(reply.mem, s.regs.rsp), rsp := s.regs.rsp + 8),
       zf := reply.zf, cf := reply.cf, mem := reply.mem, pc := at + 3, calls := s.calls + [c])
  }

  lemma DeoptCallRuns(code: seq<Byte>, at: nat, s: State, world: World, fuel: nat)
    requires Holding(code, at, DeoptCall()) && s.pc == at && s.regs.rsp + 8 < W64
    ensures Run(code, s, world, fuel + 2) == Run(code, AfterDeoptCall(s, at, world), world, fuel)
  {
    hide Run, Holding, Encode, Assemble, Decode, Read64, Write64;
    var blk := DeoptCall();
    StepAt(code, at, blk, 0, s, world, fuel + 1);
    var s1 := Exec(blk[0], Size(blk[0]), s, world).s;
    StepAt(code, at, blk, 1, s1, world, fuel);
  }

  lemma DeoptLeaveRuns(code: seq<Byte>, at: nat, e: Exit, s: State, world: World, fuel: nat)
    requires Holding(code, at, DeoptLeave(e)) && s.pc == at
    ensures Run(code, s, world, fuel + 2) ==
            LeftTo(e.malloc, s.(regs := s.regs.(rax := e.malloc), pc := at + 12))
  {
    hide Run, Holding, Encode, Assemble, Decode;
    var blk := DeoptLeave(e);
    StepAt(code, at, blk, 0, s, world, fuel + 1);
    var s1 := Exec(blk[0], Size(blk[0]), s, world).s;
    StepAt(code, at, blk, 1, s1, world, fuel);
  }

  /** Pushing twice leaves everything above alone and the first value readable. */
  lemma TwoPushes(mem: Mem, rsp: int, v: U64, w: U64)
    ensures var m := Write64(Write64(mem, rsp - 8, v), rsp - 16, w);
            Read64(m, rsp - 8) == v && Read64(m, rsp) == Read64(mem, rsp) &&
            forall a :: a >= rsp || a < rsp - 16 ==> ByteAt(m, a) == ByteAt(mem, a)
  {
    hide Read64, Write64;
    var m1 := Write64(mem, rsp - 8, v);
    ReadBack(mem, rsp - 8, v);
    ReadElsewhere(m1, rsp - 16, w, rsp - 8);
    ReadElsewhere(mem, rsp - 8, v, rsp);
    ReadElsewhere(m1, rsp - 16, w, rsp);
    PushedBelow(mem, rsp, v);
    PushedBelow(m1, rsp - 8, w);
  }

  /** The page holds the deopt epilogue. */
  ghost predicate HoldsDeopt(code: seq<Byte>, at: nat, e: Exit) {
    Holding(code, at, DeoptSave(e)) && Holding(code, at + 16, DeoptAim(e)) &&
    Holding(code, at + 31, DeoptCall()) && Holding(code, at + 34, DeoptLeave(e))
  }

  lemma DeoptRuns(code: seq<Byte>, at: nat, e: Exit, s: State, world: World, fuel: nat)
    requires HoldsDeopt(code, at, e) && s.pc == at
    requires Entry(s.(pc := 0)) && Honest(world)
    ensures Declined(Run(code, s, world, fuel + 9), s, world, e)
  {
    hide Run, Holding, Encode, Assemble, Decode, Read64, Write64;
    DeoptSaveRuns(code, at, e, s, world, fuel + 6);
    var t := s.(regs := s.regs.(rsp := s.regs.rsp - 8, rdi := e.site, rsi := e.page),
                mem := Write64(s.mem, s.regs.rsp - 8, s.regs.rdi), pc := at + 16);
    DeoptAimRuns(code, at + 16, e, t, world, fuel + 4);
    var u := t.(regs := t.regs.(rdx := e.reason, rax := e.handler), pc := at + 31);
    DeoptCallRuns(code, at + 31, u, world, fuel + 2);
    var v := AfterDeoptCall(u, at + 31, world);
    DeoptLeaveRuns(code, at + 34, e, v, world, fuel);
    var c := CallAt(u, at + 33);
    TwoPushes(s.mem, s.regs.rsp, s.regs.rdi, Wrap(s.base + at + 33));
    assert OneCall(v, s, c);
  }

  // ----- whole routines -----

  function SlowPath(slot: U32, size: U32, fn: U64): seq<Instr> {
    Realign() + (CallArgs(slot, size, fn) + CallAndReturn())
  }

  function SlowPath3(slot: U32, size: U32, class_: U32, fn: U64): seq<Instr> {
    Realign() + (CallArgs3(slot, size, class_, fn) + CallAndReturn())
  }

  function Deopt(e: Exit): seq<Instr> {
    DeoptSave(e) + (DeoptAim(e) + (DeoptCall() + DeoptLeave(e)))
  }

  lemma BlockLengths(size: U32, d: Byte, ptr: U32, slot: U32, class_: U32, fn: U64, e: Exit)
    ensures Offset(Guard(size, d), 2) == 9
    ensures Offset(BumpLoad(ptr, size), 2) == 9 + Size(Advance(size))
    ensures Offset(BumpCheck(ptr, d), 2) == 11
    ensures Offset(Commit(ptr), 2) == 10
    ensures Offset(FreshCheck(d), 2) == 6
    ensures Offset(PopProbe(ptr, d), 3) == 14
    ensures Offset(Unlink(ptr), 3) == 13
  {
    hide Encode;
  }

  lemma SlowPathLengths(slot: U32, size: U32, class_: U32, fn: U64)
    ensures Offset(Realign(), 1) == 4
    ensures Offset(CallArgs(slot, size, fn), 3) == 20
    ensures Offset(CallArgs3(slot, size, class_, fn), 4) == 25
    ensures Offset(CallAndReturn(), 3) == 7
  {
    hide Encode;
  }

  lemma DeoptLengths(e: Exit)
    ensures Offset(DeoptSave(e), 3) == 16
    ensures Offset(DeoptAim(e), 2) == 15
    ensures Offset(DeoptCall(), 2) == 3
    ensures Offset(DeoptLeave(e), 2) == 12
  {
    hide Encode;
  }

  lemma SlowPathHeld(code: seq<Byte>, at: nat, slot: U32, size: U32, fn: U64)
    requires Holding(code, at, SlowPath(slot, size, fn))
    ensures HoldsSlowPath(code, at, slot, size, fn)
  {
    hide Holding, Assemble, Encode, Offset;
    SlowPathLengths(slot, size, 0, fn);
    HoldingParts(code, at, Realign(), 4, CallArgs(slot, size, fn) + CallAndReturn());
    HoldingParts(code, at + 4, CallArgs(slot, size, fn), 20, CallAndReturn());
  }

  lemma SlowPath3Held(code: seq<Byte>, at: nat, slot: U32, size: U32, class_: U32, fn: U64)
    requires Holding(code, at, SlowPath3(slot, size, class_, fn))
    ensures HoldsSlowPath3(code, at, slot, size, class_, fn)
  {
    hide Holding, Assemble, Encode, Offset;
    SlowPathLengths(slot, size, class_, fn);
    HoldingParts(code, at, Realign(), 4, CallArgs3(slot, size, class_, fn) + CallAndReturn());
    HoldingParts(code, at + 4, CallArgs3(slot, size, class_, fn), 25, CallAndReturn());
  }

  lemma DeoptHeld(code: seq<Byte>, at: nat, e: Exit)
    requires Holding(code, at, Deopt(e))
    ensures HoldsDeopt(code, at, e)
  {
    hide Holding, Assemble, Encode, Offset;
    DeoptLengths(e);
    HoldingParts(code, at, DeoptSave(e), 16, DeoptAim(e) + (DeoptCall() + DeoptLeave(e)));
    HoldingParts(code, at + 16, DeoptAim(e), 15, DeoptCall() + DeoptLeave(e));
    HoldingParts(code, at + 31, DeoptCall(), 3, DeoptLeave(e));
  }

  /** A routine serving one size: thread-local cells at fs:ptr and fs:end (or fs:head). */
  datatype Params = Params(ptr: U32, end: U32, slot: U32, size: U32, fn: U64, exit: Exit)

  /** Bump allocation that falls back to fn only while the cursor is still null. */
  function BumpRoutine(p: Params): seq<Instr> {
    Guard(p.size, 67 + Size(Advance(p.size))) + (BumpLoad(p.ptr, p.size) + (BumpCheck(p.end, 10) + (Commit(p.ptr) +
    (FreshCheck(31) + (SlowPath(p.slot, p.size, p.fn) + Deopt(p.exit))))))
  }

  /** Bump allocation that always calls fn when the region is used up
      (the producer-consumer and the epoch-arena routines). */
  function RefillRoutine(p: Params): seq<Instr> {
    Guard(p.size, 61 + Size(Advance(p.size))) + (BumpLoad(p.ptr, p.size) + (BumpCheck(p.end, 10) + (Commit(p.ptr) +
    (SlowPath(p.slot, p.size, p.fn) + Deopt(p.exit)))))
  }

  /** Free-list pop with refill; p.ptr is the list head cell. */
  function FreeListRoutine(p: Params): seq<Instr> {
    Guard(p.size, 58) + (PopProbe(p.ptr, 13) + (Unlink(p.ptr) + (SlowPath(p.slot, p.size, p.fn) + Deopt(p.exit))))
  }

  // What each routine amounts to, in terms of the state at entry.

  ghost predicate BumpSpec(out: Status, s: State, world: World, p: Params) {
    var cur := Read64(s.mem, FsAddr(s, p.ptr));
    var next := Wrap(cur + Sext32(p.size));
    if s.regs.rdi != Sext32(p.size) then Declined(out, s, world, p.exit)
    else if next < Read64(s.mem, FsAddr(s, p.end)) then
      ServedInline(out, s, cur, Write64(s.mem, FsAddr(s, p.ptr), next))
    else if cur == 0 then ServedBy(out, s, world, p.fn, p.slot, p.size)
    else Declined(out, s, world, p.exit)
  }

  ghost predicate RefillSpec(out: Status, s: State, world: World, p: Params) {
    var cur := Read64(s.mem, FsAddr(s, p.ptr));
    var next := Wrap(cur + Sext32(p.size));
    if s.regs.rdi != Sext32(p.size) then Declined(out, s, world, p.exit)
    else if next < Read64(s.mem, FsAddr(s, p.end)) then
      ServedInline(out, s, cur, Write64(s.mem, FsAddr(s, p.ptr), next))
    else ServedBy(out, s, world, p.fn, p.slot, p.size)
  }

  ghost predicate FreeListSpec(out: Status, s: State, world: World, p: Params) {
    var top := Read64(s.mem, FsAddr(s, p.ptr));
    if s.regs.rdi != Sext32(p.size) then Declined(out, s, world, p.exit)
    else if top != 0 then
      ServedInline(out, s, top, Write64(s.mem, FsAddr(s, p.ptr), Read64(s.mem, top)))
    else ServedBy(out, s, world, p.fn, p.slot, p.size)
  }

  /** Flags and scratch registers do not matter to what a routine promises. */
  predicate Resumes(t: State, s: State) {
    t.mem == s.mem && t.calls == s.calls && t.base == s.base && t.fs == s.fs &&
    t.regs.(rax := s.regs.rax, rcx := s.regs.rcx) == s.regs
  }

  lemma PromisesResume(out: Status, t: State, s: State, world: World, e: Exit, fn: U64, slot: U32, size: U32)
    requires Resumes(t, s)
    ensures Declined(out, t, world, e) ==> Declined(out, s, world, e)
    ensures ServedBy(out, t, world, fn, slot, size) ==> ServedBy(out, s, world, fn, slot, size)
  {
    hide Read64;
    if Declined(out, t, world, e) {
      var c: Call :| OneCall(out.s, t, c) && c.target == e.handler && c.rdi == e.site && c.rsi == e.page &&
                     c.rdx == e.reason && out.s.mem == world(c).mem;
      assert OneCall(out.s, s, c);
    }
    if ServedBy(out, t, world, fn, slot, size) {
      var c: Call :| OneCall(out.s, t, c) && c.target == fn && c.rdi == slot && c.rsi == size &&
                     out.s.regs.rax == world(c).rax && out.s.mem == world(c).mem;
      assert OneCall(out.s, s, c);
    }
  }

  /** The fast path shared by the bump-style routines sits at byte 9. */
  ghost predicate HoldsBumpFast(code: seq<Byte>, p: Params) {
    var len := Size(Advance(p.size));
    Holding(code, 9, BumpLoad(p.ptr, p.size)) && Holding(code, 18 + len, BumpCheck(p.end, 10)) &&
    Holding(code, 29 + len, Commit(p.ptr))
  }

  lemma BumpFastHeld(code: seq<Byte>, d: Byte, p: Params, rest: seq<Instr>)
    requires Holding(code, 0, Guard(p.size, d) + (BumpLoad(p.ptr, p.size) + (BumpCheck(p.end, 10) + (Commit(p.ptr) + rest))))
    ensures Holding(code, 0, Guard(p.size, d)) && HoldsBumpFast(code, p)
    ensures Holding(code, 39 + Size(Advance(p.size)), rest)
  {
    hide Holding, Assemble, Encode, Offset;
    var len := Size(Advance(p.size));
    BlockLengths(p.size, d, p.ptr, 0, 0, 0, p.exit);
    BlockLengths(p.size, 10, p.end, 0, 0, 0, p.exit);
    HoldingParts(code, 0, Guard(p.size, d), 9, BumpLoad(p.ptr, p.size) + (BumpCheck(p.end, 10) + (Commit(p.ptr) + rest)));
    HoldingParts(code, 9, BumpLoad(p.ptr, p.size), 9 + len, BumpCheck(p.end, 10) + (Commit(p.ptr) + rest));
    HoldingParts(code, 18 + len, BumpCheck(p.end, 10), 11, Commit(p.ptr) + rest);
    HoldingParts(code, 29 + len, Commit(p.ptr), 10, rest);
  }

  /** From byte 9: commit and return, or arrive after the ret with the cursor in rax. */
  lemma BumpFastRuns(code: seq<Byte>, p: Params, s: State, world: World, fuel: nat)
    requires HoldsBumpFast(code, p) && s.pc == 9 && Apart(FsAddr(s, p.ptr), s.regs.rsp) && fuel >= 6
    ensures var cur := Read64(s.mem, FsAddr(s, p.ptr));
            var next := Wrap(cur + Sext32(p.size));
            var limit := Read64(s.mem, FsAddr(s, p.end));
            if next < limit then
              ServedInline(Run(code, s, world, fuel), s, cur, Write64(s.mem, FsAddr(s, p.ptr), next))
            else
              Run(code, s, world, fuel) ==
              Run(code, s.(regs := s.regs.(rax := cur, rcx := next), zf := next == limit, cf := false,
                           pc := 39 + Size(Advance(p.size))), world, fuel - 4)
  {
    hide Run, Holding, Read64, Write64, Apart;
    var len := Size(Advance(p.size));
    BumpLoadRuns(code, 9, p.ptr, p.size, s, world, fuel - 2);
    var cur := Read64(s.mem, FsAddr(s, p.ptr));
    var next := Wrap(cur + Sext32(p.size));
    var s1 := s.(regs := s.regs.(rax := cur, rcx := next), pc := 18 + len);
    BumpCheckRuns(code, 18 + len, p.end, 10, s1, world, fuel - 4);
    var limit := Read64(s.mem, FsAddr(s, p.end));
    if next < limit {
      var s2 := s1.(zf := false, cf := true, pc := 29 + len);
      CommitRuns(code, 29 + len, p.ptr, s2, world, fuel - 6);
    }
  }

  /** The bump routine meets its specification, for every size, slot, offset and memory. */
  lemma BumpRoutineRuns(code: seq<Byte>, p: Params, s: State, world: World, fuel: nat)
    requires Holding(code, 0, BumpRoutine(p)) && Entry(s) && Honest(world) && fuel >= 17
    requires Apart(FsAddr(s, p.ptr), s.regs.rsp)
    ensures BumpSpec(Run(code, s, world, fuel), s, world, p)
  {
    hide Run, Holding, Read64, Write64, Assemble, Encode, Honest, Apart, Offset, Declined, ServedBy, HoldsBumpFast;
    var len := Size(Advance(p.size));
    BumpFastHeld(code, 67 + len, p, FreshCheck(31) + (SlowPath(p.slot, p.size, p.fn) + Deopt(p.exit)));
    BumpTailHeld(code, 39 + len, p);
    GuardRuns(code, 0, p.size, 67 + len, s, world, fuel - 2);
    if s.regs.rdi != Sext32(p.size) {
      var t := s.(zf := false, cf := s.regs.rdi < Sext32(p.size), pc := 76 + len);
      DeoptRuns(code, 76 + len, p.exit, t, world, fuel - 11);
      PromisesResume(Run(code, s, world, fuel), t, s, world, p.exit, 0, 0, 0);
    } else {
      var t := s.(zf := true, cf := false, pc := 9);
      BumpFastRuns(code, p, t, world, fuel - 2);
      var cur := Read64(s.mem, FsAddr(s, p.ptr));
      var next := Wrap(cur + Sext32(p.size));
      var limit := Read64(s.mem, FsAddr(s, p.end));
      if next >= limit {
        var u := t.(regs := s.regs.(rax := cur, rcx := next), zf := next == limit, cf := false, pc := 39 + len);
        FreshCheckRuns(code, 39 + len, 31, u, world, fuel - 8);
        if cur == 0 {
          var v := u.(zf := true, cf := false, pc := 45 + len);
          SlowPathRuns(code, 45 + len, p.slot, p.size, p.fn, v, world, fuel - 15);
          PromisesResume(Run(code, s, world, fuel), v, s, world, p.exit, p.fn, p.slot, p.size);
        } else {
          var v := u.(zf := false, cf := false, pc := 76 + len);
          DeoptRuns(code, 76 + len, p.exit, v, world, fuel - 17);
          PromisesResume(Run(code, s, world, fuel), v, s, world, p.exit, 0, 0, 0);
        }
      }
    }
  }

  lemma BumpTailHeld(code: seq<Byte>, at: nat, p: Params)
    requires Holding(code, at, FreshCheck(31) + (SlowPath(p.slot, p.size, p.fn) + Deopt(p.exit)))
    ensures Holding(code, at, FreshCheck(31))
    ensures HoldsSlowPath(code, at + 6, p.slot, p.size, p.fn) && HoldsDeopt(code, at + 37, p.exit)
  {
    hide Holding, Assemble, Encode, Offset;
    BlockLengths(p.size, 31, p.ptr, 0, 0, 0, p.exit);
    HoldingParts(code, at, FreshCheck(31), 6, SlowPath(p.slot, p.size, p.fn) + Deopt(p.exit));
    SlowTailHeld(code, at + 6, p);
  }

  lemma SlowTailHeld(code: seq<Byte>, at: nat, p: Params)
    requires Holding(code, at, SlowPath(p.slot, p.size, p.fn) + Deopt(p.exit))
    ensures HoldsSlowPath(code, at, p.slot, p.size, p.fn) && HoldsDeopt(code, at + 31, p.exit)
  {
    hide Holding, Assemble, Encode;
    SlowPathSize(p.slot, p.size, p.fn);
    HoldingParts(code, at, SlowPath(p.slot, p.size, p.fn), 31, Deopt(p.exit));
    SlowPathHeld(code, at, p.slot, p.size, p.fn);
    DeoptHeld(code, at + 31, p.exit);
  }

  lemma SlowPathSize(slot: U32, size: U32, fn: U64)
    ensures Offset(SlowPath(slot, size, fn), |SlowPath(slot, size, fn)|) == 31
  {
    hide Offset, Encode, Assemble;
    SlowPathLengths(slot, size, 0, fn);
    AssembledLength(Realign());
    AssembledLength(CallArgs(slot, size, fn));
    AssembledLength(CallAndReturn());
    AssembledLength(SlowPath(slot, size, fn));
    AssembleConcat(CallArgs(slot, size, fn), CallAndReturn());
    AssembleConcat(Realign(), CallArgs(slot, size, fn) + CallAndReturn());
  }

  lemma SlowPath3Size(slot: U32, size: U32, class_: U32, fn: U64)
    ensures Offset(SlowPath3(slot, size, class_, fn), |SlowPath3(slot, size, class_, fn)|) == 36
  {
    hide Offset, Encode, Assemble;
    SlowPathLengths(slot, size, class_, fn);
    AssembledLength(Realign());
    AssembledLength(CallArgs3(slot, size, class_, fn));
    AssembledLength(CallAndReturn());
    AssembledLength(SlowPath3(slot, size, class_, fn));
    AssembleConcat(CallArgs3(slot, size, class_, fn), CallAndReturn());
    AssembleConcat(Realign(), CallArgs3(slot, size, class_, fn) + CallAndReturn());
  }

  lemma RefillRoutineRuns(code: seq<Byte>, p: Params, s: State, world: World, fuel: nat)
    requires Holding(code, 0, RefillRoutine(p)) && Entry(s) && Honest(world) && fuel >= 17
    requires Apart(FsAddr(s, p.ptr), s.regs.rsp)
    ensures RefillSpec(Run(code, s, world, fuel), s, world, p)
  {
    hide Run, Holding, Read64, Write64, Assemble, Encode, Honest, Apart, Offset, Declined, ServedBy, HoldsBumpFast;
    var len := Size(Advance(p.size));
    BumpFastHeld(code, 61 + len, p, SlowPath(p.slot, p.size, p.fn) + Deopt(p.exit));
    SlowTailHeld(code, 39 + len, p);
    GuardRuns(code, 0, p.size, 61 + len, s, world, fuel - 2);
    if s.regs.rdi != Sext32(p.size) {
      var t := s.(zf := false, cf := s.regs.rdi < Sext32(p.size), pc := 70 + len);
      DeoptRuns(code, 70 + len, p.exit, t, world, fuel - 11);
      PromisesResume(Run(code, s, world, fuel), t, s, world, p.exit, 0, 0, 0);
    } else {
      var t := s.(zf := true, cf := false, pc := 9);
      BumpFastRuns(code, p, t, world, fuel - 2);
      var cur := Read64(s.mem, FsAddr(s, p.ptr));
      var next := Wrap(cur + Sext32(p.size));
      var limit := Read64(s.mem, FsAddr(s, p.end));
      if next >= limit {
        var u := t.(regs := s.regs.(rax := cur, rcx := next), zf := next == limit, cf := false, pc := 39 + len);
        SlowPathRuns(code, 39 + len, p.slot, p.size, p.fn, u, world, fuel - 13);
        PromisesResume(Run(code, s, world, fuel), u, s, world, p.exit, p.fn, p.slot, p.size);
      }
    }
  }

  lemma FreeListRoutineRuns(code: seq<Byte>, p: Params, s: State, world: World, fuel: nat)
    requires Holding(code, 0, FreeListRoutine(p)) && Entry(s) && Honest(world) && fuel >= 17
    requires Apart(FsAddr(s, p.ptr), s.regs.rsp)
    ensures FreeListSpec(Run(code, s, world, fuel), s, world, p)
  {
    hide Run, Holding, Read64, Write64, Assemble, Encode, Honest, Apart, Offset, Declined, ServedBy;
    BlockLengths(p.size, 58, p.ptr, 0, 0, 0, p.exit);
    BlockLengths(p.size, 13, p.ptr, 0, 0, 0, p.exit);
    var tail := SlowPath(p.slot, p.size, p.fn) + Deopt(p.exit);
    HoldingParts(code, 0, Guard(p.size, 58), 9, PopProbe(p.ptr, 13) + (Unlink(p.ptr) + tail));
    HoldingParts(code, 9, PopProbe(p.ptr, 13), 14, Unlink(p.ptr) + tail);
    HoldingParts(code, 23, Unlink(p.ptr), 13, tail);
    SlowTailHeld(code, 36, p);
    GuardRuns(code, 0, p.size, 58, s, world, fuel - 2);
    if s.regs.rdi != Sext32(p.size) {
      var t := s.(zf := false, cf := s.regs.rdi < Sext32(p.size), pc := 67);
      DeoptRuns(code, 67, p.exit, t, world, fuel - 11);
      PromisesResume(Run(code, s, world, fuel), t, s, world, p.exit, 0, 0, 0);
    } else {
      var t := s.(zf := true, cf := false, pc := 9);
      PopProbeRuns(code, 9, p.ptr, 13, t, world, fuel - 5);
      var top := Read64(s.mem, FsAddr(s, p.ptr));
      if top != 0 {
        var u := t.(regs := s.regs.(rax := top), zf := false, cf := false, pc := 23);
        UnlinkRuns(code, 23, p.ptr, u, world, fuel - 8);
      } else {
        var u := t.(regs := s.regs.(rax := top), zf := true, cf := false, pc := 36);
        SlowPathRuns(code, 36, p.slot, p.size, p.fn, u, world, fuel - 12);
        PromisesResume(Run(code, s, world, fuel), u, s, world, p.exit, p.fn, p.slot, p.size);
      }
    }
  }

  // ----- the multi-class ladder -----

  /** heads is the fs offset of the list heads, eight bytes apart; sizes the learned classes. */
  datatype MultiParams = MultiParams(heads: U32, slot: U32, sizes: seq<U32>, fn: U64, exit: Exit)

  /** The fs offset of list head i, computed in 32 bits. */
  function HeadCell(p: MultiParams, i: nat): U32 { (p.heads + 8 * i) % W32 }

  /** One rung: test the class, pop its list, or refill it. */
  function Rung(p: MultiParams, i: nat): seq<Instr>
    requires i < |p.sizes| <= 4
  {
    Guard(p.sizes[i], 63) + (PopProbe(HeadCell(p, i), 13) + (Unlink(HeadCell(p, i)) +
    SlowPath3(p.slot, p.sizes[i], i, p.fn)))
  }

  /** The ladder from rung i on, then the deopt epilogue. */
  function LadderFrom(p: MultiParams, i: nat): seq<Instr>
    requires i <= |p.sizes| <= 4
    decreases |p.sizes| - i
  {
    if i == |p.sizes| then Deopt(p.exit) else Rung(p, i) + LadderFrom(p, i + 1)
  }

  /** What the ladder does when classes before i did not match. */
  ghost predicate LadderSpec(out: Status, s: State, world: World, p: MultiParams, i: nat)
    requires i <= |p.sizes| <= 4
    decreases |p.sizes| - i
  {
    if i == |p.sizes| then Declined(out, s, world, p.exit)
    else if s.regs.rdi != Sext32(p.sizes[i]) then LadderSpec(out, s, world, p, i + 1)
    else
      var cell := FsAddr(s, HeadCell(p, i));
      var top := Read64(s.mem, cell);
      if top != 0 then ServedInline(out, s, top, Write64(s.mem, cell, Read64(s.mem, top)))
      else ServedBy3(out, s, world, p.fn, p.slot, p.sizes[i], i)
  }

  ghost predicate HoldsRung(code: seq<Byte>, at: nat, p: MultiParams, i: nat)
    requires i < |p.sizes| <= 4
  {
    Holding(code, at, Guard(p.sizes[i], 63)) && Holding(code, at + 9, PopProbe(HeadCell(p, i), 13)) &&
    Holding(code, at + 23, Unlink(HeadCell(p, i))) && HoldsSlowPath3(code, at + 36, p.slot, p.sizes[i], i, p.fn)
  }

  lemma RungSize(p: MultiParams, i: nat)
    requires i < |p.sizes| <= 4
    ensures Offset(Rung(p, i), |Rung(p, i)|) == 72
  {
    hide Offset, Encode, Assemble;
    var g, q, u := Guard(p.sizes[i], 63), PopProbe(HeadCell(p, i), 13), Unlink(HeadCell(p, i));
    var c := SlowPath3(p.slot, p.sizes[i], i, p.fn);
    BlockLengths(p.sizes[i], 63, HeadCell(p, i), 0, 0, 0, p.exit);
    BlockLengths(p.sizes[i], 13, HeadCell(p, i), 0, 0, 0, p.exit);
    SlowPath3Size(p.slot, p.sizes[i], i, p.fn);
    AssembledLength(g);
    AssembledLength(q);
    AssembledLength(u);
    AssembledLength(c);
    AssembleConcat(u, c);
    AssembleConcat(q, u + c);
    AssembleConcat(g, q + (u + c));
    AssembledLength(Rung(p, i));
  }

  lemma RungHeld(code: seq<Byte>, at: nat, p: MultiParams, i: nat)
    requires i < |p.sizes| <= 4 && Holding(code, at, Rung(p, i))
    ensures HoldsRung(code, at, p, i)
  {
    hide Holding, Assemble, Encode, Offset;
    var q, u := PopProbe(HeadCell(p, i), 13), Unlink(HeadCell(p, i));
    var c := SlowPath3(p.slot, p.sizes[i], i, p.fn);
    BlockLengths(p.sizes[i], 63, HeadCell(p, i), 0, 0, 0, p.exit);
    BlockLengths(p.sizes[i], 13, HeadCell(p, i), 0, 0, 0, p.exit);
    HoldingParts(code, at, Guard(p.sizes[i], 63), 9, q + (u + c));
    HoldingParts(code, at + 9, q, 14, u + c);
    HoldingParts(code, at + 23, u, 13, c);
    SlowPath3Held(code, at + 36, p.slot, p.sizes[i], i, p.fn);
  }

  lemma ServedBy3Resumes(out: Status, t: State, s: State, world: World, fn: U64, slot: U32, size: U32, class_: U32)
    requires Resumes(t, s) && ServedBy3(out, t, world, fn, slot, size, class_)
    ensures ServedBy3(out, s, world, fn, slot, size, class_)
  {
    hide Read64;
    var c: Call :| OneCall(out.s, t, c) && c.target == fn && c.rdi == slot && c.rsi == size && c.rdx == class_ &&
                   out.s.regs.rax == world(c).rax && out.s.mem == world(c).mem;
    assert OneCall(out.s, s, c);
  }

  /** A matching rung pops its list, or refills it when the list is empty. */
  lemma RungRuns(code: seq<Byte>, at: nat, p: MultiParams, i: nat, s: State, world: World, fuel: nat)
    requires i < |p.sizes| <= 4 && HoldsRung(code, at, p, i) && s.pc == at + 9
    requires Entry(s.(pc := 0)) && Honest(world) && fuel >= 11
    requires Apart(FsAddr(s, HeadCell(p, i)), s.regs.rsp)
    ensures var cell := FsAddr(s, HeadCell(p, i));
            var top := Read64(s.mem, cell);
            var out := Run(code, s, world, fuel);
            if top != 0 then ServedInline(out, s, top, Write64(s.mem, cell, Read64(s.mem, top)))
            else ServedBy3(out, s, world, p.fn, p.slot, p.sizes[i], i)
  {
    hide Run, Holding, Read64, Write64, Assemble, Encode, Honest, Apart, Offset, ServedBy3, HoldsSlowPath3;
    PopProbeRuns(code, at + 9, HeadCell(p, i), 13, s, world, fuel - 3);
    var top := Read64(s.mem, FsAddr(s, HeadCell(p, i)));
    if top != 0 {
      var u := s.(regs := s.regs.(rax := top), zf := false, cf := false, pc := at + 23);
      UnlinkRuns(code, at + 23, HeadCell(p, i), u, world, fuel - 6);
    } else {
      var u := s.(regs := s.regs.(rax := top), zf := true, cf := false, pc := at + 36);
      SlowPath3Runs(code, at + 36, p.slot, p.sizes[i], i, p.fn, u, world, fuel - 11);
      ServedBy3Resumes(Run(code, s, world, fuel), u, s, world, p.fn, p.slot, p.sizes[i], i);
    }
  }

  lemma {:induction false} LadderRuns(code: seq<Byte>, p: MultiParams, i: nat, s: State, t: State, world: World, fuel: nat)
    requires i <= |p.sizes| <= 4 && Holding(code, 72 * i, LadderFrom(p, i))
    requires t.pc == 72 * i && Resumes(t, s) && t.regs == s.regs
    requires Entry(s.(pc := 0)) && Honest(world) && fuel >= 2 * (|p.sizes| - i) + 11
    requires forall j: nat :: j < |p.sizes| ==> Apart(FsAddr(s, HeadCell(p, j)), s.regs.rsp)
    ensures LadderSpec(Run(code, t, world, fuel), s, world, p, i)
    decreases |p.sizes| - i
  {
    hide Run, Holding, Read64, Write64, Assemble, Encode, Honest, Apart, Offset, Declined, ServedBy3, HoldsSlowPath3, HoldsDeopt;
    if i == |p.sizes| {
      DeoptHeld(code, 72 * i, p.exit);
      DeoptRuns(code, 72 * i, p.exit, t, world, fuel - 9);
      PromisesResume(Run(code, t, world, fuel), t, s, world, p.exit, 0, 0, 0);
    } else {
      RungSize(p, i);
      HoldingParts(code, 72 * i, Rung(p, i), 72, LadderFrom(p, i + 1));
      RungHeld(code, 72 * i, p, i);
      GuardRuns(code, 72 * i, p.sizes[i], 63, t, world, fuel - 2);
      if t.regs.rdi == Sext32(p.sizes[i]) {
        var u := t.(zf := true, cf := false, pc := 72 * i + 9);
        RungRuns(code, 72 * i, p, i, u, world, fuel - 2);
        if Read64(s.mem, FsAddr(s, HeadCell(p, i))) == 0 {
          ServedBy3Resumes(Run(code, t, world, fuel), u, s, world, p.fn, p.slot, p.sizes[i], i);
        }
      } else {
        var u := t.(zf := false, cf := t.regs.rdi < Sext32(p.sizes[i]), pc := 72 * (i + 1));
        LadderRuns(code, p, i + 1, s, u, world, fuel - 2);
      }
    }
  }
}
