/** The routine emitter: a write cursor over a byte buffer, short branches patched in place. */
module Emitter {
  import opened X86
  import opened Routines

  /** The code buffer with its write cursor.  prog is what has been written so far, as instructions. */
  class Writer {
    const buf: array<Byte>
    var p: nat
    ghost var prog: seq<Instr>

    constructor (buf: array<Byte>)
      ensures this.buf == buf && Valid() && p == 0 && prog == []
    {
      this.buf := buf;
      p := 0;
      prog := [];
    }

    ghost predicate Valid()
      reads this, buf
    {
      p <= buf.Length && buf[..p] == Assemble(prog)
    }

    ghost function Bytes(): seq<Byte>
      requires p <= buf.Length
      reads this, buf
    {
      buf[..p]
    }

    method W8(v: Byte)
      requires p < buf.Length
      modifies this`p, buf
      ensures p == old(p) + 1 && Bytes() == old(Bytes()) + [v]
    {
      buf[p] := v;
      p := p + 1;
    }

    /** memcpy to the cursor. */
    method Copy(bs: seq<Byte>)
      requires p + |bs| <= buf.Length
      modifies this`p, buf
      ensures p == old(p) + |bs| && Bytes() == old(Bytes()) + bs
    {
      ghost var was := Bytes();
      var i := 0;
      while i < |bs|
        invariant 0 <= i <= |bs| && p == old(p) + i && Bytes() == was + bs[..i]
      {
        W8(bs[i]);
        i := i + 1;
      }
      assert bs[..i] == bs;
    }

    method W32(v: U32)
      requires p + 4 <= buf.Length
      modifies this`p, buf
      ensures p == old(p) + 4 && Bytes() == old(Bytes()) + Le32(v)
    {
      hide Le32;
      Copy(Le32(v));
    }

    method W64(v: U64)
      requires p + 8 <= buf.Length
      modifies this`p, buf
      ensures p == old(p) + 8 && Bytes() == old(Bytes()) + Le64(v)
    {
      hide Le64;
      Copy(Le64(v));
    }

    /** The bytes of exactly instruction i were appended. */
    twostate predicate Appended(i: Instr)
      reads this, buf
    {
      Valid() && prog == old(prog) + [i] && p == old(p) + Size(i)
    }

    /** Closes an instruction whose bytes have just been written after was. */
    ghost method Seal(was: seq<Byte>, i: Instr)
      requires p <= buf.Length && Bytes() == was + Encode(i) && was == Assemble(prog)
      modifies this`prog
      ensures Valid() && prog == old(prog) + [i]
    {
      AssembleSnoc(prog, i);
      prog := prog + [i];
    }

    /** cmp rdi, imm32 */
    method CmpRdi(v: U32)
      requires Valid() && p + 7 <= buf.Length
      modifies this, buf
      ensures Appended(Alu32(Cmp, Rdi, v))
    {
      hide Assemble, Le32, Le64;
      ghost var was := Bytes();
      W8(0x48); W8(0x81); W8(0xFF); W32(v);
      Join3(was, 0x48, 0x81, 0xFF, Le32(v));
      Seal(was, Alu32(Cmp, Rdi, v));
    }

    /** The fs-relative forms: 64 48 op modrm 25 disp32. */
    method FsForm(op: Byte, modrm: Byte, off: U32)
      requires p + 9 <= buf.Length
      modifies this`p, buf
      ensures p == old(p) + 9 && Bytes() == old(Bytes()) + ([0x64, 0x48, op, modrm, 0x25] + Le32(off))
    {
      hide Le32;
      ghost var was := Bytes();
      W8(0x64); W8(0x48); W8(op); W8(modrm); W8(0x25); W32(off);
      Join5(was, 0x64, 0x48, op, modrm, 0x25, Le32(off));
    }

    /** mov rax, fs:[off] */
    method LoadRax(off: U32)
      requires Valid() && p + 9 <= buf.Length
      modifies this, buf
      ensures Appended(LoadFs(Rax, off))
    {
      hide Assemble, Le32, Le64;
      ghost var was := Bytes();
      FsForm(0x8B, 0x04, off);
      Seal(was, LoadFs(Rax, off));
    }

    /** cmp rcx, fs:[off] */
    method CmpRcx(off: U32)
      requires Valid() && p + 9 <= buf.Length
      modifies this, buf
      ensures Appended(CmpFs(Rcx, off))
    {
      hide Assemble, Le32, Le64;
      ghost var was := Bytes();
      FsForm(0x3B, 0x0C, off);
      Seal(was, CmpFs(Rcx, off));
    }

    /** mov fs:[off], rcx */
    method StoreRcx(off: U32)
      requires Valid() && p + 9 <= buf.Length
      modifies this, buf
      ensures Appended(StoreFs(off, Rcx))
    {
      hide Assemble, Le32, Le64;
      ghost var was := Bytes();
      FsForm(0x89, 0x0C, off);
      Seal(was, StoreFs(off, Rcx));
    }

    /** lea rcx, [rax + size], in the short form below 128. */
    method LeaRcx(size: U32)
      requires Valid() && p + 7 <= buf.Length
      modifies this, buf
      ensures Appended(Advance(size))
    {
      hide Assemble, Le32;
      ghost var was := Bytes();
      if size < 128 {
        W8(0x48); W8(0x8D); W8(0x48); W8(size);
        Join4(was, 0x48, 0x8D, 0x48, size);
        Seal(was, Lea8(Rcx, Rax, size));
      } else {
        W8(0x48); W8(0x8D); W8(0x88); W32(size);
        Join3(was, 0x48, 0x8D, 0x88, Le32(size));
        Seal(was, Lea32(Rcx, Rax, size));
      }
    }

    /** A short branch with a placeholder displacement; at is the address of its rel8 byte. */
    method Branch(c: Cond) returns (at: nat)
      requires Valid() && p + 2 <= buf.Length
      modifies this, buf
      ensures Appended(Jcc(c, 0)) && at == old(p) + 1
    {
      hide Assemble;
      ghost var was := Bytes();
      W8(match c case AboveEq => 0x73 case Equal => 0x74 case NotEqual => 0x75);
      at := p;
      W8(0x00);
      Join2(was, 0x70 + CondCode(c), 0x00);
      Seal(was, Jcc(c, 0));
    }

    /** test rax, rax */
    method TestRax()
      requires Valid() && p + 3 <= buf.Length
      modifies this, buf
      ensures Appended(TestSelf(Rax))
    {
      hide Assemble, Le32, Le64;
      ghost var was := Bytes();
      W8(0x48); W8(0x85); W8(0xC0);
      Join3(was, 0x48, 0x85, 0xC0, []);
      Seal(was, TestSelf(Rax));
    }

    /** mov rcx, [rax] */
    method LoadNext()
      requires Valid() && p + 3 <= buf.Length
      modifies this, buf
      ensures Appended(LoadInd(Rcx, Rax))
    {
      hide Assemble, Le32, Le64;
      ghost var was := Bytes();
      W8(0x48); W8(0x8B); W8(0x08);
      Join3(was, 0x48, 0x8B, 0x08, []);
      Seal(was, LoadInd(Rcx, Rax));
    }

    /** cmp rax, 0 */
    method CmpRax0()
      requires Valid() && p + 4 <= buf.Length
      modifies this, buf
      ensures Appended(Alu8(Cmp, Rax, 0))
    {
      hide Assemble, Le32, Le64;
      ghost var was := Bytes();
      W8(0x48); W8(0x83); W8(0xF8); W8(0x00);
      Join4(was, 0x48, 0x83, 0xF8, 0x00);
      Seal(was, Alu8(Cmp, Rax, 0));
    }

    /** sub rsp, 8 */
    method SubRsp8()
      requires Valid() && p + 4 <= buf.Length
      modifies this, buf
      ensures Appended(Alu8(Sub, Rsp, 8))
    {
      hide Assemble, Le32, Le64;
      ghost var was := Bytes();
      W8(0x48); W8(0x83); W8(0xEC); W8(0x08);
      Join4(was, 0x48, 0x83, 0xEC, 0x08);
      Seal(was, Alu8(Sub, Rsp, 8));
    }

    /** add rsp, 8 */
    method AddRsp8()
      requires Valid() && p + 4 <= buf.Length
      modifies this, buf
      ensures Appended(Alu8(Add, Rsp, 8))
    {
      hide Assemble, Le32, Le64;
      ghost var was := Bytes();
      W8(0x48); W8(0x83); W8(0xC4); W8(0x08);
      Join4(was, 0x48, 0x83, 0xC4, 0x08);
      Seal(was, Alu8(Add, Rsp, 8));
    }

    /** mov edi, imm32 */
    method MovEdi(v: U32)
      requires Valid() && p + 5 <= buf.Length
      modifies this, buf
      ensures Appended(MovImm32(Rdi, v))
    {
      hide Assemble, Le32, Le64;
      ghost var was := Bytes();
      W8(0xBF); W32(v);
      Join1(was, 0xBF, Le32(v));
      Seal(was, MovImm32(Rdi, v));
    }

    /** mov esi, imm32 */
    method MovEsi(v: U32)
      requires Valid() && p + 5 <= buf.Length
      modifies this, buf
      ensures Appended(MovImm32(Rsi, v))
    {
      hide Assemble, Le32, Le64;
      ghost var was := Bytes();
      W8(0xBE); W32(v);
      Join1(was, 0xBE, Le32(v));
      Seal(was, MovImm32(Rsi, v));
    }

    /** mov edx, imm32 */
    method MovEdx(v: U32)
      requires Valid() && p + 5 <= buf.Length
      modifies this, buf
      ensures Appended(MovImm32(Rdx, v))
    {
      hide Assemble, Le32, Le64;
      ghost var was := Bytes();
      W8(0xBA); W32(v);
      Join1(was, 0xBA, Le32(v));
      Seal(was, MovImm32(Rdx, v));
    }

    /** movabs rax, imm64 */
    method MovabsRax(v: U64)
      requires Valid() && p + 10 <= buf.Length
      modifies this, buf
      ensures Appended(MovImm64(Rax, v))
    {
      hide Assemble, Le32, Le64;
      ghost var was := Bytes();
      W8(0x48); W8(0xB8); W64(v);
      Join2L(was, 0x48, 0xB8, Le64(v));
      Seal(was, MovImm64(Rax, v));
    }

    /** movabs rsi, imm64 */
    method MovabsRsi(v: U64)
      requires Valid() && p + 10 <= buf.Length
      modifies this, buf
      ensures Appended(MovImm64(Rsi, v))
    {
      hide Assemble, Le32, Le64;
      ghost var was := Bytes();
      W8(0x48); W8(0xBE); W64(v);
      Join2L(was, 0x48, 0xBE, Le64(v));
      Seal(was, MovImm64(Rsi, v));
    }

    /** call rax */
    method CallRax()
      requires Valid() && p + 2 <= buf.Length
      modifies this, buf
      ensures Appended(CallReg(Rax))
    {
      hide Assemble, Le32, Le64;
      ghost var was := Bytes();
      W8(0xFF); W8(0xD0);
      Join2(was, 0xFF, 0xD0);
      Seal(was, CallReg(Rax));
    }

    /** jmp rax */
    method JmpRax()
      requires Valid() && p + 2 <= buf.Length
      modifies this, buf
      ensures Appended(JmpReg(Rax))
    {
      hide Assemble, Le32, Le64;
      ghost var was := Bytes();
      W8(0xFF); W8(0xE0);
      Join2(was, 0xFF, 0xE0);
      Seal(was, JmpReg(Rax));
    }

    /** push rdi */
    method PushRdi()
      requires Valid() && p + 1 <= buf.Length
      modifies this, buf
      ensures Appended(Push(Rdi))
    {
      hide Assemble, Le32, Le64;
      ghost var was := Bytes();
      W8(0x57);
      Seal(was, Push(Rdi));
    }

    /** pop rdi */
    method PopRdi()
      requires Valid() && p + 1 <= buf.Length
      modifies this, buf
      ensures Appended(Pop(Rdi))
    {
      hide Assemble, Le32, Le64;
      ghost var was := Bytes();
      W8(0x5F);
      Seal(was, Pop(Rdi));
    }

    /** ret */
    method Return()
      requires Valid() && p + 1 <= buf.Length
      modifies this, buf
      ensures Appended(Ret)
    {
      hide Assemble, Le32, Le64;
      ghost var was := Bytes();
      W8(0xC3);
      Seal(was, Ret);
    }

    /** Overwrites the rel8 byte of the branch at instruction k. */
    method Patch(at: nat, v: Byte, ghost k: nat, ghost c: Cond)
      requires Valid() && k < |prog| && prog[k] == Jcc(c, 0) && at == |Assemble(prog[..k])| + 1
      modifies this`prog, buf
      ensures Valid() && prog == old(prog)[k := Jcc(c, v)]
    {
      PatchAssembled(prog, k, c, v);
      ghost var was := Bytes();
      buf[at] := v;
      assert Bytes() == was[at := v];
      prog := prog[k := Jcc(c, v)];
    }

    // ----- sequences shared by the routines -----

    /** The size guard; at is the rel8 byte of its jne. */
    method EmitGuard(size: U32) returns (at: nat)
      requires Valid() && p + 9 <= buf.Length
      modifies this, buf
      ensures Valid() && prog == old(prog) + Guard(size, 0) && p == old(p) + 9 && at == old(p) + 8
      ensures at == |Assemble(prog[..|old(prog)| + 1])| + 1
    {
      hide Assemble, Encode;
      CmpRdi(size);
      ghost var front := prog;
      at := Branch(NotEqual);
      assert prog[..|old(prog)| + 1] == front;
    }

    /** Bump fast path; its jae goes to the byte after the ret. */
    method EmitBumpFast(ptr: U32, end: U32, size: U32)
      requires Valid() && p + 37 <= buf.Length
      modifies this, buf
      ensures Valid() && p == old(p) + 30 + Size(Advance(size))
      ensures prog == old(prog) + (BumpLoad(ptr, size) + (BumpCheck(end, 10) + Commit(ptr)))
    {
      hide Assemble, Encode;
      ghost var was := prog;
      LoadRax(ptr);
      LeaRcx(size);
      CmpRcx(end);
      ghost var front := prog;
      var jae := Branch(AboveEq);
      StoreRcx(ptr);
      Return();
      assert prog[..|front|] == front;
      Patch(jae, p - (jae + 1), |front|, AboveEq);
      assert prog == was + (BumpLoad(ptr, size) + (BumpCheck(end, 10) + Commit(ptr)));
    }

    /** Free-list fast path; its jz goes to the byte after the ret. */
    method EmitPopFast(head: U32)
      requires Valid() && p + 27 <= buf.Length
      modifies this, buf
      ensures Valid() && p == old(p) + 27
      ensures prog == old(prog) + (PopProbe(head, 13) + Unlink(head))
    {
      hide Assemble, Encode;
      ghost var was := prog;
      LoadRax(head);
      TestRax();
      ghost var front := prog;
      var jz := Branch(Equal);
      LoadNext();
      StoreRcx(head);
      Return();
      assert prog[..|front|] == front;
      Patch(jz, p - (jz + 1), |front|, Equal);
      assert prog == was + (PopProbe(head, 13) + Unlink(head));
    }

    method EmitCallAndReturn()
      requires Valid() && p + 7 <= buf.Length
      modifies this, buf
      ensures Valid() && p == old(p) + 7 && prog == old(prog) + CallAndReturn()
    {
      hide Assemble, Encode;
      CallRax();
      AddRsp8();
      Return();
    }

    method EmitSlowPath(slot: U32, size: U32, fn: U64)
      requires Valid() && p + 31 <= buf.Length
      modifies this, buf
      ensures Valid() && p == old(p) + 31 && prog == old(prog) + SlowPath(slot, size, fn)
    {
      hide Assemble, Encode;
      SubRsp8();
      MovEdi(slot);
      MovEsi(size);
      MovabsRax(fn);
      EmitCallAndReturn();
    }

    method EmitSlowPath3(slot: U32, size: U32, class_: U32, fn: U64)
      requires Valid() && p + 36 <= buf.Length
      modifies this, buf
      ensures Valid() && p == old(p) + 36 && prog == old(prog) + SlowPath3(slot, size, class_, fn)
    {
      hide Assemble, Encode;
      SubRsp8();
      MovEdi(slot);
      MovEsi(size);
      MovEdx(class_);
      MovabsRax(fn);
      EmitCallAndReturn();
    }

    /** Test for the null cursor, then the slow path; at is the rel8 byte of the test's jne. */
    method EmitFirstUse(slot: U32, size: U32, fn: U64) returns (at: nat)
      requires Valid() && p + 37 <= buf.Length
      modifies this, buf
      ensures Valid() && p == old(p) + 37 && at == old(p) + 5
      ensures prog == old(prog) + (FreshCheck(0) + SlowPath(slot, size, fn))
      ensures at == |Assemble(prog[..|old(prog)| + 1])| + 1
    {
      hide Assemble, Encode, SlowPath;
      CmpRax0();
      ghost var front := prog;
      at := Branch(NotEqual);
      EmitSlowPath(slot, size, fn);
      assert prog[..|old(prog)| + 1] == front;
    }

    method EmitDeoptCall(e: Exit)
      requires Valid() && p + 18 <= buf.Length
      modifies this, buf
      ensures Valid() && p == old(p) + 18 && prog == old(prog) + (DeoptAim(e) + DeoptCall())
    {
      hide Assemble, Encode;
      MovEdx(e.reason);
      MovabsRax(e.handler);
      CallRax();
      PopRdi();
    }

    method EmitDeopt(e: Exit)
      requires Valid() && p + 46 <= buf.Length
      modifies this, buf
      ensures Valid() && p == old(p) + 46 && prog == old(prog) + Deopt(e)
    {
      hide Assemble, Encode;
      PushRdi();
      MovEdi(e.site);
      MovabsRsi(e.page);
      EmitDeoptCall(e);
      MovabsRax(e.malloc);
      JmpRax();
    }

    /** Guard, bump fast path, first-use check, slow path, deopt. */
    method EmitBump(q: Params)
      requires Valid() && prog == [] && p == 0 && buf.Length >= 200
      modifies this, buf
      ensures Valid() && prog == BumpRoutine(q) && p < 200
    {
      hide Assemble, Encode, SlowPath, Deopt, BumpLoad, BumpCheck, Commit;
      var jne1 := EmitGuard(q.size);
      ghost var guard := prog;
      EmitBumpFast(q.ptr, q.end, q.size);
      ghost var front := prog;
      var jne2 := EmitFirstUse(q.slot, q.size, q.fn);
      var deopt := p;
      assert prog[..1] == guard[..1];
      Patch(jne2, deopt - (jne2 + 1), |front| + 1, NotEqual);
      Patch(jne1, deopt - (jne1 + 1), 1, NotEqual);
      EmitDeopt(q.exit);
      assert prog == BumpRoutine(q);
    }

    /** The same without the first-use check. */
    method EmitRefill(q: Params)
      requires Valid() && prog == [] && p == 0 && buf.Length >= 200
      modifies this, buf
      ensures Valid() && prog == RefillRoutine(q) && p < 200
    {
      hide Assemble, Encode, SlowPath, Deopt, BumpLoad, BumpCheck, Commit;
      var jne := EmitGuard(q.size);
      ghost var guard := prog;
      EmitBumpFast(q.ptr, q.end, q.size);
      EmitSlowPath(q.slot, q.size, q.fn);
      assert prog[..1] == guard[..1];
      Patch(jne, p - (jne + 1), 1, NotEqual);
      EmitDeopt(q.exit);
      assert prog == RefillRoutine(q);
    }

    method EmitFreeList(q: Params)
      requires Valid() && prog == [] && p == 0 && buf.Length >= 200
      modifies this, buf
      ensures Valid() && prog == FreeListRoutine(q) && p < 200
    {
      hide Assemble, Encode, SlowPath, Deopt, PopProbe, Unlink;
      var jne := EmitGuard(q.size);
      ghost var guard := prog;
      EmitPopFast(q.ptr);
      EmitSlowPath(q.slot, q.size, q.fn);
      assert prog[..1] == guard[..1];
      Patch(jne, p - (jne + 1), 1, NotEqual);
      EmitDeopt(q.exit);
      assert prog == FreeListRoutine(q);
    }

    /** One rung of the multi-class ladder; its jne goes to the byte after the rung. */
    method EmitRung(q: MultiParams, i: nat)
      requires i < |q.sizes| <= 4
      requires Valid() && p + 72 <= buf.Length
      modifies this, buf
      ensures Valid() && p == old(p) + 72 && prog == old(prog) + Rung(q, i)
    {
      hide Assemble, Encode, SlowPath3, PopProbe, Unlink;
      ghost var was := prog;
      var jne := EmitGuard(q.sizes[i]);
      ghost var guard := prog;
      EmitPopFast((q.heads + 8 * i) % X86.W32);
      EmitSlowPath3(q.slot, q.sizes[i], i, q.fn);
      assert prog[..|was| + 1] == guard[..|was| + 1];
      var disp := p - (jne + 1);
      assert -128 <= disp <= 127;
      Patch(jne, disp, |was| + 1, NotEqual);
      assert prog == was + Rung(q, i);
    }
  }

  // ----- the emitters -----

  /** What every emitter leaves behind: the whole routine, or nothing when the buffer is refused. */
  twostate predicate Emitted(buf: array?<Byte>, room: nat, n: nat, prog: seq<Instr>)
    reads buf
  {
    if buf == null then n == 0
    else if buf.Length < room then n == 0 && buf[..] == old(buf[..])
    else n <= buf.Length && buf[..n] == Assemble(prog)
  }

  method EmitBumpAlloc(buf: array?<Byte>, q: Params) returns (n: nat)
    modifies if buf == null then {} else {buf}
    ensures Emitted(buf, 200, n, BumpRoutine(q)) && n < 200
  {
    hide Assemble, Encode, BumpRoutine;
    if buf == null || buf.Length < 200 { return 0; }
    var w := new Writer(buf);
    w.EmitBump(q);
    n := w.p;
  }

  method EmitFreeListAlloc(buf: array?<Byte>, q: Params) returns (n: nat)
    modifies if buf == null then {} else {buf}
    ensures Emitted(buf, 200, n, FreeListRoutine(q)) && n < 200
  {
    hide Assemble, Encode, FreeListRoutine;
    if buf == null || buf.Length < 200 { return 0; }
    var w := new Writer(buf);
    w.EmitFreeList(q);
    n := w.p;
  }

  method EmitEpochArena(buf: array?<Byte>, q: Params) returns (n: nat)
    modifies if buf == null then {} else {buf}
    ensures Emitted(buf, 200, n, RefillRoutine(q)) && n < 200
  {
    hide Assemble, Encode, RefillRoutine;
    if buf == null || buf.Length < 200 { return 0; }
    var w := new Writer(buf);
    w.EmitRefill(q);
    n := w.p;
  }

  method EmitPcAlloc(buf: array?<Byte>, q: Params) returns (n: nat)
    modifies if buf == null then {} else {buf}
    ensures Emitted(buf, 200, n, RefillRoutine(q)) && n < 200
  {
    hide Assemble, Encode, RefillRoutine;
    if buf == null || buf.Length < 200 { return 0; }
    var w := new Writer(buf);
    w.EmitRefill(q);
    n := w.p;
  }

  /** The rungs emitted so far. */
  ghost function Rungs(q: MultiParams, i: nat): seq<Instr>
    requires i <= |q.sizes| <= 4
  {
    if i == 0 then [] else Rungs(q, i - 1) + Rung(q, i - 1)
  }

  lemma {:induction false} RungsThenLadder(q: MultiParams, i: nat)
    requires i <= |q.sizes| <= 4
    ensures Rungs(q, i) + LadderFrom(q, i) == LadderFrom(q, 0)
  {
    hide Rung, Deopt;
    if i > 0 {
      RungsThenLadder(q, i - 1);
    }
  }

  method EmitMultiFreeListAlloc(buf: array?<Byte>, q: MultiParams) returns (n: nat)
    modifies if buf == null then {} else {buf}
    ensures |q.sizes| == 0 || |q.sizes| > 4 ==> n == 0 && (buf != null ==> buf[..] == old(buf[..]))
    ensures 0 < |q.sizes| <= 4 ==> Emitted(buf, 512, n, LadderFrom(q, 0)) && n < 512
  {
    hide Assemble, Encode, Rung, Deopt;
    if buf == null || buf.Length < 512 { return 0; }
    if |q.sizes| == 0 || |q.sizes| > 4 { return 0; }
    var w := new Writer(buf);
    for i := 0 to |q.sizes|
      invariant w.Valid() && w.buf == buf && fresh(w) && w.p == 72 * i && w.prog == Rungs(q, i)
    {
      w.EmitRung(q, i);
    }
    w.EmitDeopt(q.exit);
    RungsThenLadder(q, |q.sizes|);
    n := w.p;
  }

  /** Replacing a branch's displacement replaces one byte of the assembled program. */
  lemma PatchAssembled(prog: seq<Instr>, k: nat, c: Cond, v: Byte)
    requires k < |prog| && prog[k] == Jcc(c, 0)
    ensures |Assemble(prog[..k])| + 1 < |Assemble(prog)|
    ensures Assemble(prog[k := Jcc(c, v)]) == Assemble(prog)[|Assemble(prog[..k])| + 1 := v]
  {
    hide Assemble;
    var next := prog[k := Jcc(c, v)];
    BlockSplit(prog, k);
    BlockSplit(next, k);
    assert next[..k] == prog[..k] && next[k + 1..] == prog[k + 1..];
    UpdateSecond(Assemble(prog[..k]), Encode(Jcc(c, 0)), Encode(Jcc(c, v)), Assemble(prog[k + 1..]), v);
  }

  lemma UpdateSecond<T>(a: seq<T>, b: seq<T>, c: seq<T>, d: seq<T>, v: T)
    requires |b| == |c| == 2 && c == [b[0], v]
    ensures a + c + d == (a + b + d)[|a| + 1 := v]
  {
  }

  lemma Join1<T>(s: seq<T>, a: T, t: seq<T>)
    ensures s + [a] + t == s + ([a] + t)
  {
  }

  lemma Join2<T>(s: seq<T>, a: T, b: T)
    ensures s + [a] + [b] == s + [a, b]
  {
  }

  lemma Join2L<T>(s: seq<T>, a: T, b: T, t: seq<T>)
    ensures s + [a] + [b] + t == s + ([a, b] + t)
  {
  }

  lemma Join3<T>(s: seq<T>, a: T, b: T, c: T, t: seq<T>)
    ensures s + [a] + [b] + [c] + t == s + ([a, b, c] + t)
  {
  }

  lemma Join4<T>(s: seq<T>, a: T, b: T, c: T, d: T)
    ensures s + [a] + [b] + [c] + [d] == s + [a, b, c, d]
  {
  }

  lemma Join5<T>(s: seq<T>, a: T, b: T, c: T, d: T, e: T, t: seq<T>)
    ensures s + [a] + [b] + [c] + [d] + [e] + t == s + ([a, b, c, d, e] + t)
  {
  }
}
