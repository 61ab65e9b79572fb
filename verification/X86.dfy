/** The slice of x86-64 that the routine emitter relies on: a decoder for the encodings it
    produces (Intel SDM Volume 2, sections 2.1 and 2.2.1) and a small-step machine over the raw
    bytes of one code page.  Nothing here knows about allocation. */
module X86 {

  const W32: int := 0x1_0000_0000
  const W64: int := 0x1_0000_0000_0000_0000

  type Byte = x: int | 0 <= x < 256
  type U32 = x: int | 0 <= x < W32
  type U64 = x: int | 0 <= x < W64

  function Wrap(x: int): (r: U64) { x % W64 }

  /** Sign extension of a disp32/imm32 to 64 bits. */
  function Sext32(v: U32): (r: U64) { if v < 0x8000_0000 then v else v + W64 - W32 }

  /** Sign extension of a disp8/imm8 to a 64-bit operand. */
  function Sext8(v: Byte): (r: U64) { if v < 128 then v else v + W64 - 256 }

  /** A rel8 branch displacement. */
  function Rel8(v: Byte): int { if v < 128 then v else v - 256 }

  // ----- little-endian immediates -----

  function Pow256(n: nat): (p: nat)
    ensures p > 0
  {
    if n == 0 then 1 else 256 * Pow256(n - 1)
  }

  lemma PowValues()
    ensures Pow256(4) == W32 && Pow256(8) == W64
  {
    assert Pow256(2) == 0x1_0000 && Pow256(3) == 0x100_0000;
    assert Pow256(5) == 0x100_0000_0000 && Pow256(6) == 0x1_0000_0000_0000;
  }

  /** The n low bytes of v, lowest first. */
  function Le(v: nat, n: nat): (bs: seq<Byte>)
    ensures |bs| == n
    decreases n
  {
    if n == 0 then [] else [v % 256] + Le(v / 256, n - 1)
  }

  function FromLe(bs: seq<Byte>): (v: nat)
    ensures v < Pow256(|bs|)
  {
    if bs == [] then 0 else bs[0] + 256 * FromLe(bs[1..])
  }

  lemma {:induction false} FromLeLe(v: nat, n: nat)
    requires v < Pow256(n)
    ensures FromLe(Le(v, n)) == v
    decreases n
  {
    if n > 0 {
      FromLeLe(v / 256, n - 1);
      assert Le(v, n)[1..] == Le(v / 256, n - 1);
    }
  }

  function Le32(v: U32): (bs: seq<Byte>)
    ensures |bs| == 4
  {
    Le(v, 4)
  }

  function Le64(v: U64): (bs: seq<Byte>)
    ensures |bs| == 8
  {
    Le(v, 8)
  }

  function Word32(bs: seq<Byte>): U32
    requires |bs| == 4
  {
    PowValues();
    FromLe(bs)
  }

  function Word64(bs: seq<Byte>): U64
    requires |bs| == 8
  {
    PowValues();
    FromLe(bs)
  }

  lemma Word32Le32(v: U32)
    ensures Word32(Le32(v)) == v
  {
    hide Le, FromLe;
    PowValues();
    FromLeLe(v, 4);
  }

  lemma Word64Le64(v: U64)
    ensures Word64(Le64(v)) == v
  {
    hide Le, FromLe;
    PowValues();
    FromLeLe(v, 8);
  }

  // ----- registers and memory -----

  datatype Reg = Rax | Rcx | Rdx | Rbx | Rsp | Rbp | Rsi | Rdi

  /** The three-bit register number used by ModR/M fields and by opcode+r forms. */
  function Code(r: Reg): (c: int)
    ensures 0 <= c < 8
  {
    match r
    case Rax => 0 case Rcx => 1 case Rdx => 2 case Rbx => 3
    case Rsp => 4 case Rbp => 5 case Rsi => 6 case Rdi => 7
  }

  function RegOf(c: int): Reg {
    if c == 0 then Rax else if c == 1 then Rcx else if c == 2 then Rdx else if c == 3 then Rbx
    else if c == 4 then Rsp else if c == 5 then Rbp else if c == 6 then Rsi else Rdi
  }

  datatype Regs = Regs(rax: U64, rcx: U64, rdx: U64, rbx: U64, rsp: U64, rbp: U64, rsi: U64, rdi: U64)
  {
    function Get(r: Reg): U64 {
      match r
      case Rax => rax case Rcx => rcx case Rdx => rdx case Rbx => rbx
      case Rsp => rsp case Rbp => rbp case Rsi => rsi case Rdi => rdi
    }

    function Set(r: Reg, v: U64): Regs {
      match r
      case Rax => this.(rax := v) case Rcx => this.(rcx := v)
      case Rdx => this.(rdx := v) case Rbx => this.(rbx := v)
      case Rsp => this.(rsp := v) case Rbp => this.(rbp := v)
      case Rsi => this.(rsi := v) case Rdi => this.(rdi := v)
    }
  }

  /** Byte-addressed memory; an absent address reads as zero. */
  type Mem = map<int, Byte>

  function ByteAt(m: Mem, a: int): Byte { if a in m then m[a] else 0 }

  function BytesAt(m: Mem, a: int, n: nat): (bs: seq<Byte>)
    ensures |bs| == n && forall i :: 0 <= i < n ==> bs[i] == ByteAt(m, a + i)
  {
    if n == 0 then [] else BytesAt(m, a, n - 1) + [ByteAt(m, a + n - 1)]
  }

  function Read64(m: Mem, a: int): U64 { Word64(BytesAt(m, a, 8)) }

  function WriteBytes(m: Mem, a: int, bs: seq<Byte>): Mem {
    if bs == [] then m else WriteBytes(m, a, bs[..|bs| - 1])[a + |bs| - 1 := bs[|bs| - 1]]
  }

  function Write64(m: Mem, a: int, v: U64): Mem { WriteBytes(m, a, Le64(v)) }

  lemma {:induction false} WrittenByte(m: Mem, a: int, bs: seq<Byte>, p: int)
    ensures ByteAt(WriteBytes(m, a, bs), p) == if a <= p < a + |bs| then bs[p - a] else ByteAt(m, p)
  {
    if bs != [] {
      WrittenByte(m, a, bs[..|bs| - 1], p);
    }
  }

  lemma ReadBack(m: Mem, a: int, v: U64)
    ensures Read64(Write64(m, a, v), a) == v
  {
    hide Le64, Word64, WriteBytes;
    var bs := Le64(v);
    forall i | 0 <= i < 8
      ensures BytesAt(Write64(m, a, v), a, 8)[i] == bs[i]
    {
      WrittenByte(m, a, bs, a + i);
    }
    assert BytesAt(Write64(m, a, v), a, 8) == bs;
    Word64Le64(v);
  }

  /** Two eight-byte cells that do not overlap. */
  predicate Apart(a: int, b: int) { a + 8 <= b || b + 8 <= a }

  lemma ReadElsewhere(m: Mem, a: int, v: U64, b: int)
    requires Apart(a, b)
    ensures Read64(Write64(m, a, v), b) == Read64(m, b)
  {
    hide Le64, Word64, WriteBytes;
    forall i | 0 <= i < 8
      ensures BytesAt(Write64(m, a, v), b, 8)[i] == BytesAt(m, b, 8)[i]
    {
      WrittenByte(m, a, Le64(v), b + i);
    }
    assert BytesAt(Write64(m, a, v), b, 8) == BytesAt(m, b, 8);
  }

  // ----- instructions -----

  datatype AluOp = Add | Sub | Cmp

  /** The /digit that selects the operation in the 81 and 83 opcode groups. */
  function Digit(op: AluOp): int {
    match op case Add => 0 case Sub => 5 case Cmp => 7
  }

  datatype Cond = AboveEq | Equal | NotEqual

  /** The low nibble of the 7x short-jump opcodes. */
  function CondCode(c: Cond): int {
    match c case AboveEq => 3 case Equal => 4 case NotEqual => 5
  }

  datatype Instr =
    | Alu32(op: AluOp, reg: Reg, imm: U32)        // REX.W 81 /digit id
    | Alu8(op: AluOp, reg: Reg, imm8: Byte)       // REX.W 83 /digit ib
    | LoadFs(dst: Reg, off: U32)                  // mov dst, fs:[off]
    | StoreFs(off: U32, src: Reg)                 // mov fs:[off], src
    | CmpFs(lhs: Reg, off: U32)                   // cmp lhs, fs:[off]
    | LoadInd(dst: Reg, base: Reg)                // mov dst, [base]
    | Lea8(dst: Reg, base: Reg, disp8: Byte)      // lea dst, [base + disp8]
    | Lea32(dst: Reg, base: Reg, disp: U32)       // lea dst, [base + disp32]
    | TestSelf(reg: Reg)                          // test reg, reg
    | MovImm32(dst: Reg, imm: U32)                // mov r32, imm32 (zero-extends)
    | MovImm64(dst: Reg, imm64: U64)              // movabs
    | Jcc(cond: Cond, rel: Byte)
    | Push(reg: Reg)
    | Pop(reg: Reg)
    | CallReg(reg: Reg)
    | JmpReg(reg: Reg)
    | Ret

  /** A ModR/M byte. */
  function ModRm(mode: int, reg: int, rm: int): Byte
    requires 0 <= mode < 4 && 0 <= reg < 8 && 0 <= rm < 8
  {
    64 * mode + 8 * reg + rm
  }

  // Its fields: the top two bits, the middle three, the low three.

  function ModeOf(b: Byte): (mode: int)
    ensures 0 <= mode < 4
  {
    if b < 64 then 0 else if b < 128 then 1 else if b < 192 then 2 else 3
  }

  function RegFieldOf(b: Byte): (reg: int)
    ensures 0 <= reg < 8
  {
    var x := b - 64 * ModeOf(b);
    if x < 8 then 0 else if x < 16 then 1 else if x < 24 then 2 else if x < 32 then 3
    else if x < 40 then 4 else if x < 48 then 5 else if x < 56 then 6 else 7
  }

  function RmOf(b: Byte): (rm: int)
    ensures 0 <= rm < 8
  {
    b - 64 * ModeOf(b) - 8 * RegFieldOf(b)
  }

  /** Base registers that need neither a SIB byte nor RIP-relative treatment. */
  predicate Encodable(i: Instr) {
    match i
    case LoadInd(_, base) => base != Rsp && base != Rbp
    case Lea8(_, base, _) => base != Rsp
    case Lea32(_, base, _) => base != Rsp
    case _ => true
  }

  function Encode(i: Instr): (bs: seq<Byte>) {
    match i
    case Alu32(op, r, v) => [0x48, 0x81, ModRm(3, Digit(op), Code(r))] + Le32(v)
    case Alu8(op, r, v) => [0x48, 0x83, ModRm(3, Digit(op), Code(r)), v]
    case LoadFs(r, off) => [0x64, 0x48, 0x8B, ModRm(0, Code(r), 4), 0x25] + Le32(off)
    case StoreFs(off, r) => [0x64, 0x48, 0x89, ModRm(0, Code(r), 4), 0x25] + Le32(off)
    case CmpFs(r, off) => [0x64, 0x48, 0x3B, ModRm(0, Code(r), 4), 0x25] + Le32(off)
    case LoadInd(r, b) => [0x48, 0x8B, ModRm(0, Code(r), Code(b))]
    case Lea8(r, b, d) => [0x48, 0x8D, ModRm(1, Code(r), Code(b)), d]
    case Lea32(r, b, d) => [0x48, 0x8D, ModRm(2, Code(r), Code(b))] + Le32(d)
    case TestSelf(r) => [0x48, 0x85, ModRm(3, Code(r), Code(r))]
    case MovImm32(r, v) => [0xB8 + Code(r)] + Le32(v)
    case MovImm64(r, v) => [0x48, 0xB8 + Code(r)] + Le64(v)
    case Jcc(c, d) => [0x70 + CondCode(c), d]
    case Push(r) => [0x50 + Code(r)]
    case Pop(r) => [0x58 + Code(r)]
    case CallReg(r) => [0xFF, ModRm(3, 2, Code(r))]
    case JmpReg(r) => [0xFF, ModRm(3, 4, Code(r))]
    case Ret => [0xC3]
  }

  /** Encoded length, without building the bytes. */
  function Size(i: Instr): (n: nat)
    ensures n == |Encode(i)| && n > 0
  {
    match i
    case Alu32(_, _, _) => 7 case Alu8(_, _, _) => 4
    case LoadFs(_, _) => 9 case StoreFs(_, _) => 9 case CmpFs(_, _) => 9
    case LoadInd(_, _) => 3 case Lea8(_, _, _) => 4 case Lea32(_, _, _) => 7
    case TestSelf(_) => 3 case MovImm32(_, _) => 5 case MovImm64(_, _) => 10
    case Jcc(_, _) => 2 case Push(_) => 1 case Pop(_) => 1
    case CallReg(_) => 2 case JmpReg(_) => 2 case Ret => 1
  }

  datatype Decoded = Invalid | Decoded(instr: Instr, length: nat)

  function Imm32At(b: seq<Byte>, k: nat): U32
    requires k + 4 <= |b|
  {
    Word32(b[k..k + 4])
  }

  /** Decodes the instruction at the head of b. */
  function Decode(b: seq<Byte>): Decoded {
    if b == [] then Invalid
    else if b[0] == 0x64 then DecodeFs(b)
    else if b[0] == 0x48 then DecodeWide(b)
    else if 0x50 <= b[0] < 0x58 then Decoded(Push(RegOf(b[0] - 0x50)), 1)
    else if 0x58 <= b[0] < 0x60 then Decoded(Pop(RegOf(b[0] - 0x58)), 1)
    else if b[0] == 0xC3 then Decoded(Ret, 1)
    else if |b| < 2 then Invalid
    else if b[0] == 0x73 then Decoded(Jcc(AboveEq, b[1]), 2)
    else if b[0] == 0x74 then Decoded(Jcc(Equal, b[1]), 2)
    else if b[0] == 0x75 then Decoded(Jcc(NotEqual, b[1]), 2)
    else if b[0] == 0xFF && ModeOf(b[1]) == 3 && RegFieldOf(b[1]) == 2 then Decoded(CallReg(RegOf(RmOf(b[1]))), 2)
    else if b[0] == 0xFF && ModeOf(b[1]) == 3 && RegFieldOf(b[1]) == 4 then Decoded(JmpReg(RegOf(RmOf(b[1]))), 2)
    else if 0xB8 <= b[0] < 0xC0 && |b| >= 5 then Decoded(MovImm32(RegOf(b[0] - 0xB8), Imm32At(b, 1)), 5)
    else Invalid
  }

  /** FS-prefixed REX.W forms with an absolute disp32 (ModR/M mod 0, rm 4; SIB 25). */
  function DecodeFs(b: seq<Byte>): Decoded {
    if |b| < 9 || b[1] != 0x48 || ModeOf(b[3]) != 0 || RmOf(b[3]) != 4 || b[4] != 0x25 then Invalid
    else
      var r := RegOf(RegFieldOf(b[3]));
      var off := Imm32At(b, 5);
      if b[2] == 0x8B then Decoded(LoadFs(r, off), 9)
      else if b[2] == 0x89 then Decoded(StoreFs(off, r), 9)
      else if b[2] == 0x3B then Decoded(CmpFs(r, off), 9)
      else Invalid
  }

  /** REX.W-prefixed forms. */
  function DecodeWide(b: seq<Byte>): Decoded {
    if |b| < 3 then Invalid
    else if 0xB8 <= b[1] < 0xC0 then
      if |b| < 10 then Invalid
      else Decoded(MovImm64(RegOf(b[1] - 0xB8), Word64(b[2..10])), 10)
    else
      var mode, reg, rm := ModeOf(b[2]), RegFieldOf(b[2]), RmOf(b[2]);
      if b[1] == 0x85 && mode == 3 && reg == rm then Decoded(TestSelf(RegOf(rm)), 3)
      else if b[1] == 0x8B && mode == 0 && rm != 4 && rm != 5 then Decoded(LoadInd(RegOf(reg), RegOf(rm)), 3)
      else if b[1] == 0x8D && mode == 1 && rm != 4 && |b| >= 4 then Decoded(Lea8(RegOf(reg), RegOf(rm), b[3]), 4)
      else if b[1] == 0x8D && mode == 2 && rm != 4 && |b| >= 7 then
        Decoded(Lea32(RegOf(reg), RegOf(rm), Imm32At(b, 3)), 7)
      else if b[1] == 0x83 && mode == 3 && |b| >= 4 then
        if reg == 0 then Decoded(Alu8(Add, RegOf(rm), b[3]), 4)
        else if reg == 5 then Decoded(Alu8(Sub, RegOf(rm), b[3]), 4)
        else if reg == 7 then Decoded(Alu8(Cmp, RegOf(rm), b[3]), 4)
        else Invalid
      else if b[1] == 0x81 && mode == 3 && |b| >= 7 then
        if reg == 0 then Decoded(Alu32(Add, RegOf(rm), Imm32At(b, 3)), 7)
        else if reg == 5 then Decoded(Alu32(Sub, RegOf(rm), Imm32At(b, 3)), 7)
        else if reg == 7 then Decoded(Alu32(Cmp, RegOf(rm), Imm32At(b, 3)), 7)
        else Invalid
      else Invalid
  }

  lemma ModRmFields(mode: int, reg: int, rm: int)
    requires 0 <= mode < 4 && 0 <= reg < 8 && 0 <= rm < 8
    ensures var b := ModRm(mode, reg, rm); ModeOf(b) == mode && RegFieldOf(b) == reg && RmOf(b) == rm
  {
  }

  lemma CodeFacts(r: Reg)
    ensures RegOf(Code(r)) == r && (Code(r) == 4 <==> r == Rsp) && (Code(r) == 5 <==> r == Rbp)
  {
  }

  lemma DecodeEncodeFs(r: Reg, off: U32, rest: seq<Byte>)
    ensures Decode(Encode(LoadFs(r, off)) + rest) == Decoded(LoadFs(r, off), 9)
    ensures Decode(Encode(StoreFs(off, r)) + rest) == Decoded(StoreFs(off, r), 9)
    ensures Decode(Encode(CmpFs(r, off)) + rest) == Decoded(CmpFs(r, off), 9)
  {
    hide ModeOf, RegFieldOf, RmOf, Code, RegOf, Le32, Word32;
    CodeFacts(r);
    Word32Le32(off);
    assert (Encode(LoadFs(r, off)) + rest)[5..9] == Le32(off);
    assert (Encode(StoreFs(off, r)) + rest)[5..9] == Le32(off);
    assert (Encode(CmpFs(r, off)) + rest)[5..9] == Le32(off);
    ModRmFields(0, Code(r), 4);
  }

  lemma DecodeEncodeAlu(op: AluOp, r: Reg, v: U32, v8: Byte, rest: seq<Byte>)
    ensures Decode(Encode(Alu32(op, r, v)) + rest) == Decoded(Alu32(op, r, v), 7)
    ensures Decode(Encode(Alu8(op, r, v8)) + rest) == Decoded(Alu8(op, r, v8), 4)
  {
    hide ModeOf, RegFieldOf, RmOf, Code, RegOf, Le32, Word32;
    CodeFacts(r);
    Word32Le32(v);
    assert (Encode(Alu32(op, r, v)) + rest)[3..7] == Le32(v);
    ModRmFields(3, Digit(op), Code(r));
  }

  lemma DecodeEncodeLoad(r: Reg, b: Reg, rest: seq<Byte>)
    requires b != Rsp && b != Rbp
    ensures Decode(Encode(LoadInd(r, b)) + rest) == Decoded(LoadInd(r, b), 3)
  {
    hide ModeOf, RegFieldOf, RmOf, Code, RegOf;
    CodeFacts(r);
    CodeFacts(b);
    ModRmFields(0, Code(r), Code(b));
  }

  lemma DecodeEncodeLea8(r: Reg, b: Reg, d: Byte, rest: seq<Byte>)
    requires b != Rsp
    ensures Decode(Encode(Lea8(r, b, d)) + rest) == Decoded(Lea8(r, b, d), 4)
  {
    hide ModeOf, RegFieldOf, RmOf, Code, RegOf;
    CodeFacts(r);
    CodeFacts(b);
    ModRmFields(1, Code(r), Code(b));
  }

  lemma DecodeEncodeLea32(r: Reg, b: Reg, d: U32, rest: seq<Byte>)
    requires b != Rsp
    ensures Decode(Encode(Lea32(r, b, d)) + rest) == Decoded(Lea32(r, b, d), 7)
  {
    hide ModeOf, RegFieldOf, RmOf, Code, RegOf, Le32, Word32;
    CodeFacts(r);
    CodeFacts(b);
    Word32Le32(d);
    assert (Encode(Lea32(r, b, d)) + rest)[3..7] == Le32(d);
    ModRmFields(2, Code(r), Code(b));
  }

  lemma DecodeEncodeMov32(r: Reg, v: U32, rest: seq<Byte>)
    ensures Decode(Encode(MovImm32(r, v)) + rest) == Decoded(MovImm32(r, v), 5)
  {
    hide ModeOf, RegFieldOf, RmOf, Code, RegOf, Le32, Word32;
    CodeFacts(r);
    Word32Le32(v);
    assert (Encode(MovImm32(r, v)) + rest)[1..5] == Le32(v);
  }

  lemma DecodeEncodeMov64(r: Reg, w: U64, rest: seq<Byte>)
    ensures Decode(Encode(MovImm64(r, w)) + rest) == Decoded(MovImm64(r, w), 10)
  {
    hide ModeOf, RegFieldOf, RmOf, Code, RegOf, Le64, Word64;
    CodeFacts(r);
    Word64Le64(w);
    assert (Encode(MovImm64(r, w)) + rest)[2..10] == Le64(w);
  }

  lemma DecodeEncodeIndirect(r: Reg, rest: seq<Byte>)
    ensures Decode(Encode(CallReg(r)) + rest) == Decoded(CallReg(r), 2)
    ensures Decode(Encode(JmpReg(r)) + rest) == Decoded(JmpReg(r), 2)
  {
    hide ModeOf, RegFieldOf, RmOf, Code, RegOf;
    CodeFacts(r);
    ModRmFields(3, 2, Code(r));
    ModRmFields(3, 4, Code(r));
  }

  lemma DecodeEncodeTest(r: Reg, rest: seq<Byte>)
    ensures Decode(Encode(TestSelf(r)) + rest) == Decoded(TestSelf(r), 3)
  {
    hide ModeOf, RegFieldOf, RmOf, Code, RegOf;
    CodeFacts(r);
    ModRmFields(3, Code(r), Code(r));
  }

  lemma DecodeEncodeJcc(c: Cond, d: Byte, rest: seq<Byte>)
    ensures Decode(Encode(Jcc(c, d)) + rest) == Decoded(Jcc(c, d), 2)
  {
    hide ModeOf, RegFieldOf, RmOf, Code, RegOf;
  }

  lemma DecodeEncodeStack(r: Reg, rest: seq<Byte>)
    ensures Decode(Encode(Push(r)) + rest) == Decoded(Push(r), 1)
    ensures Decode(Encode(Pop(r)) + rest) == Decoded(Pop(r), 1)
    ensures Decode(Encode(Ret) + rest) == Decoded(Ret, 1)
  {
    hide ModeOf, RegFieldOf, RmOf, Code, RegOf;
    CodeFacts(r);
  }

  /** Decoding inverts encoding, whatever bytes follow. */
  lemma DecodeEncode(i: Instr, rest: seq<Byte>)
    requires Encodable(i)
    ensures Decode(Encode(i) + rest) == Decoded(i, Size(i))
  {
    match i
    case Alu32(op, r, v) => DecodeEncodeAlu(op, r, v, 0, rest);
    case Alu8(op, r, v) => DecodeEncodeAlu(op, r, 0, v, rest);
    case LoadFs(r, off) => DecodeEncodeFs(r, off, rest);
    case StoreFs(off, r) => DecodeEncodeFs(r, off, rest);
    case CmpFs(r, off) => DecodeEncodeFs(r, off, rest);
    case LoadInd(r, b) => DecodeEncodeLoad(r, b, rest);
    case Lea8(r, b, d) => DecodeEncodeLea8(r, b, d, rest);
    case Lea32(r, b, d) => DecodeEncodeLea32(r, b, d, rest);
    case MovImm32(r, v) => DecodeEncodeMov32(r, v, rest);
    case MovImm64(r, v) => DecodeEncodeMov64(r, v, rest);
    case Jcc(c, d) => DecodeEncodeJcc(c, d, rest);
    case TestSelf(r) => DecodeEncodeTest(r, rest);
    case Push(r) => DecodeEncodeStack(r, rest);
    case Pop(r) => DecodeEncodeStack(r, rest);
    case CallReg(r) => DecodeEncodeIndirect(r, rest);
    case JmpReg(r) => DecodeEncodeIndirect(r, rest);
    case Ret => DecodeEncodeStack(Rax, rest);
  }

  // ----- the machine -----

  /** What an external function sees when it is called. */
  datatype Call = Call(target: U64, rdi: U64, rsi: U64, rdx: U64, rsp: U64, mem: Mem)

  /** What it leaves behind: every caller-saved register, the flags and memory are arbitrary. */
  datatype Reply = Reply(rax: U64, rcx: U64, rdx: U64, rsi: U64, rdi: U64, zf: bool, cf: bool, mem: Mem)

  /** The outside world: how each external call behaves. */
  type World = Call -> Reply

  /** base: where the page is mapped; fs: the thread pointer; calls: external calls made so far. */
  datatype State = State(regs: Regs, zf: bool, cf: bool, mem: Mem, pc: int,
                         base: U64, fs: U64, calls: seq<Call>)

  datatype Status =
    | Running(s: State)
    | Returned(target: U64, s: State)   // ret popped target
    | LeftTo(target: U64, s: State)     // tail jump out of the page
    | Fault

  predicate Holds(c: Cond, s: State) {
    match c case AboveEq => !s.cf case Equal => s.zf case NotEqual => !s.zf
  }

  function FsAddr(s: State, off: U32): U64 { Wrap(s.fs + Sext32(off)) }

  function Alu(op: AluOp, r: Reg, v: U64, s: State): State {
    var a := s.regs.Get(r);
    match op
    case Cmp => s.(zf := a == v, cf := a < v)
    case Sub => s.(regs := s.regs.Set(r, Wrap(a - v)), zf := a == v, cf := a < v)
    case Add => s.(regs := s.regs.Set(r, Wrap(a + v)), zf := Wrap(a + v) == 0, cf := a + v >= W64)
  }

  /** An external call: the return address goes below rsp, the callee runs and returns with rsp,
      rbx and rbp as they were (System V AMD64 psABI, section 3.2.1). */
  function DoCall(target: U64, next: int, s: State, world: World): State {
    var r := s.regs;
    var mem := Write64(s.mem, r.rsp - 8, Wrap(s.base + next));
    var call := Call(target, r.rdi, r.rsi, r.rdx, r.rsp, mem);
    var reply := world(call);
    s.(regs := r.(rax := reply.rax, rcx := reply.rcx, rdx := reply.rdx, rsi := reply.rsi, rdi := reply.rdi),
       zf := reply.zf, cf := reply.cf, mem := reply.mem, pc := next, calls := s.calls + [call])
  }

  /** One instruction whose encoding is length bytes long. */
  function Exec(i: Instr, length: nat, s: State, world: World): Status {
    var next := s.pc + length;
    var t := s.(pc := next);
    match i
    case Alu32(op, r, v) => Running(Alu(op, r, Sext32(v), t))
    case Alu8(op, r, v) => Running(Alu(op, r, Sext8(v), t))
    case LoadFs(r, off) => Running(t.(regs := s.regs.Set(r, Read64(s.mem, FsAddr(s, off)))))
    case StoreFs(off, r) => Running(t.(mem := Write64(s.mem, FsAddr(s, off), s.regs.Get(r))))
    case CmpFs(r, off) => Running(Alu(Cmp, r, Read64(s.mem, FsAddr(s, off)), t))
    case LoadInd(r, b) => Running(t.(regs := s.regs.Set(r, Read64(s.mem, s.regs.Get(b)))))
    case Lea8(r, b, d) => Running(t.(regs := s.regs.Set(r, Wrap(s.regs.Get(b) + Sext8(d)))))
    case Lea32(r, b, d) => Running(t.(regs := s.regs.Set(r, Wrap(s.regs.Get(b) + Sext32(d)))))
    case TestSelf(r) => Running(t.(zf := s.regs.Get(r) == 0, cf := false))
    case MovImm32(r, v) => Running(t.(regs := s.regs.Set(r, v)))
    case MovImm64(r, v) => Running(t.(regs := s.regs.Set(r, v)))
    case Jcc(c, d) => Running(if Holds(c, s) then s.(pc := next + Rel8(d)) else t)
    case Push(r) => Running(t.(mem := Write64(s.mem, s.regs.rsp - 8, s.regs.Get(r)),
                               regs := s.regs.(rsp := Wrap(s.regs.rsp - 8))))
    case Pop(r) => Running(t.(regs := s.regs.(rsp := Wrap(s.regs.rsp + 8)).Set(r, Read64(s.mem, s.regs.rsp))))
    case CallReg(r) => Running(DoCall(s.regs.Get(r), next, s, world))
    case JmpReg(r) => LeftTo(s.regs.Get(r), t)
    case Ret => Returned(Read64(s.mem, s.regs.rsp), t.(regs := s.regs.(rsp := Wrap(s.regs.rsp + 8))))
  }

  /** Fetch, decode and execute up to fuel instructions of the page. */
  function Run(code: seq<Byte>, s: State, world: World, fuel: nat): Status
    decreases fuel
  {
    if fuel == 0 then Running(s)
    else if 0 <= s.pc < |code| then
      var d := Decode(code[s.pc..]);
      if d.Invalid? then Fault
      else
        var status := Exec(d.instr, d.length, s, world);
        if status.Running? then Run(code, status.s, world, fuel - 1) else status
    else Fault
  }

  // ----- programs -----

  function Assemble(prog: seq<Instr>): seq<Byte> {
    if prog == [] then [] else Assemble(prog[..|prog| - 1]) + Encode(prog[|prog| - 1])
  }

  lemma {:induction false} AssembleConcat(a: seq<Instr>, b: seq<Instr>)
    ensures Assemble(a + b) == Assemble(a) + Assemble(b)
  {
    hide Encode;
    if b == [] {
      assert a + b == a;
    } else {
      var c := b[..|b| - 1];
      assert (a + b)[..|a + b| - 1] == a + c;
      AssembleConcat(a, c);
    }
  }

  lemma AssembleSnoc(prog: seq<Instr>, i: Instr)
    ensures Assemble(prog + [i]) == Assemble(prog) + Encode(i)
  {
    hide Encode;
    assert (prog + [i])[..|prog|] == prog;
  }

  /** The byte offset of instruction k. */
  function Offset(prog: seq<Instr>, k: nat): nat
    requires k <= |prog|
    decreases k
  {
    if k == 0 then 0 else Offset(prog, k - 1) + Size(prog[k - 1])
  }

  lemma {:induction false} OffsetIsPrefixLength(prog: seq<Instr>, k: nat)
    requires k <= |prog|
    ensures Offset(prog, k) == |Assemble(prog[..k])|
  {
    hide Encode, Size;
    if k > 0 {
      OffsetIsPrefixLength(prog, k - 1);
      assert prog[..k] == prog[..k - 1] + [prog[k - 1]];
      AssembleSnoc(prog[..k - 1], prog[k - 1]);
    }
  }

  /** The page holds the whole of blk from byte position at. */
  ghost predicate Holding(code: seq<Byte>, at: nat, blk: seq<Instr>) {
    at + |Assemble(blk)| <= |code| && code[at..at + |Assemble(blk)|] == Assemble(blk)
  }

  lemma BlockSplit(blk: seq<Instr>, k: nat)
    requires k < |blk|
    ensures Assemble(blk) == Assemble(blk[..k]) + Encode(blk[k]) + Assemble(blk[k + 1..])
  {
    hide Encode, Assemble;
    var a, c := blk[..k], blk[k + 1..];
    AssembleSnoc(a, blk[k]);
    AssembleConcat(a + [blk[k]], c);
    SplitAt(blk, k);
  }

  lemma SplitAt<T>(s: seq<T>, k: nat)
    requires k < |s|
    ensures s == s[..k] + [s[k]] + s[k + 1..]
  {
  }

  lemma SliceTail<T>(code: seq<T>, at: nat, a: seq<T>, b: seq<T>, c: seq<T>) returns (rest: seq<T>)
    requires at + |a + b + c| <= |code| && code[at..at + |a + b + c|] == a + b + c
    ensures at + |a| <= |code| && code[at + |a|..] == b + rest
  {
    rest := code[at + |a| + |b|..];
    var w, tail := code[at..at + |a + b + c|], code[at + |a|..];
    forall k | 0 <= k < |b|
      ensures tail[k] == b[k]
    {
      assert tail[k] == w[|a| + k];
    }
    assert tail[..|b|] == b && tail[|b|..] == rest;
  }

  /** Fetching at an instruction boundary of a block finds exactly that instruction. */
  lemma FetchAt(code: seq<Byte>, at: nat, blk: seq<Instr>, k: nat)
    requires Holding(code, at, blk) && k < |blk| && Encodable(blk[k])
    ensures at + Offset(blk, k) < |code|
    ensures Decode(code[at + Offset(blk, k)..]) == Decoded(blk[k], Size(blk[k]))
  {
    hide Encode, Decode;
    OffsetIsPrefixLength(blk, k);
    BlockSplit(blk, k);
    var rest := SliceTail(code, at, Assemble(blk[..k]), Encode(blk[k]), Assemble(blk[k + 1..]));
    DecodeEncode(blk[k], rest);
  }

  /** One machine step at an instruction boundary of a block. */
  lemma StepAt(code: seq<Byte>, at: nat, blk: seq<Instr>, k: nat, s: State, world: World, fuel: nat)
    requires Holding(code, at, blk) && k < |blk| && Encodable(blk[k])
    requires s.pc == at + Offset(blk, k)
    ensures Run(code, s, world, fuel + 1) ==
            var status := Exec(blk[k], Size(blk[k]), s, world);
            if status.Running? then Run(code, status.s, world, fuel) else status
  {
    hide Encode, Decode, Exec;
    FetchAt(code, at, blk, k);
  }

  lemma AssembledLength(blk: seq<Instr>)
    ensures |Assemble(blk)| == Offset(blk, |blk|)
  {
    OffsetIsPrefixLength(blk, |blk|);
    assert blk[..|blk|] == blk;
  }

  lemma SliceParts<T>(code: seq<T>, at: nat, a: seq<T>, b: seq<T>)
    requires at + |a| + |b| <= |code| && code[at..at + |a| + |b|] == a + b
    ensures code[at..at + |a|] == a && code[at + |a|..at + |a| + |b|] == b
  {
    var whole := code[at..at + |a| + |b|];
    assert whole[..|a|] == a && whole[|a|..] == b;
    assert code[at..at + |a|] == whole[..|a|];
    assert code[at + |a|..at + |a| + |b|] == whole[|a|..];
  }

  /** A block laid out as two pieces, the first n bytes long. */
  lemma HoldingParts(code: seq<Byte>, at: nat, a: seq<Instr>, n: nat, b: seq<Instr>)
    requires Holding(code, at, a + b) && n == Offset(a, |a|)
    ensures Holding(code, at, a) && Holding(code, at + n, b)
  {
    hide Assemble, Offset, Encode, Holding;
    AssembleConcat(a, b);
    AssembledLength(a);
    HeldBytes(code, at, a + b);
    SliceParts(code, at, Assemble(a), Assemble(b));
    BytesHeld(code, at, a);
    BytesHeld(code, at + n, b);
  }

  lemma HeldBytes(code: seq<Byte>, at: nat, blk: seq<Instr>)
    requires Holding(code, at, blk)
    ensures at + |Assemble(blk)| <= |code| && code[at..at + |Assemble(blk)|] == Assemble(blk)
  {
  }

  lemma BytesHeld(code: seq<Byte>, at: nat, blk: seq<Instr>)
    requires at + |Assemble(blk)| <= |code| && code[at..at + |Assemble(blk)|] == Assemble(blk)
    ensures Holding(code, at, blk)
  {
  }
}
