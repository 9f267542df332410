// The code that loads a spilled register from its slot in the frame, and stores it there.

module SlotCode {
  import opened Machine

  predicate Imm12(v: int) { -2048 <= v < 2048 }
  predicate Int32(v: int) { -0x8000_0000 <= v < 0x8000_0000 }

  /** Which registers live in the frame, how far from its base, and which of them are reached
      through the stack pointer, because they are saved before the frame pointer is set. */
  datatype Spills = Spills(offset: map<Reg, int>, viaSp: set<Reg>)

  ghost predicate SpillsOk(sp: Spills) {
    && (forall r {:trigger sp.offset[r]} :: r in sp.offset ==>
          r.Virt? && r.ty != FloatCmp && Int32(sp.offset[r]))
    && (forall r, q {:trigger sp.offset[r], sp.offset[q]} :: r in sp.offset && q in sp.offset && r != q ==>
          sp.offset[r] != sp.offset[q])
  }

  function Base(sp: Spills, r: Reg): Reg { if r in sp.viaSp then SP else FP }

  function Plain(tag: Tag, suffix: Suffix, ops: seq<Operand>): Instr { Instr(tag, suffix, ops, [], [], false) }

  // Registers made up on the way are numbered from n.

  function LoadParts(hi: int, lo: int, reg: Reg, n: nat): Block {
    var tmp := Virt(General, n);
    if hi == 0 then [Plain(ORI, NONE, [RegOp(reg), RegOp(ZERO), ImmOp(lo)])]
    else [Plain(LU12I_W, NONE, [RegOp(tmp), ImmOp(hi)])] + [Plain(ORI, NONE, [RegOp(reg), RegOp(tmp), ImmOp(lo)])]
  }

  function LoadInt32(val: int, reg: Reg, n: nat): Block {
    LoadParts(val / 4096, val % 4096, reg, n)
  }

  function AddIntToReg(dst: Reg, src: Reg, val: int, n: nat): Block {
    if src == dst && val == 0 then []
    else if val == 0 then [Plain(MOV, NONE, [RegOp(dst), RegOp(src)])]
    else if Imm12(val) then [Plain(ADDI, DWORD, [RegOp(dst), RegOp(src), ImmOp(val)])]
    else
      var tmp := Virt(General, n);
      LoadInt32(val, tmp, n + 1) + [Plain(ADD, DWORD, [RegOp(dst), RegOp(src), RegOp(tmp)])]
  }

  function LoadOp(ty: RegType, t: Reg, base: Reg, off: int): Instr {
    if ty == Float then Plain(FLD_S, NONE, [RegOp(t), RegOp(base), ImmOp(off)])
    else Plain(LD, DWORD, [RegOp(t), RegOp(base), ImmOp(off)])
  }

  function StoreOp(ty: RegType, t: Reg, base: Reg, off: int): Instr {
    if ty == Float then Plain(FST_S, NONE, [RegOp(t), RegOp(base), ImmOp(off)])
    else Plain(ST, DWORD, [RegOp(t), RegOp(base), ImmOp(off)])
  }

  function LoadSlot(sp: Spills, r: Reg, t: Reg, n: nat): Block
    requires r in sp.offset
  {
    var off, base := sp.offset[r], Base(sp, r);
    if Imm12(off) then [LoadOp(r.ty, t, base, off)]
    else AddIntToReg(Virt(General, n), base, off, n + 1) + [LoadOp(r.ty, t, Virt(General, n), 0)]
  }

  function StoreSlot(sp: Spills, r: Reg, t: Reg, n: nat): Block
    requires r in sp.offset
  {
    var off, base := sp.offset[r], Base(sp, r);
    if Imm12(off) then [StoreOp(r.ty, t, base, off)]
    else AddIntToReg(Virt(General, n), base, off, n + 1) + [StoreOp(r.ty, t, Virt(General, n), 0)]
  }

  /** The next number after the code for r's slot. */
  function AfterSlot(sp: Spills, r: Reg, n: nat): nat
    requires r in sp.offset
  {
    if Imm12(sp.offset[r]) then n else n + 3
  }

  // ----- what the code does -----

  function Mem(w: World, a: int): Value { if a in w.mem then w.mem[a] else 0 }

  /** One case of what the processor has to do for the code around a slot to work. */
  datatype Law =
    | Loads(tag: Tag, suffix: Suffix, off: int, a: Value, s: Value, w: World)
    | Stores(tag: Tag, suffix: Suffix, off: int, v: Value, a: Value, s: Value, w: World)
    | Adds(a: Value, b: Value, s: Value, w: World)
    | AddsImm(k: int, a: Value, s: Value, w: World)
    | LoadsHigh(k: int, s: Value, w: World)
    | OrsLow(k: int, a: Value, s: Value, w: World)

  /** The immediates that fit into an instruction. */
  predicate ImmFits(tag: Tag, v: int) {
    match tag
    case ADDI | SLTI | SLTUI | LU52I_D | LD | ST | FLD_S | FST_S => -2048 <= v < 2048
    case SLLI | SRLI | SRAI | ANDI | ORI | XORI => 0 <= v < 4096
    case LU12I_W | LU32I_D => -0x8_0000 <= v < 0x8_0000
    case _ => true
  }

  /** The types of the registers that an instruction names at its k-th operand. */
  predicate RegFits(tag: Tag, k: nat, ty: RegType) {
    match tag
    case MOV => true
    case FADD_S | FSUB_S | FMUL_S | FDIV_S | FFINT_S_W | FTINTRZ_W_S => ty == Float
    case FLD_S | FST_S | MOVGR2FR_W => ty == if k == 0 then Float else General
    case MOVFR2GR_S => ty == if k == 0 then General else Float
    case MOVGR2CF => ty == if k == 0 then FloatCmp else General
    case MOVCF2GR => ty == if k == 0 then General else FloatCmp
    case FCMP_SEQ_S | FCMP_SNE_S | FCMP_SLT_S | FCMP_SLE_S => ty == if k == 0 then FloatCmp else Float
    case BCEQZ | BCNEZ => ty == FloatCmp
    case _ => ty == General
  }

  predicate OperandFits(tag: Tag, k: nat, o: Operand) {
    match o
    case RegOp(r) => RegFits(tag, k, r.ty)
    case ImmOp(v) => ImmFits(tag, v)
    case LabelOp(_) => true
  }

  /** The builder's check of registers and immediates. */
  predicate Checked(i: Instr) {
    forall k :: 0 <= k < |i.operands| ==> OperandFits(i.tag, k, i.operands[k])
  }

  /** Loads and stores are of whole registers, so that a memory cell stands for the bytes of
      one.  An immediate or-ed into cleared bits is added. */
  predicate Holds(isa: Isa, law: Law) {
    match law
    case Loads(tag, suffix, off, a, s, w) =>
      ImmFits(tag, off) && ((tag == LD && suffix == DWORD) || (tag == FLD_S && suffix == NONE)) ==>
      isa(Shape(tag, suffix, [RegSlot, RegSlot, ImmSlot(off)]), [a], s, w).vals == [Mem(w, a + off)]
    case Stores(tag, suffix, off, v, a, s, w) =>
      ImmFits(tag, off) && ((tag == ST && suffix == DWORD) || (tag == FST_S && suffix == NONE)) ==>
      isa(Shape(tag, suffix, [RegSlot, RegSlot, ImmSlot(off)]), [v, a], s, w).world == World(w.mem[a + off := v], w.io)
    case Adds(a, b, s, w) =>
      isa(Shape(ADD, DWORD, [RegSlot, RegSlot, RegSlot]), [a, b], s, w).vals == [a + b]
    case AddsImm(k, a, s, w) =>
      ImmFits(ADDI, k) ==> isa(Shape(ADDI, DWORD, [RegSlot, RegSlot, ImmSlot(k)]), [a], s, w).vals == [a + k]
    case LoadsHigh(k, s, w) =>
      ImmFits(LU12I_W, k) ==> isa(Shape(LU12I_W, NONE, [RegSlot, ImmSlot(k)]), [], s, w).vals == [4096 * k]
    case OrsLow(k, a, s, w) =>
      ImmFits(ORI, k) && a % 4096 == 0 ==>
      isa(Shape(ORI, NONE, [RegSlot, RegSlot, ImmSlot(k)]), [a], s, w).vals == [a + k]
  }

  ghost predicate Lawful(isa: Isa) {
    forall law: Law {:trigger Holds(isa, law)} :: Holds(isa, law)
  }

  lemma LoadLaw(isa: Isa, ty: RegType, t: Reg, base: Reg, off: int, rs: Regs, w: World)
    requires Lawful(isa) && -2048 <= off < 2048
    ensures var i := LoadOp(ty, t, base, off);
      isa(Shape(i.tag, i.suffix, [RegSlot, RegSlot, ImmSlot(off)]), [Read(rs, base)], Read(rs, SP), w).vals ==
        [Mem(w, Read(rs, base) + off)]
  {
    var i := LoadOp(ty, t, base, off);
    assert Holds(isa, Loads(i.tag, i.suffix, off, Read(rs, base), Read(rs, SP), w));
  }

  lemma StoreLaw(isa: Isa, ty: RegType, t: Reg, base: Reg, off: int, rs: Regs, w: World, a: int, v: Value)
    requires Lawful(isa) && -2048 <= off < 2048 && a == Read(rs, base) + off && v == Read(rs, t)
    ensures var i := StoreOp(ty, t, base, off);
      isa(Shape(i.tag, i.suffix, [RegSlot, RegSlot, ImmSlot(off)]), [v, Read(rs, base)], Read(rs, SP), w).world
        == World(w.mem[a := v], w.io)
  {
    var i := StoreOp(ty, t, base, off);
    assert Holds(isa, Stores(i.tag, i.suffix, off, v, Read(rs, base), Read(rs, SP), w));
  }

  lemma AddLaw(isa: Isa, a: Value, b: Value, s: Value, w: World)
    requires Lawful(isa)
    ensures isa(Shape(ADD, DWORD, [RegSlot, RegSlot, RegSlot]), [a, b], s, w).vals == [a + b]
  {
    assert Holds(isa, Adds(a, b, s, w));
  }

  lemma HighLaw(isa: Isa, k: int, s: Value, w: World)
    requires Lawful(isa) && -0x8_0000 <= k < 0x8_0000
    ensures isa(Shape(LU12I_W, NONE, [RegSlot, ImmSlot(k)]), [], s, w).vals == [4096 * k]
  {
    assert Holds(isa, LoadsHigh(k, s, w));
  }

  lemma LowLaw(isa: Isa, k: int, a: Value, s: Value, w: World)
    requires Lawful(isa) && a % 4096 == 0 && 0 <= k < 4096
    ensures isa(Shape(ORI, NONE, [RegSlot, RegSlot, ImmSlot(k)]), [a], s, w).vals == [a + k]
  {
    assert Holds(isa, OrsLow(k, a, s, w));
  }

  predicate Below(r: Reg, n: nat) { r.Phys? || r.id < n }

  /** All registers numbered below n, but dst, are as before. */
  ghost predicate Keeps(rs: Regs, rs': Regs, n: nat, dst: Reg) {
    forall x {:trigger Read(rs', x)} :: Below(x, n) && x != dst ==> Read(rs', x) == Read(rs, x)
  }

  lemma RegsOfOne(r: Reg, rest: seq<Operand>)
    ensures RegsOf([RegOp(r)] + rest) == [r] + RegsOf(rest)
  {
    assert ([RegOp(r)] + rest)[1..] == rest;
  }

  lemma NoRegs(o: Operand)
    requires !o.RegOp?
    ensures RegsOf([o]) == [] && RegsOf([]) == []
  {
    assert [o][1..] == [];
  }

  /** The operands of an instruction that names a destination, a source and an immediate. */
  lemma ShapeRRI(tag: Tag, suffix: Suffix, d: Reg, s: Reg, k: int)
    requires tag != MOV && tag != BL && tag != JR
    ensures var i := Plain(tag, suffix, [RegOp(d), RegOp(s), ImmOp(k)]);
      && WellFormed(i) && ShapeOf(i) == Shape(tag, suffix, [RegSlot, RegSlot, ImmSlot(k)])
      && Reads(i) == if HasDst(i) then [s] else [d, s]
  {
    var i := Plain(tag, suffix, [RegOp(d), RegOp(s), ImmOp(k)]);
    assert ShapeOf(i).slots == [RegSlot, RegSlot, ImmSlot(k)];
    RegsRRI(d, s, k);
    TagsAgree(i);
  }

  lemma RegsRRI(d: Reg, s: Reg, k: int)
    ensures var ops := [RegOp(d), RegOp(s), ImmOp(k)]; RegsOf(ops) == [d, s] && RegsOf(ops[1..]) == [s]
  {
    var ops := [RegOp(d), RegOp(s), ImmOp(k)];
    assert ops[1..] == [RegOp(s)] + [ImmOp(k)];
    assert ops == [RegOp(d)] + ops[1..];
    RegsOfOne(d, ops[1..]);
    RegsOfOne(s, [ImmOp(k)]);
    NoRegs(ImmOp(k));
  }

  lemma ShapeRRR(d: Reg, s: Reg, t: Reg)
    ensures var i := Plain(ADD, DWORD, [RegOp(d), RegOp(s), RegOp(t)]);
      && WellFormed(i) && ShapeOf(i) == Shape(ADD, DWORD, [RegSlot, RegSlot, RegSlot]) && Reads(i) == [s, t]
  {
    var i := Plain(ADD, DWORD, [RegOp(d), RegOp(s), RegOp(t)]);
    assert ShapeOf(i).slots == [RegSlot, RegSlot, RegSlot];
    assert i.operands[1..] == [RegOp(s)] + ([RegOp(t)] + []);
    RegsOfOne(s, [RegOp(t)] + []);
    RegsOfOne(t, []);
  }

  lemma ShapeRI(d: Reg, k: int)
    ensures var i := Plain(LU12I_W, NONE, [RegOp(d), ImmOp(k)]);
      && WellFormed(i) && ShapeOf(i) == Shape(LU12I_W, NONE, [RegSlot, ImmSlot(k)]) && Reads(i) == []
  {
    var i := Plain(LU12I_W, NONE, [RegOp(d), ImmOp(k)]);
    assert ShapeOf(i).slots == [RegSlot, ImmSlot(k)];
    assert i.operands[1..] == [ImmOp(k)];
    NoRegs(ImmOp(k));
  }

  /** The block runs from its beginning to its end. */
  ghost predicate RunsTo(isa: Isa, b: Block, rs: Regs, w: World, rs': Regs, w': World) {
    WellFormedBlock(b) && ExecBlock(isa, b, rs, w) == Fall(rs', w')
  }

  lemma RunsOne(isa: Isa, i: Instr, rs: Regs, w: World, rs': Regs, w': World)
    requires WellFormed(i) && Exec(isa, i, rs, w) == Fall(rs', w')
    ensures RunsTo(isa, [i], rs, w, rs', w')
  {
    assert [i][1..] == [];
  }

  lemma RunsBoth(isa: Isa, a: Block, b: Block, rs: Regs, w: World, rs1: Regs, w1: World, rs2: Regs, w2: World)
    requires RunsTo(isa, a, rs, w, rs1, w1) && RunsTo(isa, b, rs1, w1, rs2, w2)
    ensures RunsTo(isa, a + b, rs, w, rs2, w2)
  {
    ExecAppend(isa, a, b, rs, w);
  }

  lemma ExecWrites(isa: Isa, i: Instr, rs: Regs, w: World, v: Value)
    requires WellFormed(i) && HasDst(i) && i.tag != MOV && i.operands[0].reg != ZERO
    requires isa(ShapeOf(i), ReadAll(rs, Reads(i)), Read(rs, SP), w).vals == [v]
    ensures RunsTo(isa, [i], rs, w, rs[i.operands[0].reg := v], w)
  {
    WriteOne(rs, i.operands[0].reg, [v]);
    assert Defs(i) == [i.operands[0].reg];
    RunsOne(isa, i, rs, w, rs[i.operands[0].reg := v], w);
  }

  lemma ExecStores(isa: Isa, i: Instr, rs: Regs, w: World, w': World)
    requires WellFormed(i) && (i.tag == ST || i.tag == FST_S)
    requires isa(ShapeOf(i), ReadAll(rs, Reads(i)), Read(rs, SP), w).world == w'
    ensures RunsTo(isa, [i], rs, w, rs, w')
  {
    assert Defs(i) == [];
    RunsOne(isa, i, rs, w, rs, w');
  }

  lemma ReadOne(rs: Regs, s: Reg)
    ensures ReadAll(rs, [s]) == [Read(rs, s)]
  {
  }

  lemma ReadTwo(rs: Regs, s: Reg, t: Reg)
    ensures ReadAll(rs, [s, t]) == [Read(rs, s), Read(rs, t)]
  {
  }

  lemma LowRuns(isa: Isa, reg: Reg, s: Reg, k: int, rs: Regs, w: World, v: Value)
    requires Lawful(isa) && reg != ZERO && Read(rs, s) % 4096 == 0 && 0 <= k < 4096 && v == Read(rs, s) + k
    ensures RunsTo(isa, [Plain(ORI, NONE, [RegOp(reg), RegOp(s), ImmOp(k)])], rs, w, rs[reg := v], w)
  {
    ShapeRRI(ORI, NONE, reg, s, k);
    LowLaw(isa, k, Read(rs, s), Read(rs, SP), w);
    ReadOne(rs, s);
    ExecWrites(isa, Plain(ORI, NONE, [RegOp(reg), RegOp(s), ImmOp(k)]), rs, w, v);
  }

  lemma AddRuns(isa: Isa, reg: Reg, s: Reg, t: Reg, rs: Regs, w: World, v: Value)
    requires Lawful(isa) && reg != ZERO && v == Read(rs, s) + Read(rs, t)
    ensures RunsTo(isa, [Plain(ADD, DWORD, [RegOp(reg), RegOp(s), RegOp(t)])], rs, w, rs[reg := v], w)
  {
    ShapeRRR(reg, s, t);
    AddLaw(isa, Read(rs, s), Read(rs, t), Read(rs, SP), w);
    ReadTwo(rs, s, t);
    ExecWrites(isa, Plain(ADD, DWORD, [RegOp(reg), RegOp(s), RegOp(t)]), rs, w, v);
  }

  lemma HighRuns(isa: Isa, reg: Reg, k: int, rs: Regs, w: World, v: Value)
    requires Lawful(isa) && reg != ZERO && -0x8_0000 <= k < 0x8_0000 && v == 4096 * k
    ensures RunsTo(isa, [Plain(LU12I_W, NONE, [RegOp(reg), ImmOp(k)])], rs, w, rs[reg := v], w)
  {
    ShapeRI(reg, k);
    HighLaw(isa, k, Read(rs, SP), w);
    assert ReadAll(rs, []) == [];
    ExecWrites(isa, Plain(LU12I_W, NONE, [RegOp(reg), ImmOp(k)]), rs, w, v);
  }

  lemma LoadRuns(isa: Isa, ty: RegType, t: Reg, base: Reg, off: int, rs: Regs, w: World, v: Value)
    requires Lawful(isa) && -2048 <= off < 2048 && t != ZERO && v == Mem(w, Read(rs, base) + off)
    ensures RunsTo(isa, [LoadOp(ty, t, base, off)], rs, w, rs[t := v], w)
  {
    var i := LoadOp(ty, t, base, off);
    LoadLaw(isa, ty, t, base, off, rs, w);
    ShapeRRI(i.tag, i.suffix, t, base, off);
    ReadOne(rs, base);
    ExecWrites(isa, i, rs, w, v);
  }

  lemma StoreRuns(isa: Isa, ty: RegType, t: Reg, base: Reg, off: int, rs: Regs, w: World, a: int, v: Value)
    requires Lawful(isa) && -2048 <= off < 2048 && a == Read(rs, base) + off && v == Read(rs, t)
    ensures RunsTo(isa, [StoreOp(ty, t, base, off)], rs, w, rs, World(w.mem[a := v], w.io))
  {
    var i := StoreOp(ty, t, base, off);
    StoreLaw(isa, ty, t, base, off, rs, w, a, v);
    ShapeRRI(i.tag, i.suffix, t, base, off);
    ReadTwo(rs, t, base);
    ExecStores(isa, i, rs, w, World(w.mem[a := v], w.io));
  }

  lemma KeepsWrite(rs: Regs, rs1: Regs, n: nat, k: nat, tmp: Reg, dst: Reg, v: Value)
    requires n <= k && !Below(tmp, n) && Keeps(rs, rs1, k, tmp) && dst != ZERO
    ensures Keeps(rs, rs1[dst := v], n, dst) && Read(rs1[dst := v], dst) == v
  {
    forall x | Below(x, n) && x != dst
      ensures Read(rs1[dst := v], x) == Read(rs, x)
    {
      assert Below(x, k) && x != tmp;
      assert Read(rs1, x) == Read(rs, x);
    }
  }

  lemma TwoPartsRun(isa: Isa, hi: int, lo: int, reg: Reg, tmp: Reg, n: nat, rs: Regs, w: World, v: Value)
    returns (rs': Regs)
    requires Lawful(isa) && reg != ZERO && !Below(tmp, n)
    requires -0x8_0000 <= hi < 0x8_0000 && 0 <= lo < 4096 && v == 4096 * hi + lo
    ensures RunsTo(isa, [Plain(LU12I_W, NONE, [RegOp(tmp), ImmOp(hi)])] +
                   [Plain(ORI, NONE, [RegOp(reg), RegOp(tmp), ImmOp(lo)])], rs, w, rs', w)
    ensures Read(rs', reg) == v && Keeps(rs, rs', n, reg)
  {
    var u := 4096 * hi;
    var rs1 := rs[tmp := u];
    HighRuns(isa, tmp, hi, rs, w, u);
    KeepsWrite(rs, rs, n, n, tmp, tmp, u);
    LowRuns(isa, reg, tmp, lo, rs1, w, v);
    rs' := rs1[reg := v];
    KeepsWrite(rs, rs1, n, n, tmp, reg, v);
    RunsBoth(isa, [Plain(LU12I_W, NONE, [RegOp(tmp), ImmOp(hi)])],
             [Plain(ORI, NONE, [RegOp(reg), RegOp(tmp), ImmOp(lo)])],
             rs, w, rs1, w, rs', w);
  }

  lemma PartsRun(isa: Isa, hi: int, lo: int, reg: Reg, n: nat, rs: Regs, w: World, v: Value) returns (rs': Regs)
    requires Lawful(isa) && reg != ZERO
    requires -0x8_0000 <= hi < 0x8_0000 && 0 <= lo < 4096 && v == 4096 * hi + lo
    ensures RunsTo(isa, LoadParts(hi, lo, reg, n), rs, w, rs', w)
    ensures Read(rs', reg) == v && Keeps(rs, rs', n, reg)
  {
    if hi == 0 {
      LowRuns(isa, reg, ZERO, lo, rs, w, v);
      rs' := rs[reg := v];
      KeepsWrite(rs, rs, n, n, Virt(General, n), reg, v);
    } else {
      rs' := TwoPartsRun(isa, hi, lo, reg, Virt(General, n), n, rs, w, v);
    }
  }

  lemma PartsOf(val: int)
    requires Int32(val)
    ensures -0x8_0000 <= val / 4096 < 0x8_0000 && 0 <= val % 4096 < 4096 && 4096 * (val / 4096) + val % 4096 == val
  {
  }

  /** Any 32-bit number is loaded in two instructions, or one. */
  lemma LoadInt32Runs(isa: Isa, val: int, reg: Reg, n: nat, rs: Regs, w: World) returns (rs': Regs)
    requires Lawful(isa) && Int32(val) && reg != ZERO
    ensures RunsTo(isa, LoadInt32(val, reg, n), rs, w, rs', w)
    ensures Read(rs', reg) == val && Keeps(rs, rs', n, reg)
  {
    PartsOf(val);
    rs' := PartsRun(isa, val / 4096, val % 4096, reg, n, rs, w, val);
  }

  lemma AddImmRuns(isa: Isa, reg: Reg, s: Reg, k: int, rs: Regs, w: World, v: Value)
    requires Lawful(isa) && reg != ZERO && -2048 <= k < 2048 && v == Read(rs, s) + k
    ensures RunsTo(isa, [Plain(ADDI, DWORD, [RegOp(reg), RegOp(s), ImmOp(k)])], rs, w, rs[reg := v], w)
  {
    ShapeRRI(ADDI, DWORD, reg, s, k);
    assert Holds(isa, AddsImm(k, Read(rs, s), Read(rs, SP), w));
    ReadOne(rs, s);
    ExecWrites(isa, Plain(ADDI, DWORD, [RegOp(reg), RegOp(s), ImmOp(k)]), rs, w, v);
  }

  lemma MoveRuns(isa: Isa, d: Reg, s: Reg, rs: Regs, w: World)
    requires d.ty == s.ty && d != ZERO
    ensures RunsTo(isa, [Plain(MOV, NONE, [RegOp(d), RegOp(s)])], rs, w, rs[d := Read(rs, s)], w)
  {
    RunsOne(isa, Plain(MOV, NONE, [RegOp(d), RegOp(s)]), rs, w, rs[d := Read(rs, s)], w);
  }

  /** Adding a constant that needs registers of its own. */
  lemma AddLargeRuns(isa: Isa, dst: Reg, src: Reg, val: int, n: nat, rs: Regs, w: World, v: Value)
      returns (rs': Regs)
    requires Lawful(isa) && Int32(val) && !Imm12(val) && Below(src, n) && dst != ZERO && v == Read(rs, src) + val
    ensures RunsTo(isa, AddIntToReg(dst, src, val, n), rs, w, rs', w)
    ensures Read(rs', dst) == v && Keeps(rs, rs', n, dst)
  {
    var tmp := Virt(General, n);
    var rs1 := LoadInt32Runs(isa, val, tmp, n + 1, rs, w);
    assert Read(rs1, src) == Read(rs, src);
    AddRuns(isa, dst, src, tmp, rs1, w, v);
    rs' := rs1[dst := v];
    KeepsWrite(rs, rs1, n, n + 1, tmp, dst, v);
    RunsBoth(isa, LoadInt32(val, tmp, n + 1), [Plain(ADD, DWORD, [RegOp(dst), RegOp(src), RegOp(tmp)])],
             rs, w, rs1, w, rs', w);
  }

  /** Adding any 32-bit constant to a register changes the destination and fresh registers only. */
  lemma AddIntRuns(isa: Isa, dst: Reg, src: Reg, val: int, n: nat, rs: Regs, w: World, v: Value) returns (rs': Regs)
    requires Lawful(isa) && Int32(val) && Below(src, n) && dst != ZERO && dst.ty == src.ty
    requires v == Read(rs, src) + val
    ensures RunsTo(isa, AddIntToReg(dst, src, val, n), rs, w, rs', w)
    ensures Read(rs', dst) == v && Keeps(rs, rs', n, dst)
  {
    var tmp := Virt(General, n);
    if src == dst && val == 0 {
      rs' := rs;
    } else if val == 0 {
      MoveRuns(isa, dst, src, rs, w);
      rs' := rs[dst := v];
      KeepsWrite(rs, rs, n, n, tmp, dst, v);
    } else if Imm12(val) {
      AddImmRuns(isa, dst, src, val, rs, w, v);
      rs' := rs[dst := v];
      KeepsWrite(rs, rs, n, n, tmp, dst, v);
    } else {
      rs' := AddLargeRuns(isa, dst, src, val, n, rs, w, v);
    }
  }

  /** An address in a fresh register. */
  lemma AddressRuns(isa: Isa, base: Reg, off: int, n: nat, rs: Regs, w: World, a: int) returns (rs': Regs)
    requires Lawful(isa) && Int32(off) && base.Phys? && base.ty == General && a == Read(rs, base) + off
    ensures RunsTo(isa, AddIntToReg(Virt(General, n), base, off, n + 1), rs, w, rs', w)
    ensures Read(rs', Virt(General, n)) == a && Keeps(rs, rs', n, Virt(General, n))
  {
    rs' := AddIntRuns(isa, Virt(General, n), base, off, n + 1, rs, w, a);
    forall x | Below(x, n)
      ensures Read(rs', x) == Read(rs, x)
    {
      assert Below(x, n + 1);
    }
  }

  lemma FarLoadRuns(isa: Isa, ty: RegType, base: Reg, off: int, t: Reg, n: nat, rs: Regs, w: World, a: int, v: Value)
    returns (rs': Regs)
    requires Lawful(isa) && Int32(off) && base.Phys? && base.ty == General && t.Virt?
    requires a == Read(rs, base) + off && v == Mem(w, a)
    ensures RunsTo(isa, AddIntToReg(Virt(General, n), base, off, n + 1) + [LoadOp(ty, t, Virt(General, n), 0)], rs, w,
                   rs', w)
    ensures Read(rs', t) == v && Keeps(rs, rs', n, t)
  {
    var at := Virt(General, n);
    var rs1 := AddressRuns(isa, base, off, n, rs, w, a);
    LoadRuns(isa, ty, t, at, 0, rs1, w, v);
    rs' := rs1[t := v];
    KeepsWrite(rs, rs1, n, n, at, t, v);
    RunsBoth(isa, AddIntToReg(at, base, off, n + 1), [LoadOp(ty, t, at, 0)], rs, w, rs1, w, rs', w);
  }

  /** A register through which r's slot can be reached holds the address of the frame: the stack
      pointer for registers that are saved before the frame pointer is set, and else the frame
      pointer. */
  predicate AtHand(sp: Spills, frame: int, r: Reg, rs: Regs) {
    if r in sp.viaSp then Read(rs, SP) == frame else Read(rs, FP) == frame
  }

  /** Loading a slot puts its contents into t and disturbs nothing else that is numbered below. */
  lemma LoadSlotRuns(isa: Isa, sp: Spills, frame: int, r: Reg, t: Reg, n: nat, rs: Regs, w: World, v: Value)
      returns (rs': Regs)
    requires Lawful(isa) && r in sp.offset && Int32(sp.offset[r]) && t.Virt?
    requires AtHand(sp, frame, r, rs) && v == Mem(w, frame + sp.offset[r])
    ensures RunsTo(isa, LoadSlot(sp, r, t, n), rs, w, rs', w)
    ensures Read(rs', t) == v && Keeps(rs, rs', n, t)
  {
    rs' := LoadThroughBase(isa, sp, r, t, n, rs, w, frame + sp.offset[r], v);
  }

  lemma LoadThroughBase(isa: Isa, sp: Spills, r: Reg, t: Reg, n: nat, rs: Regs, w: World, a: int, v: Value)
      returns (rs': Regs)
    requires Lawful(isa) && r in sp.offset && Int32(sp.offset[r]) && t.Virt?
    requires a == Read(rs, Base(sp, r)) + sp.offset[r] && v == Mem(w, a)
    ensures RunsTo(isa, LoadSlot(sp, r, t, n), rs, w, rs', w)
    ensures Read(rs', t) == v && Keeps(rs, rs', n, t)
  {
    var off, base := sp.offset[r], Base(sp, r);
    if Imm12(off) {
      LoadRuns(isa, r.ty, t, base, off, rs, w, v);
      rs' := rs[t := v];
      KeepsWrite(rs, rs, n, n, Virt(General, n), t, v);
    } else {
      rs' := FarLoadRuns(isa, r.ty, base, off, t, n, rs, w, a, v);
    }
  }

  lemma FarStoreRuns(isa: Isa, ty: RegType, base: Reg, off: int, t: Reg, n: nat, rs: Regs, w: World, a: int, v: Value)
    returns (rs': Regs)
    requires Lawful(isa) && Int32(off) && base.Phys? && base.ty == General && t.Virt? && t.id < n
    requires a == Read(rs, base) + off && v == Read(rs, t)
    ensures RunsTo(isa, AddIntToReg(Virt(General, n), base, off, n + 1) + [StoreOp(ty, t, Virt(General, n), 0)], rs, w,
                   rs', World(w.mem[a := v], w.io))
    ensures Keeps(rs, rs', n, Virt(General, n))
  {
    var at := Virt(General, n);
    rs' := AddressRuns(isa, base, off, n, rs, w, a);
    assert Read(rs', t) == v;
    StoreRuns(isa, ty, t, at, 0, rs', w, a, v);
    RunsBoth(isa, AddIntToReg(at, base, off, n + 1), [StoreOp(ty, t, at, 0)], rs, w, rs', w, rs',
             World(w.mem[a := v], w.io));
  }

  /** Storing to a slot changes that one memory cell, and no register that is numbered below. */
  lemma StoreSlotRuns(isa: Isa, sp: Spills, frame: int, r: Reg, t: Reg, n: nat, rs: Regs, w: World, a: int, v: Value)
      returns (rs': Regs)
    requires Lawful(isa) && r in sp.offset && Int32(sp.offset[r]) && t.Virt? && t.id < n
    requires AtHand(sp, frame, r, rs) && a == frame + sp.offset[r] && v == Read(rs, t)
    ensures RunsTo(isa, StoreSlot(sp, r, t, n), rs, w, rs', World(w.mem[a := v], w.io))
    ensures Keeps(rs, rs', n, Virt(General, n))
  {
    rs' := StoreThroughBase(isa, sp, r, t, n, rs, w, a, v);
  }

  lemma StoreThroughBase(isa: Isa, sp: Spills, r: Reg, t: Reg, n: nat, rs: Regs, w: World, a: int, v: Value)
      returns (rs': Regs)
    requires Lawful(isa) && r in sp.offset && Int32(sp.offset[r]) && t.Virt? && t.id < n
    requires a == Read(rs, Base(sp, r)) + sp.offset[r] && v == Read(rs, t)
    ensures RunsTo(isa, StoreSlot(sp, r, t, n), rs, w, rs', World(w.mem[a := v], w.io))
    ensures Keeps(rs, rs', n, Virt(General, n))
  {
    var off, base := sp.offset[r], Base(sp, r);
    if Imm12(off) {
      StoreRuns(isa, r.ty, t, base, off, rs, w, a, v);
      rs' := rs;
    } else {
      rs' := FarStoreRuns(isa, r.ty, base, off, t, n, rs, w, a, v);
    }
  }

  // ----- every immediate fits -----

  ghost predicate AllChecked(b: Block) { forall i :: i in b ==> Checked(i) }

  lemma AddressChecked(dst: Reg, src: Reg, val: int, n: nat)
    requires Int32(val) && dst.ty == src.ty == General
    ensures AllChecked(AddIntToReg(dst, src, val, n))
  {
    PartsOf(val);
  }

  lemma CheckedRRI(tag: Tag, suffix: Suffix, d: Reg, s: Reg, k: int)
    requires RegFits(tag, 0, d.ty) && RegFits(tag, 1, s.ty) && ImmFits(tag, k)
    ensures Checked(Plain(tag, suffix, [RegOp(d), RegOp(s), ImmOp(k)]))
  {
  }

  lemma OpsChecked(ty: RegType, t: Reg, base: Reg, off: int)
    requires -2048 <= off < 2048 && base.ty == General && t.ty == ty && ty != FloatCmp
    ensures Checked(LoadOp(ty, t, base, off)) && Checked(StoreOp(ty, t, base, off))
  {
    CheckedRRI(LoadOp(ty, t, base, off).tag, LoadOp(ty, t, base, off).suffix, t, base, off);
    CheckedRRI(StoreOp(ty, t, base, off).tag, StoreOp(ty, t, base, off).suffix, t, base, off);
  }

  /** The code for a slot passes the builder's check, however far the slot is from its base; and one
      instruction is enough exactly when the offset fits. */
  lemma SlotsChecked(sp: Spills, r: Reg, t: Reg, n: nat)
    requires r in sp.offset && Int32(sp.offset[r]) && t.ty == r.ty && r.ty != FloatCmp
    ensures AllChecked(LoadSlot(sp, r, t, n)) && AllChecked(StoreSlot(sp, r, t, n))
    ensures -2048 <= sp.offset[r] < 2048 <==> |LoadSlot(sp, r, t, n)| == 1
    ensures -2048 <= sp.offset[r] < 2048 <==> |StoreSlot(sp, r, t, n)| == 1
  {
    var off, base, at := sp.offset[r], Base(sp, r), Virt(General, n);
    if Imm12(off) {
      OpsChecked(r.ty, t, base, off);
    } else {
      AddressChecked(at, base, off, n + 1);
      OpsChecked(r.ty, t, at, 0);
    }
  }
}
