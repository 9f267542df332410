// The machine code that instruction selection produces, as the later passes see it:
// registers, instructions, the registers an instruction reads and writes, and what it
// means to run a function made of such instructions.
//
// Registers are values here.  The compiler interns them (one object per register), so
// comparing two of them for identity and comparing them for equality agree.

module Machine {

  datatype RegType = General | Float | FloatCmp

  datatype Reg =
    | Phys(ty: RegType, id: nat)
    | Virt(ty: RegType, id: nat)

  const ZERO := Phys(General, 0)
  const SP := Phys(General, 3)
  const FP := Phys(General, 22)

  datatype Tag =
    | MOV
    | ADD | ADDI | SUB | MUL | DIV | MOD
    | SLL | SRL | SLLI | SRLI | SRAI
    | LU12I_W | LU32I_D | LU52I_D
    | SLT | SLTU | SLTI | SLTUI
    | AND | OR | NOR | XOR | ANDN | ORN | ANDI | ORI | XORI
    | BEQ | BNE | BLT | BGE | BLTU | BGEU | BEQZ | BNEZ | B | BL | JIRL
    | LD | ST
    | JR | LA_LOCAL
    | FADD_S | FSUB_S | FMUL_S | FDIV_S
    | FFINT_S_W | FTINTRZ_W_S
    | MOVGR2FR_W | MOVFR2GR_S | MOVGR2CF | MOVCF2GR
    | FLD_S | FST_S
    | FCMP_SEQ_S | FCMP_SNE_S | FCMP_SLT_S | FCMP_SLE_S
    | BCEQZ | BCNEZ

  /** The width an instruction works on. */
  datatype Suffix = BYTE | HALF | WORD | DWORD | NONE

  datatype Operand = RegOp(reg: Reg) | ImmOp(value: int) | LabelOp(target: nat)

  // `passed` lists the physical registers that carry the arguments of a BL (the callee's
  // parameter schedule), or what a JR hands back: the callee-saved registers and the result.
  // `clobbered` lists what a BL overwrites: the caller-saved registers and the return address.
  datatype Instr = Instr(tag: Tag, suffix: Suffix, operands: seq<Operand>, passed: seq<Reg>, clobbered: seq<Reg>,
                         reserved: bool)

  predicate HasDst(i: Instr) {
    match i.tag
    case BEQ | BNE | BLT | BGE | BLTU | BGEU | BEQZ | BNEZ | B | BL | BCEQZ | BCNEZ | JR | ST | FST_S => false
    case _ => true
  }

  predicate IsBranch(i: Instr) {
    match i.tag
    case BEQ | BNE | BLT | BGE | BLTU | BGEU | BEQZ | BNEZ | B | BCEQZ | BCNEZ => true
    case _ => false
  }

  /** What the processor does with an instruction: it goes to a label or to the next instruction;
      it changes memory; it calls; it returns; or it computes a value for one register. */
  datatype Kind = Jumps | Saves | Calls | Leaves | Computes

  function KindOf(tag: Tag): Kind {
    match tag
    case BEQ | BNE | BLT | BGE | BLTU | BGEU => Jumps
    case BEQZ | BNEZ | BCEQZ | BCNEZ => Jumps
    case B => Jumps
    case ST | FST_S => Saves
    case BL => Calls
    case JR => Leaves
    case _ => Computes
  }

  /** Instructions as the checker of the builder lets them through: an instruction that computes
      a value names the register for it first, a move has two registers of one type, and the
      registers a call or a return touches implicitly are physical. */
  predicate WellFormed(i: Instr) {
    && (KindOf(i.tag).Computes? ==> |i.operands| > 0 && i.operands[0].RegOp?)
    && (i.tag == MOV ==> |i.operands| == 2 && i.operands[1].RegOp?
                         && i.operands[0].reg.ty == i.operands[1].reg.ty)
    && (forall r :: r in i.passed ==> r.Phys? && r != ZERO)
    && (forall r :: r in i.clobbered ==> r.Phys? && r != ZERO)
  }

  /** The registers named by a list of operands, in order. */
  function RegsOf(ops: seq<Operand>): (rs: seq<Reg>)
    ensures forall r :: r in rs <==> RegOp(r) in ops
  {
    if ops == [] then []
    else if ops[0].RegOp? then [ops[0].reg] + RegsOf(ops[1..])
    else RegsOf(ops[1..])
  }

  /** The registers whose values an instruction depends on. */
  function Reads(i: Instr): seq<Reg>
    requires WellFormed(i)
  {
    match KindOf(i.tag)
    case Calls | Leaves => i.passed
    case Jumps | Saves => RegsOf(i.operands)
    case Computes => RegsOf(i.operands[1..])
  }

  /** What the compiler takes the uses of an instruction to be: an operand equal to the
      destination is skipped, and so is the zero register. */
  function Uses(i: Instr): set<Reg>
    requires WellFormed(i)
  {
    if i.tag == BL || i.tag == JR then set r | r in Reads(i)
    else set r | r in Reads(i) && r != ZERO && !(HasDst(i) && RegOp(r) == i.operands[0])
  }

  function Defs(i: Instr): seq<Reg>
    requires WellFormed(i)
  {
    if i.tag == BL then i.clobbered
    else if HasDst(i) && i.operands[0].reg != ZERO then [i.operands[0].reg]
    else []
  }

  function DefSet(i: Instr): set<Reg>
    requires WellFormed(i)
  {
    set r | r in Defs(i)
  }

  /** No source operand is also the destination, except for stack pointer adjustments. */
  predicate DistinctOperands(i: Instr)
    requires WellFormed(i)
  {
    HasDst(i) ==> forall r :: r in Reads(i) && RegOp(r) == i.operands[0] ==> r == SP || r == ZERO
  }

  /** That condition is exactly what it takes for `Uses` to forget nothing but the two
      registers that need no tracking. */
  lemma UsesCoverReads(i: Instr)
    requires WellFormed(i)
    ensures DistinctOperands(i) <==> forall r :: r in Reads(i) ==> r in Uses(i) || r == SP || r == ZERO
  {
    if DistinctOperands(i) {
      forall r | r in Reads(i)
        ensures r in Uses(i) || r == SP || r == ZERO
      {
      }
    } else {
      var r :| r in Reads(i) && RegOp(r) == i.operands[0] && r != SP && r != ZERO;
      assert r !in Uses(i);
    }
  }

  /** Which physical register stands for a virtual one. */
  type ColorMap = map<Reg, Reg>

  function Color(c: ColorMap, r: Reg): Reg {
    if r.Virt? && r in c then c[r] else r
  }

  lemma UsesAreTracked(i: Instr, r: Reg)
    requires WellFormed(i) && r in Uses(i)
    ensures r != ZERO
  {
  }

  // ----- running machine code -----

  type Value = int
  type Regs = map<Reg, Value>

  /** Everything outside the register file: memory, and what calls have read and written. */
  datatype World = World(mem: map<int, Value>, io: seq<Value>)

  function Read(rs: Regs, r: Reg): Value {
    if r == ZERO then 0 else if r in rs then rs[r] else 0
  }

  function Write(rs: Regs, r: Reg, v: Value): Regs {
    if r == ZERO then rs else rs[r := v]
  }

  function ReadAll(rs: Regs, srcs: seq<Reg>): (vs: seq<Value>)
    ensures |vs| == |srcs|
    ensures forall k :: 0 <= k < |srcs| ==> vs[k] == Read(rs, srcs[k])
  {
    seq(|srcs|, k requires 0 <= k < |srcs| => Read(rs, srcs[k]))
  }

  /** Writes vals[k] to dsts[k], in order; a missing value counts as 0. */
  function WriteAll(rs: Regs, dsts: seq<Reg>, vals: seq<Value>): Regs
    decreases |dsts|
  {
    if dsts == [] then rs
    else if vals == [] then WriteAll(Write(rs, dsts[0], 0), dsts[1..], [])
    else WriteAll(Write(rs, dsts[0], vals[0]), dsts[1..], vals[1..])
  }

  // An instruction with its registers left out: what remains decides what it computes.
  datatype Slot = RegSlot | ImmSlot(value: int) | LabelSlot(target: nat)
  datatype Shape = Shape(tag: Tag, suffix: Suffix, slots: seq<Slot>)

  function SlotOf(o: Operand): Slot {
    match o
    case RegOp(_) => RegSlot
    case ImmOp(v) => ImmSlot(v)
    case LabelOp(l) => LabelSlot(l)
  }

  function ShapeOf(i: Instr): Shape {
    Shape(i.tag, i.suffix, seq(|i.operands|, k requires 0 <= k < |i.operands| => SlotOf(i.operands[k])))
  }

  /** What one instruction computes: the values it writes, the world it leaves, and whether a
      conditional branch is taken. */
  datatype Effect = Effect(vals: seq<Value>, world: World, taken: bool)

  /** The processor, and the functions that calls reach: what an instruction of a given shape
      computes from the values it reads, the stack pointer and the world. */
  type Isa = (Shape, seq<Value>, Value, World) -> Effect

  datatype Result =
    | Fall(rs: Regs, world: World)
    | Goto(target: nat, rs: Regs, world: World)
    | Return(vals: seq<Value>, world: World)

  /** The last operand is a label. */
  predicate EndsInLabel(i: Instr) {
    |i.operands| > 0 && i.operands[|i.operands| - 1].LabelOp?
  }

  predicate HasTarget(i: Instr) {
    IsBranch(i) && EndsInLabel(i)
  }

  function Target(i: Instr): nat
    requires HasTarget(i)
  {
    i.operands[|i.operands| - 1].target
  }

  /** One instruction.  A branch writes no register, and goes to its label if it is unconditional
      or its test holds; what computes a value writes that to its first operand. */
  function Exec(isa: Isa, i: Instr, rs: Regs, w: World): Result
    requires WellFormed(i)
  {
    if i.tag == MOV then
      Fall(Write(rs, i.operands[0].reg, Read(rs, i.operands[1].reg)), w)
    else
      var vals := ReadAll(rs, Reads(i));
      var e := isa(ShapeOf(i), vals, Read(rs, SP), w);
      match KindOf(i.tag)
      case Jumps =>
        if EndsInLabel(i) && (i.tag == B || e.taken) then Goto(i.operands[|i.operands| - 1].target, rs, w)
        else Fall(rs, w)
      case Saves => Fall(rs, e.world)
      case Calls => Fall(WriteAll(rs, i.clobbered, e.vals), e.world)
      case Leaves => Return(vals, w)
      case Computes => Fall(Write(rs, i.operands[0].reg, if e.vals == [] then 0 else e.vals[0]), w)
  }

  /** The lists of tags in the compiler agree with what the processor does. */
  lemma TagsAgree(i: Instr)
    ensures HasDst(i) <==> KindOf(i.tag).Computes?
    ensures IsBranch(i) <==> KindOf(i.tag).Jumps?
  {
  }

  /** Of instructions that compute no value, all registers that are named are used, and but for
      calls none is defined. */
  lemma NamedIsUsed(i: Instr)
    requires WellFormed(i) && i.tag != BL && i.tag != JR
    ensures IsBranch(i) || i.tag == ST || i.tag == FST_S ==>
      !HasDst(i) && DefSet(i) == {} && forall r :: RegOp(r) in i.operands && r != ZERO ==> r in Uses(i)
  {
  }

  /** The same in the compiler's terms. */
  lemma ExecByDefs(isa: Isa, i: Instr, rs: Regs, w: World)
    requires WellFormed(i) && i.tag != MOV && i.tag != JR
    ensures var e := isa(ShapeOf(i), ReadAll(rs, Reads(i)), Read(rs, SP), w);
      Exec(isa, i, rs, w) ==
        if HasTarget(i) && (i.tag == B || e.taken) then Goto(Target(i), rs, w)
        else Fall(WriteAll(rs, Defs(i), e.vals), if HasDst(i) || IsBranch(i) then w else e.world)
  {
    TagsAgree(i);
    if HasDst(i) {
      WriteOne(rs, i.operands[0].reg, isa(ShapeOf(i), ReadAll(rs, Reads(i)), Read(rs, SP), w).vals);
    }
  }

  /** An instruction writes what it defines, and nothing else. */
  lemma WritesDefs(isa: Isa, i: Instr, rs: Regs, w: World)
    requires WellFormed(i)
    ensures var r := Exec(isa, i, rs, w);
      match r
      case Fall(rs', _) => forall x {:trigger Read(rs', x)} :: x !in DefSet(i) ==> Read(rs', x) == Read(rs, x)
      case Goto(_, rs', w') => rs' == rs && w' == w
      case Return(_, w') => w' == w
  {
    if KindOf(i.tag).Calls? {
      var e := isa(ShapeOf(i), ReadAll(rs, Reads(i)), Read(rs, SP), w);
      forall x | x !in i.clobbered
        ensures Read(WriteAll(rs, i.clobbered, e.vals), x) == Read(rs, x)
      {
        WriteAllElse(rs, i.clobbered, e.vals, x);
      }
    }
  }

  lemma {:induction false} WriteAllElse(rs: Regs, ds: seq<Reg>, vals: seq<Value>, x: Reg)
    requires x !in ds
    ensures Read(WriteAll(rs, ds, vals), x) == Read(rs, x)
    decreases |ds|
  {
    if ds != [] {
      var v := if vals == [] then 0 else vals[0];
      WriteAllElse(Write(rs, ds[0], v), ds[1..], if vals == [] then [] else vals[1..], x);
    }
  }

  type Block = seq<Instr>

  predicate WellFormedBlock(b: Block) {
    forall i :: i in b ==> WellFormed(i)
  }

  function ExecBlock(isa: Isa, b: Block, rs: Regs, w: World): Result
    requires WellFormedBlock(b)
  {
    if b == [] then Fall(rs, w)
    else
      var r := Exec(isa, b[0], rs, w);
      if r.Fall? then ExecBlock(isa, b[1..], r.rs, r.world) else r
  }

  lemma WriteOne(rs: Regs, d: Reg, vals: seq<Value>)
    ensures WriteAll(rs, [d], vals) == Write(rs, d, if vals == [] then 0 else vals[0])
  {
    assert [d][1..] == [];
  }

  lemma {:induction false} ExecAppend(isa: Isa, a: Block, b: Block, rs: Regs, w: World)
    requires WellFormedBlock(a) && WellFormedBlock(b) && WellFormedBlock(a + b)
    ensures ExecBlock(isa, a + b, rs, w) ==
      var r := ExecBlock(isa, a, rs, w); if r.Fall? then ExecBlock(isa, b, r.rs, r.world) else r
  {
    if a == [] {
      assert a + b == b;
    } else {
      assert (a + b)[0] == a[0] && (a + b)[1..] == a[1..] + b;
      var r := Exec(isa, a[0], rs, w);
      if r.Fall? {
        ExecAppend(isa, a[1..], b, r.rs, r.world);
      }
    }
  }

  // The first of these makes the stack pointer the frame pointer in the prologue, the second
  // takes it back in the epilogue.
  const SET_FP := Instr(MOV, NONE, [RegOp(FP), RegOp(SP)], [], [], false)
  const RESTORE_SP := Instr(MOV, NONE, [RegOp(SP), RegOp(FP)], [], [], false)

  type Program = map<nat, Block>

  ghost predicate WellFormedProgram(p: Program) {
    forall l :: l in p ==> WellFormedBlock(p[l])
  }

  datatype Run =
    | At(target: nat, rs: Regs, world: World)    // about to enter a block
    | Done(vals: seq<Value>, world: World)      // returned
    | Stuck                                     // ran off a block, or to a missing one

  /** The state after n blocks, starting at the head of block l. */
  function RunBlocks(isa: Isa, p: Program, n: nat, l: nat, rs: Regs, w: World): Run
    requires forall l :: l in p ==> WellFormedBlock(p[l])
  {
    if n == 0 then At(l, rs, w)
    else if l !in p then Stuck
    else
      match ExecBlock(isa, p[l], rs, w)
      case Fall(_, _) => Stuck
      case Return(vals, w') => Done(vals, w')
      case Goto(l', rs', w') => RunBlocks(isa, p, n - 1, l', rs', w')
  }
}
