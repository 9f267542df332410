// Replacing registers by colours preserves what the code computes, provided registers that
// interfere have different colours.

module Coloring {
  import opened Machine
  import opened Liveness

  function ColorSeq(c: ColorMap, rs: seq<Reg>): seq<Reg> {
    seq(|rs|, k requires 0 <= k < |rs| => Color(c, rs[k]))
  }

  function ColorOperand(c: ColorMap, o: Operand): Operand {
    if o.RegOp? then RegOp(Color(c, o.reg)) else o
  }

  function ColorOperands(c: ColorMap, ops: seq<Operand>): seq<Operand> {
    seq(|ops|, k requires 0 <= k < |ops| => ColorOperand(c, ops[k]))
  }

  /** One instruction with every virtual register replaced. */
  function Colorize(c: ColorMap, i: Instr): Instr {
    i.(operands := ColorOperands(c, i.operands))
  }

  function ColorizeBlock(c: ColorMap, b: Block): Block {
    seq(|b|, k requires 0 <= k < |b| => Colorize(c, b[k]))
  }

  function ColorizeProgram(c: ColorMap, p: Program): Program {
    map l | l in p :: ColorizeBlock(c, p[l])
  }

  /** A renaming that respects types, and keeps registers apart that have a role of their own. */
  ghost predicate KeepsRoles(c: ColorMap) {
    forall r {:trigger c[r]} :: r in c ==> c[r].ty == r.ty && c[r] != SP && c[r] != ZERO
  }

  /** Colours are physical registers of the same type, and no register that code may name
      gets a colour with a role of its own. */
  ghost predicate ProperColors(c: ColorMap) {
    forall r {:trigger c[r]} :: r in c ==> c[r].Phys? && c[r].ty == r.ty && c[r] != SP && c[r] != ZERO
  }

  /** The pairs that must not share a colour at i: what it writes against everything live
      behind it, except that the two sides of a move may share one. */
  ghost predicate Interfere(i: Instr, after: set<Reg>, d: Reg, l: Reg)
    requires WellFormed(i)
  {
    && d in DefSet(i) && d != l
    && l in (after - (if i.tag == MOV then {i.operands[1].reg} else {})) + DefSet(i)
  }

  ghost predicate RespectsAt(c: ColorMap, i: Instr, after: set<Reg>)
    requires WellFormed(i)
  {
    forall d, l :: Interfere(i, after, d, l) && d.ty == l.ty ==> Color(c, d) != Color(c, l)
  }

  /** The colouring respects every interference in a block. */
  ghost predicate Respects(c: ColorMap, b: Block, out: set<Reg>)
    requires WellFormedBlock(b)
  {
    b != [] ==> RespectsAt(c, b[0], LiveBefore(b[1..], out)) && Respects(c, b[1..], out)
  }

  // ----- the colored code simulates the original -----

  ghost predicate Agree(c: ColorMap, live: set<Reg>, rs: Regs, rs': Regs) {
    forall r {:trigger Read(rs, r)} :: r in live || r == SP ==> Read(rs, r) == Read(rs', Color(c, r))
  }

  lemma ColorKeepsType(c: ColorMap, r: Reg)
    requires KeepsRoles(c)
    ensures Color(c, r).ty == r.ty
    ensures r != SP && r != ZERO ==> Color(c, r) != SP && Color(c, r) != ZERO
  {
  }

  lemma {:induction false} ColorRegsOf(c: ColorMap, ops: seq<Operand>)
    ensures RegsOf(ColorOperands(c, ops)) == ColorSeq(c, RegsOf(ops))
  {
    if ops != [] {
      ColorRegsOf(c, ops[1..]);
      assert ColorOperands(c, ops)[1..] == ColorOperands(c, ops[1..]);
    }
  }

  lemma ColorizeShape(c: ColorMap, i: Instr)
    requires KeepsRoles(c) && WellFormed(i)
    ensures WellFormed(Colorize(c, i)) && ShapeOf(Colorize(c, i)) == ShapeOf(i)
    ensures HasTarget(i) == HasTarget(Colorize(c, i))
    ensures HasTarget(i) ==> Target(i) == Target(Colorize(c, i))
  {
    assert ShapeOf(Colorize(c, i)).slots == ShapeOf(i).slots;
    if HasDst(i) {
      ColorKeepsType(c, i.operands[0].reg);
    }
  }

  lemma ColorizeInstr(c: ColorMap, i: Instr)
    requires KeepsRoles(c) && WellFormed(i)
    ensures WellFormed(Colorize(c, i))
    ensures ShapeOf(Colorize(c, i)) == ShapeOf(i)
    ensures Reads(Colorize(c, i)) == ColorSeq(c, Reads(i))
    ensures Defs(Colorize(c, i)) == ColorSeq(c, Defs(i))
    ensures HasTarget(i) == HasTarget(Colorize(c, i))
    ensures HasTarget(i) ==> Target(i) == Target(Colorize(c, i))
  {
    ColorizeShape(c, i);
    ColorRegsOf(c, i.operands);
    if HasDst(i) {
      ColorRegsOf(c, i.operands[1..]);
      assert Colorize(c, i).operands[1..] == ColorOperands(c, i.operands[1..]);
      ColorKeepsType(c, i.operands[0].reg);
    }
    PhysicalKeepsColor(c, i.passed);
    PhysicalKeepsColor(c, i.clobbered);
  }

  lemma PhysicalKeepsColor(c: ColorMap, rs: seq<Reg>)
    requires forall r :: r in rs ==> r.Phys?
    ensures ColorSeq(c, rs) == rs
  {
    assert forall k :: 0 <= k < |rs| ==> rs[k] in rs;
  }

  lemma {:induction false} WriteAllAgrees(c: ColorMap, live: set<Reg>, ds: seq<Reg>, vals: seq<Value>, rs: Regs,
                                          rs': Regs)
    requires ProperColors(c)
    requires forall r {:trigger Read(rs, r)} :: (r in live || r == SP) && r !in ds ==>
      Read(rs, r) == Read(rs', Color(c, r))
    requires forall d, l :: d in ds && (l in live || l in ds) && d != l ==> Color(c, d) != Color(c, l)
    requires ZERO !in ds
    ensures Agree(c, live, WriteAll(rs, ds, vals), WriteAll(rs', ColorSeq(c, ds), vals))
    decreases |ds|
  {
    if ds != [] {
      var d, v := ds[0], if vals == [] then 0 else vals[0];
      ColorKeepsType(c, d);
      var t, t' := Write(rs, d, v), Write(rs', Color(c, d), v);
      forall r | (r in live || r == SP) && r !in ds[1..]
        ensures Read(t, r) == Read(t', Color(c, r))
      {
        assert r != d ==> r !in ds && Read(rs, r) == Read(rs', Color(c, r));
      }
      assert ColorSeq(c, ds)[1..] == ColorSeq(c, ds[1..]);
      WriteAllAgrees(c, live, ds[1..], if vals == [] then [] else vals[1..], t, t');
    }
  }

  lemma ReadsAgree(c: ColorMap, i: Instr, after: set<Reg>, rs: Regs, rs': Regs)
    requires ProperColors(c) && WellFormed(i) && DistinctOperands(i)
    requires Agree(c, Transfer(i, after), rs, rs')
    ensures ReadAll(rs, Reads(i)) == ReadAll(rs', Reads(Colorize(c, i)))
  {
    ColorizeInstr(c, i);
    UsesCoverReads(i);
    forall k | 0 <= k < |Reads(i)|
      ensures Read(rs, Reads(i)[k]) == Read(rs', Color(c, Reads(i)[k]))
    {
      var r := Reads(i)[k];
      assert r in Reads(i);
    }
  }

  /** Where the colored code ends up, relative to the original. */
  ghost predicate SameOutcome(c: ColorMap, out: set<Reg>, liveIn: LiveMap, r: Result, r': Result) {
    match r
    case Fall(rs, w) => r'.Fall? && r'.world == w && Agree(c, out, rs, r'.rs)
    case Goto(l, rs, w) => r'.Goto? && r'.target == l && r'.world == w &&
      (l in liveIn ==> Agree(c, liveIn[l], rs, r'.rs))
    case Return(vals, w) => r' == r
  }

  lemma MoveAgrees(c: ColorMap, i: Instr, after: set<Reg>, rs: Regs, rs': Regs)
    requires ProperColors(c) && WellFormed(i) && i.tag == MOV && DistinctOperands(i)
    requires RespectsAt(c, i, after) && Agree(c, Transfer(i, after), rs, rs')
    ensures var d, s := i.operands[0].reg, i.operands[1].reg;
      Agree(c, after, Write(rs, d, Read(rs, s)), Write(rs', Color(c, d), Read(rs', Color(c, s))))
  {
    var d, s := i.operands[0].reg, i.operands[1].reg;
    var t, t' := Write(rs, d, Read(rs, s)), Write(rs', Color(c, d), Read(rs', Color(c, s)));
    ColorKeepsType(c, d);
    assert Read(rs, s) == Read(rs', Color(c, s)) by {
      assert i.operands[1..] == [i.operands[1]];
      assert RegsOf(i.operands[1..]) == [s];
      assert s in Reads(i);
      UsesCoverReads(i);
    }
    forall r | r in after || r == SP
      ensures Read(t, r) == Read(t', Color(c, r))
    {
      if r != d && r != s && d != ZERO {
        ColorKeepsType(c, r);
        assert r in after ==> Interfere(i, after, d, r);
        assert Read(rs, r) == Read(rs', Color(c, r));
      }
    }
  }

  lemma DefsAgree(c: ColorMap, i: Instr, after: set<Reg>, vals: seq<Value>, rs: Regs, rs': Regs)
    requires ProperColors(c) && WellFormed(i) && i.tag != MOV && RespectsAt(c, i, after)
    requires Agree(c, Transfer(i, after), rs, rs')
    ensures Agree(c, after, WriteAll(rs, Defs(i), vals), WriteAll(rs', ColorSeq(c, Defs(i)), vals))
  {
    forall d, l | d in Defs(i) && (l in after || l in Defs(i)) && d != l
      ensures Color(c, d) != Color(c, l)
    {
      ColorKeepsType(c, d);
      ColorKeepsType(c, l);
      assert Interfere(i, after, d, l);
    }
    WriteAllAgrees(c, after, Defs(i), vals, rs, rs');
  }

  lemma ExecAgrees(isa: Isa, c: ColorMap, i: Instr, after: set<Reg>, liveIn: LiveMap, rs: Regs, rs': Regs, w: World)
    requires ProperColors(c) && WellFormed(i) && DistinctOperands(i) && RespectsAt(c, i, after)
    requires Agree(c, Transfer(i, after), rs, rs')
    requires HasTarget(i) && Target(i) in liveIn ==> liveIn[Target(i)] <= after
    ensures WellFormed(Colorize(c, i))
    ensures SameOutcome(c, after, liveIn, Exec(isa, i, rs, w), Exec(isa, Colorize(c, i), rs', w))
  {
    ColorizeInstr(c, i);
    if i.tag == MOV {
      MoveExecAgrees(isa, c, i, after, liveIn, rs, rs', w);
    } else {
      ReadsAgree(c, i, after, rs, rs');
      if i.tag == JR {
        ReturnAgrees(isa, c, i, after, liveIn, rs, rs', w);
      } else {
        assert Read(rs, SP) == Read(rs', Color(c, SP));
        DefsAgree(c, i, after, isa(ShapeOf(i), ReadAll(rs, Reads(i)), Read(rs, SP), w).vals, rs, rs');
        PlainAgrees(isa, c, i, after, liveIn, rs, rs', w);
      }
    }
  }

  lemma MoveExecAgrees(isa: Isa, c: ColorMap, i: Instr, after: set<Reg>, liveIn: LiveMap, rs: Regs, rs': Regs,
                       w: World)
    requires ProperColors(c) && WellFormed(i) && i.tag == MOV && DistinctOperands(i) && WellFormed(Colorize(c, i))
    requires RespectsAt(c, i, after) && Agree(c, Transfer(i, after), rs, rs')
    ensures SameOutcome(c, after, liveIn, Exec(isa, i, rs, w), Exec(isa, Colorize(c, i), rs', w))
  {
    MoveAgrees(c, i, after, rs, rs');
  }

  lemma ReturnAgrees(isa: Isa, c: ColorMap, i: Instr, after: set<Reg>, liveIn: LiveMap, rs: Regs, rs': Regs, w: World)
    requires WellFormed(i) && i.tag == JR && WellFormed(Colorize(c, i))
    requires ReadAll(rs, Reads(i)) == ReadAll(rs', Reads(Colorize(c, i)))
    ensures SameOutcome(c, after, liveIn, Exec(isa, i, rs, w), Exec(isa, Colorize(c, i), rs', w))
  {
  }

  lemma BranchKeepsLive(i: Instr, after: set<Reg>)
    requires WellFormed(i) && HasTarget(i)
    ensures after <= Transfer(i, after)
  {
  }

  lemma PlainAgrees(isa: Isa, c: ColorMap, i: Instr, after: set<Reg>, liveIn: LiveMap, rs: Regs, rs': Regs, w: World)
    requires ProperColors(c) && WellFormed(i) && i.tag != MOV && i.tag != JR && WellFormed(Colorize(c, i))
    requires ReadAll(rs, Reads(i)) == ReadAll(rs', Reads(Colorize(c, i))) && Read(rs, SP) == Read(rs', SP)
    requires var vals := isa(ShapeOf(i), ReadAll(rs, Reads(i)), Read(rs, SP), w).vals;
      Agree(c, after, WriteAll(rs, Defs(i), vals), WriteAll(rs', ColorSeq(c, Defs(i)), vals))
    requires Agree(c, Transfer(i, after), rs, rs')
    requires HasTarget(i) && Target(i) in liveIn ==> liveIn[Target(i)] <= after
    ensures SameOutcome(c, after, liveIn, Exec(isa, i, rs, w), Exec(isa, Colorize(c, i), rs', w))
  {
    ColorizeInstr(c, i);
    ExecByDefs(isa, i, rs, w);
    ExecByDefs(isa, Colorize(c, i), rs', w);
    if HasTarget(i) {
      BranchKeepsLive(i, after);
    }
  }

  lemma ColorizeRest(c: ColorMap, b: Block)
    requires ProperColors(c) && WellFormedBlock(b) && b != []
    ensures WellFormedBlock(ColorizeBlock(c, b)) && WellFormedBlock(ColorizeBlock(c, b[1..]))
    ensures ColorizeBlock(c, b)[0] == Colorize(c, b[0]) && ColorizeBlock(c, b)[1..] == ColorizeBlock(c, b[1..])
  {
    forall i | i in b ensures WellFormed(Colorize(c, i)) { ColorizeInstr(c, i); }
  }

  lemma {:induction false} BlockAgrees(isa: Isa, c: ColorMap, b: Block, out: set<Reg>, liveIn: LiveMap,
                                       rs: Regs, rs': Regs, w: World)
    requires ProperColors(c) && WellFormedBlock(b) && DistinctBlock(b)
    requires Respects(c, b, out) && JumpsClean(b, liveIn) && TargetsBelow(b, liveIn, out)
    requires Agree(c, LiveBefore(b, out), rs, rs')
    ensures WellFormedBlock(ColorizeBlock(c, b))
    ensures SameOutcome(c, out, liveIn, ExecBlock(isa, b, rs, w), ExecBlock(isa, ColorizeBlock(c, b), rs', w))
  {
    if b != [] {
      var t := b[1..];
      ColorizeRest(c, b);
      if HasTarget(b[0]) && Target(b[0]) in liveIn {
        UndefinedStaysLive(t, out, liveIn[Target(b[0])]);
      }
      ExecAgrees(isa, c, b[0], LiveBefore(t, out), liveIn, rs, rs', w);
      var r, r' := Exec(isa, b[0], rs, w), Exec(isa, Colorize(c, b[0]), rs', w);
      if r.Fall? {
        BlockAgrees(isa, c, t, out, liveIn, r.rs, r'.rs, r.world);
      }
    }
  }

  /** What the two runs have in common after any number of blocks. */
  ghost predicate SameRun(c: ColorMap, liveIn: LiveMap, r: Run, r': Run) {
    match r
    case At(l, rs, w) => r'.At? && r'.target == l && r'.world == w && (l in liveIn ==> Agree(c, liveIn[l], rs, r'.rs))
    case Done(vals, w) => r' == r
    case Stuck => r' == Stuck
  }

  ghost predicate DistinctBlock(b: Block)
    requires WellFormedBlock(b)
  {
    forall i :: i in b ==> DistinctOperands(i)
  }

  ghost predicate DistinctProgram(p: Program)
    requires WellFormedProgram(p)
  {
    forall l :: l in p ==> DistinctBlock(p[l])
  }

  /** The code a colouring may be applied to. */
  ghost predicate Colorable(c: ColorMap, p: Program, liveIn: LiveMap, liveOut: LiveMap) {
    && SoundLive(p, liveIn, liveOut)
    && ProperColors(c)
    && DistinctProgram(p)
    && forall l :: l in p ==> Respects(c, p[l], liveOut[l])
  }

  lemma ColorizeWellFormed(c: ColorMap, p: Program)
    requires ProperColors(c) && WellFormedProgram(p)
    ensures WellFormedProgram(ColorizeProgram(c, p))
  {
    forall l, i | l in p && i in p[l]
      ensures WellFormed(Colorize(c, i))
    {
      ColorizeInstr(c, i);
    }
  }

  /** Block by block, q does what p does. */
  ghost predicate Simulates(isa: Isa, c: ColorMap, p: Program, q: Program, liveIn: LiveMap) {
    && WellFormedProgram(p) && WellFormedProgram(q)
    && p.Keys == q.Keys == liveIn.Keys
    && forall l, rs, rs', w {:trigger ExecBlock(isa, p[l], rs, w), ExecBlock(isa, q[l], rs', w)} ::
         l in p && Agree(c, liveIn[l], rs, rs') ==>
         SameOutcome(c, {}, liveIn, ExecBlock(isa, p[l], rs, w), ExecBlock(isa, q[l], rs', w))
  }

  lemma {:induction false} SimulationOfRuns(isa: Isa, c: ColorMap, p: Program, q: Program, liveIn: LiveMap,
                                            n: nat, l: nat, rs: Regs, rs': Regs, w: World)
    requires Simulates(isa, c, p, q, liveIn)
    requires l in liveIn ==> Agree(c, liveIn[l], rs, rs')
    ensures SameRun(c, liveIn, RunBlocks(isa, p, n, l, rs, w), RunBlocks(isa, q, n, l, rs', w))
  {
    if n > 0 && l in p {
      var r, r' := ExecBlock(isa, p[l], rs, w), ExecBlock(isa, q[l], rs', w);
      if r.Goto? {
        SimulationOfRuns(isa, c, p, q, liveIn, n - 1, r.target, r.rs, r'.rs, r.world);
      }
    }
  }

  lemma ColoringSimulates(isa: Isa, c: ColorMap, p: Program, liveIn: LiveMap, liveOut: LiveMap)
    requires Colorable(c, p, liveIn, liveOut)
    ensures Simulates(isa, c, p, ColorizeProgram(c, p), liveIn)
  {
    ColorizeWellFormed(c, p);
    forall l, rs, rs', w | l in p && Agree(c, liveIn[l], rs, rs')
      ensures SameOutcome(c, {}, liveIn, ExecBlock(isa, p[l], rs, w), ExecBlock(isa, ColorizeProgram(c, p)[l], rs', w))
    {
      BlockAgrees(isa, c, p[l], liveOut[l], liveIn, rs, rs', w);
    }
  }

  /** Register allocation preserves meaning: from states that agree on what is live, the
      original and the colored code pass through the same blocks with the same memory, calls
      and results, for any number of steps, and every live register sits in its colour. */
  lemma ColoringPreservesRuns(isa: Isa, c: ColorMap, p: Program, liveIn: LiveMap, liveOut: LiveMap,
                              n: nat, l: nat, rs: Regs, rs': Regs, w: World)
    requires Colorable(c, p, liveIn, liveOut)
    requires l in liveIn ==> Agree(c, liveIn[l], rs, rs')
    ensures WellFormedProgram(ColorizeProgram(c, p))
    ensures SameRun(c, liveIn, RunBlocks(isa, p, n, l, rs, w), RunBlocks(isa, ColorizeProgram(c, p), n, l, rs', w))
  {
    ColoringSimulates(isa, c, p, liveIn, liveOut);
    SimulationOfRuns(isa, c, p, ColorizeProgram(c, p), liveIn, n, l, rs, rs', w);
  }
}
