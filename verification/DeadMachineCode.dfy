// Dead machine code: instructions whose results nobody reads are erased, walking each block
// backwards with the live sets that were computed before anything was erased.

module DeadMachineCode {
  import opened Machine
  import opened Liveness
  import opened Coloring

  predicate IsDead(i: Instr, live: set<Reg>)
    requires WellFormed(i)
  {
    HasDst(i) && !i.reserved && forall d :: d in DefSet(i) ==> d !in live && d != FP && d != SP
  }

  /** What is left of a block, given the registers live behind it. */
  function Sweep(b: Block, out: set<Reg>): (r: Block)
    requires WellFormedBlock(b)
    ensures forall i :: i in r ==> i in b
    ensures |r| <= |b| && (|r| == |b| ==> r == b)
  {
    if b == [] then []
    else
      var rest := Sweep(b[1..], out);
      if IsDead(b[0], LiveBefore(rest, out)) then rest else [b[0]] + rest
  }

  /** A second sweep finds nothing. */
  lemma {:induction false} SweepIdempotent(b: Block, out: set<Reg>)
    requires WellFormedBlock(b)
    ensures Sweep(Sweep(b, out), out) == Sweep(b, out)
  {
    if b != [] {
      SweepIdempotent(b[1..], out);
      var rest, s := Sweep(b[1..], out), Sweep(b, out);
      if s != rest {
        assert s[0] == b[0] && s[1..] == rest;
      }
    }
  }

  /** Instructions that stay whatever is live: reserved ones, such as the place of the frame's size
      in the prologue; all that do more than compute a value, which are branches, stores, calls and
      returns; and those that set the stack or the frame pointer. */
  predicate Stays(i: Instr)
    requires WellFormed(i)
  {
    i.reserved || !KindOf(i.tag).Computes? || i.operands[0].reg == SP || i.operands[0].reg == FP
  }

  /** These instructions of a block, in order. */
  function Staying(b: Block): (r: Block)
    requires WellFormedBlock(b)
    ensures forall i :: i in r <==> i in b && Stays(i)
  {
    if b == [] then [] else (if Stays(b[0]) then [b[0]] else []) + Staying(b[1..])
  }

  lemma DeadDestination(i: Instr, live: set<Reg>)
    requires WellFormed(i) && IsDead(i, live)
    ensures i.tag != JR && HasDst(i)
    ensures var d := i.operands[0].reg; d != ZERO ==> Defs(i) == [d] && d !in live && d != SP && d != FP
  {
    var d := i.operands[0].reg;
    if d != ZERO {
      assert d in DefSet(i);
    }
  }

  lemma DeadDoesNotStay(i: Instr, live: set<Reg>)
    requires WellFormed(i) && IsDead(i, live)
    ensures !Stays(i)
  {
    TagsAgree(i);
    DeadDestination(i, live);
  }

  lemma {:induction false} SweepKeepsStaying(b: Block, out: set<Reg>)
    requires WellFormedBlock(b)
    ensures Staying(Sweep(b, out)) == Staying(b)
  {
    if b != [] {
      SweepKeepsStaying(b[1..], out);
      var rest, s := Sweep(b[1..], out), Sweep(b, out);
      if IsDead(b[0], LiveBefore(rest, out)) {
        DeadDoesNotStay(b[0], LiveBefore(rest, out));
        assert Staying(b) == [] + Staying(b[1..]) == Staying(b[1..]);
      } else {
        assert s[0] == b[0] && s[1..] == rest;
      }
    }
  }

  /** Every other instruction computes a value for a register that is live behind it. */
  ghost predicate AllNeeded(b: Block, out: set<Reg>)
    requires WellFormedBlock(b)
  {
    b != [] ==>
      && (!Stays(b[0]) ==> b[0].operands[0].reg != ZERO && b[0].operands[0].reg in LiveBefore(b[1..], out))
      && AllNeeded(b[1..], out)
  }

  lemma {:induction false} SweepLeavesNeeded(b: Block, out: set<Reg>)
    requires WellFormedBlock(b)
    ensures AllNeeded(Sweep(b, out), out)
  {
    if b != [] {
      SweepLeavesNeeded(b[1..], out);
      var rest, s := Sweep(b[1..], out), Sweep(b, out);
      if !IsDead(b[0], LiveBefore(rest, out)) {
        assert s[0] == b[0] && s[1..] == rest;
        if !Stays(b[0]) {
          LeftIsNeeded(b[0], LiveBefore(rest, out));
        }
      }
    }
  }

  lemma LeftIsNeeded(i: Instr, live: set<Reg>)
    requires WellFormed(i) && !IsDead(i, live) && !Stays(i)
    ensures i.operands[0].reg != ZERO && i.operands[0].reg in live
  {
    TagsAgree(i);
  }

  /** Erasing only shrinks what is live in front of the block, so the old live sets still hold. */
  lemma {:induction false} SweepShrinksLive(b: Block, out: set<Reg>)
    requires WellFormedBlock(b)
    ensures LiveBefore(Sweep(b, out), out) <= LiveBefore(b, out)
    ensures AllDefs(Sweep(b, out)) <= AllDefs(b)
  {
    if b != [] {
      SweepShrinksLive(b[1..], out);
      var rest, s := Sweep(b[1..], out), Sweep(b, out);
      if s != rest {
        assert s[0] == b[0] && s[1..] == rest;
      }
    }
  }

  lemma {:induction false} SweepKeepsClean(b: Block, out: set<Reg>, liveIn: LiveMap)
    requires WellFormedBlock(b) && JumpsClean(b, liveIn)
    ensures JumpsClean(Sweep(b, out), liveIn)
  {
    if b != [] {
      SweepKeepsClean(b[1..], out, liveIn);
      SweepShrinksLive(b[1..], out);
      var rest, s := Sweep(b[1..], out), Sweep(b, out);
      if s != rest {
        assert s[0] == b[0] && s[1..] == rest;
      }
    }
  }

  function SweepProgram(p: Program, liveOut: LiveMap): (r: Program)
    requires forall l :: l in p ==> WellFormedBlock(p[l]) && l in liveOut
  {
    map l | l in p :: Sweep(p[l], liveOut[l])
  }

  lemma SweepKeepsSoundLive(p: Program, liveIn: LiveMap, liveOut: LiveMap)
    requires SoundLive(p, liveIn, liveOut)
    ensures SoundLive(SweepProgram(p, liveOut), liveIn, liveOut)
  {
    var q := SweepProgram(p, liveOut);
    forall l | l in q
      ensures LiveBefore(q[l], liveOut[l]) <= liveIn[l]
      ensures TargetsBelow(q[l], liveIn, liveOut[l])
      ensures JumpsClean(q[l], liveIn)
    {
      SweepShrinksLive(p[l], liveOut[l]);
      SweepKeepsClean(p[l], liveOut[l], liveIn);
    }
  }

  // ----- the swept code simulates the original -----

  const SAME: ColorMap := map[]

  /** An instruction that reads the register it writes.  The stack pointer and $zero need not be
      known to be live, and writes to the frame pointer are never erased. */
  predicate OwnOperand(i: Instr)
    requires WellFormed(i)
  {
    HasDst(i) && i.operands[0].reg in Reads(i)
    && i.operands[0].reg != SP && i.operands[0].reg != ZERO && i.operands[0].reg != FP
  }

  ghost predicate NoOwnOperands(b: Block)
    requires WellFormedBlock(b)
  {
    forall i :: i in b ==> !OwnOperand(i)
  }

  /** The frame pointer counts as live everywhere. */
  function WithFrame(live: LiveMap): LiveMap {
    map l | l in live :: live[l] + {FP}
  }

  lemma ReadsKnown(i: Instr, live: set<Reg>, rs: Regs, rs': Regs)
    requires WellFormed(i) && !OwnOperand(i) && Agree(SAME, Transfer(i, live) + {FP}, rs, rs')
    ensures ReadAll(rs, Reads(i)) == ReadAll(rs', Reads(i))
  {
    forall k | 0 <= k < |Reads(i)|
      ensures Read(rs, Reads(i)[k]) == Read(rs', Reads(i)[k])
    {
      var r := Reads(i)[k];
      assert r in Reads(i);
      assert r in Uses(i) || r == SP || r == ZERO || r == FP;
      assert Color(SAME, r) == r;
    }
  }

  lemma WritesAgree(i: Instr, live: set<Reg>, vals: seq<Value>, rs: Regs, rs': Regs)
    requires WellFormed(i) && Agree(SAME, Transfer(i, live) + {FP}, rs, rs')
    ensures Agree(SAME, live + {FP}, WriteAll(rs, Defs(i), vals), WriteAll(rs', Defs(i), vals))
  {
    assert ColorSeq(SAME, Defs(i)) == Defs(i);
    WriteAllAgrees(SAME, live + {FP}, Defs(i), vals, rs, rs');
  }

  lemma MovedValue(i: Instr, rs: Regs)
    requires WellFormed(i) && i.tag == MOV
    ensures ReadAll(rs, Reads(i)) == [Read(rs, i.operands[1].reg)]
    ensures Write(rs, i.operands[0].reg, Read(rs, i.operands[1].reg)) == WriteAll(rs, Defs(i), ReadAll(rs, Reads(i)))
  {
    var d, r := i.operands[0].reg, i.operands[1].reg;
    assert i.operands[1..] == [RegOp(r)];
    assert RegsOf([RegOp(r)]) == [r];
    WriteOne(rs, d, [Read(rs, r)]);
  }

  /** An instruction that is kept does the same in both runs. */
  lemma KeptAgrees(isa: Isa, i: Instr, live: set<Reg>, liveIn: LiveMap, rs: Regs, rs': Regs, w: World)
    requires WellFormed(i) && !OwnOperand(i) && Agree(SAME, Transfer(i, live) + {FP}, rs, rs')
    requires HasTarget(i) && Target(i) in liveIn ==> liveIn[Target(i)] <= live
    ensures SameOutcome(SAME, live + {FP}, WithFrame(liveIn), Exec(isa, i, rs, w), Exec(isa, i, rs', w))
  {
    ReadsKnown(i, live, rs, rs');
    if i.tag == MOV {
      MovedValue(i, rs);
      MovedValue(i, rs');
      WritesAgree(i, live, ReadAll(rs, Reads(i)), rs, rs');
    } else if i.tag != JR {
      assert Read(rs, SP) == Read(rs', Color(SAME, SP));
      PlainAgrees(isa, i, live, liveIn, rs, rs', w);
    }
  }

  lemma PlainAgrees(isa: Isa, i: Instr, live: set<Reg>, liveIn: LiveMap, rs: Regs, rs': Regs, w: World)
    requires WellFormed(i) && i.tag != MOV && i.tag != JR && Agree(SAME, Transfer(i, live) + {FP}, rs, rs')
    requires ReadAll(rs, Reads(i)) == ReadAll(rs', Reads(i)) && Read(rs, SP) == Read(rs', SP)
    requires HasTarget(i) && Target(i) in liveIn ==> liveIn[Target(i)] <= live
    ensures SameOutcome(SAME, live + {FP}, WithFrame(liveIn), Exec(isa, i, rs, w), Exec(isa, i, rs', w))
  {
    ExecByDefs(isa, i, rs, w);
    ExecByDefs(isa, i, rs', w);
    WritesAgree(i, live, isa(ShapeOf(i), ReadAll(rs, Reads(i)), Read(rs, SP), w).vals, rs, rs');
  }

  lemma WriteElsewhere(live: set<Reg>, rs: Regs, rs': Regs, d: Reg, v: Value)
    requires Agree(SAME, live, rs, rs') && (d != ZERO ==> d !in live && d != SP)
    ensures Agree(SAME, live, Write(rs, d, v), rs')
  {
    forall x | x in live || x == SP
      ensures Read(Write(rs, d, v), x) == Read(rs', x)
    {
      assert Read(rs, x) == Read(rs', Color(SAME, x));
    }
  }

  lemma DeadIsSkipped(isa: Isa, i: Instr, live: set<Reg>, rs: Regs, rs': Regs, w: World)
    requires WellFormed(i) && IsDead(i, live) && Agree(SAME, live + {FP}, rs, rs')
    ensures var r := Exec(isa, i, rs, w); r.Fall? && r.world == w && Agree(SAME, live + {FP}, r.rs, rs')
  {
    var d := i.operands[0].reg;
    DeadDestination(i, live);
    if i.tag == MOV {
      WriteElsewhere(live + {FP}, rs, rs', d, Read(rs, i.operands[1].reg));
    } else if d != ZERO {
      var e := isa(ShapeOf(i), ReadAll(rs, Reads(i)), Read(rs, SP), w);
      WriteOne(rs, d, e.vals);
      WriteElsewhere(live + {FP}, rs, rs', d, if e.vals == [] then 0 else e.vals[0]);
    }
  }

  lemma {:induction false} SweptBlockAgrees(isa: Isa, b: Block, out: set<Reg>, liveIn: LiveMap, rs: Regs, rs': Regs,
                                            w: World)
    requires WellFormedBlock(b) && NoOwnOperands(b)
    requires JumpsClean(b, liveIn) && TargetsBelow(b, liveIn, out)
    requires Agree(SAME, LiveBefore(Sweep(b, out), out) + {FP}, rs, rs')
    ensures SameOutcome(SAME, out + {FP}, WithFrame(liveIn), ExecBlock(isa, b, rs, w),
                        ExecBlock(isa, Sweep(b, out), rs', w))
  {
    if b != [] {
      var i, t := b[0], b[1..];
      var rest, s := Sweep(t, out), Sweep(b, out);
      var live := LiveBefore(rest, out);
      if IsDead(i, live) {
        DeadIsSkipped(isa, i, live, rs, rs', w);
        var r := Exec(isa, i, rs, w);
        SweptBlockAgrees(isa, t, out, liveIn, r.rs, rs', w);
      } else {
        assert s[0] == i && s[1..] == rest;
        if HasTarget(i) && Target(i) in liveIn {
          SweepShrinksLive(t, out);
          UndefinedStaysLive(rest, out, liveIn[Target(i)]);
        }
        KeptAgrees(isa, i, live, liveIn, rs, rs', w);
        var r, r' := Exec(isa, i, rs, w), Exec(isa, i, rs', w);
        if r.Fall? {
          SweptBlockAgrees(isa, t, out, liveIn, r.rs, r'.rs, r.world);
        }
      }
    }
  }

  lemma LessIsLive(out: set<Reg>, liveIn: LiveMap, r: Result, r': Result)
    requires SameOutcome(SAME, out, liveIn, r, r')
    ensures SameOutcome(SAME, {}, liveIn, r, r')
  {
  }

  ghost predicate NoOwnOperandsIn(p: Program)
    requires WellFormedProgram(p)
  {
    forall l :: l in p ==> NoOwnOperands(p[l])
  }

  lemma SweepSimulates(isa: Isa, p: Program, liveIn: LiveMap, liveOut: LiveMap)
    requires SoundLive(p, liveIn, liveOut) && NoOwnOperandsIn(p)
    ensures Simulates(isa, SAME, p, SweepProgram(p, liveOut), WithFrame(liveIn))
  {
    forall l, rs, rs', w | l in p && Agree(SAME, WithFrame(liveIn)[l], rs, rs')
      ensures SameOutcome(SAME, {}, WithFrame(liveIn), ExecBlock(isa, p[l], rs, w),
                          ExecBlock(isa, SweepProgram(p, liveOut)[l], rs', w))
    {
      SweepShrinksLive(p[l], liveOut[l]);
      assert LiveBefore(Sweep(p[l], liveOut[l]), liveOut[l]) + {FP} <= WithFrame(liveIn)[l];
      SweptBlockAgrees(isa, p[l], liveOut[l], liveIn, rs, rs', w);
      LessIsLive(liveOut[l] + {FP}, WithFrame(liveIn), ExecBlock(isa, p[l], rs, w),
                 ExecBlock(isa, Sweep(p[l], liveOut[l]), rs', w));
    }
  }

  /** Machine dead-code elimination preserves meaning: the same blocks, memory, calls and
      results, with the stack and frame pointers and every live register unchanged. */
  lemma SweepPreservesRuns(isa: Isa, p: Program, liveIn: LiveMap, liveOut: LiveMap,
                           n: nat, l: nat, rs: Regs, rs': Regs, w: World)
    requires SoundLive(p, liveIn, liveOut) && NoOwnOperandsIn(p)
    requires l in liveIn ==> Agree(SAME, liveIn[l] + {FP}, rs, rs')
    ensures
      var r, r' := RunBlocks(isa, p, n, l, rs, w), RunBlocks(isa, SweepProgram(p, liveOut), n, l, rs', w);
      SameRun(SAME, WithFrame(liveIn), r, r')
  {
    SweepSimulates(isa, p, liveIn, liveOut);
    SimulationOfRuns(isa, SAME, p, SweepProgram(p, liveOut), WithFrame(liveIn), n, l, rs, rs', w);
  }

  // ----- an instruction that reads its own destination -----

  /** In front of i, the pass does no harm: whatever writes there, running the two instructions
      leaves what is live behind them the same as running what the pass leaves of them. */
  ghost predicate Harmless(i: Instr)
    requires WellFormed(i)
  {
    forall isa: Isa, j, out, rs, w {:trigger SweptPair(isa, j, i, out, rs, w)} ::
      WellFormed(j) && !OwnOperand(j) ==> SweptPair(isa, j, i, out, rs, w)
  }

  ghost predicate SweptPair(isa: Isa, j: Instr, i: Instr, out: set<Reg>, rs: Regs, w: World)
    requires WellFormed(i) && WellFormed(j)
  {
    SameOutcome(SAME, out + {FP}, map[], ExecBlock(isa, [j, i], rs, w), ExecBlock(isa, Sweep([j, i], out), rs, w))
  }

  /** A constant for d, as the builder loads it. */
  function Load(d: Reg, k: int): Instr {
    match d.ty
    case General => Instr(ORI, NONE, [RegOp(d), RegOp(ZERO), ImmOp(k)], [], [], false)
    case Float => Instr(MOVGR2FR_W, NONE, [RegOp(d), RegOp(ZERO)], [], [], false)
    case FloatCmp => Instr(MOVGR2CF, NONE, [RegOp(d), RegOp(ZERO)], [], [], false)
  }

  lemma LoadWrites(d: Reg, k: int)
    requires d != ZERO
    ensures WellFormed(Load(d, k)) && HasDst(Load(d, k)) && Load(d, k).tag != MOV && Load(d, k).tag != JR
    ensures Reads(Load(d, k)) == [ZERO] && Defs(Load(d, k)) == [d] && DefSet(Load(d, k)) == {d}
  {
    ReadsOfZero(k);
    if d.ty == General {
      assert Load(d, k).operands[1..] == [RegOp(ZERO), ImmOp(k)];
    } else {
      assert Load(d, k).operands[1..] == [RegOp(ZERO)];
    }
  }

  lemma ReadsOfZero(k: int)
    ensures RegsOf([RegOp(ZERO), ImmOp(k)]) == RegsOf([RegOp(ZERO)]) == [ZERO]
  {
    assert [RegOp(ZERO), ImmOp(k)][1..] == [ImmOp(k)] && [ImmOp(k)][1..] == [] && [RegOp(ZERO)][1..] == [];
    assert RegsOf([ImmOp(k)]) == [];
  }

  lemma OwnOperandUnused(i: Instr)
    requires WellFormed(i) && OwnOperand(i)
    ensures var d := i.operands[0].reg;
      Defs(i) == [d] && DefSet(i) == {d} && d !in Uses(i) && i.tag != JR && i.tag != BL
  {
  }

  /** What i reads from its own destination goes unnoticed, and the load is erased. */
  lemma LoadErased(i: Instr, j: Instr, d: Reg, k: int)
    requires WellFormed(i) && OwnOperand(i) && d == i.operands[0].reg && j == Load(d, k)
    ensures WellFormed(j) && Sweep([j, i], {d}) == [i]
  {
    OwnOperandUnused(i);
    LoadWrites(d, k);
    LastIsKept(i, d);
    assert [j, i][1..] == [i];
  }

  lemma LastIsKept(i: Instr, d: Reg)
    requires WellFormed(i) && d in DefSet(i) && d !in Uses(i) && DefSet(i) == {d}
    ensures WellFormedBlock([i]) && Sweep([i], {d}) == [i] && d !in LiveBefore([i], {d})
  {
    assert [i][1..] == [];
  }

  /** A processor that computes 2 from values with a 1 among them, and 1 from others. */
  function Counting(): Isa {
    (shape: Shape, vals: seq<Value>, sp: Value, w: World) => Effect([if 1 in vals then 2 else 1], w, false)
  }

  function Counted(i: Instr, v: Value): Value {
    if i.tag == MOV then v else if v == 1 then 2 else 1
  }

  lemma CountingRun(i: Instr, rs: Regs, w: World, d: Reg)
    requires WellFormed(i) && OwnOperand(i) && d == i.operands[0].reg
    requires forall r :: r != d ==> Read(rs, r) == 0
    ensures WellFormedBlock([i])
    ensures var r := ExecBlock(Counting(), [i], rs, w);
      r.Fall? && r.world == w && Read(r.rs, d) == Counted(i, Read(rs, d))
  {
    OwnOperandUnused(i);
    var vals := ReadAll(rs, Reads(i));
    assert 1 in vals <==> Read(rs, d) == 1 by {
      var k :| 0 <= k < |Reads(i)| && Reads(i)[k] == d;
      assert vals[k] == Read(rs, d);
    }
    if i.tag == MOV {
      MovedValue(i, rs);
      assert d in Reads(i) && i.operands[1..] == [i.operands[1]];
      assert Reads(i) == [i.operands[1].reg];
    } else {
      WriteOne(rs, d, [if 1 in vals then 2 else 1]);
    }
    assert [i][1..] == [];
  }

  lemma CountingLoad(d: Reg, k: int, i: Instr, w: World)
    requires d != ZERO && WellFormed(i) && WellFormed(Load(d, k))
    ensures ExecBlock(Counting(), [Load(d, k), i], map[], w) == ExecBlock(Counting(), [i], map[d := 1], w)
  {
    LoadWrites(d, k);
    WriteOne(map[], d, [1]);
    assert ReadAll(map[], [ZERO]) == [0];
    assert Write(map[], d, 1) == map[d := 1];
    assert Exec(Counting(), Load(d, k), map[], w) == Fall(map[d := 1], w);
    assert [Load(d, k), i][1..] == [i];
  }

  /** An instruction that reads its own destination can be harmed: there is a load that the pass
      erases in front of it, after which a run leaves a different value in the destination. */
  lemma OwnOperandHarmed(i: Instr, w: World) returns (j: Instr, isa: Isa)
    requires WellFormed(i) && OwnOperand(i)
    ensures WellFormed(j) && !OwnOperand(j)
    ensures var d := i.operands[0].reg;
      && Sweep([j, i], {d}) == [i]
      && var r, r' := ExecBlock(isa, [j, i], map[], w), ExecBlock(isa, [i], map[], w);
         r.Fall? && r'.Fall? && r.world == r'.world == w && Read(r.rs, d) != Read(r'.rs, d)
  {
    var d := i.operands[0].reg;
    j, isa := Load(d, 1), Counting();
    LoadWrites(d, 1);
    LoadErased(i, j, d, 1);
    CountingRun(i, map[], w, d);
    CountingLoad(d, 1, i, w);
    CountingRun(i, map[d := 1], w, d);
  }

  lemma PairAgrees(isa: Isa, j: Instr, i: Instr, out: set<Reg>, rs: Regs, w: World)
    requires WellFormed(i) && WellFormed(j) && !OwnOperand(i) && !OwnOperand(j)
    ensures SweptPair(isa, j, i, out, rs, w)
  {
    var b := [j, i];
    assert b[1..] == [i] && [i][1..] == [];
    assert JumpsClean(b, map[]) && TargetsBelow(b, map[], out);
    SweptBlockAgrees(isa, b, out, map[], rs, rs, w);
    assert WithFrame(map[]) == map[];
  }

  /** The condition is exact: the pass does no harm in front of i if and only if i does not read
      its own destination, other than $sp, $zero or $fp. */
  lemma HarmlessExactly(i: Instr)
    requires WellFormed(i)
    ensures Harmless(i) <==> !OwnOperand(i)
  {
    if OwnOperand(i) {
      var w := World(map[], []);
      var j, isa := OwnOperandHarmed(i, w);
      var d := i.operands[0].reg;
      assert !SweptPair(isa, j, i, {d}, map[], w) by {
        var r, r' := ExecBlock(isa, [j, i], map[], w), ExecBlock(isa, [i], map[], w);
        assert Read(r.rs, d) != Read(r'.rs, Color(SAME, d));
      }
    } else {
      forall isa: Isa, j, out, rs, w | WellFormed(j) && !OwnOperand(j)
        ensures SweptPair(isa, j, i, out, rs, w)
      {
        PairAgrees(isa, j, i, out, rs, w);
      }
    }
  }

  /** The builder emits such instructions: for a slot at an offset of 2048 it loads the offset and
      adds the stack pointer, into the register that holds the offset.  The load is erased. */
  lemma SlotAddressLost(t: Reg, load: Instr, add: Instr)
    requires t.Virt? && t.ty == General
    requires load == Instr(ORI, NONE, [RegOp(t), RegOp(ZERO), ImmOp(2048)], [], [], false)
    requires add == Instr(ADD, DWORD, [RegOp(t), RegOp(SP), RegOp(t)], [], [], false)
    ensures WellFormed(load) && WellFormed(add) && OwnOperand(add) && Sweep([load, add], {t}) == [add]
  {
    assert add.operands[1..] == [RegOp(SP), RegOp(t)];
    assert RegOp(t) in add.operands[1..];
    LoadErased(add, load, t, 2048);
  }

  // ----- the pass -----

  lemma SweepSuffix(b: Block, k: nat, out: set<Reg>)
    requires WellFormedBlock(b) && 0 < k <= |b|
    requires WellFormedBlock(b[k..])
    ensures WellFormedBlock(b[k - 1..])
    ensures var rest := Sweep(b[k..], out);
      if IsDead(b[k - 1], LiveBefore(rest, out)) then Sweep(b[k - 1..], out) == rest
      else Sweep(b[k - 1..], out) == [b[k - 1]] + rest
  {
    assert b[k - 1..][1..] == b[k..];
  }

  lemma LiveBeforeFirst(i: Instr, rest: Block, out: set<Reg>)
    requires WellFormed(i) && WellFormedBlock(rest) && WellFormedBlock([i] + rest)
    ensures LiveBefore([i] + rest, out) == Transfer(i, LiveBefore(rest, out))
  {
    assert ([i] + rest)[1..] == rest;
  }

  lemma AroundLast(b: Block, rest: Block, k: nat)
    requires 0 < k <= |b|
    ensures var s := b[..k] + rest;
      && s[k - 1] == b[k - 1] && s[..k - 1] + s[k..] == b[..k - 1] + rest
      && s == b[..k - 1] + ([b[k - 1]] + rest)
  {
  }

  /** One step of the walk: everything from k on has been swept, now instruction k - 1 is. */
  lemma SweepStep(b: Block, instrs: Block, k: nat, out: set<Reg>)
    requires WellFormedBlock(b) && 0 < k <= |b|
    requires WellFormedBlock(b[k..]) && instrs == b[..k] + Sweep(b[k..], out)
    ensures instrs[k - 1] == b[k - 1] && WellFormedBlock(b[k - 1..])
    ensures var rest := Sweep(b[k..], out);
      if IsDead(b[k - 1], LiveBefore(rest, out)) then
        && Sweep(b[k - 1..], out) == rest
        && instrs[..k - 1] + instrs[k..] == b[..k - 1] + rest
      else
        && instrs == b[..k - 1] + Sweep(b[k - 1..], out)
        && LiveBefore(Sweep(b[k - 1..], out), out) == Transfer(b[k - 1], LiveBefore(rest, out))
  {
    SweepSuffix(b, k, out);
    var rest := Sweep(b[k..], out);
    AroundLast(b, rest, k);
    if !IsDead(b[k - 1], LiveBefore(rest, out)) {
      LiveBeforeFirst(b[k - 1], rest, out);
    }
  }

  lemma SweepProgramIdempotent(p: Program, liveOut: LiveMap)
    requires WellFormedProgram(p) && liveOut.Keys == p.Keys
    ensures SweepProgram(SweepProgram(p, liveOut), liveOut) == SweepProgram(p, liveOut)
  {
    forall l | l in p
      ensures Sweep(Sweep(p[l], liveOut[l]), liveOut[l]) == Sweep(p[l], liveOut[l])
    {
      SweepIdempotent(p[l], liveOut[l]);
    }
  }

  function SweepSome(p: Program, liveOut: LiveMap, done: set<nat>): (r: Program)
    requires forall l :: l in p ==> WellFormedBlock(p[l]) && l in liveOut
  {
    map l | l in p :: if l in done then Sweep(p[l], liveOut[l]) else p[l]
  }

  lemma SweepSomeStep(p: Program, liveOut: LiveMap, done: set<nat>, l: nat)
    requires WellFormedProgram(p) && liveOut.Keys == p.Keys && l in p
    ensures SweepSome(p, liveOut, done + {l}) == SweepSome(p, liveOut, done)[l := Sweep(p[l], liveOut[l])]
  {
  }

  lemma SweepSomeEnds(p: Program, liveOut: LiveMap, done: set<nat>)
    requires WellFormedProgram(p) && liveOut.Keys == p.Keys
    ensures done == {} ==> SweepSome(p, liveOut, done) == p
    ensures p.Keys <= done ==> SweepSome(p, liveOut, done) == SweepProgram(p, liveOut)
  {
  }

  lemma UpdateChanges(p: Program, q: Program, l: nat, b: Block)
    requires l in p && p.Keys == q.Keys && q[l] == p[l]
    ensures q[l := b] == p <==> q == p && b == p[l]
    ensures q[l := b] == q <==> b == q[l]
  {
    assert q[l := b][l] == b;
    if q != p {
      var k :| k in p && q[k] != p[k];
      assert q[l := b][k] == q[k];
    }
  }

  /** The list names every block of p once. */
  ghost predicate ListsBlocks(blocks: seq<nat>, p: Program) {
    && (forall l :: l in blocks <==> l in p)
    && (forall n :: 0 <= n < |blocks| ==> blocks[n] !in blocks[..n])
  }

  class MIDeadCodeElimination {
    var code: Program

    /** One backward walk over a block, erasing as it goes. */
    method SweepBlock(l: nat, out: set<Reg>) returns (changed: bool)
      requires l in code && WellFormedBlock(code[l])
      modifies this
      ensures code == old(code)[l := Sweep(old(code)[l], out)]
      ensures Staying(code[l]) == Staying(old(code)[l]) && AllNeeded(code[l], out)
      ensures changed <==> code != old(code)
    {
      ghost var b := code[l];
      var instrs, use_set, k := code[l], out, |code[l]|;
      changed := false;
      while k > 0
        invariant code == old(code) && 0 <= k <= |b| && WellFormedBlock(b[k..])
        invariant instrs == b[..k] + Sweep(b[k..], out)
        invariant use_set == LiveBefore(Sweep(b[k..], out), out)
        invariant changed <==> |instrs| < |b|
      {
        SweepStep(b, instrs, k, out);
        var inst := instrs[k - 1];
        if IsDead(inst, use_set) {
          instrs := instrs[..k - 1] + instrs[k..];
          changed := true;
        } else {
          use_set := (use_set - DefSet(inst)) + Uses(inst);
        }
        k := k - 1;
      }
      assert b[0..] == b && b[..0] == [] && instrs == Sweep(b, out);
      SweepKeepsStaying(b, out);
      SweepLeavesNeeded(b, out);
      code := code[l := instrs];
    }

    /** One round over all blocks. */
    method SweepBlocks(blocks: seq<nat>, liveOut: LiveMap) returns (changed: bool)
      requires WellFormedProgram(code) && liveOut.Keys == code.Keys
      requires ListsBlocks(blocks, code)
      modifies this
      ensures code == SweepProgram(old(code), liveOut)
      ensures changed <==> code != old(code)
    {
      ghost var p, done := code, {};
      SweepSomeEnds(p, liveOut, done);
      changed := false;
      for n := 0 to |blocks|
        invariant forall l :: l in done <==> l in blocks[..n]
        invariant code == SweepSome(p, liveOut, done)
        invariant changed <==> code != p
      {
        var l := blocks[n];
        assert l in p && l !in done;
        ghost var before := code;
        var c := SweepBlock(l, liveOut[l]);
        SweepSomeStep(p, liveOut, done, l);
        UpdateChanges(p, before, l, code[l]);
        changed := changed || c;
        done := done + {l};
      }
      assert blocks[..|blocks|] == blocks;
      SweepSomeEnds(p, liveOut, done);
    }

    /** Sweeps all blocks until nothing changes.  One sweep of each is what it comes to. */
    method RunOnFunc(blocks: seq<nat>, liveOut: LiveMap)
      requires WellFormedProgram(code) && liveOut.Keys == code.Keys
      requires ListsBlocks(blocks, code)
      modifies this
      ensures code == SweepProgram(old(code), liveOut)
      ensures forall l :: l in code ==> Staying(code[l]) == Staying(old(code)[l]) && AllNeeded(code[l], liveOut[l])
    {
      ghost var p, q := code, SweepProgram(code, liveOut);
      SweepProgramIdempotent(code, liveOut);
      var changed := SweepBlocks(blocks, liveOut);
      while changed
        invariant code == q
        decreases changed
      {
        changed := SweepBlocks(blocks, liveOut);
      }
      forall l | l in q
        ensures Staying(q[l]) == Staying(p[l]) && AllNeeded(q[l], liveOut[l])
      {
        SweepKeepsStaying(p[l], liveOut[l]);
        SweepLeavesNeeded(p[l], liveOut[l]);
      }
    }
  }
}
