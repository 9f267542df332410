// Where a function may access its spilled registers: through the stack pointer in the prologue,
// before that becomes the frame pointer, and in the epilogue, after it has been restored; and
// through the frame pointer everywhere else.

module FrameDiscipline {
  import opened Machine
  import opened SlotCode
  import opened SpillCode

  /** A spilled register that an instruction uses or defines. */
  predicate NamesSpilled(sp: Spills, i: Instr, r: Reg)
    requires WellFormed(i)
  {
    r in sp.offset && (r in Uses(i) || r in DefSet(i))
  }

  /** Code that runs while the stack pointer holds the address of the frame. */
  ghost predicate ThroughSp(sp: Spills, i: Instr)
    requires WellFormed(i)
  {
    SP !in DefSet(i) && !HasTarget(i) && forall r :: NamesSpilled(sp, i, r) ==> r in sp.viaSp
  }

  /** Code that runs while the frame pointer does. */
  ghost predicate ThroughFp(sp: Spills, i: Instr)
    requires WellFormed(i)
  {
    FP !in DefSet(i) && forall r :: NamesSpilled(sp, i, r) ==> r !in sp.viaSp
  }

  /** Whether the frame pointer is set behind i. */
  predicate SetBehind(i: Instr, set_: bool) {
    if i == SET_FP then true else if i == RESTORE_SP then false else set_
  }

  /** Every instruction of b uses slots in the way that is possible where it stands. */
  ghost predicate Disciplined(sp: Spills, b: Block, set_: bool)
    requires WellFormedBlock(b)
  {
    b != [] ==>
      && (if b[0] == SET_FP then !set_ else if set_ then ThroughFp(sp, b[0]) else ThroughSp(sp, b[0]))
      && Disciplined(sp, b[1..], SetBehind(b[0], set_))
  }

  ghost predicate DisciplinedProgram(sp: Spills, p: Program, prologue: nat) {
    && WellFormedProgram(p) && (forall l :: l in p ==> Disciplined(sp, p[l], l != prologue))
    && forall l, i :: l in p && i in p[l] && HasTarget(i) ==> Target(i) != prologue
  }

  /** The address of the frame is where the code expects it. */
  predicate Based(frame: int, set_: bool, rs: Regs) {
    if set_ then Read(rs, FP) == frame else Read(rs, SP) == frame
  }

  /** The instructions that move the address of the frame between the two registers. */
  lemma MovesBase(isa: Isa, frame: int, i: Instr, set_: bool, rs: Regs, w: World)
    requires (i == SET_FP && !set_) || (i == RESTORE_SP && set_)
    requires Based(frame, set_, rs)
    ensures WellFormed(i) && DefSet(i) <= {SP, FP} && Uses(i) <= {SP, FP}
    ensures var r := Exec(isa, i, rs, w); r.Fall? && Based(frame, !set_, r.rs)
  {
    assert i.operands[1..] == [i.operands[1]] && RegsOf([i.operands[1]]) == [i.operands[1].reg] by {
      RegsOfOne(i.operands[1].reg, []);
    }
  }

  /** Every other instruction leaves it there. */
  lemma KeepsBase(isa: Isa, sp: Spills, frame: int, i: Instr, set_: bool, rs: Regs, w: World)
    requires WellFormed(i) && Based(frame, set_, rs) && if set_ then ThroughFp(sp, i) else ThroughSp(sp, i)
    ensures var r := Exec(isa, i, rs, w);
      && (r.Fall? ==> Based(frame, set_, r.rs))
      && (r.Goto? ==> r.rs == rs && set_ && HasTarget(i) && Target(i) == r.target)
  {
    WritesDefs(isa, i, rs, w);
    TagsAgree(i);
  }

  /** And finds the slots of the registers it names. */
  lemma NamesAtHand(isa: Isa, sp: Spills, frame: int, i: Instr, set_: bool, rs: Regs, w: World)
    requires WellFormed(i) && SpillsOk(sp) && Based(frame, set_, rs)
    requires if set_ then ThroughFp(sp, i) else ThroughSp(sp, i)
    ensures Steady(sp, frame, i, rs, Exec(isa, i, rs, w))
  {
    KeepsBase(isa, sp, frame, i, set_, rs, w);
    forall u | u in UseList(i) && u in sp.offset
      ensures AtHand(sp, frame, u, rs)
    {
      assert NamesSpilled(sp, i, u);
    }
    if HasDst(i) && i.operands[0].reg in sp.offset {
      assert i.operands[0].reg in Defs(i);
      assert NamesSpilled(sp, i, i.operands[0].reg);
    }
  }

  lemma OneDisciplined(isa: Isa, sp: Spills, frame: int, i: Instr, set_: bool, rs: Regs, w: World)
    requires WellFormed(i) && SpillsOk(sp) && Based(frame, set_, rs)
    requires if i == SET_FP then !set_ else if set_ then ThroughFp(sp, i) else ThroughSp(sp, i)
    ensures Steady(sp, frame, i, rs, Exec(isa, i, rs, w))
    ensures var r := Exec(isa, i, rs, w);
      && (r.Fall? ==> Based(frame, SetBehind(i, set_), r.rs))
      && (r.Goto? ==> Based(frame, true, r.rs) && HasTarget(i) && Target(i) == r.target)
  {
    if i == SET_FP || (i == RESTORE_SP && set_) {
      MovesBase(isa, frame, i, set_, rs, w);
    } else {
      KeepsBase(isa, sp, frame, i, set_, rs, w);
      NamesAtHand(isa, sp, frame, i, set_, rs, w);
    }
  }

  // ----- blocks and runs -----

  /** No instruction that is executed in the block touches a slot. */
  ghost predicate BlockClear(isa: Isa, touches: Touches, slots: set<int>, b: Block, rs: Regs, w: World)
    requires WellFormedBlock(b)
  {
    b != [] ==>
      && Clear(touches, slots, b[0], rs)
      && (var r := Exec(isa, b[0], rs, w); r.Fall? ==> BlockClear(isa, touches, slots, b[1..], r.rs, r.world))
  }

  ghost predicate RunClear(isa: Isa, touches: Touches, slots: set<int>, p: Program, n: nat, l: nat, rs: Regs, w: World)
    requires WellFormedProgram(p)
  {
    n > 0 && l in p ==>
      && BlockClear(isa, touches, slots, p[l], rs, w)
      && (var r := ExecBlock(isa, p[l], rs, w);
          r.Goto? ==> RunClear(isa, touches, slots, p, n - 1, r.target, r.rs, r.world))
  }

  lemma {:induction false} DisciplinedIsFramed(isa: Isa, touches: Touches, sp: Spills, frame: int, b: Block,
                                               set_: bool, rs: Regs, w: World)
    requires WellFormedBlock(b) && SpillsOk(sp) && Disciplined(sp, b, set_) && Based(frame, set_, rs)
    requires BlockClear(isa, touches, SlotCells(sp, frame), b, rs, w)
    ensures BlockFramed(isa, touches, sp, frame, b, rs, w)
    ensures var r := ExecBlock(isa, b, rs, w);
      r.Goto? ==> Based(frame, true, r.rs) && exists i :: i in b && HasTarget(i) && Target(i) == r.target
    decreases |b|
  {
    if b != [] {
      OneDisciplined(isa, sp, frame, b[0], set_, rs, w);
      var r := Exec(isa, b[0], rs, w);
      if r.Fall? {
        DisciplinedIsFramed(isa, touches, sp, frame, b[1..], SetBehind(b[0], set_), r.rs, r.world);
        assert forall i :: i in b[1..] ==> i in b;
      } else if r.Goto? {
        assert b[0] in b;
      }
    }
  }

  /** In disciplined code the address of the frame is at hand whenever a slot is accessed. */
  lemma {:induction false} RunIsFramed(isa: Isa, touches: Touches, sp: Spills, frame: int, p: Program, prologue: nat,
                                       n: nat, l: nat, rs: Regs, w: World)
    requires SpillsOk(sp) && DisciplinedProgram(sp, p, prologue) && Based(frame, l != prologue, rs)
    requires RunClear(isa, touches, SlotCells(sp, frame), p, n, l, rs, w)
    ensures RunFramed(isa, touches, sp, frame, p, n, l, rs, w)
    decreases n
  {
    if n > 0 && l in p {
      DisciplinedIsFramed(isa, touches, sp, frame, p[l], l != prologue, rs, w);
      var r := ExecBlock(isa, p[l], rs, w);
      if r.Goto? {
        RunIsFramed(isa, touches, sp, frame, p, prologue, n - 1, r.target, r.rs, r.world);
      }
    }
  }

  /** Spill rewriting of disciplined code preserves meaning: from the prologue, with the stack
      pointer at the frame, the two programs go through the same blocks with the same results, calls
      and memory outside the slots. */
  lemma DisciplinedSpillsPreserveRuns(isa: Isa, touches: Touches, sp: Spills, frame: int, n: nat, p: Program,
                                      q: Program, prologue: nat, steps: nat, rs: Regs, w: World, rs': Regs, w': World)
    requires Lawful(isa) && Local(isa, touches) && SpillsOk(sp) && SpillsBelow(sp, n)
    requires SpillsTo(sp, p, q, n) && SpillableProgram(p, n) && DisciplinedProgram(sp, p, prologue)
    requires Read(rs, SP) == frame && RunClear(isa, touches, SlotCells(sp, frame), p, steps, prologue, rs, w)
    requires SpillAgree(sp, frame, n, rs, w, rs', w')
    ensures WellFormedProgram(q)
    ensures SpillRun(sp, frame, n, RunBlocks(isa, p, steps, prologue, rs, w),
                     RunBlocks(isa, q, steps, prologue, rs', w'))
  {
    RunIsFramed(isa, touches, sp, frame, p, prologue, steps, prologue, rs, w);
    SpillPreservesRuns(isa, touches, sp, frame, n, p, q, steps, prologue, rs, w, rs', w');
  }

  // ----- what instruction selection lays out -----

  /** Code between the two: it does not write the frame pointer, and does not name save. */
  ghost predicate Inner(sp: Spills, save: Reg, b: Block)
    requires WellFormedBlock(b)
  {
    forall i :: i in b ==> InnerInstr(sp, save, i)
  }

  predicate InnerInstr(sp: Spills, save: Reg, i: Instr)
    requires WellFormed(i)
  {
    i != SET_FP && i != RESTORE_SP && FP !in DefSet(i) && !NamesSpilled(sp, i, save)
  }

  function SaveFp(save: Reg): Instr { Instr(MOV, NONE, [RegOp(save), RegOp(FP)], [], [], false) }
  function LoadFp(save: Reg): Instr { Instr(MOV, NONE, [RegOp(FP), RegOp(save)], [], [], false) }

  lemma DisciplinedInFront(sp: Spills, save: Reg, c: Block)
    requires WellFormedBlock(c) && c != [] && sp.viaSp == {save} && InnerInstr(sp, save, c[0])
    requires Disciplined(sp, c[1..], true)
    ensures Disciplined(sp, c, true)
  {
  }

  lemma InnerRest(sp: Spills, save: Reg, b: Block, rest: Block, c: Block)
    requires WellFormedBlock(b) && WellFormedBlock(rest) && b != [] && Inner(sp, save, b) && c == b + rest
    ensures WellFormedBlock(b[1..]) && Inner(sp, save, b[1..]) && InnerInstr(sp, save, b[0])
    ensures c[0] == b[0] && c[1..] == b[1..] + rest && WellFormedBlock(c) && WellFormedBlock(c[1..])
  {
    assert b[0] in b;
    BothOk(b, rest);
    BothOk(b[1..], rest);
  }

  lemma {:induction false} InnerIsDisciplined(sp: Spills, save: Reg, b: Block, rest: Block, c: Block)
    requires WellFormedBlock(b) && WellFormedBlock(rest) && c == b + rest
    requires sp.viaSp == {save} && Inner(sp, save, b) && Disciplined(sp, rest, true)
    ensures WellFormedBlock(c) && Disciplined(sp, c, true)
    decreases |b|
  {
    if b == [] {
      assert c == rest;
    } else {
      InnerRest(sp, save, b, rest, c);
      InnerIsDisciplined(sp, save, b[1..], rest, c[1..]);
      DisciplinedInFront(sp, save, c);
    }
  }

  lemma MoveNames(d: Reg, s: Reg)
    requires d.ty == s.ty == General && d != ZERO && s != ZERO && d != s
    ensures var i := Instr(MOV, NONE, [RegOp(d), RegOp(s)], [], [], false);
      WellFormed(i) && DefSet(i) == {d} && Uses(i) == {s} && !HasTarget(i)
  {
    var i := Instr(MOV, NONE, [RegOp(d), RegOp(s)], [], [], false);
    RegsOfOne(s, []);
    assert i.operands[1..] == [RegOp(s)] == [RegOp(s)] + [];
    assert Reads(i) == [s];
  }

  /** The prologue saves the frame pointer and sets it, the epilogue restores both registers. */
  ghost predicate LaidOut(sp: Spills, p: Program, prologue: nat, epilogue: nat, save: Reg, inner: Block, outer: Block,
                          ret: Instr) {
    && WellFormedProgram(p) && prologue in p && epilogue in p && prologue != epilogue
    && WellFormedBlock(inner) && WellFormedBlock(outer) && WellFormed(ret)
    && save.Virt? && save.ty == General && sp.viaSp == {save}
    && p[prologue] == [SaveFp(save), SET_FP] + inner && Inner(sp, save, inner)
    && p[epilogue] == outer + [RESTORE_SP, LoadFp(save), ret] && Inner(sp, save, outer) && ret.tag == JR
    && (forall l :: l in p && l != prologue && l != epilogue ==> Inner(sp, save, p[l]))
    && forall l, i :: l in p && i in p[l] && HasTarget(i) ==> Target(i) != prologue
  }

  lemma ReturnNamesNone(sp: Spills, ret: Instr)
    requires SpillsOk(sp) && WellFormed(ret) && ret.tag == JR
    ensures ThroughSp(sp, ret)
  {
  }

  lemma PrologueDisciplined(sp: Spills, save: Reg, inner: Block)
    requires SpillsOk(sp) && save.Virt? && save.ty == General && sp.viaSp == {save}
    requires WellFormedBlock(inner) && Inner(sp, save, inner)
    ensures WellFormedBlock([SaveFp(save), SET_FP] + inner) && Disciplined(sp, [SaveFp(save), SET_FP] + inner, false)
  {
    var b := [SaveFp(save), SET_FP] + inner;
    MoveNames(save, FP);
    MoveNames(FP, SP);
    assert inner + [] == inner;
    InnerIsDisciplined(sp, save, inner, [], inner);
    assert b[1..] == [SET_FP] + inner && ([SET_FP] + inner)[1..] == inner;
    assert Disciplined(sp, [SET_FP] + inner, false);
  }

  lemma EpilogueDisciplined(sp: Spills, save: Reg, outer: Block, ret: Instr)
    requires SpillsOk(sp) && save.Virt? && save.ty == General && sp.viaSp == {save}
    requires WellFormedBlock(outer) && Inner(sp, save, outer) && WellFormed(ret) && ret.tag == JR
    ensures WellFormedBlock(outer + [RESTORE_SP, LoadFp(save), ret])
    ensures Disciplined(sp, outer + [RESTORE_SP, LoadFp(save), ret], true)
  {
    TailDisciplined(sp, save, ret);
    InnerIsDisciplined(sp, save, outer, [RESTORE_SP, LoadFp(save), ret], outer + [RESTORE_SP, LoadFp(save), ret]);
  }

  lemma TailDisciplined(sp: Spills, save: Reg, ret: Instr)
    requires SpillsOk(sp) && save.Virt? && save.ty == General && sp.viaSp == {save}
    requires WellFormed(ret) && ret.tag == JR
    ensures WellFormedBlock([RESTORE_SP, LoadFp(save), ret])
    ensures Disciplined(sp, [RESTORE_SP, LoadFp(save), ret], true)
  {
    var b := [RESTORE_SP, LoadFp(save), ret];
    MoveNames(SP, FP);
    MoveNames(FP, save);
    ReturnNamesNone(sp, ret);
    assert b[1..] == [LoadFp(save), ret] && [LoadFp(save), ret][1..] == [ret] && [ret][1..] == [];
    assert Disciplined(sp, [ret], false);
    assert Disciplined(sp, [LoadFp(save), ret], false);
  }

  /** That layout is disciplined. */
  lemma LaidOutIsDisciplined(sp: Spills, p: Program, prologue: nat, epilogue: nat, save: Reg, inner: Block,
                             outer: Block, ret: Instr)
    requires SpillsOk(sp) && LaidOut(sp, p, prologue, epilogue, save, inner, outer, ret)
    ensures DisciplinedProgram(sp, p, prologue)
  {
    PrologueDisciplined(sp, save, inner);
    EpilogueDisciplined(sp, save, outer, ret);
    forall l | l in p
      ensures Disciplined(sp, p[l], l != prologue)
    {
      if l != prologue && l != epilogue {
        assert p[l] + [] == p[l];
        InnerIsDisciplined(sp, save, p[l], [], p[l]);
      }
    }
  }
}
