// A copy that is put where it is not passed.
//
//   0: if x < y goto 1 else goto 2          1: z := phi(7 from 0, 5 from 2); return          2: goto 1
//
// When the blocks are selected in this order, block 0 has its branch by the time that the phi of
// block 1 is met, and the copy for the phi goes behind the comparison.

module SkippedCopy {
  import opened PhiCopies
  import opened InstructionSelector

  function Branching(): IRFunc {
    map[0 := IRBlock([], [], IfCmp(0, 1, 2, 1, 2)),
        1 := IRBlock([Phi(3, [(0, Imm(7)), (2, Imm(5))])], [], Return),
        2 := IRBlock([], [], Jump(1))]
  }

  function InOrder(b: nat): nat { b }

  function Less(): Isa { Isa((id: nat, v: Vals, w: World) => (v, w), (op: nat, a: int, b: int) => a < b) }

  function Begin(): Vals { map[1 := 0, 2 := 1] }

  ghost predicate IsBranching(f: IRFunc) {
    && f.Keys == {0, 1, 2} && f[0] == IRBlock([], [], IfCmp(0, 1, 2, 1, 2))
    && f[1] == IRBlock([Phi(3, [(0, Imm(7)), (2, Imm(5))])], [], Return) && f[2] == IRBlock([], [], Jump(1))
  }

  lemma BranchingIs(f: IRFunc)
    requires f == Branching()
    ensures IsBranching(f)
  {
  }

  /** The selector accepts the function. */
  lemma BranchingSelectable(f: IRFunc)
    requires IsBranching(f)
    ensures ArgsOk(f) && EdgesApart(f, InOrder) && EdgesOk(f)
  {
    var phi := f[1].phis[0];
    assert phi.args[0].0 == 0 && phi.args[1].0 == 2;
    assert HasArg(phi, 0) && HasArg(phi, 2);
  }

  /** As a function with phis, it ends with z == 7. */
  lemma PhiRun(f: IRFunc, vals: Vals)
    requires IsBranching(f) && vals == Begin()
    ensures RunIR(Less(), f, 2, 0, vals, []) == Over(vals[3 := 7], [])
  {
    assert ParVals(f, 1, 0, 0, vals) == vals;
    assert ParVals(f, 1, 0, 1, vals) == vals[3 := 7];
    assert RunIR(Less(), f, 1, 1, vals[3 := 7], []) == Over(vals[3 := 7], []);
  }

  /** The comparison holds: block 0 is left without the copy. */
  lemma FirstBlock(f: IRFunc, early: seq<MInstr>, late: seq<MInstr>, s: State)
    requires IsBranching(f) && ArgsOk(f) && EdgesOk(f) && Placed(f, InOrder, 0, early, late) &&
      s == State(Begin(), map[], [])
    ensures var s' := Leaving(Less(), f, 0, early, late, s);
      Run(Less(), f, Full(f, 0, early, late), s) == To(1, s') && s'.vals == Begin() && s'.world == [] &&
        Tmp(s'.tmps, 1, 0) == 0
  {
    TurnIsRight(Less(), f, InOrder, 0, early, late, s, Begin(), []);
    assert 1 in Successors(f[0].term);
    assert HasArg(Block(f, 1).phis[0], 0);
    TmpWhenLeaving(Less(), f, InOrder, 0, early, late, s, Begin(), [], 1, 0);
  }

  /** The phi of block 1 takes what its temporary holds. */
  lemma SecondBlock(f: IRFunc, early: seq<MInstr>, late: seq<MInstr>, s: State)
    requires IsBranching(f) && ArgsOk(f) && Placed(f, InOrder, 1, early, late)
    requires s.vals == Begin() && s.world == [] && Tmp(s.tmps, 1, 0) == 0
    ensures var s' := Leaving(Less(), f, 1, early, late, s);
      Run(Less(), f, Full(f, 1, early, late), s) == Exit(s') && s'.vals == Begin()[3 := 0] && s'.world == []
  {
    assert HeadVals(f, 1, 0, s.vals, s.tmps) == s.vals;
    assert HeadVals(f, 1, 1, s.vals, s.tmps) == Begin()[3 := 0];
    TurnIsRight(Less(), f, InOrder, 1, early, late, s, Begin()[3 := 0], []);
  }

  lemma TwoBlocks(isa: Isa, f: IRFunc, q: Program, s: State, s1: State, s2: State)
    requires Run(isa, f, Code(q, 0), s) == To(1, s1) && Run(isa, f, Code(q, 1), s1) == Exit(s2)
    ensures RunMachine(isa, f, q, 2, 0, s) == Ended(s2)
  {
    assert RunMachine(isa, f, q, 1, 1, s1) == Ended(s2);
  }

  lemma SelectedRun(f: IRFunc, q: Program, early: Program, late: Program, s: State)
    requires IsBranching(f) && ArgsOk(f) && EdgesOk(f) && Finished(f, InOrder, q, early, late)
    requires s == State(Begin(), map[], [])
    ensures var r := RunMachine(Less(), f, q, 2, 0, s); r.Ended? && r.state.vals == Begin()[3 := 0]
  {
    var s1 := Leaving(Less(), f, 0, Code(early, 0), Code(late, 0), s);
    var s2 := Leaving(Less(), f, 1, Code(early, 1), Code(late, 1), s1);
    assert Code(q, 0) == Full(f, 0, Code(early, 0), Code(late, 0));
    assert Code(q, 1) == Full(f, 1, Code(early, 1), Code(late, 1));
    FirstBlock(f, Code(early, 0), Code(late, 0), s);
    SecondBlock(f, Code(early, 1), Code(late, 1), s1);
    TwoBlocks(Less(), f, q, s, s1, s2);
  }

  /** The selected code ends with z == 0, whatever else the selector did: the run of the machine is
      not that of the function. */
  lemma SkippedCopyIsWrong(f: IRFunc, q: Program, early: Program, late: Program, s: State)
    requires IsBranching(f) && Finished(f, InOrder, q, early, late) && s == State(Begin(), map[], [])
    ensures !NoLateTargets(f, InOrder) && Entering(f, 0, Begin(), [], s)
    ensures RunIR(Less(), f, 2, 0, Begin(), []) == Over(Begin()[3 := 7], [])
    ensures var r := RunMachine(Less(), f, q, 2, 0, s); r.Ended? && r.state.vals == Begin()[3 := 0]
    ensures !SameRun(f, RunIR(Less(), f, 2, 0, Begin(), []), RunMachine(Less(), f, q, 2, 0, s))
  {
    BranchingSelectable(f);
    PhiRun(f, Begin());
    SelectedRun(f, q, early, late, s);
    assert Begin()[3 := 0][3] != Begin()[3 := 7][3];
  }

  /** The selector does produce such code. */
  method SelectBranching() returns (selector: InstructionSelector)
    ensures selector.f == Branching() && IsBranching(selector.f)
    ensures Finished(selector.f, InOrder, selector.code, selector.early, selector.late)
  {
    selector := new InstructionSelector(Branching());
    BranchingIs(selector.f);
    BranchingSelectable(selector.f);
    selector.Run([0, 1, 2], InOrder);
  }
}
