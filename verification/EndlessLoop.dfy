// A function that never returns, and what becomes of its live sets.
//
//   prologue:  v := 1;  goto loop          loop:  store v;  goto loop          epilogue:  return
//
// The worklist starts at the epilogue and never gets to the loop.  So v is taken to be dead
// behind its definition, and machine dead-code elimination erases that.

module EndlessLoop {
  import opened Machine
  import opened Liveness
  import opened DeadMachineCode
  import opened FunctionLiveness
  import W = Worklist

  const V := Virt(General, 0)

  function Enter(): Instr { Instr(B, NONE, [LabelOp(1)], [], [], false) }
  function Store(): Instr { Instr(ST, WORD, [RegOp(V), RegOp(ZERO), ImmOp(0)], [], [], false) }
  function Leave(): Instr { Instr(JR, NONE, [RegOp(ZERO)], [], [], false) }

  function Prologue(): Block { [Load(V, 1), Enter()] }
  function Loop(): Block { [Store(), Enter()] }
  function Epilogue(): Block { [Leave()] }
  function Code(): Program { map[0 := Prologue(), 1 := Loop(), 2 := Epilogue()] }

  function Flow(): W.Graph {
    W.Graph({0, 1, 2}, map[0 := [1], 1 := [1], 2 := []], map[0 := [], 1 := [0, 1], 2 := []],
      map[0 := {}, 1 := {V}, 2 := {}], map[0 := {V}, 1 := {}, 2 := {}], 0, 2)
  }

  lemma FlowValid()
    ensures Flow().Valid()
  {
  }

  /** A path that has left the prologue, or not yet, is not at the epilogue. */
  lemma {:induction false} NeverOut(p: seq<nat>, k: nat)
    requires Flow().Valid() && W.IsPath(Flow(), p) && p[0] != 2 && k < |p|
    ensures p[k] != 2
  {
    if k > 0 {
      NeverOut(p, k - 1);
      assert p[(k - 1) + 1] in Flow().succ[p[k - 1]];
    }
  }

  lemma LoopCutOff(b: nat)
    requires Flow().Valid() && b in Flow().blocks && b != 2
    ensures !W.ReachesExit(Flow(), b)
  {
    forall p | W.IsPath(Flow(), p) && p[0] == b
      ensures p[|p| - 1] != 2
    {
      NeverOut(p, |p| - 1);
    }
  }

  lemma EnterInstr()
    ensures WellFormed(Enter()) && DefSet(Enter()) == {} && Uses(Enter()) == {} && HasTarget(Enter()) &&
      Target(Enter()) == 1
  {
    assert Reads(Enter()) == [];
  }

  lemma StoreInstr()
    ensures WellFormed(Store()) && DefSet(Store()) == {} && Uses(Store()) == {V} && !HasTarget(Store())
  {
    assert RegOp(V) in Store().operands;
    assert Reads(Store()) == RegsOf(Store().operands);
  }

  lemma LeaveInstr()
    ensures WellFormed(Leave()) && DefSet(Leave()) == {} && Uses(Leave()) == {} && !HasTarget(Leave())
  {
  }

  lemma LoadInstr()
    ensures WellFormed(Load(V, 1)) && DefSet(Load(V, 1)) == {V} && Uses(Load(V, 1)) == {} && !HasTarget(Load(V, 1))
  {
    LoadWrites(V, 1);
  }

  lemma OfOne(i: Instr, r: Reg, out: set<Reg>)
    requires WellFormed(i)
    ensures WellFormedBlock([i]) && LiveBefore([i], out) == Transfer(i, out)
    ensures (UsedFirst([i], r) <==> r in Uses(i)) && (DefinedFirst([i], r) <==> r !in Uses(i) && r in DefSet(i))
  {
    assert [i][1..] == [];
  }

  lemma OfTwo(i: Instr, j: Instr, r: Reg, out: set<Reg>)
    requires WellFormed(i) && WellFormed(j)
    ensures WellFormedBlock([i, j]) && LiveBefore([i, j], out) == Transfer(i, Transfer(j, out))
    ensures UsedFirst([i, j], r) <==> r in Uses(i) || (r !in DefSet(i) && r in Uses(j))
    ensures DefinedFirst([i, j], r) <==> r !in Uses(i) && (r in DefSet(i) || (r !in Uses(j) && r in DefSet(j)))
  {
    OfOne(j, r, out);
    assert [i, j][1..] == [j];
  }

  /** The summary of a block: what it reads from outside, and what it writes first. */
  ghost predicate Summary(b: Block, use: set<Reg>, def: set<Reg>, r: Reg) {
    WellFormedBlock(b) && (r in use <==> UsedFirst(b, r)) && (r in def <==> DefinedFirst(b, r))
  }

  lemma PrologueSummary(r: Reg)
    ensures Summary(Prologue(), {}, {V}, r)
  {
    LoadInstr();
    EnterInstr();
    OfTwo(Load(V, 1), Enter(), r, {});
  }

  lemma LoopSummary(r: Reg)
    ensures Summary(Loop(), {V}, {}, r)
    ensures V in LiveBefore(Loop(), {})
  {
    StoreInstr();
    EnterInstr();
    OfTwo(Store(), Enter(), r, {});
  }

  lemma EpilogueSummary(r: Reg)
    ensures Summary(Epilogue(), {}, {}, r)
  {
    LeaveInstr();
    OfOne(Leave(), r, {});
  }

  ghost predicate IsCode(p: Program) {
    p.Keys == {0, 1, 2} && p[0] == Prologue() && p[1] == Loop() && p[2] == Epilogue()
  }

  ghost predicate IsFlow(g: W.Graph) {
    && g.Valid() && g.blocks == {0, 1, 2} && g.epilogue == 2 && g.succ == Flow().succ
    && g.use[0] == {} && g.use[1] == {V} && g.use[2] == {} && g.def[0] == {V} && g.def[1] == {} && g.def[2] == {}
  }

  lemma CodeIs(p: Program)
    requires p == Code()
    ensures IsCode(p)
  {
  }

  lemma CodeWellFormed(p: Program)
    requires IsCode(p)
    ensures WellFormedProgram(p)
  {
    forall l | l in p
      ensures WellFormedBlock(p[l])
    {
      if l == 0 {
        PrologueSummary(V);
      } else if l == 1 {
        LoopSummary(V);
      } else {
        EpilogueSummary(V);
      }
    }
  }

  lemma FlowIs(g: W.Graph)
    requires g == Flow()
    ensures IsFlow(g)
  {
    FlowValid();
  }

  lemma SummariesMatch(p: Program, g: W.Graph, l: nat, r: Reg)
    requires IsCode(p) && IsFlow(g) && l in p
    ensures Summary(p[l], g.use[l], g.def[l], r)
  {
    if l == 0 {
      PrologueSummary(r);
    } else if l == 1 {
      LoopSummary(r);
    } else {
      EpilogueSummary(r);
    }
  }

  lemma TargetOfTwo(i: Instr, j: Instr, m: Instr)
    requires WellFormed(i) && !HasTarget(i) && WellFormed(j) && m in [i, j] && HasTarget(m)
    ensures m == j
  {
  }

  lemma TargetsFollowed(p: Program, g: W.Graph, l: nat, i: Instr)
    requires IsCode(p) && IsFlow(g) && WellFormedProgram(p) && l in p && i in p[l] && HasTarget(i)
    ensures Target(i) in g.succ[l]
  {
    EnterInstr();
    if l == 0 {
      LoadInstr();
      TargetOfTwo(Load(V, 1), Enter(), i);
    } else if l == 1 {
      StoreInstr();
      TargetOfTwo(Store(), Enter(), i);
    } else {
      LeaveInstr();
    }
  }

  /** The graph is the flow graph of the code. */
  lemma FlowOfCode(p: Program, g: W.Graph)
    requires IsCode(p) && IsFlow(g) && WellFormedProgram(p)
    ensures GraphOf(p, g)
  {
    forall l, r | l in p
      ensures (r in g.use[l] <==> UsedFirst(p[l], r)) && (r in g.def[l] <==> DefinedFirst(p[l], r))
    {
      SummariesMatch(p, g, l, r);
    }
    forall l, i | l in p && i in p[l] && HasTarget(i)
      ensures Target(i) in g.succ[l]
    {
      TargetsFollowed(p, g, l, i);
    }
  }

  lemma LoadIsErased(b: Block, out: set<Reg>)
    requires b == Prologue() && out == {}
    ensures WellFormedBlock(b) && Sweep(b, out) == [Enter()]
  {
    LoadInstr();
    EnterInstr();
    OfTwo(Load(V, 1), Enter(), V, {});
    assert b[1..] == [Enter()] && [Enter()][1..] == [];
    assert Sweep([Enter()], {}) == [Enter()];
    OfOne(Enter(), V, {});
  }

  /** Whatever the worklist computes for this function is too little: the loop reads v, no register
      is live into it, and the definition of v is erased. */
  lemma EndlessLoopLosesLive(p: Program, g: W.Graph, live: LiveMap, out: LiveMap)
    requires p == Code() && g == Flow()
    ensures GraphOf(p, g) && !NothingLostInLoops(g)
    ensures Computed(g, live, out) ==>
      && !SoundLive(p, live, out) && live[1] == {} && out[0] == {} && UsedFirst(p[1], V)
      && Sweep(p[0], out[0]) == [Enter()]
  {
    CodeIs(p);
    FlowIs(g);
    CodeWellFormed(p);
    FlowOfCode(p, g);
    LoopCutOff(0);
    LoopCutOff(1);
    LoopSummary(V);
    if Computed(g, live, out) {
      LoadIsErased(p[0], out[0]);
    }
  }
}
