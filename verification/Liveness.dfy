// Live registers: the summaries of a block, and the backward worklist over the blocks of a
// function that is started at the epilogue alone.

module Liveness {
  import opened Machine

  // ----- one block -----

  /** The registers live before i, given those live after it. */
  function Transfer(i: Instr, live: set<Reg>): set<Reg>
    requires WellFormed(i)
  {
    (live - DefSet(i)) + Uses(i)
  }

  /** The registers live before a list of instructions, given those live after it. */
  function LiveBefore(b: Block, out: set<Reg>): set<Reg>
    requires WellFormedBlock(b)
  {
    if b == [] then out else Transfer(b[0], LiveBefore(b[1..], out))
  }

  // ----- block summaries -----

  /** r is read in b, and not written there before. */
  predicate UsedFirst(b: Block, r: Reg)
    requires WellFormedBlock(b)
  {
    b != [] && (r in Uses(b[0]) || (r !in DefSet(b[0]) && UsedFirst(b[1..], r)))
  }

  /** r is written in b, and not read there before or by the instruction that writes it. */
  predicate DefinedFirst(b: Block, r: Reg)
    requires WellFormedBlock(b)
  {
    b != [] && r !in Uses(b[0]) && (r in DefSet(b[0]) || DefinedFirst(b[1..], r))
  }

  function AllUses(b: Block): set<Reg>
    requires WellFormedBlock(b)
  {
    if b == [] then {} else Uses(b[0]) + AllUses(b[1..])
  }

  function AllDefs(b: Block): set<Reg>
    requires WellFormedBlock(b)
  {
    if b == [] then {} else DefSet(b[0]) + AllDefs(b[1..])
  }

  method BlockDef(b: Block) returns (defs: set<Reg>)
    requires WellFormedBlock(b)
    ensures forall r :: r in defs <==> DefinedFirst(b, r)
  {
    var uses: set<Reg> := {};
    defs := {};
    for n := 0 to |b|
      invariant uses == AllUses(b[..n])
      invariant forall r :: r in defs <==> DefinedFirst(b[..n], r)
    {
      uses := uses + Uses(b[n]);
      defs := defs + (DefSet(b[n]) - uses);
      assert b[..n + 1] == b[..n] + [b[n]];
      SummaryStep(b[..n], b[n]);
    }
    assert b[..|b|] == b;
  }

  method BlockUse(b: Block) returns (uses: set<Reg>)
    requires WellFormedBlock(b)
    ensures forall r :: r in uses <==> UsedFirst(b, r)
  {
    var defs: set<Reg> := {};
    uses := {};
    for n := 0 to |b|
      invariant defs == AllDefs(b[..n])
      invariant forall r :: r in uses <==> UsedFirst(b[..n], r)
    {
      uses := uses + (Uses(b[n]) - defs);
      defs := defs + DefSet(b[n]);
      assert b[..n + 1] == b[..n] + [b[n]];
      SummaryStep(b[..n], b[n]);
    }
    assert b[..|b|] == b;
  }

  lemma {:induction false} SummaryStep(a: Block, i: Instr)
    requires WellFormedBlock(a) && WellFormed(i)
    ensures AllUses(a + [i]) == AllUses(a) + Uses(i)
    ensures AllDefs(a + [i]) == AllDefs(a) + DefSet(i)
    ensures forall r :: DefinedFirst(a + [i], r) <==>
      DefinedFirst(a, r) || (r in DefSet(i) && r !in AllUses(a) + Uses(i))
    ensures forall r :: UsedFirst(a + [i], r) <==>
      UsedFirst(a, r) || (r in Uses(i) && r !in AllDefs(a))
  {
    if a != [] {
      SummaryStep(a[1..], i);
      assert (a + [i])[1..] == a[1..] + [i];
    }
  }

  /** The two summaries together are the instruction-by-instruction transfer of the block. */
  lemma SummaryIsTransfer(b: Block, out: set<Reg>, uses: set<Reg>, defs: set<Reg>)
    requires WellFormedBlock(b)
    requires forall r :: r in uses <==> UsedFirst(b, r)
    requires forall r :: r in defs <==> DefinedFirst(b, r)
    ensures (out - defs) + uses == LiveBefore(b, out)
  {
    forall r
      ensures r in LiveBefore(b, out) <==> UsedFirst(b, r) || (r in out && !DefinedFirst(b, r))
    {
      LiveBeforeMembership(b, out, r);
    }
  }

  lemma {:induction false} LiveBeforeMembership(b: Block, out: set<Reg>, r: Reg)
    requires WellFormedBlock(b)
    ensures r in LiveBefore(b, out) <==> UsedFirst(b, r) || (r in out && !DefinedFirst(b, r))
  {
    if b != [] {
      LiveBeforeMembership(b[1..], out, r);
    }
  }

  // ----- a whole function -----

  type LiveMap = map<nat, set<Reg>>

  /** Nothing that is live at the target of a branch is written behind that branch in its block. */
  predicate JumpsClean(b: Block, liveIn: LiveMap)
    requires WellFormedBlock(b)
  {
    b != [] ==>
      && (HasTarget(b[0]) && Target(b[0]) in liveIn ==> AllDefs(b[1..]) !! liveIn[Target(b[0])])
      && JumpsClean(b[1..], liveIn)
  }

  predicate TargetsBelow(b: Block, liveIn: LiveMap, out: set<Reg>)
    requires WellFormedBlock(b)
  {
    forall i :: i in b && HasTarget(i) && Target(i) in liveIn ==> liveIn[Target(i)] <= out
  }

  /** Live sets that a pass may rely on: they hold at least what the code calls for. */
  ghost predicate SoundLive(p: Program, liveIn: LiveMap, liveOut: LiveMap) {
    && WellFormedProgram(p)
    && p.Keys == liveIn.Keys == liveOut.Keys
    && forall l :: l in p ==>
         && LiveBefore(p[l], liveOut[l]) <= liveIn[l]
         && TargetsBelow(p[l], liveIn, liveOut[l])
         && JumpsClean(p[l], liveIn)
  }

  lemma {:induction false} UndefinedStaysLive(b: Block, out: set<Reg>, x: set<Reg>)
    requires WellFormedBlock(b) && x <= out && AllDefs(b) !! x
    ensures x <= LiveBefore(b, out)
  {
    if b != [] {
      UndefinedStaysLive(b[1..], out, x);
    }
  }
}
