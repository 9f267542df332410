// What the worklist computes for the code of a function, and when later passes may rely on it.

module FunctionLiveness {
  import opened Machine
  import opened Liveness
  import opened Interference
  import W = Worklist

  /** g is the flow graph of p, with the summaries of its blocks. */
  ghost predicate GraphOf(p: Program, g: W.Graph) {
    && WellFormedProgram(p) && g.Valid() && p.Keys == g.blocks
    && (forall l, r {:trigger r in g.use[l]} :: l in p ==> (r in g.use[l] <==> UsedFirst(p[l], r)))
    && (forall l, r {:trigger r in g.def[l]} :: l in p ==> (r in g.def[l] <==> DefinedFirst(p[l], r)))
    && (forall l, i :: l in p && i in p[l] && HasTarget(i) && Target(i) in p ==> Target(i) in g.succ[l])
    && (forall l :: l in p ==> l in g.use && l in g.def)
  }

  /** What the worklist algorithm guarantees on return. */
  ghost predicate Computed(g: W.Graph, live: LiveMap, out: LiveMap) {
    && g.Valid() && live.Keys == g.blocks && out.Keys == g.blocks
    && (forall b :: b in g.blocks && W.ReachesExit(g, b) ==> out[b] == W.Out(g, live, b) && live[b] == W.In(g, live, b))
    && (forall b :: b in g.blocks && !W.ReachesExit(g, b) ==> live[b] == {} && out[b] == {})
    && W.BelowClosed(g, live)
  }

  /** No register is live into a block that cannot reach the epilogue. */
  ghost predicate NothingLostInLoops(g: W.Graph)
    requires g.Valid()
  {
    forall b :: b in g.blocks && !W.ReachesExit(g, b) ==> g.use[b] == {}
  }

  lemma BlockTransfer(p: Program, g: W.Graph, live: LiveMap, l: nat, out: set<Reg>)
    requires GraphOf(p, g) && l in p
    ensures LiveBefore(p[l], out) == (out - g.def[l]) + g.use[l]
  {
    SummaryIsTransfer(p[l], out, g.use[l], g.def[l]);
  }

  lemma TargetsLive(p: Program, g: W.Graph, live: LiveMap, out: LiveMap, l: nat)
    requires GraphOf(p, g) && Computed(g, live, out) && l in p
    ensures TargetsBelow(p[l], live, out[l])
  {
    forall i | i in p[l] && HasTarget(i) && Target(i) in live
      ensures live[Target(i)] <= out[l]
    {
      var t := Target(i);
      assert t in g.succ[l];
      if W.ReachesExit(g, t) {
        W.ReachesFromSuccessor(g, l, t);
        forall r | r in live[t] ensures r in out[l] {
          W.UnionOfMember(live, g.succ[l], r);
        }
      }
    }
  }

  /** What SoundLive asks of a block. */
  ghost predicate BlockSound(p: Program, live: LiveMap, out: LiveMap, l: nat)
    requires WellFormedProgram(p) && l in p && l in live && l in out
  {
    LiveBefore(p[l], out[l]) <= live[l] && TargetsBelow(p[l], live, out[l])
  }

  lemma BlockSoundExactlyWhen(p: Program, g: W.Graph, live: LiveMap, out: LiveMap, l: nat)
    requires GraphOf(p, g) && Computed(g, live, out) && l in p
    ensures BlockSound(p, live, out, l) <==> W.ReachesExit(g, l) || g.use[l] == {}
  {
    TargetsLive(p, g, live, out, l);
    BlockTransfer(p, g, live, l, out[l]);
  }

  /** The live sets hold what the code calls for if and only if no block that is cut off from
      the epilogue reads a register from outside: the worklist never gets to such blocks. */
  lemma SoundExactlyWhen(p: Program, g: W.Graph, live: LiveMap, out: LiveMap)
    requires GraphOf(p, g) && Computed(g, live, out)
    requires forall l :: l in p ==> JumpsClean(p[l], live)
    ensures SoundLive(p, live, out) <==> NothingLostInLoops(g)
  {
    forall l | l in p
      ensures BlockSound(p, live, out, l) <==> W.ReachesExit(g, l) || g.use[l] == {}
    {
      BlockSoundExactlyWhen(p, g, live, out, l);
    }
  }

  lemma OutWithin(g: W.Graph, m: LiveMap, u: set<Reg>, b: nat)
    requires g.Valid() && m.Keys == g.blocks && b in g.blocks && forall c :: c in m ==> m[c] <= u
    ensures W.Out(g, m, b) <= u
  {
    forall r | r in W.Out(g, m, b) ensures r in u {
      W.UnionOfMember(m, g.succ[b], r);
    }
  }

  lemma EverythingIsClosed(g: W.Graph)
    requires g.Valid()
    ensures W.Closed(g, map c | c in g.blocks :: W.Universe(g, g.blocks))
  {
    var u := W.Universe(g, g.blocks);
    var m: LiveMap := map c | c in g.blocks :: u;
    forall c | c in g.blocks
      ensures W.In(g, m, c) <= m[c]
    {
      OutWithin(g, m, u, c);
    }
  }

  /** The live sets name no register that the code does not use. */
  lemma LiveIsUsed(g: W.Graph, live: LiveMap, out: LiveMap, b: nat)
    requires Computed(g, live, out) && b in g.blocks
    ensures live[b] <= W.Universe(g, g.blocks) && out[b] <= W.Universe(g, g.blocks)
  {
    var u := W.Universe(g, g.blocks);
    EverythingIsClosed(g);
    forall c | c in live ensures live[c] <= u {
      assert c in g.blocks;
    }
    OutWithin(g, live, u, b);
  }

  lemma {:induction false} UsedFirstIsUsed(b: Block, r: Reg)
    requires WellFormedBlock(b) && UsedFirst(b, r)
    ensures exists i :: i in b && r in Uses(i)
  {
    if r in Uses(b[0]) {
      assert b[0] in b;
    } else {
      UsedFirstIsUsed(b[1..], r);
      var i :| i in b[1..] && r in Uses(i);
      assert i in b;
    }
  }

  /** So an allocator that knows the registers of every instruction knows the live ones. */
  lemma LiveIsKnown(p: Program, g: W.Graph, live: LiveMap, out: LiveMap, nodes: set<Reg>, universe: set<Reg>)
    requires GraphOf(p, g) && Computed(g, live, out)
    requires forall l, i :: l in p && i in p[l] ==> KnownInstr(i, nodes, universe)
    ensures KnownProgram(p, out, nodes, universe)
  {
    forall l, r | l in p && r in out[l]
      ensures r in universe && (r.Virt? ==> r in nodes) && r != ZERO
    {
      LiveIsUsed(g, live, out, l);
      var b :| b in g.blocks && r in g.use[b];
      UsedFirstIsUsed(p[b], r);
      var i :| i in p[b] && r in Uses(i);
      UsedIsKnown(i, r, nodes, universe);
    }
  }

  lemma UsedIsKnown(i: Instr, r: Reg, nodes: set<Reg>, universe: set<Reg>)
    requires WellFormed(i) && KnownInstr(i, nodes, universe) && r in Uses(i)
    ensures r in universe && (r.Virt? ==> r in nodes) && r != ZERO
  {
    UsesAreTracked(i, r);
  }

  // ----- the register that is carried to the epilogue -----

  lemma {:induction false} UsedBehind(a: Block, i: Instr, b: Block, r: Reg)
    requires WellFormedBlock(a) && WellFormed(i) && WellFormedBlock(b) && WellFormedBlock(a + [i] + b)
    requires r in Uses(i) && r !in AllDefs(a)
    ensures UsedFirst(a + [i] + b, r) && !DefinedFirst(a + [i] + b, r)
  {
    var c := a + [i] + b;
    if a != [] {
      assert c[0] == a[0] && c[1..] == a[1..] + [i] + b;
      UsedBehind(a[1..], i, b, r);
      LiveBeforeMembership(c, {r}, r);
    }
  }

  lemma {:induction false} DefinedIsWritten(b: Block, r: Reg)
    requires WellFormedBlock(b) && DefinedFirst(b, r)
    ensures r in AllDefs(b)
  {
    if r !in DefSet(b[0]) {
      DefinedIsWritten(b[1..], r);
    }
  }

  /** The epilogue restores the stack pointer from the frame pointer, and between prologue and
      epilogue nothing writes the frame pointer: so the walk from the epilogue cannot stop early. */
  lemma FramePointerCarried(p: Program, g: W.Graph, a: Block, b: Block)
    requires GraphOf(p, g)
    requires p[g.epilogue] == a + [RESTORE_SP] + b && WellFormedBlock(a) && WellFormedBlock(b) && FP !in AllDefs(a)
    requires forall l :: l in p && l != g.prologue && l != g.epilogue ==> FP !in AllDefs(p[l])
    ensures W.CarriedToExit(g, FP)
  {
    assert RESTORE_SP.operands[1..] == [RegOp(FP)] && RegsOf([RegOp(FP)]) == [FP];
    assert FP in Reads(RESTORE_SP);
    UsedBehind(a, RESTORE_SP, b, FP);
    forall l | l in g.blocks && l != g.prologue
      ensures FP !in g.def[l]
    {
      if l != g.epilogue && DefinedFirst(p[l], FP) {
        DefinedIsWritten(p[l], FP);
      }
    }
  }
}
