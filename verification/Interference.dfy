// From live sets to interferences, and from a colouring that respects them to code that may
// be coloured.

module Interference {
  import opened Machine
  import opened Liveness
  import opened Coloring
  import opened AllocState

  /** The source of a move may share the register of its destination. */
  function Moved(i: Instr): RegSet
    requires WellFormed(i)
  {
    if i.tag == MOV then {i.operands[1].reg} else {}
  }

  /** d against everything in live. */
  function PairsOf(d: Reg, live: RegSet): Pairs {
    set l | l in live && l != d && l.ty == d.ty :: (d, l)
  }

  function PairsOfAll(ds: seq<Reg>, live: RegSet): Pairs {
    if ds == [] then {} else PairsOfAll(ds[..|ds| - 1], live) + PairsOf(ds[|ds| - 1], live)
  }

  function InstrPairs(i: Instr, after: RegSet): Pairs
    requires WellFormed(i)
  {
    PairsOfAll(Defs(i), after - Moved(i) + DefSet(i))
  }

  function BlockPairs(b: Block, out: RegSet): Pairs
    requires WellFormedBlock(b)
  {
    if b == [] then {} else InstrPairs(b[0], LiveBefore(b[1..], out)) + BlockPairs(b[1..], out)
  }

  lemma {:induction false} PairsOfAllMember(ds: seq<Reg>, live: RegSet, d: Reg, l: Reg)
    ensures (d, l) in PairsOfAll(ds, live) <==> d in ds && l in live && l != d && l.ty == d.ty
  {
    if ds != [] {
      PairsOfAllMember(ds[..|ds| - 1], live, d, l);
      assert ds == ds[..|ds| - 1] + [ds[|ds| - 1]];
    }
  }

  /** The recorded pairs are exactly the interferences that a colouring has to respect. */
  lemma InstrPairsInterfere(i: Instr, after: RegSet, d: Reg, l: Reg)
    requires WellFormed(i)
    ensures (d, l) in InstrPairs(i, after) <==> Interfere(i, after, d, l) && d.ty == l.ty
  {
    PairsOfAllMember(Defs(i), after - Moved(i) + DefSet(i), d, l);
  }

  lemma {:induction false} PairsRespected(c: ColorMap, b: Block, out: RegSet)
    requires WellFormedBlock(b)
    requires forall x, y {:trigger (x, y) in BlockPairs(b, out)} :: (x, y) in BlockPairs(b, out) ==>
      Color(c, x) != Color(c, y)
    ensures Respects(c, b, out)
  {
    if b != [] {
      assert BlockPairs(b[1..], out) <= BlockPairs(b, out);
      PairsRespected(c, b[1..], out);
      var after := LiveBefore(b[1..], out);
      forall d, l | Interfere(b[0], after, d, l) && d.ty == l.ty
        ensures Color(c, d) != Color(c, l)
      {
        InstrPairsInterfere(b[0], after, d, l);
        assert (d, l) in BlockPairs(b, out);
      }
    }
  }

  /** Respecting the pairs is not only enough: a colouring that respects a block respects them. */
  lemma {:induction false} RespectedPairs(c: ColorMap, b: Block, out: RegSet, x: Reg, y: Reg)
    requires WellFormedBlock(b) && Respects(c, b, out) && (x, y) in BlockPairs(b, out)
    ensures Color(c, x) != Color(c, y)
  {
    var after := LiveBefore(b[1..], out);
    if (x, y) in InstrPairs(b[0], after) {
      InstrPairsInterfere(b[0], after, x, y);
    } else {
      RespectedPairs(c, b[1..], out, x, y);
    }
  }

  // ----- the blocks of a function -----

  function PairsOfBlocks(blocks: seq<nat>, p: Program, liveOut: LiveMap): Pairs
    requires forall l :: l in blocks ==> l in p && l in liveOut && WellFormedBlock(p[l])
  {
    if blocks == [] then {}
    else
      var l := blocks[|blocks| - 1];
      PairsOfBlocks(blocks[..|blocks| - 1], p, liveOut) + BlockPairs(p[l], liveOut[l])
  }

  lemma {:induction false} PairsOfBlocksMember(blocks: seq<nat>, p: Program, liveOut: LiveMap, l: nat)
    requires forall l :: l in blocks ==> l in p && l in liveOut && WellFormedBlock(p[l])
    requires l in blocks
    ensures BlockPairs(p[l], liveOut[l]) <= PairsOfBlocks(blocks, p, liveOut)
  {
    if l != blocks[|blocks| - 1] {
      PairsOfBlocksMember(blocks[..|blocks| - 1], p, liveOut, l);
    }
  }

  /** The move at position k of block l. */
  function MoveAt(l: nat, k: nat, i: Instr): Moves
    requires WellFormed(i)
  {
    if i.tag == MOV then {Move(l, k, i.operands[0].reg, i.operands[1].reg)} else {}
  }

  /** The moves of block l from position k on. */
  function MovesFrom(l: nat, b: Block, k: nat): Moves
    requires WellFormedBlock(b) && k <= |b|
    decreases |b| - k
  {
    if k == |b| then {} else MoveAt(l, k, b[k]) + MovesFrom(l, b, k + 1)
  }

  function MovesOfBlocks(blocks: seq<nat>, p: Program): Moves
    requires forall l :: l in blocks ==> l in p && WellFormedBlock(p[l])
  {
    if blocks == [] then {}
    else
      var l := blocks[|blocks| - 1];
      MovesOfBlocks(blocks[..|blocks| - 1], p) + MovesFrom(l, p[l], 0)
  }

  /** The registers the allocator has to know: all of them are in `universe`, and the virtual
      ones in `nodes`.  A move between a virtual register and $zero or $sp would make the
      virtual one an alias of it. */
  ghost predicate KnownInstr(i: Instr, nodes: RegSet, universe: RegSet)
    requires WellFormed(i)
  {
    && (forall r :: r in Uses(i) || r in DefSet(i) ==> r in universe && (r.Virt? ==> r in nodes))
    && (i.tag == MOV ==>
          var d, s := i.operands[0].reg, i.operands[1].reg;
          && d in universe && s in universe && (d.Virt? ==> d in nodes) && (s.Virt? ==> s in nodes)
          && (d.Virt? ==> s != SP && s != ZERO) && (s.Virt? ==> d != SP && d != ZERO))
  }

  ghost predicate KnownSet(live: RegSet, nodes: RegSet, universe: RegSet) {
    forall r :: r in live ==> r in universe && (r.Virt? ==> r in nodes) && r != ZERO
  }

  ghost predicate KnownBlock(b: Block, out: RegSet, nodes: RegSet, universe: RegSet)
    requires WellFormedBlock(b)
  {
    && (forall i :: i in b ==> KnownInstr(i, nodes, universe))
    && KnownSet(out, nodes, universe)
  }

  ghost predicate KnownProgram(p: Program, liveOut: LiveMap, nodes: RegSet, universe: RegSet)
    requires WellFormedProgram(p) && liveOut.Keys == p.Keys
  {
    forall l :: l in p ==> KnownBlock(p[l], liveOut[l], nodes, universe)
  }

  /** The walk of the graph builder over an instruction computes what is live before it. */
  lemma WalkIsTransfer(i: Instr, live: RegSet, nodes: RegSet, universe: RegSet)
    requires WellFormed(i) && KnownInstr(i, nodes, universe) && KnownSet(live, nodes, universe)
    ensures (live - Moved(i) + DefSet(i)) - DefSet(i) + Uses(i) == Transfer(i, live)
    ensures KnownSet(live - Moved(i) + DefSet(i), nodes, universe)
    ensures KnownSet(Transfer(i, live), nodes, universe)
  {
    if i.tag == MOV {
      var s := i.operands[1].reg;
      assert i.operands[1..] == [i.operands[1]];
      assert RegsOf(i.operands[1..]) == [s];
      assert s in Reads(i);
    }
  }

  lemma {:induction false} LiveBeforeKnown(b: Block, out: RegSet, nodes: RegSet, universe: RegSet)
    requires WellFormedBlock(b) && KnownBlock(b, out, nodes, universe)
    ensures KnownSet(LiveBefore(b, out), nodes, universe)
  {
    if b != [] {
      LiveBeforeKnown(b[1..], out, nodes, universe);
      WalkIsTransfer(b[0], LiveBefore(b[1..], out), nodes, universe);
    }
  }

  // ----- recording -----

  /** The edges are the recorded interferences, both ways, and those there were. */
  ghost predicate EdgesRecorded(before: Pairs, edges: Pairs, inter: Pairs) {
    forall x, y {:trigger (x, y) in edges} ::
      (x, y) in edges <==> (x, y) in before || (x, y) in inter || (y, x) in inter
  }

  function Naming(ms: Moves, r: Reg): Moves {
    set m | m in ms && (m.dst == r || m.src == r)
  }

  /** Every move is filed under both of its operands. */
  ghost predicate MovesFiled(before: map<Reg, Moves>, moveList: map<Reg, Moves>, ms: Moves) {
    forall r: Reg {:trigger Entry(moveList, r)} :: Entry(moveList, r) == Entry(before, r) + Naming(ms, r)
  }

  /** The degree of a node is the number of its neighbours, as far as 64 bits can hold it. */
  ghost predicate Counted(graph: map<Reg, RegSet>, degree: map<Reg, nat>) {
    forall v: Reg {:trigger DegreeOf(degree, v)} :: v.Virt? ==> DegreeOf(degree, v) == |Entry(graph, v)| % SIZE_T
  }

  ghost predicate DegreesKept(before: map<Reg, nat>, degree: map<Reg, nat>) {
    forall p: Reg {:trigger DegreeOf(degree, p)} :: p.Phys? ==> DegreeOf(degree, p) == DegreeOf(before, p)
  }

  /** What building the graph may change, and what it keeps. */
  ghost predicate Builds(s: State, s': State) {
    && s' == s.(inter := s'.inter, edges := s'.edges, graph := s'.graph, degree := s'.degree,
                moveList := s'.moveList, worklist := s'.worklist)
    && GraphOk(s'.universe, s'.edges, s'.graph)
    && s'.inter <= s'.edges && OverNodes(s'.inter, s'.nodes)
    && MovesOk(s'.universe, s'.nodes, s'.worklist, s'.moveList, map[])
  }

  /** What it adds to the tables. */
  ghost predicate Adds(s: State, s': State) {
    && EdgesRecorded(s.edges, s'.edges, s'.inter) && MovesFiled(s.moveList, s'.moveList, s'.worklist)
    && DegreesKept(s.degree, s'.degree) && (Counted(s.graph, s.degree) ==> Counted(s'.graph, s'.degree))
  }

  function Recorded(s: State, ps: Pairs): State {
    s.(inter := s.inter + ps)
  }

  lemma EdgeIsRecorded(before: Pairs, s: State, u: Reg, v: Reg)
    requires EdgesRecorded(before, s.edges, s.inter) && GraphOk(s.universe, s.edges, s.graph)
    ensures EdgesRecorded(before, EdgeAdded(s, u, v).edges, s.inter + PairsOf(u, {v}))
  {
    var edges' := EdgeAdded(s, u, v).edges;
    forall x, y
      ensures (x, y) in edges' <==>
        (x, y) in before || (x, y) in s.inter + PairsOf(u, {v}) || (y, x) in s.inter + PairsOf(u, {v})
    {
      assert (x, y) in s.edges <==> (x, y) in before || (x, y) in s.inter || (y, x) in s.inter;
      assert (y, x) in s.edges <==> (x, y) in s.edges;
    }
  }

  lemma EdgeKeepsDegrees(before: map<Reg, nat>, s: State, u: Reg, v: Reg)
    requires DegreesKept(before, s.degree)
    ensures DegreesKept(before, EdgeAdded(s, u, v).degree)
  {
    forall p: Reg | p.Phys?
      ensures DegreeOf(EdgeAdded(s, u, v).degree, p) == DegreeOf(before, p)
    {
      assert DegreeOf(s.degree, p) == DegreeOf(before, p);
    }
  }

  lemma UpCounts(n: nat, d: nat)
    requires d == n % SIZE_T
    ensures Up(d) == (n + 1) % SIZE_T
  {
  }

  lemma NeighborCounted(graph: map<Reg, RegSet>, degree: map<Reg, nat>, u: Reg, v: Reg)
    requires Counted(graph, degree) && v !in Entry(graph, u)
    ensures Counted(WithNeighbor(graph, u, v), WithDegree(degree, u))
  {
    NeighborsAfter(graph, u, v);
    forall x: Reg | x.Virt?
      ensures DegreeOf(WithDegree(degree, u), x) == |Entry(WithNeighbor(graph, u, v), x)| % SIZE_T
    {
      UpCounts(|Entry(graph, x)|, DegreeOf(degree, x));
    }
  }

  lemma EdgeIsCounted(s: State, u: Reg, v: Reg)
    requires Counted(s.graph, s.degree) && GraphOk(s.universe, s.edges, s.graph)
    ensures Counted(EdgeAdded(s, u, v).graph, EdgeAdded(s, u, v).degree)
  {
    if u.ty == v.ty && u != v && (u, v) !in s.edges {
      NeighborsAfter(s.graph, u, v);
      NeighborCounted(s.graph, s.degree, u, v);
      NeighborCounted(WithNeighbor(s.graph, u, v), WithDegree(s.degree, u), v, u);
    }
  }

  lemma RecordingBuilds(s0: State, s: State, u: Reg, v: Reg)
    requires Builds(s0, s) && u in s.universe && v in s.universe
    requires u.Virt? ==> u in s.nodes
    requires v.Virt? ==> v in s.nodes
    ensures Builds(s0, Recorded(EdgeAdded(s, u, v), PairsOf(u, {v})))
  {
    EdgeKeepsGraph(s, u, v);
  }

  lemma RecordingAdds(s0: State, s: State, u: Reg, v: Reg)
    requires Adds(s0, s) && GraphOk(s.universe, s.edges, s.graph)
    ensures Adds(s0, Recorded(EdgeAdded(s, u, v), PairsOf(u, {v})))
  {
    EdgeIsRecorded(s0.edges, s, u, v);
    EdgeKeepsDegrees(s0.degree, s, u, v);
    if Counted(s.graph, s.degree) {
      EdgeIsCounted(s, u, v);
    }
  }

  function MoveListed(s: State, m: Move): State {
    var ml := s.moveList[m.dst := Entry(s.moveList, m.dst) + {m}];
    s.(moveList := ml[m.src := Entry(ml, m.src) + {m}], worklist := s.worklist + {m})
  }

  lemma MoveIsFiled(before: map<Reg, Moves>, s: State, m: Move)
    requires MovesFiled(before, s.moveList, s.worklist)
    ensures MovesFiled(before, MoveListed(s, m).moveList, MoveListed(s, m).worklist)
  {
    forall r
      ensures Entry(MoveListed(s, m).moveList, r) == Entry(before, r) + Naming(MoveListed(s, m).worklist, r)
    {
      assert Entry(s.moveList, r) == Entry(before, r) + Naming(s.worklist, r);
      assert Naming(s.worklist + {m}, r) == Naming(s.worklist, r) + if m.dst == r || m.src == r then {m} else {};
    }
  }

  lemma ListingBuilds(s0: State, s: State, l: nat, k: nat, i: Instr)
    requires Builds(s0, s) && WellFormed(i) && i.tag == MOV && KnownInstr(i, s.nodes, s.universe)
    ensures Builds(s0, MoveListed(s, Move(l, k, i.operands[0].reg, i.operands[1].reg)))
  {
    var m := Move(l, k, i.operands[0].reg, i.operands[1].reg);
    var s' := MoveListed(s, m);
    assert forall x :: Entry(s.moveList, x) <= Entry(s'.moveList, x);
    forall n | n in s'.worklist
      ensures MoveOk(n, s'.universe, s'.nodes, s'.moveList, map[])
    {
      assert n != m ==> MoveOk(n, s.universe, s.nodes, s.moveList, map[]);
    }
  }

  lemma ListingAdds(s0: State, s: State, m: Move)
    requires Adds(s0, s)
    ensures Adds(s0, MoveListed(s, m))
  {
    MoveIsFiled(s0.moveList, s, m);
  }

  lemma PairsOfOneMore(d: Reg, live: RegSet, l: Reg)
    ensures PairsOf(d, live + {l}) == PairsOf(d, live) + PairsOf(d, {l})
  {
  }

  /** What a round starts with: nothing is listed, coalesced or on the stack.  Edges, degrees
      and move lists may be left over from the round before, and so may the moves that were
      still waiting. */
  ghost predicate Begun(s: State) {
    && s.simplify == s.freeze == s.spill == s.coalesced == s.stacked == {} && s.stack == []
    && s.rep == map[] && s.worklist == {} && s.inter == {}
    && GraphOk(s.universe, s.edges, s.graph)
    && (forall v :: v in s.nodes ==> v.Virt? && v in s.universe)
  }

  /** The first round of a function finds its tables empty. */
  ghost predicate Blank(s: State) {
    s.active == {} && s.moveList == map[] && s.edges == {} && s.graph == map[] && s.degree == map[]
  }

  /** Every node is on one of the lists that make_worklist makes, and on the right one. */
  ghost predicate Listed(s1: State, s: State) {
    && s == s1.(simplify := s.simplify, freeze := s.freeze, spill := s.spill)
    && (forall r :: r in s.spill <==> r in s.nodes && DegreeOf(s.degree, r) >= TypeK(r.ty))
    && (forall r :: r in s.freeze <==> r in s.nodes - s.spill && s.MoveRelated(r))
    && (forall r :: r in s.simplify <==> r in s.nodes - s.spill && !s.MoveRelated(r))
  }

  lemma AllListed(s1: State, s: State)
    requires Listed(s1, s)
    ensures s.simplify + s.freeze + s.spill == s.nodes && s.freeze !! s.spill
    ensures forall r :: r in s.simplify ==> !s.MoveRelated(r)
  {
  }

  /** What the rest of the round starts with, once every node has been listed. */
  lemma ListedHasInv(s0: State, s1: State, s: State)
    requires Begun(s0) && Builds(s0, s1) && s0.active <= s1.worklist
    requires s == s1.(simplify := s.simplify, freeze := s.freeze, spill := s.spill)
    requires s.simplify + s.freeze + s.spill == s.nodes && s.freeze !! s.spill
    requires forall r :: r in s.simplify ==> !s.MoveRelated(r)
    ensures s.Inv()
  {
    assert s.Pending() == s.worklist;
    assert s.Waiting() == s.nodes;
    forall x, y | (x, y) in s.inter
      ensures Covered(s.edges, s.graph, s.rep, s.stack, RepOf(s.rep, x), RepOf(s.rep, y))
    {
    }
  }

  /** A proper colouring of the recorded interferences may be applied to the code. */
  lemma ProperIsColorable(c: ColorMap, p: Program, liveIn: LiveMap, liveOut: LiveMap, blocks: seq<nat>, nodes: RegSet)
    requires SoundLive(p, liveIn, liveOut) && DistinctProgram(p)
    requires forall l :: l in blocks <==> l in p
    requires ProperColoring(nodes, PairsOfBlocks(blocks, p, liveOut), c, {})
    ensures Colorable(c, p, liveIn, liveOut)
  {
    forall l | l in p
      ensures Respects(c, p[l], liveOut[l])
    {
      PairsOfBlocksMember(blocks, p, liveOut, l);
      PairsRespected(c, p[l], liveOut[l]);
    }
  }
}
