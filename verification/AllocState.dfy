// The state of iterated register coalescing, and what every step of it keeps.
//
// A State is a snapshot of the allocator's work lists and tables.  Two of its fields are
// bookkeeping: `rep` records where alias chains end, and `inter` the interferences that the
// colouring has to respect.  The steps themselves are the methods of the allocator; here are
// the invariants, each over the fields it is about, and one lemma for each kind of step.

module AllocState {
  import opened Machine

  /** A move instruction: the index-th instruction of a block, and its operands. */
  datatype Move = Move(block: nat, index: nat, dst: Reg, src: Reg)
  type Moves = set<Move>
  type Pairs = set<(Reg, Reg)>
  type RegSet = set<Reg>

  /** The registers that may be handed out: $ra, $a0-$a7, $t0-$t8 and $s0-$s8, all
      floating-point registers, all condition flags. */
  predicate Allocatable(c: Reg) {
    c.Phys? &&
    match c.ty
    case General => c.id == 1 || 4 <= c.id <= 20 || 23 <= c.id <= 31
    case Float => c.id < 32
    case FloatCmp => c.id < 8
  }

  function AllocatableSet(ty: RegType): RegSet {
    set id: nat | id < 32 && Allocatable(Phys(ty, id)) :: Phys(ty, id)
  }

  /** The number of registers of a type that may be handed out. */
  function TypeK(ty: RegType): nat {
    match ty
    case General => 27
    case Float => 32
    case FloatCmp => 8
  }

  // Tables are default-constructed where they have no entry yet.
  function Entry<T>(m: map<Reg, set<T>>, r: Reg): set<T> {
    if r in m then m[r] else {}
  }

  // Degrees are unsigned 64-bit numbers, and wrap around.
  const SIZE_T: nat := 0x1_0000_0000_0000_0000

  function Up(d: nat): nat { if d + 1 == SIZE_T then 0 else d + 1 }
  function Down(d: nat): nat { if d == 0 then SIZE_T - 1 else d - 1 }

  function DegreeOf(degree: map<Reg, nat>, r: Reg): nat {
    if r in degree then degree[r] else 0
  }

  /** The end of r's alias chain. */
  function RepOf(rep: map<Reg, Reg>, r: Reg): Reg {
    if r in rep then rep[r] else r
  }

  // ----- invariants -----

  ghost predicate GraphOk(universe: RegSet, edges: Pairs, graph: map<Reg, RegSet>) {
    && (forall u, v {:trigger (u, v) in edges} :: (u, v) in edges ==>
          u != v && u.ty == v.ty && (v, u) in edges && u in universe && v in universe
          && (u.Virt? ==> v in Entry(graph, u)))
    && (forall u, v {:trigger v in Entry(graph, u)} :: v in Entry(graph, u) ==> u.Virt? && (u, v) in edges)
  }

  ghost predicate AliasOk(universe: RegSet, coalesced: RegSet, rep: map<Reg, Reg>) {
    && rep.Keys == coalesced
    && forall v {:trigger rep[v]} :: v in rep ==>
         && v.Virt? && v in universe && rep[v] in universe && rep[v] !in rep && rep[v].ty == v.ty
         && rep[v] != SP && rep[v] != ZERO
  }

  /** What is kept of a move while it may still be coalesced. */
  ghost predicate MoveOk(m: Move, universe: RegSet, nodes: RegSet, moveList: map<Reg, Moves>, rep: map<Reg, Reg>) {
    && m.dst.ty == m.src.ty && m.dst in universe && m.src in universe
    && (m.dst.Virt? ==> m.dst in nodes && m.src != SP && m.src != ZERO)
    && (m.src.Virt? ==> m.src in nodes && m.dst != SP && m.dst != ZERO)
    && m in Entry(moveList, m.dst) && m in Entry(moveList, m.src)
    && m in Entry(moveList, RepOf(rep, m.dst)) && m in Entry(moveList, RepOf(rep, m.src))
  }

  ghost predicate MovesOk(universe: RegSet, nodes: RegSet, pending: Moves, moveList: map<Reg, Moves>,
                          rep: map<Reg, Reg>) {
    forall m :: m in pending ==> MoveOk(m, universe, nodes, moveList, rep)
  }

  /** Registers on their way to the select stack take part in no pending move. */
  ghost predicate Quiet(exempt: RegSet, simplify: RegSet, stacked: RegSet, moveList: map<Reg, Moves>, pending: Moves) {
    forall x {:trigger Entry(moveList, x)} ::
      (x in simplify || x in stacked) && x !in exempt ==> Entry(moveList, x) * pending == {}
  }

  ghost predicate StackOk(stack: seq<Reg>, stacked: RegSet) {
    forall x :: x in stacked <==> x in stack
  }

  /** Every register that is waiting is known, and every node's representative is waiting. */
  ghost predicate PlaceOk(universe: RegSet, nodes: RegSet, waiting: RegSet, rep: map<Reg, Reg>) {
    && waiting <= universe
    && (forall v :: v in nodes ==> v.Virt? && v in universe)
    && (forall v {:trigger RepOf(rep, v)} :: v in nodes && RepOf(rep, v).Virt? ==> RepOf(rep, v) in waiting)
  }

  /** x is on the stack and will see the colour of y when it is popped: its neighbour z has
      been coalesced into y, and y is popped earlier. */
  ghost predicate ShieldedBy(graph: map<Reg, RegSet>, rep: map<Reg, Reg>, stack: seq<Reg>, x: Reg, y: Reg, z: Reg,
                             i: int) {
    x.Virt? && z in Entry(graph, x) && RepOf(rep, z) == y && 0 <= i < |stack| && stack[i] == x && y !in stack[..i + 1]
  }

  ghost predicate Shielded(graph: map<Reg, RegSet>, rep: map<Reg, Reg>, stack: seq<Reg>, x: Reg, y: Reg) {
    exists z, i :: ShieldedBy(graph, rep, stack, x, y, z, i)
  }

  ghost predicate Covered(edges: Pairs, graph: map<Reg, RegSet>, rep: map<Reg, Reg>, stack: seq<Reg>, x: Reg, y: Reg) {
    x != y && ((x, y) in edges || Shielded(graph, rep, stack, x, y) || Shielded(graph, rep, stack, y, x))
  }

  /** r is no physical register on the select stack.  Coalescing takes those to be gone, and
      does not hand on the interferences with them. */
  predicate Open(stacked: RegSet, r: Reg) {
    r.Virt? || r !in stacked
  }

  /** Every recorded interference is still taken care of between the representatives, unless one
      of them is a physical register on the stack. */
  ghost predicate Cover(inter: Pairs, edges: Pairs, graph: map<Reg, RegSet>, rep: map<Reg, Reg>, stack: seq<Reg>,
                        stacked: RegSet) {
    forall x, y {:trigger (x, y) in inter} :: (x, y) in inter ==>
      Open(stacked, RepOf(rep, x)) && Open(stacked, RepOf(rep, y)) ==>
      Covered(edges, graph, rep, stack, RepOf(rep, x), RepOf(rep, y))
  }

  datatype State = State(
    nodes: RegSet,               // the virtual registers to be coloured
    universe: RegSet,            // every register that occurs anywhere
    inter: Pairs,                // the recorded interferences
    simplify: RegSet,
    freeze: RegSet,
    spill: RegSet,
    coalesced: RegSet,
    stack: seq<Reg>,
    stacked: RegSet,
    worklist: Moves,
    active: Moves,
    moveList: map<Reg, Moves>,
    edges: Pairs,
    graph: map<Reg, RegSet>,
    degree: map<Reg, nat>,
    rep: map<Reg, Reg>)
  {
    function Pending(): Moves { worklist + active }
    function Waiting(): RegSet { simplify + freeze + spill + stacked }

    function Adjacent(r: Reg): RegSet { Entry(graph, r) - coalesced - stacked }
    function NodeMoves(r: Reg): Moves { Entry(moveList, r) * Pending() }
    predicate MoveRelated(r: Reg) { NodeMoves(r) != {} }

    ghost predicate Core(exempt: RegSet) {
      && GraphOk(universe, edges, graph)
      && AliasOk(universe, coalesced, rep)
      && MovesOk(universe, nodes, Pending(), moveList, rep)
      && Quiet(exempt, simplify, stacked, moveList, Pending())
      && StackOk(stack, stacked)
      && PlaceOk(universe, nodes, Waiting(), rep)
      && freeze !! spill
    }

    ghost predicate Covers() {
      Cover(inter, edges, graph, rep, stack, stacked)
    }

    ghost predicate Inv() {
      Core({}) && Covers()
    }
  }

  lemma RepIdempotent(s: State, r: Reg)
    requires AliasOk(s.universe, s.coalesced, s.rep)
    ensures var q := RepOf(s.rep, r);
      q !in s.coalesced && RepOf(s.rep, q) == q && q.ty == r.ty && (r.Phys? ==> q == r)
      && (r in s.universe ==> q in s.universe)
  {
  }

  // ----- pushing a register on the select stack -----

  function Pushed(s: State, r: Reg): State {
    s.(simplify := s.simplify - {r}, stack := s.stack + [r], stacked := s.stacked + {r})
  }

  lemma ShieldedAfterPush(graph: map<Reg, RegSet>, rep: map<Reg, Reg>, stack: seq<Reg>, r: Reg, x: Reg, y: Reg)
    requires Shielded(graph, rep, stack, x, y)
    ensures Shielded(graph, rep, stack + [r], x, y)
  {
    var z, i :| ShieldedBy(graph, rep, stack, x, y, z, i);
    assert (stack + [r])[..i + 1] == stack[..i + 1];
    assert ShieldedBy(graph, rep, stack + [r], x, y, z, i);
  }

  lemma CoveredAfterPush(s: State, r: Reg, x: Reg, y: Reg)
    requires Covered(s.edges, s.graph, s.rep, s.stack, x, y)
    ensures Covered(s.edges, s.graph, s.rep, s.stack + [r], x, y)
  {
    if Shielded(s.graph, s.rep, s.stack, x, y) {
      ShieldedAfterPush(s.graph, s.rep, s.stack, r, x, y);
    } else if Shielded(s.graph, s.rep, s.stack, y, x) {
      ShieldedAfterPush(s.graph, s.rep, s.stack, r, y, x);
    }
  }

  lemma PushKeeps(s: State, r: Reg)
    requires s.Inv() && r in s.simplify
    ensures Pushed(s, r).Inv()
  {
    var s' := Pushed(s, r);
    assert s'.Pending() == s.Pending();
    assert s'.Waiting() == s.Waiting();
    forall x, y | (x, y) in s.inter && Open(s'.stacked, RepOf(s.rep, x)) && Open(s'.stacked, RepOf(s.rep, y))
      ensures Covered(s.edges, s.graph, s.rep, s'.stack, RepOf(s.rep, x), RepOf(s.rep, y))
    {
      assert Open(s.stacked, RepOf(s.rep, x)) && Open(s.stacked, RepOf(s.rep, y));
      CoveredAfterPush(s, r, RepOf(s.rep, x), RepOf(s.rep, y));
    }
  }

  // ----- steps that move registers and moves between lists -----

  /** What all steps have in common that touch neither the graph nor the aliases nor the
      stack: moves only leave the pending lists, registers only move on, and a register enters
      the simplify list only when it takes part in no pending move. */
  ghost predicate Advances(s: State, s': State) {
    && s'.nodes == s.nodes && s'.universe == s.universe && s'.inter == s.inter
    && s'.coalesced == s.coalesced && s'.stack == s.stack && s'.stacked == s.stacked
    && s'.moveList == s.moveList && s'.edges == s.edges && s'.graph == s.graph && s'.rep == s.rep
    && s'.Pending() <= s.Pending()
    && s.Waiting() <= s'.Waiting() && s'.Waiting() <= s.universe
    && (forall x {:trigger x in s'.simplify} :: x in s'.simplify ==> x in s.simplify || s'.NodeMoves(x) == {})
    && s'.freeze !! s'.spill
  }

  lemma AdvancesTransitive(s: State, s': State, s'': State)
    requires Advances(s, s') && Advances(s', s'')
    ensures Advances(s, s'')
  {
    forall x | x in s''.simplify && x !in s.simplify
      ensures s''.NodeMoves(x) == {}
    {
      assert s''.NodeMoves(x) <= s'.NodeMoves(x);
    }
  }

  lemma AdvanceReflexive(s: State, exempt: RegSet)
    requires s.Core(exempt)
    ensures Advances(s, s)
  {
  }

  lemma AdvanceKeepsCore(s: State, s': State, exempt: RegSet)
    requires s.Core(exempt) && Advances(s, s')
    ensures s'.Core(exempt)
  {
    assert Quiet(exempt, s'.simplify, s'.stacked, s'.moveList, s'.Pending()) by {
      forall x {:trigger Entry(s.moveList, x)} | (x in s'.simplify || x in s.stacked) && x !in exempt
        ensures Entry(s.moveList, x) * s'.Pending() == {}
      {
        if x in s'.simplify && x !in s.simplify {
          assert s'.NodeMoves(x) == {};
        }
      }
    }
  }

  lemma AdvanceKeepsCovers(s: State, s': State)
    requires s.Covers() && Advances(s, s')
    ensures s'.Covers()
  {
  }

  // ----- lowering a degree -----

  /** The moves of some registers that are waiting for a second chance. */
  function Enabled(moveList: map<Reg, Moves>, active: Moves, rs: RegSet): Moves {
    set m | m in active && exists r :: r in rs && m in Entry(moveList, r)
  }

  function MovesEnabled(s: State, e: Moves): State {
    s.(worklist := s.worklist + e, active := s.active - e)
  }

  function DegreeLowered(s: State, t: Reg): State {
    s.(degree := s.degree[t := Down(DegreeOf(s.degree, t))])
  }

  /** t leaves the spill list, for the freeze list if it still has moves. */
  function Relisted(s: State, t: Reg): State {
    if s.MoveRelated(t) then s.(spill := s.spill - {t}, freeze := s.freeze + {t})
    else s.(spill := s.spill - {t}, simplify := s.simplify + {t})
  }

  /** t loses a neighbour.  On the way below the bound its moves get another chance, and it
      leaves the spill list. */
  function Decremented(s: State, t: Reg): State {
    if DegreeOf(s.degree, t) != TypeK(t.ty) then DegreeLowered(s, t)
    else
      Relisted(MovesEnabled(DegreeLowered(s, t), Enabled(s.moveList, s.active, s.Adjacent(t) + {t})), t)
  }

  lemma EnabledByOneMore(moveList: map<Reg, Moves>, active: Moves, rs: RegSet, r: Reg)
    ensures Enabled(moveList, active, rs + {r}) == Enabled(moveList, active, rs) + Entry(moveList, r) * active
  {
  }

  lemma AdjacentKnown(s: State, r: Reg)
    requires GraphOk(s.universe, s.edges, s.graph)
    ensures s.Adjacent(r) <= s.universe
    ensures forall t :: t in s.Adjacent(r) ==> (t, r) in s.edges
  {
  }

  lemma EnablingAdvances(s: State, e: Moves)
    requires Advances(s, s) && e <= s.active
    ensures Advances(s, MovesEnabled(s, e))
  {
    assert MovesEnabled(s, e).Pending() == s.Pending();
  }

  lemma RelistAdvances(s: State, t: Reg)
    requires Advances(s, s) && t in s.universe
    ensures Advances(s, Relisted(s, t))
  {
    var s' := Relisted(s, t);
    assert s'.NodeMoves(t) == s.NodeMoves(t);
  }

  lemma DecrementAdvances(s: State, t: Reg, exempt: RegSet)
    requires s.Core(exempt) && t in s.universe
    ensures Advances(s, Decremented(s, t))
  {
    AdvanceReflexive(s, exempt);
    var s1 := DegreeLowered(s, t);
    assert Advances(s, s1) && Advances(s1, s1);
    if DegreeOf(s.degree, t) == TypeK(t.ty) {
      var e := Enabled(s.moveList, s.active, s.Adjacent(t) + {t});
      var s2 := MovesEnabled(s1, e);
      EnablingAdvances(s1, e);
      RelistAdvances(s2, t);
      AdvancesTransitive(s, s1, s2);
      AdvancesTransitive(s, s2, Decremented(s, t));
    }
  }

  // ----- adding an edge -----

  function WithNeighbor(graph: map<Reg, RegSet>, u: Reg, v: Reg): map<Reg, RegSet> {
    if u.Phys? then graph else graph[u := Entry(graph, u) + {v}]
  }

  function WithDegree(degree: map<Reg, nat>, u: Reg): map<Reg, nat> {
    if u.Phys? then degree else degree[u := Up(DegreeOf(degree, u))]
  }

  function EdgeAdded(s: State, u: Reg, v: Reg): State {
    if u.ty != v.ty || u == v || (u, v) in s.edges then s
    else s.(edges := s.edges + {(u, v), (v, u)},
            graph := WithNeighbor(WithNeighbor(s.graph, u, v), v, u),
            degree := WithDegree(WithDegree(s.degree, u), v))
  }

  lemma NeighborsAfter(graph: map<Reg, RegSet>, u: Reg, v: Reg)
    ensures forall x :: Entry(WithNeighbor(graph, u, v), x) == if x == u && u.Virt? then Entry(graph, u) + {v}
      else Entry(graph, x)
  {
  }

  lemma EdgeKeepsGraph(s: State, u: Reg, v: Reg)
    requires GraphOk(s.universe, s.edges, s.graph) && u in s.universe && v in s.universe
    ensures var s' := EdgeAdded(s, u, v);
      && GraphOk(s'.universe, s'.edges, s'.graph)
      && s.edges <= s'.edges
      && (forall x :: Entry(s.graph, x) <= Entry(s'.graph, x))
      && (u.ty == v.ty && u != v ==> (u, v) in s'.edges)
  {
    var s' := EdgeAdded(s, u, v);
    if s' != s {
      NeighborsAfter(s.graph, u, v);
      NeighborsAfter(WithNeighbor(s.graph, u, v), v, u);
      forall x, y | y in Entry(s'.graph, x)
        ensures x.Virt? && (x, y) in s'.edges
      {
      }
    }
  }

  lemma EdgeKeepsCore(s: State, u: Reg, v: Reg, exempt: RegSet)
    requires s.Core(exempt) && u in s.universe && v in s.universe
    ensures EdgeAdded(s, u, v).Core(exempt)
  {
    EdgeKeepsGraph(s, u, v);
    var s' := EdgeAdded(s, u, v);
    assert s'.Pending() == s.Pending() && s'.Waiting() == s.Waiting();
  }

  // ----- back to the simplify list -----

  /** A node with no pending move and a low degree may be simplified. */
  function Released(s: State, u: Reg): State {
    if u.Virt? && !s.MoveRelated(u) && DegreeOf(s.degree, u) < TypeK(u.ty) then
      s.(freeze := s.freeze - {u}, simplify := s.simplify + {u})
    else s
  }

  lemma ReleaseAdvances(s: State, u: Reg, exempt: RegSet)
    requires s.Core(exempt) && u in s.universe
    ensures Advances(s, Released(s, u))
  {
    AdvanceReflexive(s, exempt);
    var s' := Released(s, u);
    assert s'.NodeMoves(u) == s.NodeMoves(u);
  }

  // ----- coalescing -----

  /** All of v's class now ends in u. */
  function Redirected(rep: map<Reg, Reg>, u: Reg, v: Reg): map<Reg, Reg> {
    map x | x in rep.Keys + {v} :: if x !in rep || rep[x] == v then u else rep[x]
  }

  /** v stops being a node of its own, and u takes over its moves. */
  function Merged(s: State, u: Reg, v: Reg): State {
    s.(freeze := if v in s.freeze then s.freeze - {v} else s.freeze,
       spill := if v in s.freeze then s.spill else s.spill - {v},
       coalesced := s.coalesced + {v},
       rep := Redirected(s.rep, u, v),
       moveList := s.moveList[u := Entry(s.moveList, u) + Entry(s.moveList, v)])
  }

  ghost predicate Mergeable(s: State, u: Reg, v: Reg) {
    && u != v && v.Virt? && u.ty == v.ty && u != SP && u != ZERO
    && u in s.universe && v in s.universe
    && u !in s.coalesced && v !in s.coalesced
    && u !in s.simplify && u !in s.stacked && v !in s.simplify && v !in s.stacked
    && (u.Virt? ==> u in s.Waiting())
  }

  lemma RedirectedRep(rep: map<Reg, Reg>, u: Reg, v: Reg)
    requires v !in rep
    ensures forall x {:trigger RepOf(Redirected(rep, u, v), x)} ::
      RepOf(Redirected(rep, u, v), x) == if RepOf(rep, x) == v then u else RepOf(rep, x)
  {
  }

  lemma MovesAfterMerge(s: State, u: Reg, v: Reg)
    requires s.Core({}) && Mergeable(s, u, v)
    ensures var s' := Merged(s, u, v); MovesOk(s'.universe, s'.nodes, s'.Pending(), s'.moveList, s'.rep)
  {
    RedirectedRep(s.rep, u, v);
    var s' := Merged(s, u, v);
    assert forall x :: Entry(s.moveList, x) <= Entry(s'.moveList, x);
    forall m | m in s'.Pending()
      ensures MoveOk(m, s'.universe, s'.nodes, s'.moveList, s'.rep)
    {
      assert MoveOk(m, s.universe, s.nodes, s.moveList, s.rep);
    }
  }

  lemma AliasAfterMerge(s: State, u: Reg, v: Reg)
    requires s.Core({}) && Mergeable(s, u, v)
    ensures var s' := Merged(s, u, v); AliasOk(s'.universe, s'.coalesced, s'.rep)
  {
    var s' := Merged(s, u, v);
    forall x | x in s'.rep
      ensures x.Virt? && x in s.universe && s'.rep[x] !in s'.rep && s'.rep[x].ty == x.ty
      ensures s'.rep[x] in s.universe && s'.rep[x] != SP && s'.rep[x] != ZERO
    {
      assert x in s.rep || x == v;
    }
  }

  lemma PlaceAfterMerge(s: State, u: Reg, v: Reg)
    requires s.Core({}) && Mergeable(s, u, v)
    ensures var s' := Merged(s, u, v); PlaceOk(s'.universe, s'.nodes, s'.Waiting(), s'.rep)
  {
    var s' := Merged(s, u, v);
    RedirectedRep(s.rep, u, v);
    assert s'.Waiting() <= s.Waiting() && s.Waiting() - {v} <= s'.Waiting();
    forall x {:trigger RepOf(s'.rep, x)} | x in s.nodes && RepOf(s'.rep, x).Virt?
      ensures RepOf(s'.rep, x) in s'.Waiting()
    {
      assert RepOf(s.rep, x) == v || RepOf(s.rep, x) in s.Waiting();
    }
  }

  lemma MergeKeepsCore(s: State, u: Reg, v: Reg)
    requires s.Core({}) && Mergeable(s, u, v)
    ensures Merged(s, u, v).Core({})
  {
    MovesAfterMerge(s, u, v);
    AliasAfterMerge(s, u, v);
    PlaceAfterMerge(s, u, v);
    var s' := Merged(s, u, v);
    assert s'.Pending() == s.Pending();
    assert forall x :: x != u ==> Entry(s'.moveList, x) == Entry(s.moveList, x);
  }

  ghost predicate MergeCompleted(s: State, s': State, u: Reg, v: Reg) {
    && s'.inter == s.inter && s'.stack == s.stack && s'.stacked == s.stacked
    && s'.rep == Redirected(s.rep, u, v)
    && s.edges <= s'.edges && (forall x :: Entry(s.graph, x) <= Entry(s'.graph, x))
    && (forall t :: t in s.Adjacent(v) ==> (t, u) in s'.edges && (u, t) in s'.edges)
  }

  lemma ShieldedAfterMerge(s: State, s': State, u: Reg, v: Reg, x: Reg, y: Reg)
    requires s.Core({}) && Mergeable(s, u, v) && MergeCompleted(s, s', u, v)
    requires Shielded(s.graph, s.rep, s.stack, x, y)
    ensures Shielded(s'.graph, s'.rep, s'.stack, x, if y == v then u else y)
  {
    RedirectedRep(s.rep, u, v);
    var z, i :| ShieldedBy(s.graph, s.rep, s.stack, x, y, z, i);
    assert y == v ==> u !in s.stack[..i + 1];
    assert ShieldedBy(s'.graph, s'.rep, s'.stack, x, if y == v then u else y, z, i);
  }

  /** A pair that v was part of is covered for u: by a new edge if the other side is still
      waiting, and by the other side's adjacency list if it is on the stack already. */
  lemma CoveredForHeir(s: State, s': State, u: Reg, v: Reg, y: Reg)
    requires s.Core({}) && Mergeable(s, u, v) && MergeCompleted(s, s', u, v)
    requires (u, v) !in s.edges && Open(s.stacked, y) && y !in s.coalesced
    requires Covered(s.edges, s.graph, s.rep, s.stack, v, y)
    ensures Covered(s'.edges, s'.graph, s'.rep, s'.stack, u, y)
  {
    RedirectedRep(s.rep, u, v);
    if (v, y) in s.edges {
      assert y != u;
      if y in s.stacked {
        var i :| 0 <= i < |s.stack| && s.stack[i] == y;
        assert u !in s.stack[..i + 1];
        assert ShieldedBy(s'.graph, s'.rep, s'.stack, y, u, v, i);
      } else {
        assert y in s.Adjacent(v);
      }
    } else {
      assert v !in s.stack;
      ShieldedAfterMerge(s, s', u, v, y, v);
      var z, i :| ShieldedBy(s.graph, s.rep, s.stack, y, v, z, i);
      assert y in s.stack;
    }
  }

  lemma CoveredFlip(s: State, x: Reg, y: Reg)
    requires GraphOk(s.universe, s.edges, s.graph) && Covered(s.edges, s.graph, s.rep, s.stack, x, y)
    ensures Covered(s.edges, s.graph, s.rep, s.stack, y, x)
  {
  }

  lemma CoverAfterMerge(s: State, s': State, u: Reg, v: Reg)
    requires s.Inv() && Mergeable(s, u, v) && MergeCompleted(s, s', u, v) && (u, v) !in s.edges
    requires GraphOk(s'.universe, s'.edges, s'.graph)
    ensures s'.Covers()
  {
    RedirectedRep(s.rep, u, v);
    forall x, y | (x, y) in s.inter && Open(s.stacked, RepOf(s'.rep, x)) && Open(s.stacked, RepOf(s'.rep, y))
      ensures Covered(s'.edges, s'.graph, s'.rep, s'.stack, RepOf(s'.rep, x), RepOf(s'.rep, y))
    {
      var a, b := RepOf(s.rep, x), RepOf(s.rep, y);
      assert Open(s.stacked, a) && Open(s.stacked, b);
      assert Covered(s.edges, s.graph, s.rep, s.stack, a, b);
      if a == v {
        CoveredForHeir(s, s', u, v, b);
      } else if b == v {
        CoveredFlip(s, a, v);
        CoveredForHeir(s, s', u, v, a);
        CoveredFlip(s', u, a);
      } else if Shielded(s.graph, s.rep, s.stack, a, b) {
        ShieldedAfterMerge(s, s', u, v, a, b);
      } else if Shielded(s.graph, s.rep, s.stack, b, a) {
        ShieldedAfterMerge(s, s', u, v, b, a);
      }
    }
  }

  // ----- termination of the inner loop -----

  /** The registers that are neither on the stack nor coalesced. */
  ghost function Unplaced(s: State): RegSet {
    s.universe - s.stacked - s.coalesced
  }

  predicate SameTask(s: State, s': State) {
    s'.nodes == s.nodes && s'.universe == s.universe && s'.inter == s.inter
  }

  function Placed(s: State): RegSet { s.stacked + s.coalesced }

  /** Registers that have been placed, and are waiting to be pushed once more. */
  ghost function Again(s: State): RegSet { (s.freeze + s.spill) * Placed(s) }
  ghost function AgainSoon(s: State): RegSet { s.simplify * Placed(s) }

  ghost predicate LowerLists(s: State, s': State) {
    || Again(s') < Again(s)
    || (Again(s') == Again(s) &&
        (|| AgainSoon(s') < AgainSoon(s)
         || (AgainSoon(s') == AgainSoon(s) &&
             (|| |s'.worklist| < |s.worklist|
              || (|s'.worklist| == |s.worklist| && |s'.freeze| + |s'.spill| < |s.freeze| + |s.spill|)))))
  }

  /** The lexicographic measure that every turn of the inner loop lowers. */
  ghost predicate Lower(s: State, s': State) {
    || Unplaced(s') < Unplaced(s)
    || (Unplaced(s') == Unplaced(s) &&
        (|| s'.Pending() < s.Pending()
         || (s'.Pending() == s.Pending() && LowerLists(s, s'))))
  }

  /** Lowering degrees: an advance that drops no move, and lists no register that has its place. */
  ghost predicate Relaxes(s: State, s': State) {
    && Advances(s, s')
    && s'.Pending() == s.Pending()
    && Again(s') <= Again(s) && AgainSoon(s') <= AgainSoon(s)
  }

  lemma RelaxesTransitive(s: State, s': State, s'': State)
    requires Relaxes(s, s') && Relaxes(s', s'')
    ensures Relaxes(s, s'')
  {
    AdvancesTransitive(s, s', s'');
  }

  lemma RelistRelaxes(s: State, t: Reg)
    requires Advances(s, s) && t in s.universe && t !in Placed(s)
    ensures Relaxes(s, Relisted(s, t))
  {
    RelistAdvances(s, t);
  }

  lemma DecrementRelaxes(s: State, t: Reg, exempt: RegSet)
    requires s.Core(exempt) && t in s.universe && t !in Placed(s)
    ensures Relaxes(s, Decremented(s, t))
  {
    AdvanceReflexive(s, exempt);
    var s1 := DegreeLowered(s, t);
    assert Advances(s, s1) && Advances(s1, s1);
    if DegreeOf(s.degree, t) == TypeK(t.ty) {
      var e := Enabled(s.moveList, s.active, s.Adjacent(t) + {t});
      var s2 := MovesEnabled(s1, e);
      EnablingAdvances(s1, e);
      assert s2.Pending() == s1.Pending();
      RelistRelaxes(s2, t);
      RelaxesTransitive(s, s1, s2);
      RelaxesTransitive(s, s2, Decremented(s, t));
    }
  }

  // ----- simplify -----

  /** A set is visited element by element. */
  ghost predicate OnceEach<T>(order: seq<T>) {
    forall i :: 0 <= i < |order| ==> order[i] !in order[..i]
  }

  lemma OnceMore<T>(order: seq<T>, m: T)
    requires OnceEach(order) && m !in order
    ensures OnceEach(order + [m])
  {
    var q := order + [m];
    forall i | 0 <= i < |q|
      ensures q[i] !in q[..i]
    {
      assert q[..i] == order[..i];
    }
  }

  lemma OnceInFront<T>(order: seq<T>)
    requires OnceEach(order) && order != []
    ensures var init, last := order[..|order| - 1], order[|order| - 1];
      OnceEach(init) && order == init + [last] && last !in init
  {
    var init := order[..|order| - 1];
    assert forall i :: 0 <= i < |init| ==> init[..i] == order[..i];
  }

  ghost predicate Lists(order: seq<Reg>, rs: RegSet) {
    (forall r :: r in order ==> r in rs) && (forall r :: r in rs ==> r in order) && OnceEach(order)
  }

  function DecrementedBy(s: State, order: seq<Reg>): State {
    if order == [] then s
    else Decremented(DecrementedBy(s, order[..|order| - 1]), order[|order| - 1])
  }

  /** Takes r off the simplify list; its neighbours lose a neighbour each, in some order. */
  function Simplified(s: State, r: Reg, order: seq<Reg>): State {
    DecrementedBy(Pushed(s, r), order)
  }

  lemma {:induction false} DecrementsRelax(s: State, order: seq<Reg>)
    requires s.Core({}) && forall r :: r in order ==> r in s.universe && r !in Placed(s)
    ensures Relaxes(s, DecrementedBy(s, order))
  {
    if order == [] {
      AdvanceReflexive(s, {});
    } else {
      var s1 := DecrementedBy(s, order[..|order| - 1]);
      DecrementsRelax(s, order[..|order| - 1]);
      AdvanceKeepsCore(s, s1, {});
      DecrementRelaxes(s1, order[|order| - 1], {});
      RelaxesTransitive(s, s1, DecrementedBy(s, order));
    }
  }

  lemma SimplifyLowers(s: State, r: Reg, s': State)
    requires s.Inv() && r in s.simplify && Relaxes(Pushed(s, r), s')
    ensures Lower(s, s')
  {
    var s1 := Pushed(s, r);
    assert s1.Pending() == s.Pending();
    assert Unplaced(s') == Unplaced(s) - {r};
    if r in Unplaced(s) {
      assert Unplaced(s') < Unplaced(s);
    } else {
      assert Unplaced(s') == Unplaced(s);
      assert Placed(s1) == Placed(s) && r in AgainSoon(s) && r !in AgainSoon(s1);
      assert AgainSoon(s') < AgainSoon(s);
    }
  }

  lemma SimplifyKeeps(s: State, r: Reg, order: seq<Reg>)
    requires s.Inv() && r in s.simplify && Lists(order, Pushed(s, r).Adjacent(r))
    ensures Simplified(s, r, order).Inv() && Lower(s, Simplified(s, r, order))
    ensures SameTask(s, Simplified(s, r, order)) && Simplified(s, r, order).rep == s.rep
  {
    var s1, s' := Pushed(s, r), Simplified(s, r, order);
    PushKeeps(s, r);
    AdjacentKnown(s1, r);
    DecrementsRelax(s1, order);
    AdvanceKeepsCore(s1, s', {});
    AdvanceKeepsCovers(s1, s');
    SimplifyLowers(s, r, s');
  }

  // ----- coalesce -----

  function CombineTurn(s: State, u: Reg, t: Reg): State {
    Decremented(EdgeAdded(s, t, u), t)
  }

  function CombinedBy(s: State, u: Reg, order: seq<Reg>): State {
    if order == [] then s
    else CombineTurn(CombinedBy(s, u, order[..|order| - 1]), u, order[|order| - 1])
  }

  /** A node that has grown past the bound has to be considered for spilling. */
  function Overgrown(s: State, u: Reg): State {
    if DegreeOf(s.degree, u) >= TypeK(u.ty) && u in s.freeze then
      s.(freeze := s.freeze - {u}, spill := s.spill + {u})
    else s
  }

  /** v becomes an alias of u, which inherits v's neighbours, visited in some order. */
  function Combined(s: State, u: Reg, v: Reg, order: seq<Reg>): State {
    Overgrown(CombinedBy(Merged(s, u, v), u, order), u)
  }

  /** The two ends of a move as coalescing sees them; a physical one comes first. */
  function Ends(rep: map<Reg, Reg>, m: Move): (Reg, Reg) {
    var x, y := RepOf(rep, m.dst), RepOf(rep, m.src);
    if y.Phys? then (y, x) else (x, y)
  }

  predicate CheckColoredAdj(s: State, u: Reg, v: Reg) {
    forall t :: t in s.Adjacent(v) ==> DegreeOf(s.degree, t) < TypeK(t.ty) || t.Phys? || (t, u) in s.edges
  }

  /** The registers among rs that have a degree too high to be simplified. */
  function Significant(degree: map<Reg, nat>, rs: RegSet): RegSet {
    set t | t in rs && DegreeOf(degree, t) >= TypeK(t.ty)
  }

  predicate Conservative(s: State, u: Reg, v: Reg) {
    |Significant(s.degree, s.Adjacent(u) + s.Adjacent(v))| < TypeK(u.ty)
  }

  predicate CanCombine(s: State, u: Reg, v: Reg) {
    if u.Phys? then CheckColoredAdj(s, u, v) else Conservative(s, u, v)
  }

  function MoveTaken(s: State, m: Move): State {
    s.(worklist := s.worklist - {m})
  }

  /** If u and v get combined, `order` lists the neighbours of v. */
  ghost predicate OrderFits(s: State, u: Reg, v: Reg, order: seq<Reg>) {
    u != v && v.Virt? && (u, v) !in s.edges && CanCombine(s, u, v) ==> Lists(order, Merged(s, u, v).Adjacent(v))
  }

  /** What becomes of a move m, already taken off the worklist, with ends u and v. */
  function Decided(s: State, m: Move, u: Reg, v: Reg, order: seq<Reg>): State {
    if u == v then Released(s, u)
    else if v.Phys? || (u, v) in s.edges then Released(Released(s, u), v)
    else if CanCombine(s, u, v) then Released(Combined(s, u, v, order), u)
    else s.(active := s.active + {m})
  }

  /** One move is taken up; `order` matters only when its ends are combined. */
  function Coalesced(s: State, m: Move, order: seq<Reg>): State {
    var (u, v) := Ends(s.rep, m);
    Decided(MoveTaken(s, m), m, u, v, order)
  }

  /** What the turns of a combination have in common: the graph only grows. */
  ghost predicate Grows(s: State, s': State) {
    && s'.universe == s.universe && s'.inter == s.inter && s'.stack == s.stack && s'.stacked == s.stacked
    && s'.rep == s.rep && s'.coalesced == s.coalesced && s'.nodes == s.nodes
    && s.edges <= s'.edges && (forall x :: Entry(s.graph, x) <= Entry(s'.graph, x))
  }

  lemma CombineTurnKeeps(s: State, u: Reg, t: Reg)
    requires s.Core({}) && u in s.universe && t in s.universe
    ensures CombineTurn(s, u, t).Core({}) && Grows(s, CombineTurn(s, u, t))
    ensures t.ty == u.ty && t != u ==> (t, u) in CombineTurn(s, u, t).edges
  {
    var s1 := EdgeAdded(s, t, u);
    EdgeKeepsGraph(s, t, u);
    EdgeKeepsCore(s, t, u, {});
    DecrementAdvances(s1, t, {});
    AdvanceKeepsCore(s1, CombineTurn(s, u, t), {});
  }

  lemma {:induction false} CombineTurnsKeep(s: State, u: Reg, order: seq<Reg>)
    requires s.Core({}) && u in s.universe && forall t :: t in order ==> t in s.universe
    ensures CombinedBy(s, u, order).Core({}) && Grows(s, CombinedBy(s, u, order))
    ensures forall t :: t in order && t.ty == u.ty && t != u ==> (t, u) in CombinedBy(s, u, order).edges
  {
    if order != [] {
      var init, last := order[..|order| - 1], order[|order| - 1];
      CombineTurnsKeep(s, u, init);
      CombineTurnKeeps(CombinedBy(s, u, init), u, last);
      assert order == init + [last];
    }
  }

  lemma {:induction false} CombinedByKeepsRep(s: State, u: Reg, order: seq<Reg>)
    ensures CombinedBy(s, u, order).rep == s.rep
  {
    if order != [] {
      CombinedByKeepsRep(s, u, order[..|order| - 1]);
    }
  }

  lemma OvergrownAdvances(s: State, u: Reg)
    requires s.Core({})
    ensures Advances(s, Overgrown(s, u))
  {
    AdvanceReflexive(s, {});
  }

  lemma TakenAdvances(s: State, m: Move)
    requires s.Core({})
    ensures Advances(s, MoveTaken(s, m))
  {
    AdvanceReflexive(s, {});
    assert MoveTaken(s, m).Pending() <= s.Pending();
  }

  lemma TakenKeeps(s: State, m: Move)
    requires s.Inv()
    ensures MoveTaken(s, m).Inv()
  {
    TakenAdvances(s, m);
    AdvanceKeepsCore(s, MoveTaken(s, m), {});
    AdvanceKeepsCovers(s, MoveTaken(s, m));
  }

  lemma EndsOk(s: State, m: Move)
    requires s.Inv() && m in s.worklist && s.simplify == {}
    ensures var (u, v) := Ends(s.rep, m);
      && u in s.universe && v in s.universe && u !in Placed(s) && v !in Placed(s)
      && (u != v && v.Virt? ==> Mergeable(MoveTaken(s, m), u, v))
  {
    var s1 := MoveTaken(s, m);
    assert MoveOk(m, s.universe, s.nodes, s.moveList, s.rep);
    RepIdempotent(s, m.dst);
    RepIdempotent(s, m.src);
    var (u, v) := Ends(s.rep, m);
    assert m in Entry(s.moveList, u) * s.Pending() && m in Entry(s.moveList, v) * s.Pending();
    assert u !in s.stacked && v !in s.stacked;
    assert s1.Waiting() == s.Waiting();
  }

  lemma CombineKeeps(s: State, u: Reg, v: Reg, order: seq<Reg>)
    requires s.Inv() && Mergeable(s, u, v) && (u, v) !in s.edges
    requires Lists(order, Merged(s, u, v).Adjacent(v))
    ensures var s' := Combined(s, u, v, order);
      s'.Inv() && SameTask(s, s') && s'.universe == s.universe && Unplaced(s') == Unplaced(s) - {v}
  {
    var s2 := Merged(s, u, v);
    MergeKeepsCore(s, u, v);
    AdjacentKnown(s, v);
    assert s2.Adjacent(v) == s.Adjacent(v);
    CombineTurnsKeep(s2, u, order);
    var s3 := CombinedBy(s2, u, order);
    OvergrownAdvances(s3, u);
    var s' := Overgrown(s3, u);
    AdvanceKeepsCore(s3, s', {});
    forall t | t in s.Adjacent(v)
      ensures (t, u) in s'.edges && (u, t) in s'.edges
    {
      assert (t, v) in s.edges;
    }
    assert MergeCompleted(s, s', u, v);
    CoverAfterMerge(s, s', u, v);
  }

  lemma ReleaseKeeps(s: State, u: Reg)
    requires s.Inv() && u in s.universe
    ensures Released(s, u).Inv() && Unplaced(Released(s, u)) == Unplaced(s) && Released(s, u).universe == s.universe
  {
    ReleaseAdvances(s, u, {});
    AdvanceKeepsCore(s, Released(s, u), {});
    AdvanceKeepsCovers(s, Released(s, u));
  }

  /** A move less on the work list, and no placed register listed: that is closer to the end. */
  ghost predicate Shortens(s: State, s': State, m: Move) {
    && Unplaced(s') == Unplaced(s) && s'.worklist == s.worklist - {m} && s'.active <= s.active + {m}
    && Again(s') <= Again(s) && AgainSoon(s') <= AgainSoon(s)
  }

  lemma ShortensLowers(s: State, s': State, m: Move)
    requires Shortens(s, s', m) && m in s.worklist
    ensures Lower(s, s')
  {
    assert s'.Pending() <= s.Pending();
    assert |s'.worklist| == |s.worklist| - 1;
  }

  lemma ReleaseShortens(s: State, s1: State, m: Move, u: Reg)
    requires Shortens(s, s1, m) && u !in Placed(s1)
    ensures Shortens(s, Released(s1, u), m) && Placed(Released(s1, u)) == Placed(s1)
  {
  }

  lemma ReleasedMoveKeeps(s: State, m: Move, s1: State, u: Reg)
    requires s.Inv() && m in s.worklist && s1.Inv() && Shortens(s, s1, m) && SameTask(s, s1)
    requires u in s.universe && u !in Placed(s1)
    ensures var s' := Released(s1, u);
      s'.Inv() && Shortens(s, s', m) && Lower(s, s') && SameTask(s, s') && Placed(s') == Placed(s1)
  {
    ReleaseKeeps(s1, u);
    ReleaseShortens(s, s1, m, u);
    ShortensLowers(s, Released(s1, u), m);
  }

  lemma TakenShortens(s: State, m: Move)
    requires m in s.worklist
    ensures Shortens(s, MoveTaken(s, m), m) && Placed(MoveTaken(s, m)) == Placed(s) && SameTask(s, MoveTaken(s, m))
  {
  }

  lemma CombinedMoveKeeps(s: State, m: Move, u: Reg, v: Reg, order: seq<Reg>)
    requires s.Inv() && m in s.worklist && Mergeable(MoveTaken(s, m), u, v) && (u, v) !in s.edges
    requires Lists(order, Merged(MoveTaken(s, m), u, v).Adjacent(v))
    ensures var s' := Released(Combined(MoveTaken(s, m), u, v, order), u); s'.Inv() && Lower(s, s') && SameTask(s, s')
  {
    var s1 := MoveTaken(s, m);
    TakenKeeps(s, m);
    CombineKeeps(s1, u, v, order);
    ReleaseKeeps(Combined(s1, u, v, order), u);
    assert Unplaced(s1) == Unplaced(s);
    assert v in Unplaced(s);
  }

  function Postponed(s: State, m: Move): State {
    var s1 := MoveTaken(s, m);
    s1.(active := s1.active + {m})
  }

  lemma PostponedAdvances(s: State, m: Move)
    requires Advances(s, s) && m in s.worklist
    ensures Advances(s, Postponed(s, m)) && Shortens(s, Postponed(s, m), m)
  {
    assert Postponed(s, m).Pending() == s.Pending();
  }

  lemma PostponedMoveKeeps(s: State, m: Move)
    requires s.Inv() && m in s.worklist
    ensures Postponed(s, m).Inv() && Lower(s, Postponed(s, m)) && SameTask(s, Postponed(s, m))
  {
    var s' := Postponed(s, m);
    AdvanceReflexive(s, {});
    PostponedAdvances(s, m);
    AdvanceKeepsCore(s, s', {});
    AdvanceKeepsCovers(s, s');
    ShortensLowers(s, s', m);
  }

  lemma DecidedKeeps(s: State, m: Move, u: Reg, v: Reg, order: seq<Reg>)
    requires s.Inv() && m in s.worklist
    requires u in s.universe && v in s.universe && u !in Placed(s) && v !in Placed(s)
    requires u != v && v.Virt? ==> Mergeable(MoveTaken(s, m), u, v)
    requires OrderFits(MoveTaken(s, m), u, v, order)
    ensures var s' := Decided(MoveTaken(s, m), m, u, v, order); s'.Inv() && Lower(s, s') && SameTask(s, s')
  {
    if u == v || v.Phys? || (u, v) in s.edges {
      TakenKeeps(s, m);
      TakenShortens(s, m);
      ReleasedMoveKeeps(s, m, MoveTaken(s, m), u);
      ReleasedMoveKeeps(s, m, Released(MoveTaken(s, m), u), v);
    } else if CanCombine(MoveTaken(s, m), u, v) {
      CombinedMoveKeeps(s, m, u, v, order);
    } else {
      PostponedMoveKeeps(s, m);
      assert Decided(MoveTaken(s, m), m, u, v, order) == Postponed(s, m);
    }
  }

  lemma CoalesceKeeps(s: State, m: Move, order: seq<Reg>)
    requires s.Inv() && m in s.worklist && s.simplify == {}
    requires var (u, v) := Ends(s.rep, m); OrderFits(MoveTaken(s, m), u, v, order)
    ensures Coalesced(s, m, order).Inv() && Lower(s, Coalesced(s, m, order))
    ensures SameTask(s, Coalesced(s, m, order))
  {
    var (u, v) := Ends(s.rep, m);
    EndsOk(s, m);
    DecidedKeeps(s, m, u, v, order);
  }

  // ----- freeze and select_spill -----

  // The source takes the operands of a frozen move as they are written.  `follow` stands for
  // the other way to do it: to follow them to their aliases, and to leave physical ends alone.

  /** The end of m that is not u itself. */
  function FarEnd(rep: map<Reg, Reg>, u: Reg, m: Move, follow: bool): Reg {
    if follow then
      if RepOf(rep, m.dst) == u then RepOf(rep, m.src) else RepOf(rep, m.dst)
    else
      if m.dst == u then m.src else m.dst
  }

  function MoveDropped(s: State, m: Move): State {
    if m in s.active then s.(active := s.active - {m}) else s.(worklist := s.worklist - {m})
  }

  /** v may be simplified if that was its last pending move and its degree is low.  Unlike
      `Released`, this asks neither that v is virtual nor that it is not coalesced. */
  function Thawed(s: State, v: Reg): State {
    if s.NodeMoves(v) == {} && DegreeOf(s.degree, v) < TypeK(v.ty) then
      s.(freeze := s.freeze - {v}, simplify := s.simplify + {v})
    else s
  }

  function FreezeTurn(s: State, u: Reg, m: Move, follow: bool): State {
    var v := FarEnd(s.rep, u, m, follow);
    if follow && v.Phys? then MoveDropped(s, m) else Thawed(MoveDropped(s, m), v)
  }

  /** Gives up on the moves in `order`, one after the other. */
  function FrozenBy(s: State, u: Reg, order: seq<Move>, follow: bool): State {
    if order == [] then s
    else FreezeTurn(FrozenBy(s, u, order[..|order| - 1], follow), u, order[|order| - 1], follow)
  }

  function FreezeStarted(s: State, u: Reg): State {
    s.(freeze := s.freeze - {u}, simplify := s.simplify + {u})
  }

  function SpillStarted(s: State, u: Reg): State {
    s.(spill := s.spill - {u}, simplify := s.simplify + {u})
  }

  predicate ListsMoves(order: seq<Move>, ms: Moves) {
    (forall m :: m in order ==> m in ms) && (forall m :: m in ms ==> m in order)
  }

  lemma DropAdvances(s: State, m: Move, exempt: RegSet)
    requires s.Core(exempt) && m in s.Pending() && s.worklist !! s.active
    ensures Advances(s, MoveDropped(s, m)) && MoveDropped(s, m).Pending() == s.Pending() - {m}
  {
    AdvanceReflexive(s, exempt);
    assert MoveDropped(s, m).Pending() == s.Pending() - {m};
  }

  lemma ThawAdvances(s: State, v: Reg)
    requires Advances(s, s) && v in s.universe
    ensures Advances(s, Thawed(s, v))
  {
    assert Thawed(s, v).NodeMoves(v) == s.NodeMoves(v);
  }

  lemma FarEndKnown(s: State, u: Reg, m: Move, follow: bool, exempt: RegSet)
    requires s.Core(exempt) && m in s.Pending()
    ensures FarEnd(s.rep, u, m, follow) in s.universe
    ensures m in Entry(s.moveList, FarEnd(s.rep, u, m, follow))
  {
    assert MoveOk(m, s.universe, s.nodes, s.moveList, s.rep);
    RepIdempotent(s, m.dst);
    RepIdempotent(s, m.src);
  }

  lemma FreezeTurnAdvances(s: State, u: Reg, m: Move, follow: bool, exempt: RegSet)
    requires s.Core(exempt) && m in s.Pending() && s.worklist !! s.active
    ensures Freezes(s, FreezeTurn(s, u, m, follow), {m})
  {
    var v, s1 := FarEnd(s.rep, u, m, follow), MoveDropped(s, m);
    FarEndKnown(s, u, m, follow, exempt);
    DropAdvances(s, m, exempt);
    AdvanceKeepsCore(s, s1, exempt);
    AdvanceReflexive(s1, exempt);
    ThawAdvances(s1, v);
    AdvancesTransitive(s, s1, Thawed(s1, v));
  }

  ghost predicate Freezes(s: State, s': State, gone: Moves) {
    && Advances(s, s') && s'.Pending() == s.Pending() - gone
    && s'.worklist !! s'.active && s'.spill == s.spill && s'.freeze <= s.freeze
  }

  lemma FreezesTransitive(s: State, s': State, s'': State, gone: Moves, gone': Moves)
    requires Freezes(s, s', gone) && Freezes(s', s'', gone')
    ensures Freezes(s, s'', gone + gone')
  {
    AdvancesTransitive(s, s', s'');
  }

  function SetOf(order: seq<Move>): Moves {
    set m | m in order
  }

  lemma {:induction false} FreezeTurnsAdvance(s: State, u: Reg, order: seq<Move>, follow: bool)
    requires s.Core({u}) && (forall m :: m in order ==> m in s.Pending()) && s.worklist !! s.active
    requires OnceEach(order)
    ensures Freezes(s, FrozenBy(s, u, order, follow), SetOf(order))
  {
    if order == [] {
      AdvanceReflexive(s, {u});
    } else {
      var init, last := order[..|order| - 1], order[|order| - 1];
      var s1 := FrozenBy(s, u, init, follow);
      OnceInFront(order);
      FreezeTurnsAdvance(s, u, init, follow);
      AdvanceKeepsCore(s, s1, {u});
      FreezeTurnAdvances(s1, u, last, follow, {u});
      FreezesTransitive(s, s1, FrozenBy(s, u, order, follow), SetOf(init), {last});
      assert SetOf(order) == SetOf(init) + {last};
    }
  }

  /** After all of u's moves are given up, u is on the simplify list by right. */
  lemma FreezeKeepsInv(s: State, s0: State, u: Reg, order: seq<Move>, follow: bool)
    requires s0.Core({u}) && s0.Covers() && s0.worklist !! s0.active
    requires ListsMoves(order, s0.NodeMoves(u)) && OnceEach(order) && s == FrozenBy(s0, u, order, follow)
    ensures s.Inv() && Freezes(s0, s, SetOf(order))
  {
    FreezeTurnsAdvance(s0, u, order, follow);
    AdvanceKeepsCore(s0, s, {u});
    AdvanceKeepsCovers(s0, s);
    assert Entry(s.moveList, u) * s.Pending() == {};
  }

  /** u goes from whichever list it is on to the simplify list. */
  function Started(s: State, u: Reg): State {
    s.(freeze := s.freeze - {u}, spill := s.spill - {u}, simplify := s.simplify + {u})
  }

  lemma StartIsOne(s: State, u: Reg)
    requires s.freeze !! s.spill
    ensures u in s.freeze ==> FreezeStarted(s, u) == Started(s, u)
    ensures u in s.spill ==> SpillStarted(s, u) == Started(s, u)
  {
    assert u in s.freeze ==> s.spill - {u} == s.spill;
    assert u in s.spill ==> s.freeze - {u} == s.freeze;
  }

  lemma StartKeeps(s: State, u: Reg)
    requires s.Inv() && u in s.freeze + s.spill
    ensures Started(s, u).Core({u}) && Started(s, u).Covers()
  {
    var s0 := Started(s, u);
    assert s0.Waiting() == s.Waiting();
    assert s0.Pending() == s.Pending();
  }

  lemma StartShrinks(s: State, u: Reg)
    requires s.freeze !! s.spill && u in s.freeze + s.spill
    ensures LowerLists(s, Started(s, u))
  {
    var s0 := Started(s, u);
    assert s0.freeze + s0.spill == s.freeze + s.spill - {u};
    assert Placed(s0) == Placed(s);
    if u in Placed(s) {
      assert u in Again(s) && u !in Again(s0);
    } else {
      assert Again(s0) == Again(s) && AgainSoon(s0) == AgainSoon(s);
      assert |s0.freeze + s0.spill| == |s.freeze + s.spill| - 1;
    }
  }

  lemma FreezeLowers(s: State, s0: State, s': State, u: Reg, gone: Moves)
    requires s0 == Started(s, u) && LowerLists(s, s0) && Freezes(s0, s', gone) && gone <= s0.NodeMoves(u)
    requires gone == {} ==> s' == s0
    ensures Lower(s, s')
  {
    assert Unplaced(s') == Unplaced(s);
    assert s0.Pending() == s.Pending();
    if gone != {} {
      var m :| m in gone;
      assert m in s.Pending() && m !in s'.Pending();
    }
  }

  lemma StartedLists(s: State, s0: State, u: Reg, order: seq<Move>)
    requires s.Inv() && s.worklist !! s.active && s0 == Started(s, u)
    requires u in s.freeze + s.spill && ListsMoves(order, s.NodeMoves(u))
    ensures s0.Core({u}) && s0.Covers() && s0.worklist !! s0.active && LowerLists(s, s0)
    ensures ListsMoves(order, s0.NodeMoves(u)) && SetOf(order) <= s0.NodeMoves(u)
  {
    StartKeeps(s, u);
    StartShrinks(s, u);
    assert s0.NodeMoves(u) == s.NodeMoves(u);
  }

  lemma FreezeFromStart(s: State, s0: State, s': State, u: Reg, order: seq<Move>, follow: bool)
    requires s0.Core({u}) && s0.Covers() && s0.worklist !! s0.active && LowerLists(s, s0) && s0 == Started(s, u)
    requires ListsMoves(order, s0.NodeMoves(u)) && SetOf(order) <= s0.NodeMoves(u) && OnceEach(order)
    requires s' == FrozenBy(s0, u, order, follow)
    ensures s'.Inv() && Freezes(s0, s', SetOf(order)) && Lower(s, s')
  {
    FreezeKeepsInv(s', s0, u, order, follow);
    if order != [] {
      assert order[0] in SetOf(order);
    }
    FreezeLowers(s, s0, s', u, SetOf(order));
  }

  /** Both freezing u and choosing u to be spilled keep the invariants, and end in time. */
  lemma FreezeKeeps(s: State, u: Reg, order: seq<Move>, follow: bool)
    requires s.Inv() && s.worklist !! s.active
    requires u in s.freeze + s.spill && ListsMoves(order, s.NodeMoves(u)) && OnceEach(order)
    ensures var s' := FrozenBy(Started(s, u), u, order, follow);
      s'.Inv() && Lower(s, s') && SameTask(s, s') && s'.rep == s.rep
  {
    StartedLists(s, Started(s, u), u, order);
    FreezeFromStart(s, Started(s, u), FrozenBy(Started(s, u), u, order, follow), u, order, follow);
  }

  ghost predicate FreezeOrder(s: State, order: seq<Move>) {
    s.worklist !! s.active && (forall m :: m in order ==> m in s.Pending()) && OnceEach(order)
  }

  ghost predicate DropsOnly(s: State, s': State, order: seq<Move>) {
    && s'.moveList == s.moveList && s'.degree == s.degree && s'.worklist !! s'.active
    && forall m :: m in s'.Pending() <==> m in s.Pending() && m !in order
  }

  lemma DropsOne(s: State, s': State, order: seq<Move>, m: Move)
    requires DropsOnly(s, s', order) && m in s.Pending() && m !in order
    ensures DropsOnly(s, MoveDropped(s', m), order + [m])
  {
    assert m in s'.Pending();
  }

  lemma ThawDropsOnly(s: State, s': State, v: Reg, order: seq<Move>)
    requires DropsOnly(s, s', order)
    ensures DropsOnly(s, Thawed(s', v), order)
  {
  }

  lemma {:induction false} FrozenDropsOnly(s: State, u: Reg, order: seq<Move>, follow: bool)
    requires FreezeOrder(s, order)
    ensures DropsOnly(s, FrozenBy(s, u, order, follow), order)
    decreases |order|, 1
  {
    if order != [] {
      BeforeLastFreeze(s, u, order, follow);
      var init, last := order[..|order| - 1], order[|order| - 1];
      ThawDropsOnly(s, MoveDropped(FrozenBy(s, u, init, follow), last),
                    FarEnd(FrozenBy(s, u, init, follow).rep, u, last, follow), order);
    }
  }

  lemma BeforeLastFreeze(s: State, u: Reg, order: seq<Move>, follow: bool)
    requires FreezeOrder(s, order) && order != []
    ensures var init, last := order[..|order| - 1], order[|order| - 1];
      && FreezeOrder(s, init) && order == init + [last]
      && DropsOnly(s, FrozenBy(s, u, init, follow), init)
      && DropsOnly(s, MoveDropped(FrozenBy(s, u, init, follow), last), order)
    decreases |order|, 0
  {
    var init, last := order[..|order| - 1], order[|order| - 1];
    OnceInFront(order);
    FrozenDropsOnly(s, u, init, follow);
    DropsOne(s, FrozenBy(s, u, init, follow), init, last);
  }

  /** The last of the moves given up so far has x at its far end, and x has none that is left. */
  ghost predicate LastOf(s: State, u: Reg, given: seq<Move>, x: Reg) {
    && given != [] && FarEnd(s.rep, u, given[|given| - 1], false) == x
    && forall m :: m in s.NodeMoves(x) ==> m in given
  }

  /** Some beginning of `order` ends with the last move of x. */
  ghost predicate RunsOut(s: State, u: Reg, order: seq<Move>, x: Reg) {
    exists k {:trigger order[..k]} :: 0 <= k <= |order| && LastOf(s, u, order[..k], x)
  }

  lemma RunsOutSplit(s: State, u: Reg, order: seq<Move>, init: seq<Move>, x: Reg)
    requires order != [] && init == order[..|order| - 1]
    ensures RunsOut(s, u, order, x) <==> RunsOut(s, u, init, x) || LastOf(s, u, order, x)
  {
    assert order[..|order|] == order;
    assert forall k :: 0 <= k <= |init| ==> init[..k] == order[..k];
  }

  lemma LastTurn(s: State, s1: State, u: Reg, order: seq<Move>, x: Reg)
    requires order != [] && DropsOnly(s, s1, order)
    ensures s1.NodeMoves(x) == {} && FarEnd(s.rep, u, order[|order| - 1], false) == x <==> LastOf(s, u, order, x)
  {
    forall m | m in s.NodeMoves(x) && m !in order
      ensures m in s1.NodeMoves(x)
    {
    }
  }

  lemma {:induction false} FrozenKeepsRep(s: State, u: Reg, order: seq<Move>, follow: bool)
    ensures FrozenBy(s, u, order, follow).rep == s.rep
  {
    if order != [] {
      FrozenKeepsRep(s, u, order[..|order| - 1], follow);
    }
  }

  lemma ThawLists(s: State, v: Reg, x: Reg)
    ensures x in Thawed(s, v).simplify <==>
      x in s.simplify || (x == v && s.NodeMoves(x) == {} && DegreeOf(s.degree, x) < TypeK(x.ty))
  {
  }

  /** Exactly when freezing u puts x on the simplify list: x has a low degree, and is at the far
      end of the last of its pending moves.  Nothing here keeps physical registers out. */
  lemma {:induction false} FreezeListsExactly(s: State, u: Reg, order: seq<Move>, x: Reg)
    requires FreezeOrder(s, order) && x !in s.simplify
    ensures x in FrozenBy(s, u, order, false).simplify <==>
      DegreeOf(s.degree, x) < TypeK(x.ty) && RunsOut(s, u, order, x)
  {
    if order != [] {
      var init, last := order[..|order| - 1], order[|order| - 1];
      BeforeLastFreeze(s, u, order, false);
      FreezeListsExactly(s, u, init, x);
      FrozenKeepsRep(s, u, init, false);
      RunsOutSplit(s, u, order, init, x);
      var s1 := MoveDropped(FrozenBy(s, u, init, false), last);
      LastTurn(s, s1, u, order, x);
      ThawLists(s1, FarEnd(s.rep, u, last, false), x);
    }
  }

  /** A set of moves can be visited in an order that ends with any one of them. */
  lemma {:induction false} OrderEndingIn(ms: Moves, last: Move) returns (order: seq<Move>)
    requires last in ms
    ensures ListsMoves(order, ms) && OnceEach(order) && order != [] && order[|order| - 1] == last
    decreases ms
  {
    var others := ms - {last};
    if others == {} {
      order := [last];
    } else {
      var m :| m in others;
      var rest := OrderEndingIn(ms - {m}, last);
      order := [m] + rest;
      OnceWithFirst(m, rest);
      assert forall n :: n in order <==> n == m || n in rest;
    }
  }

  lemma OnceWithFirst<T>(x: T, rest: seq<T>)
    requires OnceEach(rest) && x !in rest
    ensures OnceEach([x] + rest)
  {
    var order := [x] + rest;
    forall i | 0 <= i < |order|
      ensures order[i] !in order[..i]
    {
      if i > 0 {
        assert order[i] == rest[i - 1] && order[..i] == [x] + rest[..i - 1];
      }
    }
  }

  /** A freeze of u is in danger of listing x: x has a low degree and no pending move without u,
      and one of u's moves has x at its far end. */
  ghost predicate MayList(s: State, u: Reg, x: Reg) {
    && DegreeOf(s.degree, x) < TypeK(x.ty) && s.NodeMoves(x) <= s.NodeMoves(u)
    && exists m :: m in s.NodeMoves(u) && FarEnd(s.rep, u, m, false) == x
  }

  /** That is the case exactly when the moves of u can be visited in an order that lists x. */
  lemma FreezeCanList(s: State, u: Reg, x: Reg)
    requires s.worklist !! s.active && x !in s.simplify
    ensures MayList(s, u, x) <==>
      exists order: seq<Move> :: ListsMoves(order, s.NodeMoves(u)) && OnceEach(order) &&
        x in FrozenBy(s, u, order, false).simplify
  {
    if MayList(s, u, x) {
      var last :| last in s.NodeMoves(u) && FarEnd(s.rep, u, last, false) == x;
      var order := OrderEndingIn(s.NodeMoves(u), last);
      FreezeListsExactly(s, u, order, x);
      RunsOutSplit(s, u, order, order[..|order| - 1], x);
    }
    forall order: seq<Move> | ListsMoves(order, s.NodeMoves(u)) && OnceEach(order) &&
      x in FrozenBy(s, u, order, false).simplify
      ensures MayList(s, u, x)
    {
      FreezeListsExactly(s, u, order, x);
      var k :| 0 <= k <= |order| && LastOf(s, u, order[..k], x);
      assert order[..k][k - 1] in s.NodeMoves(u);
    }
  }

  // ----- assigning colours -----

  /** A register that will not be coloured again: what is left of the stack does not name it. */
  predicate Final(stack: seq<Reg>, n: nat, r: Reg)
    requires n <= |stack|
  {
    r !in stack[..n]
  }

  /** Final neighbours have different colours, when the top of the stack down to n is done. */
  ghost predicate Separated(edges: Pairs, graph: map<Reg, RegSet>, rep: map<Reg, Reg>, stack: seq<Reg>, n: nat,
                            colored: RegSet, color: ColorMap)
    requires n <= |stack|
  {
    forall x, y {:trigger Covered(edges, graph, rep, stack, x, y)} ::
      && Covered(edges, graph, rep, stack, x, y) && x !in rep && y !in rep
      && (x.Phys? || (x in colored && Final(stack, n, x))) && (y.Phys? || (y in colored && Final(stack, n, y)))
      ==> Color(color, x) != Color(color, y)
  }

  /** c is none of the colours that the registers in ws stand for by now. */
  ghost predicate Avoids(ws: RegSet, rep: map<Reg, Reg>, colored: RegSet, color: ColorMap, c: Reg) {
    forall w {:trigger RepOf(rep, w)} :: w in ws ==>
      && (RepOf(rep, w).Phys? ==> c != RepOf(rep, w))
      && (RepOf(rep, w).Virt? && RepOf(rep, w) in colored ==> c != Color(color, RepOf(rep, w)))
  }

  lemma AvoidsCovered(s: State, n: nat, colored: RegSet, color: ColorMap, c: Reg, y: Reg)
    requires GraphOk(s.universe, s.edges, s.graph) && n < |s.stack|
    requires s.stack[n].Virt? && y !in s.rep && Covered(s.edges, s.graph, s.rep, s.stack, s.stack[n], y)
    requires y.Phys? || (y in colored && Final(s.stack, n, y))
    requires Avoids(Entry(s.graph, s.stack[n]), s.rep, colored, color, c)
    ensures c != Color(color, y)
  {
    var r := s.stack[n];
    if (r, y) in s.edges {
      assert y in Entry(s.graph, r) && RepOf(s.rep, y) == y;
    } else {
      NotShielded(s, n, y);
      var z, i :| ShieldedBy(s.graph, s.rep, s.stack, r, y, z, i);
    }
  }

  /** A final register was popped before r, so it is not r that had to wait for it. */
  lemma NotShielded(s: State, n: nat, y: Reg)
    requires n < |s.stack| && (y.Phys? || Final(s.stack, n, y))
    ensures !Shielded(s.graph, s.rep, s.stack, y, s.stack[n])
  {
    forall z, i
      ensures !ShieldedBy(s.graph, s.rep, s.stack, y, s.stack[n], z, i)
    {
      if 0 <= i < n {
        assert s.stack[i] in s.stack[..n];
      } else if n <= i < |s.stack| {
        assert s.stack[n] in s.stack[..i + 1];
      }
    }
  }

  function WithColor(color: ColorMap, r: Reg, c: Reg): ColorMap {
    if r.Virt? then color[r := c] else color
  }

  lemma SeparatedStep(s: State, n: nat, colored: RegSet, color: ColorMap, c: Reg)
    requires GraphOk(s.universe, s.edges, s.graph) && n < |s.stack|
    requires Separated(s.edges, s.graph, s.rep, s.stack, n + 1, colored, color)
    requires Avoids(Entry(s.graph, s.stack[n]), s.rep, colored, color, c)
    ensures Separated(s.edges, s.graph, s.rep, s.stack, n, colored + {s.stack[n]}, WithColor(color, s.stack[n], c))
  {
    var r, color' := s.stack[n], WithColor(color, s.stack[n], c);
    assert s.stack[..n + 1] == s.stack[..n] + [r];
    forall x, y | Covered(s.edges, s.graph, s.rep, s.stack, x, y) && x !in s.rep && y !in s.rep
                  && (x.Phys? || (x in colored + {r} && Final(s.stack, n, x)))
                  && (y.Phys? || (y in colored + {r} && Final(s.stack, n, y)))
      ensures Color(color', x) != Color(color', y)
    {
      if x == r && r.Virt? {
        AvoidsCovered(s, n, colored, color, c, y);
      } else if y == r && r.Virt? {
        CoveredFlip(s, x, y);
        AvoidsCovered(s, n, colored, color, c, x);
      }
    }
  }

  ghost predicate ColorFits(r: Reg, c: Reg) {
    c.Phys? && c.ty == r.ty && c != SP && c != ZERO
  }

  /** The colour table holds what its readers need. */
  ghost predicate ColorsKnown(colored: RegSet, color: ColorMap) {
    && (forall r {:trigger color[r]} :: r in color ==> r.Virt? && ColorFits(r, color[r]))
    && (forall r :: r in colored && r.Virt? ==> r in color)
  }

  /** The stack has been popped down to n: what was popped is coloured or spilled. */
  ghost predicate PoppedTo(s: State, n: nat, colored: RegSet, spilled: RegSet, color: ColorMap) {
    && n <= |s.stack|
    && ColorsKnown(colored, color)
    && (forall x :: x in colored + spilled <==> x in s.stack[n..])
    && (spilled == {} ==> Separated(s.edges, s.graph, s.rep, s.stack, n, colored, color))
  }

  lemma PopColors(s: State, n: nat, colored: RegSet, spilled: RegSet, color: ColorMap, c: Reg)
    requires GraphOk(s.universe, s.edges, s.graph) && StackOk(s.stack, s.stacked) && n < |s.stack|
    requires PoppedTo(s, n + 1, colored, spilled, color)
    ensures c in AllocatableSet(s.stack[n].ty) && Avoids(Entry(s.graph, s.stack[n]), s.rep, colored, color, c) ==>
      PoppedTo(s, n, colored + {s.stack[n]}, spilled, WithColor(color, s.stack[n], c))
  {
    assert s.stack[n..] == [s.stack[n]] + s.stack[n + 1..];
    if c in AllocatableSet(s.stack[n].ty) && Avoids(Entry(s.graph, s.stack[n]), s.rep, colored, color, c) {
      if spilled == {} {
        SeparatedStep(s, n, colored, color, c);
      }
    }
  }

  lemma PopSpills(s: State, n: nat, colored: RegSet, spilled: RegSet, color: ColorMap)
    requires n < |s.stack| && PoppedTo(s, n + 1, colored, spilled, color)
    ensures PoppedTo(s, n, colored, spilled + {s.stack[n]}, color)
  {
    assert s.stack[n..] == [s.stack[n]] + s.stack[n + 1..];
  }

  /** After the coalesced registers have been given the colours of their representatives. */
  ghost predicate Extended(rep: map<Reg, Reg>, given: RegSet, color: ColorMap, color': ColorMap) {
    && (forall v {:trigger v in color'} {:trigger v in color} :: v !in rep ==> (v in color' <==> v in color))
    && (forall v {:trigger color'[v]} :: v !in rep && v in color ==> color'[v] == color[v])
    && (forall v {:trigger v in given} :: v in given && v in rep && (rep[v].Phys? || rep[v] in color) ==>
          v in color' && color'[v] == Color(color, rep[v]))
    && (forall v {:trigger color'[v]} :: v in color' ==> v.Virt? && ColorFits(v, color'[v]))
  }

  function GivenColor(rep: map<Reg, Reg>, color: ColorMap, v: Reg): ColorMap {
    var r := RepOf(rep, v);
    if r.Phys? then color[v := r] else if r in color then color[v := color[r]] else color
  }

  lemma ExtendedOneMore(s: State, given: RegSet, color: ColorMap, color': ColorMap, v: Reg)
    requires AliasOk(s.universe, s.coalesced, s.rep) && v in s.rep
    requires ColorsKnown({}, color) && Extended(s.rep, given, color, color')
    ensures Extended(s.rep, given + {v}, color, GivenColor(s.rep, color', v))
  {
    var r := s.rep[v];
    assert r !in s.rep && r.ty == v.ty;
    assert r in color' <==> r in color;
  }

  /** What the allocator promises: every node has a register of its type, and registers that
      interfere have different ones.  They may clash on the registers in `except`. */
  ghost predicate ProperColoring(nodes: RegSet, inter: Pairs, color: ColorMap, except: RegSet) {
    && (forall v :: v in nodes ==> v in color)
    && (forall v {:trigger color[v]} :: v in color ==> ColorFits(v, color[v]))
    && (forall x, y {:trigger (x, y) in inter} :: (x, y) in inter ==>
          Color(color, x) != Color(color, y) || Color(color, x) in except)
  }

  function PhysIn(rs: RegSet): RegSet {
    set r | r in rs && r.Phys?
  }

  ghost predicate OverNodes(inter: Pairs, nodes: RegSet) {
    forall x, y {:trigger (x, y) in inter} :: (x, y) in inter ==> (x.Virt? ==> x in nodes) && (y.Virt? ==> y in nodes)
  }

  lemma RepColored(s: State, colored: RegSet, color: ColorMap, color': ColorMap, v: Reg)
    requires s.Inv() && s.simplify == s.freeze == s.spill == {} && s.stacked <= colored
    requires ColorsKnown(colored, color) && Extended(s.rep, s.coalesced, color, color')
    requires v in s.nodes || v.Phys?
    ensures v.Virt? ==> v in color'
    ensures Color(color', v) == Color(color, RepOf(s.rep, v))
    ensures RepOf(s.rep, v).Virt? ==> RepOf(s.rep, v) in s.stacked
  {
    var r := RepOf(s.rep, v);
    RepIdempotent(s, v);
    if r.Virt? {
      assert r in s.Waiting() && r in s.stacked && r in color;
    }
    if v in s.rep {
      assert v in s.coalesced;
    }
  }

  /** Interfering registers can only clash on a physical register that got on the stack. */
  lemma SeparatedGivesProper(s: State, colored: RegSet, color: ColorMap, color': ColorMap)
    requires s.Inv() && s.simplify == s.freeze == s.spill == {} && s.stacked <= colored
    requires ColorsKnown(colored, color) && Extended(s.rep, s.coalesced, color, color')
    requires Separated(s.edges, s.graph, s.rep, s.stack, 0, colored, color) && OverNodes(s.inter, s.nodes)
    ensures ProperColoring(s.nodes, s.inter, color', PhysIn(s.stacked))
  {
    forall v | v in s.nodes ensures v in color' {
      RepColored(s, colored, color, color', v);
    }
    forall x, y | (x, y) in s.inter
      ensures Color(color', x) != Color(color', y) || Color(color', x) in PhysIn(s.stacked)
    {
      var a, b := RepOf(s.rep, x), RepOf(s.rep, y);
      RepColored(s, colored, color, color', x);
      RepColored(s, colored, color, color', y);
      RepIdempotent(s, x);
      RepIdempotent(s, y);
      if Open(s.stacked, a) && Open(s.stacked, b) {
        assert Covered(s.edges, s.graph, s.rep, s.stack, a, b);
      } else if !Open(s.stacked, a) {
        assert a in PhysIn(s.stacked);
      } else {
        assert b in PhysIn(s.stacked);
      }
    }
  }
}
