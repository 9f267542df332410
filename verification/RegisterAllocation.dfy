// Iterated register coalescing: build, simplify, coalesce, freeze, select and colour.
//
// The heuristics choose freely (`:|`) among the registers and moves of a work list, as the
// iteration order of a hash set does.  Where the order in which a set was visited matters to
// the outcome, a method returns that order as a ghost result and its contract names the
// outcome as a function of it.

module RegisterAllocation {
  import opened Machine
  import opened Liveness
  import opened Coloring
  import opened AllocState
  import opened Interference
  import opened PhysicalNodes
  import opened PhysicalColors

  /** Following aliases from a coalesced register arrives at its representative. */
  ghost predicate AliasChains(alias: map<Reg, Reg>, rank: map<Reg, nat>, rep: map<Reg, Reg>) {
    forall v {:trigger alias[v]} {:trigger v in alias} :: v in rep ==>
      && v in alias && v in rank
      && RepOf(rep, alias[v]) == rep[v]
      && (alias[v] in rep ==> alias[v] in rank && rank[alias[v]] < rank[v])
  }

  function RanksAfterMerge(rank: map<Reg, nat>, v: Reg): map<Reg, nat> {
    map x | x in rank.Keys + {v} :: if x == v || x !in rank then 0 else rank[x] + 1
  }

  lemma ChainsAfterMerge(alias: map<Reg, Reg>, rank: map<Reg, nat>, rep: map<Reg, Reg>, u: Reg, v: Reg)
    requires AliasChains(alias, rank, rep) && u !in rep && v !in rep && u != v
    ensures AliasChains(alias[v := u], RanksAfterMerge(rank, v), Redirected(rep, u, v))
  {
    RedirectedRep(rep, u, v);
    var alias', rank', rep' := alias[v := u], RanksAfterMerge(rank, v), Redirected(rep, u, v);
    forall x {:trigger alias'[x]} {:trigger x in alias'} | x in rep'
      ensures x in alias' && x in rank' && RepOf(rep', alias'[x]) == rep'[x]
      ensures alias'[x] in rep' ==> alias'[x] in rank' && rank'[alias'[x]] < rank'[x]
    {
      if x != v {
        assert x in rep && x in alias && x in rank;
      }
    }
  }

  lemma AvoidsOneMore(ws: RegSet, w: Reg, rep: map<Reg, Reg>, colored: RegSet, color: ColorMap)
    ensures forall c :: Avoids(ws + {w}, rep, colored, color, c) <==>
      && Avoids(ws, rep, colored, color, c)
      && (RepOf(rep, w).Phys? ==> c != RepOf(rep, w))
      && (RepOf(rep, w).Virt? && RepOf(rep, w) in colored ==> c != Color(color, RepOf(rep, w)))
  {
  }

  /** What following an alias depends on. */
  ghost predicate SameAliases(s: State, s': State) {
    s'.universe == s.universe && s'.coalesced == s.coalesced && s'.rep == s.rep
  }

  /** What giving up one move more comes to. */
  lemma OneMoveMore(s: State, u: Reg, order: seq<Move>, m: Move, follow: bool, all: Moves, rest: Moves)
    requires m in rest && rest <= all && ListsMoves(order, all - rest) && OnceEach(order)
    ensures ListsMoves(order + [m], all - (rest - {m})) && OnceEach(order + [m])
    ensures FrozenBy(s, u, order + [m], follow) == FreezeTurn(FrozenBy(s, u, order, follow), u, m, follow)
  {
    OnceMore(order, m);
    var longer := order + [m];
    assert longer[..|longer| - 1] == order;
  }

  /** What the backward walk over a block comes to, one instruction further up. */
  lemma OneMoreInstr(l: nat, b: Block, k: nat, out: RegSet, nodes: RegSet, universe: RegSet)
    requires WellFormedBlock(b) && KnownBlock(b, out, nodes, universe) && 0 < k <= |b|
    ensures WellFormedBlock(b[k..]) && WellFormedBlock(b[k - 1..])
    ensures var i, after := b[k - 1], LiveBefore(b[k..], out);
      && WellFormed(i) && KnownInstr(i, nodes, universe) && KnownSet(after, nodes, universe)
      && LiveBefore(b[k - 1..], out) == Transfer(i, after)
      && BlockPairs(b[k - 1..], out) == InstrPairs(i, after) + BlockPairs(b[k..], out)
      && MovesFrom(l, b, k - 1) == MoveAt(l, k - 1, i) + MovesFrom(l, b, k)
  {
    assert b[k - 1..][1..] == b[k..];
    LiveBeforeKnown(b[k..], out, nodes, universe);
  }

  lemma AddedInFront(a: Moves, b: Moves, c: Moves, d: Moves, e: Moves)
    requires b == a + d && c == b + e
    ensures c == a + (e + d)
  {
  }

  lemma NothingYet(l: nat, b: Block, n: nat, out: RegSet, inter: Pairs, moves: Moves)
    requires WellFormedBlock(b) && n == |b|
    ensures LiveBefore(b[n..], out) == out && inter == inter + BlockPairs(b[n..], out)
    ensures moves == moves + MovesFrom(l, b, n)
    ensures b[0..] == b
  {
  }

  /** The stack has been popped down to n, every colour is allocatable or that of a physical end, and
      what is spilled found no colour free; the last if no register is on the stack twice. */
  ghost predicate PoppedWell(s: State, n: nat, colored: RegSet, spilled: RegSet, color: ColorMap) {
    && PoppedTo(s, n, colored, spilled, color) && Handed(s.rep, color)
    && (OnceEach(s.stack) ==> SpilledByRight(s, colored, spilled, color))
  }

  lemma NonePopped(s: State)
    ensures PoppedWell(s, |s.stack|, {}, {}, map[])
  {
  }

  ghost predicate IsFree(s: State, colored: RegSet, color: ColorMap, r: Reg, c: Reg) {
    c in AllocatableSet(r.ty) && Avoids(Entry(s.graph, r), s.rep, colored, color, c)
  }

  lemma PopsColored(s: State, n: nat, colored: RegSet, spilled: RegSet, color: ColorMap, c: Reg)
    requires GraphOk(s.universe, s.edges, s.graph) && StackOk(s.stack, s.stacked) && n < |s.stack|
    requires PoppedWell(s, n + 1, colored, spilled, color) && IsFree(s, colored, color, s.stack[n], c)
    ensures PoppedWell(s, n, colored + {s.stack[n]}, spilled, WithColor(color, s.stack[n], c))
  {
    PopColors(s, n, colored, spilled, color, c);
    HandedOneMore(s.rep, color, s.stack[n], c);
    if OnceEach(s.stack) {
      NotYetColored(s, n, colored, spilled);
      ColoredTakesMore(s, colored, spilled, color, s.stack[n], c);
    }
  }

  lemma PopsSpilled(s: State, n: nat, colored: RegSet, spilled: RegSet, color: ColorMap)
    requires n < |s.stack| && PoppedWell(s, n + 1, colored, spilled, color)
    requires forall c :: !IsFree(s, colored, color, s.stack[n], c)
    ensures PoppedWell(s, n, colored, spilled + {s.stack[n]}, color)
  {
    PopSpills(s, n, colored, spilled, color);
    if OnceEach(s.stack) {
      forall c | c in AllocatableSet(s.stack[n].ty)
        ensures !Avoids(Entry(s.graph, s.stack[n]), s.rep, colored, color, c)
      {
        assert !IsFree(s, colored, color, s.stack[n], c);
      }
      SpillsOneMore(s, colored, spilled, color, s.stack[n]);
    }
  }

  /** What the nodes have been listed for. */
  lemma Prepared(s0: State, s1: State, s: State, moves: Moves, room: nat, follow: bool)
    requires Begun(s0) && Builds(s0, s1) && Adds(s0, s1) && Listed(s1, s)
    requires s1.worklist == moves && s0.active <= moves
    requires 3 * |s0.universe| + |moves| <= room && room + 32 < SIZE_T
    ensures s.Inv() && s.rep == map[] && s.nodes == s0.nodes && s.universe == s0.universe
    ensures s.inter == s1.inter && OverNodes(s.inter, s.nodes)
    ensures AllApart(s, PhysIn(s.universe) - Exposed(s0, moves, room, follow), room, follow)
    ensures Hosts(s) <= NamedBy(moves)
  {
    AllListed(s1, s);
    ListedHasInv(s0, s1, s);
    ListedAreApart(s0, s1, s, moves, room, follow);
    PendingAtFirst(s0, s1, s, moves);
    HostsAtFirst(s, moves);
  }

  lemma PendingAtFirst(s0: State, s1: State, s: State, moves: Moves)
    requires Builds(s0, s1) && Listed(s1, s) && s1.worklist == moves && s0.active <= moves
    ensures s.Pending() == moves
  {
  }

  class RegisterAllocation {
    const followsAliases: bool    // whether freeze_moves follows aliases; in the source it does not
    var st: State                 // the work lists, the move lists, the graph and the degrees
    var alias: map<Reg, Reg>
    ghost var rank: map<Reg, nat> // decreases along alias chains

    var coalesced_moves: Moves
    var constrained_moves: Moves
    var frozen_moves: Moves
    var spilled_nodes: RegSet
    var colored_nodes: RegSet
    var color: ColorMap

    /** What a function starts with: nothing is known but its registers. */
    constructor (nodes: RegSet, universe: RegSet, follow: bool)
      requires forall v :: v in nodes ==> v.Virt? && v in universe
      ensures Begun(st) && Blank(st) && st.nodes == nodes && st.universe == universe
      ensures colored_nodes == spilled_nodes == {} && followsAliases == follow
    {
      st := State(nodes, universe, {}, {}, {}, {}, {}, [], {}, {}, {}, map[], {}, map[], map[], map[]);
      alias, rank, color := map[], map[], map[];
      coalesced_moves, constrained_moves, frozen_moves := {}, {}, {};
      spilled_nodes, colored_nodes := {}, {};
      followsAliases := follow;
    }

    // ----- the interference graph -----

    /** Edges between d and everything in live. */
    method AddEdges(ghost s0: State, d: Reg, live: RegSet)
      requires Builds(s0, st) && Adds(s0, st)
      requires d in st.universe && (d.Virt? ==> d in st.nodes) && KnownSet(live, st.nodes, st.universe)
      modifies this`st
      ensures Builds(s0, st) && Adds(s0, st) && st.inter == old(st).inter + PairsOf(d, live)
      ensures st.worklist == old(st).worklist
    {
      var rest := live;
      while rest != {}
        invariant rest <= live && Builds(s0, st) && Adds(s0, st)
        invariant st.inter == old(st).inter + PairsOf(d, live - rest)
        invariant st.worklist == old(st).worklist
        decreases rest
      {
        var l :| l in rest;
        PairsOfOneMore(d, live - rest, l);
        assert live - rest + {l} == live - (rest - {l});
        rest := rest - {l};
        RecordingBuilds(s0, st, d, l);
        RecordingAdds(s0, st, d, l);
        AddEdge(d, l);
        st := Recorded(st, PairsOf(d, {l}));
      }
      assert live - {} == live;
    }

    /** Edges between every destination and everything in live. */
    method AddDefEdges(ghost s0: State, defs: seq<Reg>, live: RegSet)
      requires Builds(s0, st) && Adds(s0, st) && KnownSet(live, st.nodes, st.universe)
      requires forall d :: d in defs ==> d in live
      modifies this`st
      ensures Builds(s0, st) && Adds(s0, st) && st.inter == old(st).inter + PairsOfAll(defs, live)
      ensures st.worklist == old(st).worklist
    {
      for n := 0 to |defs|
        invariant Builds(s0, st) && Adds(s0, st) && st.worklist == old(st).worklist
        invariant st.inter == old(st).inter + PairsOfAll(defs[..n], live)
      {
        AddEdges(s0, defs[n], live);
        assert defs[..n + 1][..n] == defs[..n];
      }
      assert defs[..|defs|] == defs;
    }

    /** One step of the backward walk: from the registers live behind i to those before it. */
    method BuildInstr(ghost s0: State, l: nat, k: nat, i: Instr, after: RegSet) returns (before: RegSet)
      requires Builds(s0, st) && Adds(s0, st)
      requires WellFormed(i) && KnownInstr(i, st.nodes, st.universe) && KnownSet(after, st.nodes, st.universe)
      modifies this`st
      ensures Builds(s0, st) && Adds(s0, st) && before == Transfer(i, after)
      ensures st.inter == old(st).inter + InstrPairs(i, after)
      ensures st.worklist == old(st).worklist + MoveAt(l, k, i)
    {
      WalkIsTransfer(i, after, st.nodes, st.universe);
      var live := after;
      if i.tag != MOV {
        assert live == live - Moved(i) && st.worklist == st.worklist + MoveAt(l, k, i);
      } else {
        live := live - {i.operands[1].reg};
        ListingBuilds(s0, st, l, k, i);
        ListingAdds(s0, st, Move(l, k, i.operands[0].reg, i.operands[1].reg));
        st := MoveListed(st, Move(l, k, i.operands[0].reg, i.operands[1].reg));
      }
      live := live + DefSet(i);
      AddDefEdges(s0, Defs(i), live);
      before := live - DefSet(i) + Uses(i);
    }

    /** One step further up in a block; w is how the walk began. */
    method WalkUp(ghost s0: State, ghost w: State, l: nat, b: Block, k: nat, k': nat, ghost out: RegSet, live: RegSet)
        returns (before: RegSet)
      requires Builds(s0, st) && Adds(s0, st)
      requires WellFormedBlock(b) && KnownBlock(b, out, st.nodes, st.universe) && k' < |b| && k == k' + 1
      requires live == LiveBefore(b[k..], out)
      requires st.inter == w.inter + BlockPairs(b[k..], out)
      requires st.worklist == w.worklist + MovesFrom(l, b, k)
      modifies this`st
      ensures Builds(s0, st) && Adds(s0, st) && before == LiveBefore(b[k'..], out)
      ensures st.inter == w.inter + BlockPairs(b[k'..], out)
      ensures st.worklist == w.worklist + MovesFrom(l, b, k')
    {
      OneMoreInstr(l, b, k, out, st.nodes, st.universe);
      ghost var moves := st.worklist;
      before := BuildInstr(s0, l, k', b[k'], live);
      AddedInFront(w.worklist, moves, st.worklist, MovesFrom(l, b, k), MoveAt(l, k', b[k']));
    }

    method BuildBlock(ghost s0: State, l: nat, b: Block, out: RegSet)
      requires Builds(s0, st) && Adds(s0, st)
      requires WellFormedBlock(b) && KnownBlock(b, out, st.nodes, st.universe)
      modifies this`st
      ensures Builds(s0, st) && Adds(s0, st)
      ensures st.inter == old(st).inter + BlockPairs(b, out)
      ensures st.worklist == old(st).worklist + MovesFrom(l, b, 0)
    {
      var live, k := out, |b|;
      NothingYet(l, b, k, out, st.inter, st.worklist);
      while k > 0
        invariant 0 <= k <= |b| && Builds(s0, st) && Adds(s0, st)
        invariant live == LiveBefore(b[k..], out)
        invariant st.inter == old(st).inter + BlockPairs(b[k..], out)
        invariant st.worklist == old(st).worklist + MovesFrom(l, b, k)
      {
        live := WalkUp(s0, old(st), l, b, k, k - 1, out, live);
        k := k - 1;
      }
    }

    method BuildGraph(blocks: seq<nat>, code: Program, live_out: LiveMap)
      requires Begun(st)
      requires WellFormedProgram(code) && live_out.Keys == code.Keys
      requires KnownProgram(code, live_out, st.nodes, st.universe)
      requires forall l :: l in blocks ==> l in code
      modifies this`st
      ensures Builds(old(st), st) && Adds(old(st), st)
      ensures st.inter == PairsOfBlocks(blocks, code, live_out)
      ensures st.worklist == MovesOfBlocks(blocks, code)
    {
      ghost var s0 := st;
      for n := 0 to |blocks|
        invariant Builds(s0, st) && Adds(s0, st)
        invariant st.inter == PairsOfBlocks(blocks[..n], code, live_out)
        invariant st.worklist == MovesOfBlocks(blocks[..n], code)
      {
        assert blocks[..n + 1][..n] == blocks[..n];
        BuildBlock(s0, blocks[n], code[blocks[n]], live_out[blocks[n]]);
      }
      assert blocks[..|blocks|] == blocks;
    }

    /** Sorts the nodes into the three work lists. */
    method MakeWorklist()
      requires st.simplify == st.freeze == st.spill == {}
      modifies this`st
      ensures Listed(old(st), st)
    {
      ghost var s := st;
      var rest := st.nodes;
      while rest != {}
        invariant rest <= s.nodes
        invariant st == s.(simplify := st.simplify, freeze := st.freeze, spill := st.spill)
        invariant forall r :: r in st.spill <==> r in s.nodes - rest && DegreeOf(s.degree, r) >= TypeK(r.ty)
        invariant forall r :: r in st.freeze <==> r in s.nodes - rest - st.spill && s.MoveRelated(r)
        invariant forall r :: r in st.simplify <==> r in s.nodes - rest - st.spill && !s.MoveRelated(r)
        decreases rest
      {
        var reg :| reg in rest;
        rest := rest - {reg};
        if DegreeOf(st.degree, reg) >= TypeK(reg.ty) {
          st := st.(spill := st.spill + {reg});
        } else if st.MoveRelated(reg) {
          st := st.(freeze := st.freeze + {reg});
        } else {
          st := st.(simplify := st.simplify + {reg});
        }
      }
    }

    // ----- aliases -----

    /** The end of the alias chain, shortening the chain on the way. */
    method GetAlias(reg: Reg) returns (r: Reg)
      requires AliasChains(alias, rank, st.rep) && AliasOk(st.universe, st.coalesced, st.rep)
      modifies this`alias
      ensures r == RepOf(st.rep, reg) && AliasChains(alias, rank, st.rep)
      decreases if reg in st.rep && reg in rank then rank[reg] + 1 else 0
    {
      if reg in st.coalesced {
        r := GetAlias(alias[reg]);
        alias := alias[reg := r];
      } else {
        r := reg;
      }
    }

    method EnableMoves(rs: RegSet)
      modifies this`st
      ensures st == MovesEnabled(old(st), Enabled(old(st).moveList, old(st).active, rs))
    {
      ghost var s := st;
      var rest := rs;
      while rest != {}
        invariant rest <= rs
        invariant st == MovesEnabled(s, Enabled(s.moveList, s.active, rs - rest))
        decreases rest
      {
        var r :| r in rest;
        EnabledByOneMore(s.moveList, s.active, rs - rest, r);
        assert rs - rest + {r} == rs - (rest - {r});
        rest := rest - {r};
        var m := Entry(st.moveList, r) * st.active;
        st := st.(worklist := st.worklist + m, active := st.active - m);
      }
      assert rs - {} == rs;
    }

    method DecrementDegree(reg: Reg)
      modifies this`st
      ensures st == Decremented(old(st), reg)
    {
      var d := DegreeOf(st.degree, reg);
      st := st.(degree := st.degree[reg := Down(d)]);
      if d == TypeK(reg.ty) {
        EnableMoves(st.Adjacent(reg) + {reg});
        st := st.(spill := st.spill - {reg});
        if st.MoveRelated(reg) {
          st := st.(freeze := st.freeze + {reg});
        } else {
          st := st.(simplify := st.simplify + {reg});
        }
      }
    }

    method AddEdge(u: Reg, v: Reg)
      modifies this`st
      ensures st == EdgeAdded(old(st), u, v)
    {
      if u.ty != v.ty || u == v || (u, v) in st.edges {
        return;
      }
      st := st.(edges := st.edges + {(u, v), (v, u)});
      if !u.Phys? {
        st := st.(graph := st.graph[u := Entry(st.graph, u) + {v}],
                  degree := st.degree[u := Up(DegreeOf(st.degree, u))]);
      }
      if !v.Phys? {
        st := st.(graph := st.graph[v := Entry(st.graph, v) + {u}],
                  degree := st.degree[v := Up(DegreeOf(st.degree, v))]);
      }
    }

    method AddWorklist(reg: Reg)
      modifies this`st
      ensures st == Released(old(st), reg)
    {
      if !reg.Phys? && !st.MoveRelated(reg) && DegreeOf(st.degree, reg) < TypeK(reg.ty) {
        st := st.(freeze := st.freeze - {reg}, simplify := st.simplify + {reg});
      }
    }

    method Simplify() returns (ghost reg': Reg, ghost order: seq<Reg>)
      requires st.simplify != {}
      modifies this`st
      ensures reg' in old(st).simplify && Lists(order, Pushed(old(st), reg').Adjacent(reg'))
      ensures st == Simplified(old(st), reg', order)
    {
      var reg :| reg in st.simplify;
      reg', order := reg, [];
      st := st.(simplify := st.simplify - {reg});
      st := st.(stack := st.stack + [reg], stacked := st.stacked + {reg});
      ghost var s1 := st;
      var rest := st.Adjacent(reg);
      ghost var all := rest;
      while rest != {}
        invariant rest <= all && Lists(order, all - rest)
        invariant st == DecrementedBy(s1, order)
        decreases rest
      {
        var v :| v in rest;
        rest := rest - {v};
        DecrementDegree(v);
        OnceMore(order, v);
        ghost var longer := order + [v];
        assert longer[..|longer| - 1] == order;
        order := longer;
      }
    }

    method MakeAlias(u: Reg, v: Reg)
      requires AliasChains(alias, rank, st.rep)
      requires u !in st.rep && v !in st.rep && u != v
      modifies this`st, this`alias, this`rank
      ensures AliasChains(alias, rank, st.rep)
      ensures st == Merged(old(st), u, v)
    {
      ChainsAfterMerge(alias, rank, st.rep, u, v);
      if v in st.freeze {
        st := st.(freeze := st.freeze - {v});
      } else {
        st := st.(spill := st.spill - {v});
      }
      alias := alias[v := u];
      rank := RanksAfterMerge(rank, v);
      st := st.(coalesced := st.coalesced + {v}, rep := Redirected(st.rep, u, v),
                moveList := st.moveList[u := Entry(st.moveList, u) + Entry(st.moveList, v)]);
    }

    method Combine(u: Reg, v: Reg) returns (ghost order: seq<Reg>)
      requires AliasChains(alias, rank, st.rep) && st.rep.Keys == st.coalesced
      requires u !in st.coalesced && v !in st.coalesced && u != v
      modifies this`st, this`alias, this`rank
      ensures AliasChains(alias, rank, st.rep)
      ensures Lists(order, Merged(old(st), u, v).Adjacent(v))
      ensures st == Combined(old(st), u, v, order)
    {
      MakeAlias(u, v);
      order := CombineNeighbors(u, st.Adjacent(v));
      CombinedByKeepsRep(Merged(old(st), u, v), u, order);
      if DegreeOf(st.degree, u) >= TypeK(u.ty) && u in st.freeze {
        st := st.(freeze := st.freeze - {u}, spill := st.spill + {u});
      }
    }

    method CombineNeighbors(u: Reg, rs: RegSet) returns (ghost order: seq<Reg>)
      modifies this`st
      ensures Lists(order, rs) && st == CombinedBy(old(st), u, order)
    {
      ghost var s := st;
      order := [];
      var rest := rs;
      while rest != {}
        invariant rest <= rs && Lists(order, rs - rest)
        invariant st == CombinedBy(s, u, order)
        decreases rest
      {
        var t :| t in rest;
        rest := rest - {t};
        AddEdge(t, u);
        DecrementDegree(t);
        OnceMore(order, t);
        ghost var longer := order + [t];
        assert longer[..|longer| - 1] == order;
        order := longer;
      }
    }

    method Decide(m: Move, u: Reg, v: Reg) returns (ghost order: seq<Reg>)
      requires AliasChains(alias, rank, st.rep) && st.rep.Keys == st.coalesced
      requires u !in st.coalesced && v !in st.coalesced
      modifies this`st, this`alias, this`rank, this`coalesced_moves, this`constrained_moves
      ensures AliasChains(alias, rank, st.rep)
      ensures OrderFits(old(st), u, v, order) && st == Decided(old(st), m, u, v, order)
    {
      order := [];
      if u == v {
        coalesced_moves := coalesced_moves + {m};
        AddWorklist(u);
      } else if v.Phys? || (u, v) in st.edges {
        constrained_moves := constrained_moves + {m};
        AddWorklist(u);
        AddWorklist(v);
      } else if CanCombine(st, u, v) {
        coalesced_moves := coalesced_moves + {m};
        order := Combine(u, v);
        AddWorklist(u);
      } else {
        st := st.(active := st.active + {m});
      }
    }

    method Coalesce() returns (ghost m': Move, ghost order: seq<Reg>)
      requires st.worklist != {}
      requires AliasChains(alias, rank, st.rep) && AliasOk(st.universe, st.coalesced, st.rep)
      modifies this`st, this`alias, this`rank, this`coalesced_moves, this`constrained_moves
      ensures AliasChains(alias, rank, st.rep)
      ensures m' in old(st).worklist && st == Coalesced(old(st), m', order)
      ensures var (u, v) := Ends(old(st).rep, m'); OrderFits(MoveTaken(old(st), m'), u, v, order)
    {
      var m :| m in st.worklist;
      m' := m;
      st := st.(worklist := st.worklist - {m});
      var x := GetAlias(m.dst);
      var y := GetAlias(m.src);
      if y.Phys? {
        order := Decide(m, y, x);
      } else {
        order := Decide(m, x, y);
      }
    }

    // One turn of freeze_moves, in three parts.

    method OtherEnd(m: Move, u: Reg) returns (v: Reg)
      requires AliasChains(alias, rank, st.rep) && AliasOk(st.universe, st.coalesced, st.rep)
      modifies this`alias
      ensures v == FarEnd(st.rep, u, m, followsAliases) && AliasChains(alias, rank, st.rep)
    {
      var x, y := m.dst, m.src;
      if followsAliases {
        x := GetAlias(x);
        y := GetAlias(y);
      }
      v := if x == u then y else x;
    }

    method DropMove(m: Move)
      modifies this`st, this`frozen_moves
      ensures st == MoveDropped(old(st), m) && SameAliases(old(st), st)
    {
      if m in st.active {
        st := st.(active := st.active - {m});
      } else {
        st := st.(worklist := st.worklist - {m});
      }
      frozen_moves := frozen_moves + {m};
    }

    method FreezeMove(m: Move, u: Reg)
      requires AliasChains(alias, rank, st.rep) && AliasOk(st.universe, st.coalesced, st.rep)
      modifies this`st, this`alias, this`frozen_moves
      ensures AliasChains(alias, rank, st.rep) && SameAliases(old(st), st)
      ensures st == FreezeTurn(old(st), u, m, followsAliases)
    {
      var v := OtherEnd(m, u);
      DropMove(m);
      if !(followsAliases && v.Phys?) && st.NodeMoves(v) == {} && DegreeOf(st.degree, v) < TypeK(v.ty) {
        st := st.(freeze := st.freeze - {v}, simplify := st.simplify + {v});
      }
    }

    method FreezeMoves(u: Reg) returns (ghost order: seq<Move>)
      requires AliasChains(alias, rank, st.rep) && AliasOk(st.universe, st.coalesced, st.rep)
      modifies this`st, this`alias, this`frozen_moves
      ensures AliasChains(alias, rank, st.rep)
      ensures ListsMoves(order, old(st).NodeMoves(u)) && OnceEach(order)
      ensures st == FrozenBy(old(st), u, order, followsAliases)
    {
      ghost var s := st;
      order := [];
      var rest := st.NodeMoves(u);
      ghost var all := rest;
      while rest != {}
        invariant rest <= all && ListsMoves(order, all - rest) && OnceEach(order)
        invariant AliasChains(alias, rank, st.rep) && SameAliases(s, st)
        invariant st == FrozenBy(s, u, order, followsAliases)
        decreases rest
      {
        var m :| m in rest;
        FreezeMove(m, u);
        OneMoveMore(s, u, order, m, followsAliases, all, rest);
        rest, order := rest - {m}, order + [m];
      }
    }

    method Freeze() returns (ghost u': Reg, ghost order: seq<Move>)
      requires st.freeze != {}
      requires AliasChains(alias, rank, st.rep) && AliasOk(st.universe, st.coalesced, st.rep)
      modifies this`st, this`alias, this`frozen_moves
      ensures u' in old(st).freeze && ListsMoves(order, FreezeStarted(old(st), u').NodeMoves(u')) && OnceEach(order)
      ensures st == FrozenBy(FreezeStarted(old(st), u'), u', order, followsAliases)
      ensures AliasChains(alias, rank, st.rep)
    {
      var u :| u in st.freeze;
      u' := u;
      st := st.(freeze := st.freeze - {u}, simplify := st.simplify + {u});
      order := FreezeMoves(u);
    }

    method SelectSpill() returns (ghost u': Reg, ghost order: seq<Move>)
      requires st.spill != {}
      requires AliasChains(alias, rank, st.rep) && AliasOk(st.universe, st.coalesced, st.rep)
      modifies this`st, this`alias, this`frozen_moves
      ensures u' in old(st).spill && ListsMoves(order, SpillStarted(old(st), u').NodeMoves(u')) && OnceEach(order)
      ensures st == FrozenBy(SpillStarted(old(st), u'), u', order, followsAliases)
      ensures AliasChains(alias, rank, st.rep)
    {
      var u :| u in st.spill;
      u' := u;
      st := st.(spill := st.spill - {u}, simplify := st.simplify + {u});
      order := FreezeMoves(u);
    }

    // ----- the inner loop -----

    /** One turn.  Physical registers that are apart stay so. */
    method Step(ghost ps: RegSet, ghost room: nat)
      requires st.Inv() && AliasChains(alias, rank, st.rep) && AllApart(st, ps, room, followsAliases)
      requires st.simplify != {} || st.worklist != {} || st.freeze != {} || st.spill != {}
      modifies this`st, this`alias, this`rank, this`coalesced_moves, this`constrained_moves, this`frozen_moves
      ensures st.Inv() && AliasChains(alias, rank, st.rep) && AllApart(st, ps, room, followsAliases)
      ensures Turn(old(st), st, followsAliases)
      ensures Lower(old(st), st) && SameTask(old(st), st) && NoNewHosts(old(st), st)
    {
      ghost var s := st;
      if st.simplify != {} {
        ghost var r, order := Simplify();
        SimplifyKeeps(s, r, order);
        SimplifyHosts(s, r, order);
        SimplifyKeepsApart(s, r, order, ps, room, followsAliases);
      } else if st.worklist != {} {
        ghost var m, order := Coalesce();
        CoalesceKeeps(s, m, order);
        CoalesceHosts(s, m, order);
        CoalesceKeepsApart(s, m, order, ps, room, followsAliases);
      } else if st.freeze != {} {
        ghost var u, order := Freeze();
        StartIsOne(s, u);
        FreezeKeeps(s, u, order, followsAliases);
        FreezeHosts(s, u, order, followsAliases);
        FreezeKeepsApart(s, u, order, ps, room, followsAliases);
      } else {
        ghost var u, order := SelectSpill();
        StartIsOne(s, u);
        FreezeKeeps(s, u, order, followsAliases);
        FreezeHosts(s, u, order, followsAliases);
        FreezeKeepsApart(s, u, order, ps, room, followsAliases);
      }
    }

    /** Simplifies, coalesces, freezes and selects until all lists are empty. */
    method RunLoop(ghost ps: RegSet, ghost room: nat)
      requires st.Inv() && AliasChains(alias, rank, st.rep) && AllApart(st, ps, room, followsAliases)
      modifies this`st, this`alias, this`rank, this`coalesced_moves, this`constrained_moves, this`frozen_moves
      ensures st.Inv() && AliasChains(alias, rank, st.rep) && SameTask(old(st), st) && NoNewHosts(old(st), st)
      ensures AllApart(st, ps, room, followsAliases)
      ensures st.simplify == st.freeze == st.spill == {} && st.worklist == {}
    {
      ghost var s := st;
      while st.simplify != {} || st.worklist != {} || st.freeze != {} || st.spill != {}
        invariant st.Inv() && AliasChains(alias, rank, st.rep) && SameTask(s, st) && NoNewHosts(s, st)
        invariant AllApart(st, ps, room, followsAliases)
        decreases Unplaced(st), st.Pending(), Again(st), AgainSoon(st), |st.worklist|, |st.freeze| + |st.spill|
      {
        Step(ps, room);
      }
    }

    // ----- colours -----

    /** The colours that no neighbour of reg stands for by now. */
    method FreeColors(reg: Reg) returns (ok_colors: RegSet)
      requires AliasChains(alias, rank, st.rep) && AliasOk(st.universe, st.coalesced, st.rep)
      requires ColorsKnown(colored_nodes, color)
      modifies this`alias
      ensures AliasChains(alias, rank, st.rep)
      ensures forall c :: c in ok_colors <==>
        c in AllocatableSet(reg.ty) && Avoids(Entry(st.graph, reg), st.rep, colored_nodes, color, c)
    {
      ok_colors := AllocatableSet(reg.ty);
      var all := Entry(st.graph, reg);
      var rest := all;
      while rest != {}
        invariant rest <= all && AliasChains(alias, rank, st.rep)
        invariant forall c :: c in ok_colors <==>
          c in AllocatableSet(reg.ty) && Avoids(all - rest, st.rep, colored_nodes, color, c)
        decreases rest
      {
        var w :| w in rest;
        var alias_w := GetAlias(w);
        AvoidsOneMore(all - rest, w, st.rep, colored_nodes, color);
        assert all - rest + {w} == all - (rest - {w});
        rest := rest - {w};
        if alias_w.Phys? {
          ok_colors := ok_colors - {alias_w};
        } else if alias_w in colored_nodes {
          ok_colors := ok_colors - {color[alias_w]};
        }
      }
      assert all - {} == all;
    }

    /** Picks a colour that is left for reg; without one, and only then, reg has to be spilled. */
    method SelectColor(reg: Reg) returns (ghost c': Reg)
      requires AliasChains(alias, rank, st.rep) && AliasOk(st.universe, st.coalesced, st.rep)
      requires ColorsKnown(colored_nodes, color)
      modifies this`alias, this`colored_nodes, this`spilled_nodes, this`color
      ensures AliasChains(alias, rank, st.rep)
      ensures
        if IsFree(st, old(colored_nodes), old(color), reg, c') then
          && colored_nodes == old(colored_nodes) + {reg} && spilled_nodes == old(spilled_nodes)
          && color == WithColor(old(color), reg, c')
        else
          && colored_nodes == old(colored_nodes) && spilled_nodes == old(spilled_nodes) + {reg}
          && color == old(color) && forall c :: !IsFree(st, old(colored_nodes), old(color), reg, c)
    {
      var ok_colors := FreeColors(reg);
      if ok_colors == {} {
        c' := reg;
        spilled_nodes := spilled_nodes + {reg};
      } else {
        var c :| c in ok_colors;
        c' := c;
        colored_nodes := colored_nodes + {reg};
        if reg.Virt? {
          color := color[reg := c];
        }
      }
    }

    /** Colours the registers on the select stack, the last one first. */
    method PopStack()
      requires st.Core({}) && AliasChains(alias, rank, st.rep)
      requires colored_nodes == spilled_nodes == {} && color == map[]
      modifies this
      ensures st == old(st).(stack := []) && AliasChains(alias, rank, st.rep)
      ensures PoppedWell(old(st), 0, colored_nodes, spilled_nodes, color)
    {
      ghost var s := st;
      NonePopped(s);
      while st.stack != []
        invariant |st.stack| <= |s.stack| && st == s.(stack := s.stack[..|st.stack|])
        invariant AliasChains(alias, rank, s.rep)
        invariant PoppedWell(s, |st.stack|, colored_nodes, spilled_nodes, color)
        decreases |st.stack|
      {
        PopReg(s);
      }
    }

    method PopReg(ghost s: State)
      requires s.Core({}) && AliasChains(alias, rank, s.rep) && st.stack != []
      requires |st.stack| <= |s.stack| && st == s.(stack := s.stack[..|st.stack|])
      requires PoppedWell(s, |st.stack|, colored_nodes, spilled_nodes, color)
      modifies this
      ensures |st.stack| == |old(st).stack| - 1 && st == s.(stack := s.stack[..|st.stack|])
      ensures AliasChains(alias, rank, s.rep)
      ensures PoppedWell(s, |st.stack|, colored_nodes, spilled_nodes, color)
    {
      var reg := st.stack[|st.stack| - 1];
      st := st.(stack := st.stack[..|st.stack| - 1]);
      ghost var colored, spilled, color0 := colored_nodes, spilled_nodes, color;
      ghost var c := SelectColor(reg);
      if IsFree(s, colored, color0, reg, c) {
        PopsColored(s, |st.stack|, colored, spilled, color0, c);
      } else {
        assert forall k :: IsFree(s, colored, color0, reg, k) == IsFree(st, colored, color0, reg, k);
        PopsSpilled(s, |st.stack|, colored, spilled, color0);
      }
    }

    /** Gives every coalesced register the colour of its representative. */
    method ColorCoalesced()
      requires AliasChains(alias, rank, st.rep) && AliasOk(st.universe, st.coalesced, st.rep)
      requires ColorsKnown(colored_nodes, color) && Handed(st.rep, color)
      modifies this`alias, this`color
      ensures AliasChains(alias, rank, st.rep)
      ensures Extended(st.rep, st.coalesced, old(color), color) && Handed(st.rep, color)
    {
      ghost var color0 := color;
      var rest := st.coalesced;
      while rest != {}
        invariant rest <= st.coalesced && AliasChains(alias, rank, st.rep)
        invariant Extended(st.rep, st.coalesced - rest, color0, color) && Handed(st.rep, color)
        decreases rest
      {
        var reg :| reg in rest;
        ExtendedOneMore(st, st.coalesced - rest, color0, color, reg);
        HandedOn(st, color, reg);
        assert st.coalesced - rest + {reg} == st.coalesced - (rest - {reg});
        rest := rest - {reg};
        var alias_reg := GetAlias(reg);
        if alias_reg.Phys? {
          color := color[reg := alias_reg];
        } else {
          alias_reg := GetAlias(alias_reg);
          if alias_reg in color {
            color := color[reg := color[alias_reg]];
          }
        }
      }
      assert st.coalesced - {} == st.coalesced;
    }

    /** When nothing had to be spilled, the colouring is proper for every interference that was
        recorded, except that it may clash on physical registers that were on the stack. */
    method AssignColors()
      requires st.Inv() && st.simplify == st.freeze == st.spill == {}
      requires AliasChains(alias, rank, st.rep) && OverNodes(st.inter, st.nodes)
      requires colored_nodes == spilled_nodes == {}
      modifies this
      ensures st == old(st).(stack := [], stacked := {})
      ensures colored_nodes + spilled_nodes == old(st).stacked
      ensures Handed(st.rep, color) && forall r {:trigger color[r]} :: r in color ==> color[r].ty == r.ty
      ensures OnceEach(old(st).stack) ==> SpilledByRight(old(st), colored_nodes, spilled_nodes, color)
      ensures spilled_nodes == {} ==> ProperColoring(st.nodes, st.inter, color, PhysIn(old(st).stacked))
    {
      ghost var s := st;
      color := map[];
      PopStack();
      assert s.stack[0..] == s.stack;
      ghost var color0 := color;
      ColorCoalesced();
      if OnceEach(s.stack) {
        ExtendedSpills(s, colored_nodes, spilled_nodes, color0, color);
      }
      st := st.(stacked := {});
      if spilled_nodes == {} {
        SeparatedGivesProper(s, colored_nodes, color0, color);
      }
    }

    /** The first half of a round: builds the graph, and lists the nodes. */
    method Prepare(blocks: seq<nat>, code: Program, live_out: LiveMap, ghost room: nat)
      requires Begun(st) && WellFormedProgram(code) && live_out.Keys == code.Keys
      requires KnownProgram(code, live_out, st.nodes, st.universe)
      requires forall l :: l in blocks ==> l in code
      requires st.active <= MovesOfBlocks(blocks, code)
      requires 3 * |st.universe| + |MovesOfBlocks(blocks, code)| <= room && room + 32 < SIZE_T
      modifies this`st
      ensures st.Inv() && st.rep == map[] && st.nodes == old(st).nodes && st.universe == old(st).universe
      ensures st.inter == PairsOfBlocks(blocks, code, live_out) && OverNodes(st.inter, st.nodes)
      ensures
        var exposed := Exposed(old(st), MovesOfBlocks(blocks, code), room, followsAliases);
        AllApart(st, PhysIn(st.universe) - exposed, room, followsAliases)
      ensures Hosts(st) <= NamedBy(MovesOfBlocks(blocks, code))
    {
      ghost var s0 := st;
      BuildGraph(blocks, code, live_out);
      ghost var s1 := st;
      MakeWorklist();
      Prepared(s0, s1, st, MovesOfBlocks(blocks, code), room, followsAliases);
    }

    /** The second half: empties the work lists, and assigns colours. */
    method Finish(ghost exposed: RegSet, ghost room: nat, ghost moves: Moves)
      requires st.Inv() && AliasChains(alias, rank, st.rep) && OverNodes(st.inter, st.nodes)
      requires colored_nodes == spilled_nodes == {}
      requires AllApart(st, PhysIn(st.universe) - exposed, room, followsAliases) && Hosts(st) <= NamedBy(moves)
      modifies this
      ensures SameTask(old(st), st) && ReservedOnlyByMoves(color, moves)
      ensures forall p :: p in PhysIn(st.universe) - exposed ==> Drifts(DegreeOf(st.degree, p), 0, room)
      ensures spilled_nodes == {} ==> ProperColoring(st.nodes, st.inter, color, exposed)
    {
      RunLoop(PhysIn(st.universe) - exposed, room);
      OnlyExposedStacked(st, exposed, room, followsAliases);
      ghost var stacked, s := PhysIn(st.stacked), st;
      AssignColors();
      HandedIsByMoves(s, color, moves);
      if spilled_nodes == {} {
        ProperWithMore(st.nodes, st.inter, color, stacked, exposed);
      }
    }

    /** One round.  If nothing has to be spilled, interfering registers get different colours,
        unless they clash on a physical register that is exposed.  With none exposed, the code may
        be coloured.  `room` is by how much degrees have been counted down, at most, by the end. */
    method Round(blocks: seq<nat>, code: Program, ghost live_in: LiveMap, live_out: LiveMap, ghost room: nat)
      requires Begun(st) && colored_nodes == spilled_nodes == {}
      requires WellFormedProgram(code) && live_out.Keys == code.Keys
      requires KnownProgram(code, live_out, st.nodes, st.universe)
      requires forall l :: l in blocks <==> l in code
      requires st.active <= MovesOfBlocks(blocks, code)
      requires 3 * |st.universe| + |MovesOfBlocks(blocks, code)| <= room && room + 32 < SIZE_T
      modifies this
      ensures ReservedOnlyByMoves(color, MovesOfBlocks(blocks, code))
      ensures
        var exposed := Exposed(old(st), MovesOfBlocks(blocks, code), room, followsAliases);
        && (forall p :: p in PhysIn(st.universe) - exposed ==> Drifts(DegreeOf(st.degree, p), 0, room))
        && (spilled_nodes == {} ==> ProperColoring(st.nodes, PairsOfBlocks(blocks, code, live_out), color, exposed))
        && (spilled_nodes == {} && exposed == {} && SoundLive(code, live_in, live_out) && DistinctProgram(code) ==>
              Colorable(color, code, live_in, live_out))
    {
      ghost var exposed := Exposed(st, MovesOfBlocks(blocks, code), room, followsAliases);
      Prepare(blocks, code, live_out, room);
      Finish(exposed, room, MovesOfBlocks(blocks, code));
      if spilled_nodes == {} && exposed == {} && SoundLive(code, live_in, live_out) && DistinctProgram(code) {
        ProperIsColorable(color, code, live_in, live_out, blocks, st.nodes);
      }
    }
  }
}
