// An argument register on the select stack: a function for which iterated register coalescing,
// as it is, can give a register that is live across a definition of $a0 the colour $a0.
//
//   move v <- $a0;  t := ..;  use v;  r6, .., r30 := ..;  x := ..;  use t;
//   r6, .., r31 := ..;  $a0 := ..;  move y <- x;  use y;  a := ..;  r6, .., r31 := ..;  use a
//
// The physical registers r6 and up are written where t, x and a are live.  Simplifying a takes
// their degrees from 0 to 2^64 - 1, and with them x has 27 neighbours of significant degree:
// both moves have to wait.  Freezing v lists $a0, since v's move was the only one to name it.
// With $a0, v and t on the stack the copy y of x may be coalesced, and y inherits the neighbours
// of x except those on the stack.

module ListedArgument {
  import opened Machine
  import opened Liveness
  import opened AllocState
  import opened Interference
  import opened PhysicalNodes
  import opened RegisterAllocation

  const A := Virt(General, 0)
  const T := Virt(General, 1)
  const V := Virt(General, 2)
  const X := Virt(General, 3)
  const Y := Virt(General, 4)
  const A0 := Phys(General, 4)
  const A1 := Phys(General, 5)

  function Plain(tag: Tag, ops: seq<Operand>): Instr { Instr(tag, NONE, ops, [], [], false) }
  function Def(r: Reg): Instr { Plain(ORI, [RegOp(r), RegOp(ZERO), ImmOp(1)]) }
  function Use(r: Reg): Instr { Plain(ST, [RegOp(r), RegOp(ZERO), ImmOp(0)]) }
  function Copy(d: Reg, r: Reg): Instr { Plain(MOV, [RegOp(d), RegOp(r)]) }

  function R(k: nat): Reg { Phys(General, k) }

  /** Writes to rlo, .., and all the following code. */
  function Clobber(lo: nat, hi: nat, rest: Block): Block
    decreases hi - lo
  {
    if lo >= hi then rest else [Def(R(lo))] + Clobber(lo + 1, hi, rest)
  }

  // The registers that get written are those from lo to below hi, those for t only to below mid.

  function LastPart(lo: nat, hi: nat): Block { [Def(A)] + Clobber(lo, hi, [Use(A)]) }

  function ThirdPart(lo: nat, hi: nat): Block {
    Clobber(lo, hi, [Def(A0)] + ([Copy(Y, X)] + ([Use(Y)] + LastPart(lo, hi))))
  }

  function SecondPart(lo: nat, mid: nat, hi: nat): Block {
    Clobber(lo, mid, [Def(X)] + ([Use(T)] + ThirdPart(lo, hi)))
  }

  function Code(lo: nat, mid: nat, hi: nat): Block {
    [Copy(V, A0)] + ([Def(T)] + ([Use(V)] + SecondPart(lo, mid, hi)))
  }

  function Range(lo: nat, hi: nat): RegSet { set k: nat | lo <= k < hi :: R(k) }

  lemma {:induction false} RangeSize(lo: nat, hi: nat)
    requires lo <= hi
    ensures |Range(lo, hi)| == hi - lo
    decreases hi - lo
  {
    if lo < hi {
      RangeSize(lo + 1, hi);
      assert Range(lo, hi) == Range(lo + 1, hi) + {R(lo)};
    } else {
      assert Range(lo, hi) == {};
    }
  }

  // ----- what is live, and what interferes -----

  lemma PairsOfOne(d: Reg, live: RegSet)
    ensures PairsOfAll([d], live + {d}) == PairsOf(d, live) && PairsOfAll([], live) == {}
  {
    assert [d][..0] == [];
    assert PairsOfAll([d], live + {d}) == PairsOfAll([], live + {d}) + PairsOf(d, live + {d});
    assert PairsOf(d, live + {d}) == PairsOf(d, live);
  }

  lemma DefInstr(d: Reg, out: RegSet)
    requires d != ZERO
    ensures WellFormed(Def(d)) && DefSet(Def(d)) == {d} && Uses(Def(d)) == {} && Def(d).tag != MOV
    ensures Transfer(Def(d), out) == out - {d} && InstrPairs(Def(d), out) == PairsOf(d, out)
  {
    assert Def(d).operands[1..] == [RegOp(ZERO), ImmOp(1)];
    assert Defs(Def(d)) == [d];
    assert out - {} + {d} == out + {d};
    PairsOfOne(d, out);
  }

  lemma UseInstr(d: Reg, out: RegSet)
    requires d != ZERO
    ensures WellFormed(Use(d)) && DefSet(Use(d)) == {} && Uses(Use(d)) == {d} && Use(d).tag != MOV
    ensures Transfer(Use(d), out) == out + {d} && InstrPairs(Use(d), out) == {}
  {
    assert Defs(Use(d)) == [];
    PairsOfOne(d, out);
  }

  lemma CopyInstr(d: Reg, r: Reg, out: RegSet)
    requires d != ZERO && r != ZERO && d != r && d.ty == r.ty
    ensures WellFormed(Copy(d, r)) && DefSet(Copy(d, r)) == {d} && Uses(Copy(d, r)) == {r}
    ensures Transfer(Copy(d, r), out) == out - {d} + {r}
    ensures InstrPairs(Copy(d, r), out) == PairsOf(d, out - {r})
  {
    assert Copy(d, r).operands[1..] == [RegOp(r)];
    assert RegsOf([RegOp(r)]) == [r];
    assert Defs(Copy(d, r)) == [d];
    PairsOfOne(d, out - {r});
  }

  /** rlo, .., below rhi, against l. */
  function Against(lo: nat, hi: nat, l: Reg): Pairs { set k: nat | lo <= k < hi :: (R(k), l) }

  lemma AgainstSplit(lo: nat, hi: nat, l: Reg)
    ensures Against(lo, hi, l) == if lo < hi then Against(lo + 1, hi, l) + {(R(lo), l)} else {}
  {
  }

  lemma OneInFront(i: Instr, b: Block)
    requires WellFormed(i) && WellFormedBlock(b)
    ensures WellFormedBlock([i] + b) && LiveBefore([i] + b, {}) == Transfer(i, LiveBefore(b, {}))
    ensures BlockPairs([i] + b, {}) == InstrPairs(i, LiveBefore(b, {})) + BlockPairs(b, {})
  {
    assert ([i] + b)[0] == i && ([i] + b)[1..] == b;
  }

  lemma DefInFront(d: Reg, b: Block, live: RegSet)
    requires d != ZERO && WellFormedBlock(b) && LiveBefore(b, {}) == live
    ensures WellFormedBlock([Def(d)] + b) && LiveBefore([Def(d)] + b, {}) == live - {d}
    ensures BlockPairs([Def(d)] + b, {}) == BlockPairs(b, {}) + PairsOf(d, live)
  {
    DefInstr(d, live);
    OneInFront(Def(d), b);
  }

  /** Writing to physical registers while the virtual register l is all that is live. */
  lemma {:induction false} ClobberLive(lo: nat, hi: nat, rest: Block, l: Reg)
    requires 0 < lo && WellFormedBlock(rest) && LiveBefore(rest, {}) == {l} && l.Virt? && l.ty == General
    ensures var b := Clobber(lo, hi, rest);
      && WellFormedBlock(b) && LiveBefore(b, {}) == {l}
      && BlockPairs(b, {}) == BlockPairs(rest, {}) + Against(lo, hi, l)
    decreases hi - lo
  {
    AgainstSplit(lo, hi, l);
    if lo < hi {
      ClobberLive(lo + 1, hi, rest, l);
      DefInFront(R(lo), Clobber(lo + 1, hi, rest), {l});
      PairWithOne(R(lo), l);
      PlusSwapped(BlockPairs(rest, {}), Against(lo + 1, hi, l), {(R(lo), l)});
    }
  }

  lemma PairWithOne(d: Reg, l: Reg)
    requires d != l && d.ty == l.ty
    ensures PairsOf(d, {l}) == {(d, l)} && {l} - {d} == {l}
  {
  }

  lemma PlusSwapped(a: Pairs, b: Pairs, c: Pairs)
    ensures a + b + c == a + (b + c)
  {
  }

  lemma UseInFront(d: Reg, b: Block, live: RegSet)
    requires d != ZERO && WellFormedBlock(b) && LiveBefore(b, {}) == live
    ensures WellFormedBlock([Use(d)] + b) && LiveBefore([Use(d)] + b, {}) == live + {d}
    ensures BlockPairs([Use(d)] + b, {}) == BlockPairs(b, {})
  {
    UseInstr(d, live);
    OneInFront(Use(d), b);
  }

  /** A copy to the only register that is live. */
  lemma CopyInFront(d: Reg, r: Reg, b: Block)
    requires d != ZERO && r != ZERO && d != r && d.ty == r.ty && WellFormedBlock(b) && LiveBefore(b, {}) == {d}
    ensures WellFormedBlock([Copy(d, r)] + b) && LiveBefore([Copy(d, r)] + b, {}) == {r}
    ensures BlockPairs([Copy(d, r)] + b, {}) == BlockPairs(b, {})
  {
    CopyInstr(d, r, {d});
    OneInFront(Copy(d, r), b);
    assert PairsOf(d, {d} - {r}) == {};
    assert {d} - {d} + {r} == {r};
  }

  lemma PairOfTwo(d: Reg, l: Reg)
    requires d != l && d.ty == l.ty
    ensures {d, l} - {d} == {l} && PairsOf(d, {d, l}) == PairsOf(d, {l}) == {(d, l)}
  {
  }

  lemma LastPartLive(lo: nat, hi: nat)
    requires 0 < lo
    ensures WellFormedBlock(LastPart(lo, hi)) && LiveBefore(LastPart(lo, hi), {}) == {}
    ensures BlockPairs(LastPart(lo, hi), {}) == Against(lo, hi, A)
  {
    UseInFront(A, [], {});
    assert [Use(A)] + [] == [Use(A)];
    ClobberLive(lo, hi, [Use(A)], A);
    DefInFront(A, Clobber(lo, hi, [Use(A)]), {A});
    assert PairsOf(A, {A}) == {};
  }

  /** Before the definition of $a0 and the copy of x. */
  lemma CopyPartLive(rest: Block)
    requires WellFormedBlock(rest) && LiveBefore(rest, {}) == {}
    ensures var b := [Def(A0)] + ([Copy(Y, X)] + ([Use(Y)] + rest));
      WellFormedBlock(b) && LiveBefore(b, {}) == {X} && BlockPairs(b, {}) == BlockPairs(rest, {}) + {(A0, X)}
  {
    UseInFront(Y, rest, {});
    CopyInFront(Y, X, [Use(Y)] + rest);
    DefInFront(A0, [Copy(Y, X)] + ([Use(Y)] + rest), {X});
    PairOfTwo(A0, X);
  }

  lemma ThirdPartLive(lo: nat, hi: nat)
    requires 0 < lo
    ensures WellFormedBlock(ThirdPart(lo, hi)) && LiveBefore(ThirdPart(lo, hi), {}) == {X}
    ensures BlockPairs(ThirdPart(lo, hi), {}) == Against(lo, hi, A) + {(A0, X)} + Against(lo, hi, X)
  {
    LastPartLive(lo, hi);
    CopyPartLive(LastPart(lo, hi));
    ClobberLive(lo, hi, [Def(A0)] + ([Copy(Y, X)] + ([Use(Y)] + LastPart(lo, hi))), X);
  }

  /** u is written, and l read for the last time, both in front of code that reads u only. */
  lemma HandOver(u: Reg, l: Reg, rest: Block)
    requires u != l && u != ZERO && l != ZERO && u.ty == l.ty && WellFormedBlock(rest) && LiveBefore(rest, {}) == {u}
    ensures var b := [Def(u)] + ([Use(l)] + rest);
      WellFormedBlock(b) && LiveBefore(b, {}) == {l} && BlockPairs(b, {}) == BlockPairs(rest, {}) + {(u, l)}
  {
    UseInFront(l, rest, {u});
    assert {u} + {l} == {u, l};
    DefInFront(u, [Use(l)] + rest, {u, l});
    PairOfTwo(u, l);
  }

  lemma SecondPartLive(lo: nat, mid: nat, hi: nat)
    requires 0 < lo
    ensures WellFormedBlock(SecondPart(lo, mid, hi)) && LiveBefore(SecondPart(lo, mid, hi), {}) == {T}
    ensures BlockPairs(SecondPart(lo, mid, hi), {})
      == Against(lo, hi, A) + {(A0, X)} + Against(lo, hi, X) + {(X, T)} + Against(lo, mid, T)
  {
    ThirdPartLive(lo, hi);
    HandOver(X, T, ThirdPart(lo, hi));
    ClobberLive(lo, mid, [Def(X)] + ([Use(T)] + ThirdPart(lo, hi)), T);
  }

  function Interferences(lo: nat, mid: nat, hi: nat): Pairs {
    Against(lo, hi, A) + {(A0, X)} + Against(lo, hi, X) + {(X, T)} + Against(lo, mid, T) + {(T, V)}
  }

  /** The code reads its argument, and these are its interferences. */
  lemma CodeLive(lo: nat, mid: nat, hi: nat)
    requires 0 < lo
    ensures WellFormedBlock(Code(lo, mid, hi)) && LiveBefore(Code(lo, mid, hi), {}) == {A0}
    ensures BlockPairs(Code(lo, mid, hi), {}) == Interferences(lo, mid, hi)
  {
    SecondPartLive(lo, mid, hi);
    HandOver(T, V, SecondPart(lo, mid, hi));
    CopyInFront(V, A0, [Def(T)] + ([Use(V)] + SecondPart(lo, mid, hi)));
  }

  // ----- its moves -----

  lemma NextMove(l: nat, b: Block, k: nat, i: Instr, rest: Block)
    requires WellFormedBlock(b) && k <= |b| && b[k..] == [i] + rest
    ensures k < |b| && b[k] == i && b[k + 1..] == rest && MovesFrom(l, b, k) == MoveAt(l, k, i) + MovesFrom(l, b, k + 1)
  {
    assert b[k..][0] == i && b[k..][1..] == rest;
    assert b[k..][1..] == b[k + 1..];
  }

  lemma NextNoMove(l: nat, b: Block, k: nat, i: Instr, rest: Block) returns (n: nat)
    requires WellFormedBlock(b) && k <= |b| && b[k..] == [i] + rest && i.tag != MOV
    ensures n == k + 1 && n <= |b| && b[n..] == rest && MovesFrom(l, b, k) == MovesFrom(l, b, n)
  {
    NextMove(l, b, k, i, rest);
    n := k + 1;
  }

  lemma NextCopy(l: nat, b: Block, k: nat, d: Reg, r: Reg, rest: Block) returns (n: nat)
    requires WellFormedBlock(b) && k <= |b| && b[k..] == [Copy(d, r)] + rest
    ensures n == k + 1 && n <= |b| && b[n..] == rest && MovesFrom(l, b, k) == {Move(l, k, d, r)} + MovesFrom(l, b, n)
  {
    NextMove(l, b, k, Copy(d, r), rest);
    n := k + 1;
  }

  lemma {:induction false} ClobberNoMove(l: nat, b: Block, k: nat, lo: nat, hi: nat, rest: Block) returns (n: nat)
    requires WellFormedBlock(b) && k <= |b| && b[k..] == Clobber(lo, hi, rest) && lo <= hi
    ensures n == k + hi - lo && n <= |b| && b[n..] == rest && MovesFrom(l, b, k) == MovesFrom(l, b, n)
    decreases hi - lo
  {
    if lo == hi {
      n := k;
    } else {
      n := NextNoMove(l, b, k, Def(R(lo)), Clobber(lo + 1, hi, rest));
      n := ClobberNoMove(l, b, n, lo + 1, hi, rest);
    }
  }

  lemma LastPartMoves(l: nat, b: Block, k: nat, lo: nat, hi: nat)
    requires WellFormedBlock(b) && k <= |b| && b[k..] == LastPart(lo, hi) && lo <= hi
    ensures MovesFrom(l, b, k) == {}
  {
    var n := NextNoMove(l, b, k, Def(A), Clobber(lo, hi, [Use(A)]));
    n := ClobberNoMove(l, b, n, lo, hi, [Use(A)]);
    assert [Use(A)] + [] == [Use(A)];
    n := NextNoMove(l, b, n, Use(A), []);
  }

  lemma CopyPartMoves(l: nat, b: Block, k: nat, rest: Block) returns (n: nat)
    requires WellFormedBlock(b) && k <= |b| && b[k..] == [Def(A0)] + ([Copy(Y, X)] + ([Use(Y)] + rest))
    ensures n == k + 3 && n <= |b| && b[n..] == rest &&
      MovesFrom(l, b, k) == {Move(l, k + 1, Y, X)} + MovesFrom(l, b, n)
  {
    n := NextNoMove(l, b, k, Def(A0), [Copy(Y, X)] + ([Use(Y)] + rest));
    n := NextCopy(l, b, n, Y, X, [Use(Y)] + rest);
    n := NextNoMove(l, b, n, Use(Y), rest);
  }

  lemma ThirdPartMoves(l: nat, b: Block, k: nat, lo: nat, hi: nat)
    requires WellFormedBlock(b) && k <= |b| && b[k..] == ThirdPart(lo, hi) && lo <= hi
    ensures MovesFrom(l, b, k) == {Move(l, k + hi - lo + 1, Y, X)}
  {
    var rest := LastPart(lo, hi);
    var n := ClobberNoMove(l, b, k, lo, hi, [Def(A0)] + ([Copy(Y, X)] + ([Use(Y)] + rest)));
    n := CopyPartMoves(l, b, n, rest);
    LastPartMoves(l, b, n, lo, hi);
  }

  lemma HandOverMoves(l: nat, b: Block, k: nat, u: Reg, r: Reg, rest: Block) returns (n: nat)
    requires WellFormedBlock(b) && k <= |b| && b[k..] == [Def(u)] + ([Use(r)] + rest)
    ensures n == k + 2 && n <= |b| && b[n..] == rest && MovesFrom(l, b, k) == MovesFrom(l, b, n)
  {
    n := NextNoMove(l, b, k, Def(u), [Use(r)] + rest);
    n := NextNoMove(l, b, n, Use(r), rest);
  }

  lemma SecondPartMoves(l: nat, b: Block, k: nat, lo: nat, mid: nat, hi: nat)
    requires WellFormedBlock(b) && k <= |b| && b[k..] == SecondPart(lo, mid, hi) && lo <= mid <= hi
    ensures MovesFrom(l, b, k) == {Move(l, k + mid - lo + 3 + hi - lo, Y, X)}
  {
    SecondPartOf(l, b, k, lo, mid, ThirdPart(lo, hi), lo, hi);
  }

  lemma SecondPartOf(l: nat, b: Block, k: nat, lo: nat, mid: nat, third: Block, lo': nat, hi: nat)
    requires WellFormedBlock(b) && k <= |b| && b[k..] == Clobber(lo, mid, [Def(X)] + ([Use(T)] + third)) && lo <= mid
    requires third == ThirdPart(lo', hi) && lo' <= hi
    ensures MovesFrom(l, b, k) == {Move(l, k + mid - lo + 3 + hi - lo', Y, X)}
  {
    var n := ClobberNoMove(l, b, k, lo, mid, [Def(X)] + ([Use(T)] + third));
    n := HandOverMoves(l, b, n, X, T, third);
    ThirdPartMoves(l, b, n, lo', hi);
  }

  lemma FirstPartMoves(l: nat, b: Block, second: Block) returns (n: nat)
    requires WellFormedBlock(b) && b == [Copy(V, A0)] + ([Def(T)] + ([Use(V)] + second))
    ensures n == 3 && n <= |b| && b[n..] == second && MovesFrom(l, b, 0) == {Move(l, 0, V, A0)} + MovesFrom(l, b, n)
  {
    assert b[0..] == b;
    n := NextCopy(l, b, 0, V, A0, [Def(T)] + ([Use(V)] + second));
    n := HandOverMoves(l, b, n, T, V, second);
  }

  /** The argument is copied to v, and later x to y. */
  lemma CodeMoves(l: nat, b: Block, lo: nat, mid: nat, hi: nat)
    requires 0 < lo <= mid <= hi && b == Code(lo, mid, hi) && WellFormedBlock(b)
    ensures MovesFrom(l, b, 0) == {Move(l, 0, V, A0), Move(l, 6 + mid - lo + hi - lo, Y, X)}
  {
    var n := FirstPartMoves(l, b, SecondPart(lo, mid, hi));
    SecondPartMoves(l, b, n, lo, mid, hi);
  }

  // ----- the graph and the lists -----

  const M1 := Move(0, 0, V, A0)
  const M2 := Move(0, 57, Y, X)

  function Nodes(): RegSet { {A, T, V, X, Y} }
  function High(): RegSet { Range(6, 32) }
  function Middle(): RegSet { Range(6, 31) }
  function Universe(): RegSet { Nodes() + {A0} + High() }

  /** The neighbours of the nodes, as they are when the graph has been built. */
  function Neighbors(r: Reg): RegSet {
    if r == A then High() else if r == X then High() + {A0, T} else if r == T then Middle() + {X, V}
    else if r == V then {T} else {}
  }

  function DegreeAtFirst(r: Reg): nat {
    if r == A then 26 else if r == X then 28 else if r == T then 27 else if r == V then 1 else 0
  }

  lemma Neighborhood(x: Reg, y: Reg)
    ensures var inter := Interferences(6, 31, 32);
      (x, y) in inter || (y, x) in inter <==> y in Neighbors(x) || x in Neighbors(y)
  {
  }

  lemma TwoMore(rs: RegSet, x: Reg, y: Reg)
    requires x !in rs && y !in rs && x != y
    ensures |rs + {x, y}| == |rs| + 2
  {
    assert rs + {x, y} == rs + {x} + {y};
  }

  lemma NeighborCount(r: Reg)
    ensures |Neighbors(r)| == DegreeAtFirst(r)
  {
    RangeSize(6, 32);
    RangeSize(6, 31);
    TwoMore(High(), A0, T);
    TwoMore(Middle(), X, V);
  }

  /** The tables that the turns below do not change, before x is coalesced. */
  ghost predicate Wired(s: State) {
    && s.nodes == Nodes() && s.universe == Universe() && s.inter == Interferences(6, 31, 32)
    && s.rep == map[] && s.coalesced == {}
    && EdgesOk(s.edges) && GraphHas(s.graph) && MovesHave(s.moveList)
  }

  /** Degrees: those of x and t; the high registers have lost at most `lost` neighbours, from 0 on. */
  ghost predicate Degrees(degree: map<Reg, nat>, x: nat, t: nat, lost: nat) {
    && DegreeOf(degree, X) == x && DegreeOf(degree, T) == t
    && DegreeOf(degree, V) < 27 && DegreeOf(degree, Y) == 0 && DegreeOf(degree, A0) == 0
    && forall p {:trigger p in High()} :: p in High() ==>
         if lost == 0 then DegreeOf(degree, p) == 0 else DegreeOf(degree, p) + lost >= SIZE_T
  }

  ghost predicate Stage(s: State, simplify: RegSet, freeze: RegSet, spill: RegSet, worklist: Moves, active: Moves,
                        stack: seq<Reg>) {
    && s.simplify == simplify && s.freeze == freeze && s.spill == spill
    && s.worklist == worklist && s.active == active && s.stack == stack && s.stacked == (set r | r in stack)
  }

  ghost predicate EdgesOk(edges: Pairs) {
    forall x, y {:trigger (x, y) in edges} :: (x, y) in edges <==> y in Neighbors(x) || x in Neighbors(y)
  }

  ghost predicate GraphHas(graph: map<Reg, RegSet>) {
    forall r: Reg {:trigger Entry(graph, r)} :: Entry(graph, r) == if r.Virt? then Neighbors(r) else {}
  }

  ghost predicate MovesHave(moveList: map<Reg, Moves>) {
    forall r: Reg {:trigger Entry(moveList, r)} :: Entry(moveList, r) == Naming({M1, M2}, r)
  }

  lemma EdgesBuilt(edges: Pairs, inter: Pairs)
    requires EdgesRecorded({}, edges, inter) && inter == Interferences(6, 31, 32)
    ensures EdgesOk(edges)
  {
    forall x, y
      ensures (x, y) in edges <==> y in Neighbors(x) || x in Neighbors(y)
    {
      Neighborhood(x, y);
      assert (x, y) in edges <==> (x, y) in inter || (y, x) in inter;
    }
  }

  lemma NeighborsMutual(x: Reg, y: Reg)
    requires x.Virt? && x in Neighbors(y)
    ensures y in Neighbors(x)
  {
  }

  lemma GraphBuilt(universe: RegSet, edges: Pairs, graph: map<Reg, RegSet>)
    requires GraphOk(universe, edges, graph) && EdgesOk(edges)
    ensures GraphHas(graph)
  {
    forall r: Reg
      ensures Entry(graph, r) == if r.Virt? then Neighbors(r) else {}
    {
      forall y
        ensures y in Entry(graph, r) <==> r.Virt? && y in Neighbors(r)
      {
        assert y in Entry(graph, r) <==> r.Virt? && (r, y) in edges;
        if r.Virt? && r in Neighbors(y) {
          NeighborsMutual(r, y);
        }
      }
    }
  }

  lemma MovesBuilt(before: map<Reg, Moves>, moveList: map<Reg, Moves>)
    requires MovesFiled(before, moveList, {M1, M2}) && before == map[]
    ensures MovesHave(moveList)
  {
    forall r: Reg
      ensures Entry(moveList, r) == Naming({M1, M2}, r)
    {
      assert Entry(moveList, r) == Entry(before, r) + Naming({M1, M2}, r);
      assert Entry(before, r) == {};
    }
  }

  lemma FewIsFew(n: nat)
    requires n < 100
    ensures n % SIZE_T == n
  {
  }

  lemma DegreesBuilt(before: map<Reg, nat>, degree: map<Reg, nat>, graph: map<Reg, RegSet>, r: Reg)
    requires before == map[] && DegreesKept(before, degree) && Counted(graph, degree) && GraphHas(graph)
    ensures DegreeOf(degree, r) == if r.Virt? then DegreeAtFirst(r) else 0
  {
    if r.Virt? {
      assert Entry(graph, r) == Neighbors(r);
      NeighborCount(r);
      FewIsFew(|Neighbors(r)|);
    }
  }

  lemma {:induction false} ListOf(lo: nat, hi: nat) returns (order: seq<Reg>)
    requires lo <= hi
    ensures Lists(order, Range(lo, hi)) && |order| == hi - lo
  {
    if lo == hi {
      order := [];
    } else {
      var init := ListOf(lo, hi - 1);
      OnceMore(init, R(hi - 1));
      order := init + [R(hi - 1)];
      assert Range(lo, hi) == Range(lo, hi - 1) + {R(hi - 1)};
    }
  }

  /** What make_worklist makes of the five nodes. */
  lemma NodesListed(s1: State, s: State)
    requires Wired(s1) && Listed(s1, s) && s1.worklist == {M1, M2} && s1.active == {} && s1.stack == [] &&
      s1.stacked == {}
    requires forall r: Reg :: DegreeOf(s1.degree, r) == if r.Virt? then DegreeAtFirst(r) else 0
    ensures Wired(s) && Degrees(s.degree, 28, 27, 0) && DegreeOf(s.degree, A) == 26
    ensures Stage(s, {A}, {V, Y}, {T, X}, {M1, M2}, {}, [])
  {
    assert s.NodeMoves(A) == {} && M1 in s.NodeMoves(V) && M2 in s.NodeMoves(Y);
    forall r
      ensures r in s.simplify <==> r == A
      ensures r in s.freeze <==> r == V || r == Y
      ensures r in s.spill <==> r == T || r == X
    {
      assert r in s.nodes <==> r == A || r == T || r == V || r == X || r == Y;
    }
  }

  // ----- nine turns of the inner loop -----

  /** Losing neighbours, none of which is at the bound: only degrees change. */
  lemma {:induction false} PlainDecrements(s: State, order: seq<Reg>)
    requires OnceEach(order) && forall t :: t in order ==> DegreeOf(s.degree, t) != TypeK(t.ty)
    ensures DecrementedBy(s, order) == s.(degree := DecrementedBy(s, order).degree)
  {
    if order != [] {
      var init, last := order[..|order| - 1], order[|order| - 1];
      OnceInFront(order);
      PlainDecrements(s, init);
      DecrementsDegrees(s, init, last);
    }
  }

  lemma SimplifyA(s: State) returns (s': State)
    requires Wired(s) && Degrees(s.degree, 28, 27, 0)
    requires Stage(s, {A}, {V, Y}, {T, X}, {M1, M2}, {}, [])
    ensures Turn(s, s', false) && Wired(s') && Degrees(s'.degree, 28, 27, 1)
    ensures Stage(s', {}, {V, Y}, {T, X}, {M1, M2}, {}, [A])
  {
    var order := ListOf(6, 32);
    var s1 := Pushed(s, A);
    assert s1.Adjacent(A) == High();
    s' := Simplified(s, A, order);
    PlainDecrements(s1, order);
    forall p: Reg
      ensures DegreeOf(s'.degree, p) == if p in High() then Down(DegreeOf(s.degree, p)) else DegreeOf(s.degree, p)
    {
      DecrementsDegrees(s1, order, p);
    }
    assert [] + [A] == [A];
  }

  lemma PostponeTurn(s: State, m: Move, u: Reg, v: Reg) returns (s': State)
    requires s.simplify == {} && m in s.worklist && Ends(s.rep, m) == (u, v)
    requires u != v && v.Virt? && (u, v) !in s.edges && !CanCombine(MoveTaken(s, m), u, v)
    ensures s' == s.(worklist := s.worklist - {m}, active := s.active + {m}) && Turn(s, s', false)
  {
    s' := Coalesced(s, m, []);
    assert CoalesceFits(s, m, []);
  }

  /** The neighbour t of v has too many neighbours, and does not interfere with $a0. */
  lemma PostponeM1(s: State) returns (s': State)
    requires Wired(s) && Degrees(s.degree, 28, 27, 1)
    requires Stage(s, {}, {V, Y}, {T, X}, {M1, M2}, {}, [A])
    ensures Turn(s, s', false) && Wired(s') && Degrees(s'.degree, 28, 27, 1)
    ensures Stage(s', {}, {V, Y}, {T, X}, {M2}, {M1}, [A])
  {
    var s1 := MoveTaken(s, M1);
    assert T in s1.Adjacent(V) && (T, A0) !in s1.edges && (A0, V) !in s.edges;
    s' := PostponeTurn(s, M1, A0, V);
  }

  lemma SignificantAtFirst(s: State)
    requires Wired(s) && Degrees(s.degree, 28, 27, 1) && s.stacked == {A}
    ensures !CanCombine(s, Y, X)
  {
    HighAndT(s.degree);
    assert s.Adjacent(Y) + s.Adjacent(X) == High() + {A0, T};
  }

  lemma HighAndT(degree: map<Reg, nat>)
    requires Degrees(degree, 28, 27, 1)
    ensures |Significant(degree, High() + {A0, T})| == 27
  {
    RangeSize(6, 32);
    assert T !in High();
    assert Significant(degree, High() + {A0, T}) == High() + {T};
  }

  /** With r6, .., r31 and t, x has 27 neighbours of significant degree. */
  lemma PostponeM2(s: State) returns (s': State)
    requires Wired(s) && Degrees(s.degree, 28, 27, 1)
    requires Stage(s, {}, {V, Y}, {T, X}, {M2}, {M1}, [A])
    ensures Turn(s, s', false) && Wired(s') && Degrees(s'.degree, 28, 27, 1)
    ensures Stage(s', {}, {V, Y}, {T, X}, {}, {M1, M2}, [A])
  {
    SignificantAtFirst(MoveTaken(s, M2));
    assert (Y, X) !in s.edges;
    s' := PostponeTurn(s, M2, Y, X);
    assert {M2} - {M2} == {} && {M1} + {M2} == {M1, M2};
  }

  /** Freezing v gives up the only move that names $a0, and lists $a0. */
  lemma FreezeV(s: State) returns (s': State)
    requires Wired(s) && Degrees(s.degree, 28, 27, 1)
    requires Stage(s, {}, {V, Y}, {T, X}, {}, {M1, M2}, [A])
    ensures Turn(s, s', false) && Wired(s') && Degrees(s'.degree, 28, 27, 1)
    ensures Stage(s', {V, A0}, {Y}, {T, X}, {}, {M2}, [A])
  {
    var s1 := Started(s, V);
    var order := [M1];
    assert s.NodeMoves(V) == {M1};
    s' := FrozenBy(s1, V, order, false);
    assert order[..0] == [] && FrozenBy(s1, V, [], false) == s1;
    assert s' == FreezeTurn(s1, V, M1, false);
    assert MoveDropped(s1, M1).NodeMoves(A0) == {};
  }

  lemma SimplifyA0(s: State) returns (s': State)
    requires Wired(s) && Degrees(s.degree, 28, 27, 1)
    requires Stage(s, {V, A0}, {Y}, {T, X}, {}, {M2}, [A])
    ensures Turn(s, s', false) && Wired(s') && Degrees(s'.degree, 28, 27, 1)
    ensures Stage(s', {V}, {Y}, {T, X}, {}, {M2}, [A, A0])
  {
    var s1 := Pushed(s, A0);
    assert s1.Adjacent(A0) == {};
    assert DecrementedBy(s1, []) == s1;
    s' := Simplified(s, A0, []);
    assert [A] + [A0] == [A, A0];
  }

  /** With v gone, t falls below the bound; the move of its neighbour x gets another chance. */
  lemma TFalls(s: State) returns (s': State)
    requires Wired(s) && Degrees(s.degree, 28, 27, 1)
    requires Stage(s, {}, {Y}, {T, X}, {}, {M2}, [A, A0, V])
    ensures s' == Decremented(s, T) && Wired(s') && Degrees(s'.degree, 28, 26, 1)
    ensures Stage(s', {T}, {Y}, {X}, {M2}, {}, [A, A0, V])
  {
    var e := Enabled(s.moveList, s.active, s.Adjacent(T) + {T});
    assert X in s.Adjacent(T) && M2 in Entry(s.moveList, X);
    assert e == {M2};
    var s2 := MovesEnabled(DegreeLowered(s, T), e);
    assert s2.NodeMoves(T) == {};
    s' := Decremented(s, T);
    assert s' == Relisted(s2, T);
    assert {T, X} - {T} == {X} && {} + {M2} == {M2} && {M2} - {M2} == {};
  }

  lemma SimplifyV(s: State) returns (s': State)
    requires Wired(s) && Degrees(s.degree, 28, 27, 1)
    requires Stage(s, {V}, {Y}, {T, X}, {}, {M2}, [A, A0])
    ensures Turn(s, s', false) && Wired(s') && Degrees(s'.degree, 28, 26, 1)
    ensures Stage(s', {T}, {Y}, {X}, {M2}, {}, [A, A0, V])
  {
    var s1 := Pushed(s, V);
    assert [A, A0] + [V] == [A, A0, V];
    assert s1.Adjacent(V) == {T};
    s' := TFalls(s1);
    assert [T][..0] == [] && DecrementedBy(s1, []) == s1;
    assert Lists([T], {T});
    assert s' == Simplified(s, V, [T]);
  }

  lemma NeighborsOfT() returns (order: seq<Reg>)
    ensures Lists(order, Middle() + {X})
  {
    var init := ListOf(6, 31);
    OnceMore(init, X);
    order := init + [X];
  }

  lemma SimplifyT(s: State) returns (s': State)
    requires Wired(s) && Degrees(s.degree, 28, 26, 1)
    requires Stage(s, {T}, {Y}, {X}, {M2}, {}, [A, A0, V])
    ensures Turn(s, s', false) && Wired(s') && Degrees(s'.degree, 27, 26, 2)
    ensures Stage(s', {}, {Y}, {X}, {M2}, {}, [A, A0, V, T])
  {
    var order := NeighborsOfT();
    var s1 := Pushed(s, T);
    assert s1.Adjacent(T) == Middle() + {X} && Middle() <= High();
    s' := Simplified(s, T, order);
    PlainDecrements(s1, order);
    forall p: Reg
      ensures DegreeOf(s'.degree, p) == if p in Middle() + {X} then Down(DegreeOf(s.degree, p))
        else DegreeOf(s.degree, p)
    {
      DecrementsDegrees(s1, order, p);
    }
    assert [A, A0, V] + [T] == [A, A0, V, T];
  }

  /** One more neighbour for y, which is taken away from x. */
  lemma TakeOne(s: State, t: Reg)
    requires t.Phys? && t.ty == General && (t, Y) !in s.edges && DegreeOf(s.degree, t) > 27
    requires DegreeOf(s.degree, Y) < 100
    ensures var s' := CombineTurn(s, Y, t);
      && s' == s.(edges := s.edges + {(t, Y), (Y, t)}, graph := s.graph[Y := Entry(s.graph, Y) + {t}],
                  degree := s'.degree)
      && DegreeOf(s'.degree, Y) == DegreeOf(s.degree, Y) + 1 && DegreeOf(s'.degree, t) == DegreeOf(s.degree, t) - 1
      && forall r: Reg :: r != Y && r != t ==> DegreeOf(s'.degree, r) == DegreeOf(s.degree, r)
  {
  }

  function SetOfRegs(order: seq<Reg>): RegSet { set t | t in order }

  ghost predicate TakenOver(s: State, s': State, order: seq<Reg>) {
    && s' == s.(edges := s'.edges, graph := s'.graph, degree := s'.degree)
    && (forall x, y {:trigger (x, y) in s'.edges} ::
          (x, y) in s'.edges <==> (x, y) in s.edges || (x in order && y == Y) || (x == Y && y in order))
    && Entry(s'.graph, Y) == Entry(s.graph, Y) + SetOfRegs(order)
    && (forall r: Reg {:trigger Entry(s'.graph, r)} :: r != Y ==> Entry(s'.graph, r) == Entry(s.graph, r))
    && DegreeOf(s'.degree, Y) == DegreeOf(s.degree, Y) + |order|
    && (forall r: Reg {:trigger DegreeOf(s'.degree, r)} :: r != Y ==>
          DegreeOf(s'.degree, r) == if r in order then DegreeOf(s.degree, r) - 1 else DegreeOf(s.degree, r))
  }

  lemma OneMoreReg(order: seq<Reg>, init: seq<Reg>, last: Reg)
    requires order == init + [last]
    ensures SetOfRegs(order) == SetOfRegs(init) + {last}
  {
  }

  lemma TakeOneMore(s: State, s1: State, init: seq<Reg>, last: Reg)
    requires TakenOver(s, s1, init) && last !in init && DegreeOf(s.degree, Y) + |init| < 99 && Y !in init
    requires last.Phys? && last.ty == General && (last, Y) !in s.edges && DegreeOf(s.degree, last) > 27
    ensures TakenOver(s, CombineTurn(s1, Y, last), init + [last])
  {
    OneMoreReg(init + [last], init, last);
    TakeOne(s1, last);
    forall r: Reg | r != Y
      ensures Entry(CombineTurn(s1, Y, last).graph, r) == Entry(s.graph, r)
    {
      assert Entry(s1.graph, r) == Entry(s.graph, r);
    }
  }

  /** y takes over neighbours of x that are physical and of high degree. */
  lemma {:induction false} TakeAll(s: State, order: seq<Reg>)
    requires OnceEach(order) && DegreeOf(s.degree, Y) + |order| < 99
    requires forall t :: t in order ==> t.Phys? && t.ty == General && (t, Y) !in s.edges && DegreeOf(s.degree, t) > 27
    ensures TakenOver(s, CombinedBy(s, Y, order), order)
  {
    if order == [] {
      assert SetOfRegs(order) == {};
    } else {
      OnceInFront(order);
      TakeAll(s, order[..|order| - 1]);
      TakeOneMore(s, CombinedBy(s, Y, order[..|order| - 1]), order[..|order| - 1], order[|order| - 1]);
    }
  }

  /** The tables once x has been coalesced into y. */
  ghost predicate Rewired(s: State) {
    && s.nodes == Nodes() && s.universe == Universe() && s.inter == Interferences(6, 31, 32)
    && s.rep == map[X := Y] && s.coalesced == {X}
    && (forall r: Reg {:trigger Entry(s.graph, r)} :: r.Virt? ==>
        Entry(s.graph, r) == if r == Y then High() else Neighbors(r))
    && Entry(s.graph, A0) == {}
    && (forall p {:trigger p in High()} :: p in High() ==> DegreeOf(s.degree, p) + 3 >= SIZE_T)
  }

  lemma XMerged(s: State) returns (s': State)
    requires Wired(s) && Degrees(s.degree, 27, 26, 2)
    requires Stage(s, {}, {Y}, {X}, {}, {}, [A, A0, V, T])
    ensures s' == Merged(s, Y, X) && s'.rep == map[X := Y] && s'.coalesced == {X}
    ensures s'.graph == s.graph && s'.edges == s.edges && s'.degree == s.degree && SameTask(s, s')
    ensures Stage(s', {}, {Y}, {}, {}, {}, [A, A0, V, T]) && s'.Adjacent(X) == High()
  {
    s' := Merged(s, Y, X);
  }

  lemma HighTaken(s: State, s2: State) returns (order: seq<Reg>)
    requires Wired(s) && Degrees(s.degree, 27, 26, 2) && s2.edges == s.edges && s2.degree == s.degree
    ensures Lists(order, High()) && |order| == 26 && TakenOver(s2, CombinedBy(s2, Y, order), order)
  {
    order := ListOf(6, 32);
    TakeAll(s2, order);
  }

  lemma YHasTaken(s: State, s2: State, s3: State, order: seq<Reg>)
    requires Wired(s) && Degrees(s.degree, 27, 26, 2) && Lists(order, High()) && |order| == 26
    requires SameTask(s, s2) && s2.graph == s.graph && s2.degree == s.degree
    requires s2.rep == map[X := Y] && s2.coalesced == {X} && TakenOver(s2, s3, order)
    ensures Rewired(s3) && DegreeOf(s3.degree, Y) == 26
  {
    assert SetOfRegs(order) == High();
    assert Entry(s3.graph, Y) == Entry(s.graph, Y) + High();
    forall r: Reg | r.Virt?
      ensures Entry(s3.graph, r) == if r == Y then High() else Neighbors(r)
    {
      assert Entry(s2.graph, r) == Neighbors(r);
    }
  }

  lemma YReleased(s: State) returns (s': State)
    requires Rewired(s) && DegreeOf(s.degree, Y) == 26 && Stage(s, {}, {Y}, {}, {}, {}, [A, A0, V, T])
    ensures s' == Released(Overgrown(s, Y), Y) && Rewired(s') && Stage(s', {Y}, {}, {}, {}, {}, [A, A0, V, T])
  {
    assert s.NodeMoves(Y) == {};
    s' := Released(s, Y);
  }

  /** The 26 that are left do not stop x from being coalesced into y, and y gets nothing but them. */
  lemma YTakesOver(s: State) returns (s': State, order: seq<Reg>)
    requires Wired(s) && Degrees(s.degree, 27, 26, 2)
    requires Stage(s, {}, {Y}, {X}, {}, {}, [A, A0, V, T])
    ensures Lists(order, Merged(s, Y, X).Adjacent(X)) && s' == Released(Combined(s, Y, X, order), Y)
    ensures Rewired(s') && Stage(s', {Y}, {}, {}, {}, {}, [A, A0, V, T])
  {
    var s2 := XMerged(s);
    order := HighTaken(s, s2);
    var s3 := CombinedBy(s2, Y, order);
    YHasTaken(s, s2, s3, order);
    s' := YReleased(s3);
  }

  lemma SignificantLater(s: State)
    requires Wired(s) && Degrees(s.degree, 27, 26, 2) && s.stacked == {A, A0, V, T}
    ensures CanCombine(s, Y, X)
  {
    HighAlone(s.degree);
    assert s.Adjacent(Y) + s.Adjacent(X) == High();
  }

  lemma HighAlone(degree: map<Reg, nat>)
    requires Degrees(degree, 27, 26, 2)
    ensures |Significant(degree, High())| == 26
  {
    RangeSize(6, 32);
    assert Significant(degree, High()) == High();
  }

  lemma CombineX(s: State) returns (s': State)
    requires Wired(s) && Degrees(s.degree, 27, 26, 2)
    requires Stage(s, {}, {Y}, {X}, {M2}, {}, [A, A0, V, T])
    ensures Turn(s, s', false) && Rewired(s') && Stage(s', {Y}, {}, {}, {}, {}, [A, A0, V, T])
  {
    var s1 := MoveTaken(s, M2);
    var order;
    SignificantLater(s1);
    assert (Y, X) !in s.edges;
    s', order := YTakesOver(s1);
    assert Ends(s.rep, M2) == (Y, X);
    assert CoalesceFits(s, M2, order);
    assert s' == Coalesced(s, M2, order);
  }

  lemma SimplifyY(s: State) returns (s': State)
    requires Rewired(s) && Stage(s, {Y}, {}, {}, {}, {}, [A, A0, V, T])
    ensures Turn(s, s', false) && s'.nodes == Nodes() && s'.inter == Interferences(6, 31, 32) && s'.rep == map[X := Y]
    ensures s'.graph == s.graph && s'.universe == s.universe && s'.edges == s.edges && s'.coalesced == s.coalesced
    ensures Stage(s', {}, {}, {}, {}, {}, [A, A0, V, T, Y])
  {
    var order := ListOf(6, 32);
    var s1 := Pushed(s, Y);
    assert s1.Adjacent(Y) == High();
    s' := Simplified(s, Y, order);
    PlainDecrements(s1, order);
    assert [A, A0, V, T] + [Y] == [A, A0, V, T, Y];
  }

  // ----- the whole run -----

  /** s' comes n turns after s. */
  ghost predicate Reaches(s: State, n: nat, s': State) {
    if n == 0 then s' == s else exists mid :: Reaches(s, n - 1, mid) && Turn(mid, s', false)
  }

  lemma OneTurnMore(s: State, n: nat, mid: State, n': nat, s': State)
    requires Reaches(s, n, mid) && Turn(mid, s', false) && n' == n + 1
    ensures Reaches(s, n', s')
  {
  }

  lemma FirstTurns(s: State) returns (s': State)
    requires Wired(s) && Degrees(s.degree, 28, 27, 0)
    requires Stage(s, {A}, {V, Y}, {T, X}, {M1, M2}, {}, [])
    ensures Reaches(s, 3, s') && Wired(s') && Degrees(s'.degree, 28, 27, 1)
    ensures Stage(s', {}, {V, Y}, {T, X}, {}, {M1, M2}, [A])
  {
    var s1 := SimplifyA(s);
    OneTurnMore(s, 0, s, 1, s1);
    var s2 := PostponeM1(s1);
    OneTurnMore(s, 1, s1, 2, s2);
    s' := PostponeM2(s2);
    OneTurnMore(s, 2, s2, 3, s');
  }

  lemma MiddleTurns(s: State, s3: State) returns (s': State)
    requires Reaches(s, 3, s3) && Wired(s3) && Degrees(s3.degree, 28, 27, 1)
    requires Stage(s3, {}, {V, Y}, {T, X}, {}, {M1, M2}, [A])
    ensures Reaches(s, 6, s') && Wired(s') && Degrees(s'.degree, 28, 26, 1)
    ensures Stage(s', {T}, {Y}, {X}, {M2}, {}, [A, A0, V])
  {
    var s4 := FreezeV(s3);
    OneTurnMore(s, 3, s3, 4, s4);
    var s5 := SimplifyA0(s4);
    OneTurnMore(s, 4, s4, 5, s5);
    s' := SimplifyV(s5);
    OneTurnMore(s, 5, s5, 6, s');
  }

  /** What the inner loop can end in: $a0 was on the stack when x was coalesced into y. */
  ghost predicate Stacked(s: State) {
    && Stage(s, {}, {}, {}, {}, {}, [A, A0, V, T, Y]) && s.rep == map[X := Y]
    && s.nodes == Nodes() && s.inter == Interferences(6, 31, 32)
    && Entry(s.graph, Y) == High() && Entry(s.graph, A0) == {}
    && (forall r: Reg {:trigger Entry(s.graph, r)} :: r.Virt? && r != Y ==> Entry(s.graph, r) == Neighbors(r))
  }

  lemma LastTurns(s: State, s6: State) returns (s': State)
    requires Reaches(s, 6, s6) && Wired(s6) && Degrees(s6.degree, 28, 26, 1)
    requires Stage(s6, {T}, {Y}, {X}, {M2}, {}, [A, A0, V])
    ensures Reaches(s, 9, s') && Stacked(s')
  {
    var s7 := SimplifyT(s6);
    OneTurnMore(s, 6, s6, 7, s7);
    var s8 := CombineX(s7);
    OneTurnMore(s, 7, s7, 8, s8);
    s' := SimplifyY(s8);
    OneTurnMore(s, 8, s8, 9, s');
  }

  /** Popping the lowest n registers off the stack can make `end` of the colours there are. */
  ghost predicate Pops(s: State, n: nat, colored: RegSet, color: ColorMap, end: ColorMap) {
    if n == 0 then end == color
    else
      && n <= |s.stack|
      && exists c {:trigger CanTake(s, s.stack[n - 1], colored, color, c)} ::
           && CanTake(s, s.stack[n - 1], colored, color, c)
           && Pops(s, n - 1, colored + {s.stack[n - 1]}, WithColor(color, s.stack[n - 1], c), end)
  }

  ghost predicate CanTake(s: State, r: Reg, colored: RegSet, color: ColorMap, c: Reg) {
    c in AllocatableSet(r.ty) && Avoids(Entry(s.graph, r), s.rep, colored, color, c)
  }

  lemma PopOne(s: State, n: nat, r: Reg, colored: RegSet, color: ColorMap, c: Reg, end: ColorMap)
    requires 0 < n <= |s.stack| && s.stack[n - 1] == r && CanTake(s, r, colored, color, c)
    requires Pops(s, n - 1, colored + {r}, WithColor(color, r, c), end)
    ensures Pops(s, n, colored, color, end)
  {
  }

  lemma ArgumentFree(s: State, r: Reg, colored: RegSet, color: ColorMap)
    requires Stacked(s) && (r == Y || r == A || r == A0)
    ensures CanTake(s, r, colored, color, A0)
  {
  }

  lemma NextFree(s: State)
    requires Stacked(s)
    ensures CanTake(s, T, {Y}, map[Y := A0], A1)
    ensures CanTake(s, V, {Y, T}, map[Y := A0, T := A1], A0)
  {
  }

  /** Every register on the stack finds a colour, and y may be given $a0. */
  lemma StackPops(s: State) returns (color: ColorMap)
    requires Stacked(s)
    ensures Pops(s, 5, {}, map[], color) && Y in color && color[Y] == A0
  {
    var c1 := map[Y := A0];
    var c2 := map[Y := A0, T := A1];
    var c3 := map[Y := A0, T := A1, V := A0];
    color := map[Y := A0, T := A1, V := A0, A := A0];
    assert c2 == c1[T := A1] && c3 == c2[V := A0] && color == c3[A := A0];
    assert {} + {Y} == {Y} && {Y} + {T} == {Y, T};
    ArgumentFree(s, A, {Y, T} + {V} + {A0}, c3);
    PopOne(s, 1, A, {Y, T} + {V} + {A0}, c3, A0, color);
    ArgumentFree(s, A0, {Y, T} + {V}, c3);
    PopOne(s, 2, A0, {Y, T} + {V}, c3, A0, color);
    NextFree(s);
    PopOne(s, 3, V, {Y, T}, c2, A0, color);
    PopOne(s, 4, T, {Y}, c1, A1, color);
    ArgumentFree(s, Y, {}, map[]);
    PopOne(s, 5, Y, {}, map[], A0, color);
  }

  /** x gets the colour of y, although it is live across a definition of $a0. */
  lemma ColorsClash(s: State, color: ColorMap)
    requires Stacked(s) && Y in color && color[Y] == A0
    ensures !ProperColoring(s.nodes, s.inter, GivenColor(s.rep, color, X), {})
  {
    var color' := GivenColor(s.rep, color, X);
    assert color' == color[X := A0];
    assert (A0, X) in s.inter && Color(color', A0) == Color(color', X);
  }

  // ----- from the code to the clash -----

  /** The function is one block, behind which nothing is live. */
  ghost predicate Function(p: Program, liveOut: LiveMap, lo: nat, mid: nat, hi: nat) {
    lo == 6 && mid == 31 && hi == 32 && p == map[0 := Code(lo, mid, hi)] && liveOut == map[0 := {}]
  }

  ghost predicate InUniverse(r: Reg) {
    r in Universe() && (r.Virt? ==> r in Nodes()) && r != ZERO && r != SP
  }

  lemma PlainKnown(d: Reg, r: Reg)
    requires InUniverse(d) && InUniverse(r) && d != r && d.ty == r.ty
    ensures WellFormed(Def(d)) && KnownInstr(Def(d), Nodes(), Universe())
    ensures WellFormed(Use(d)) && KnownInstr(Use(d), Nodes(), Universe())
    ensures WellFormed(Copy(d, r)) && KnownInstr(Copy(d, r), Nodes(), Universe())
  {
    DefInstr(d, {});
    UseInstr(d, {});
    CopyInstr(d, r, {});
  }

  lemma {:induction false} ClobberKnown(lo: nat, hi: nat, rest: Block)
    requires 6 <= lo && hi <= 32 && WellFormedBlock(rest) && KnownBlock(rest, {}, Nodes(), Universe())
    ensures WellFormedBlock(Clobber(lo, hi, rest)) && KnownBlock(Clobber(lo, hi, rest), {}, Nodes(), Universe())
    decreases hi - lo
  {
    if lo < hi {
      ClobberKnown(lo + 1, hi, rest);
      assert R(lo) in High();
      PlainKnown(R(lo), A0);
      KnownInFront(Def(R(lo)), Clobber(lo + 1, hi, rest));
    }
  }

  lemma KnownInFront(i: Instr, b: Block)
    requires WellFormed(i) && KnownInstr(i, Nodes(), Universe())
    requires WellFormedBlock(b) && KnownBlock(b, {}, Nodes(), Universe())
    ensures WellFormedBlock([i] + b) && KnownBlock([i] + b, {}, Nodes(), Universe())
  {
  }

  lemma LastTwoKnown(lo: nat, hi: nat)
    requires lo == 6 && hi == 32
    ensures WellFormedBlock(ThirdPart(lo, hi)) && KnownBlock(ThirdPart(lo, hi), {}, Nodes(), Universe())
  {
    PlainKnown(A, A0);
    KnownInFront(Use(A), []);
    assert [Use(A)] + [] == [Use(A)];
    ClobberKnown(lo, hi, [Use(A)]);
    KnownInFront(Def(A), Clobber(lo, hi, [Use(A)]));
    var b := LastPart(lo, hi);
    PlainKnown(Y, X);
    PlainKnown(A0, X);
    KnownInFront(Use(Y), b);
    KnownInFront(Copy(Y, X), [Use(Y)] + b);
    KnownInFront(Def(A0), [Copy(Y, X)] + ([Use(Y)] + b));
    ClobberKnown(lo, hi, [Def(A0)] + ([Copy(Y, X)] + ([Use(Y)] + b)));
  }

  lemma CodeKnown(lo: nat, mid: nat, hi: nat)
    requires lo == 6 && mid == 31 && hi == 32
    ensures WellFormedBlock(Code(lo, mid, hi)) && KnownBlock(Code(lo, mid, hi), {}, Nodes(), Universe())
  {
    var third, second := ThirdPart(lo, hi), SecondPart(lo, mid, hi);
    LastTwoKnown(lo, hi);
    PlainKnown(T, X);
    PlainKnown(X, T);
    KnownInFront(Use(T), third);
    KnownInFront(Def(X), [Use(T)] + third);
    ClobberKnown(lo, mid, [Def(X)] + ([Use(T)] + third));
    PlainKnown(V, A0);
    KnownInFront(Use(V), second);
    KnownInFront(Def(T), [Use(V)] + second);
    KnownInFront(Copy(V, A0), [Def(T)] + ([Use(V)] + second));
  }

  /** What the builder of the graph needs, and what it records. */
  ghost predicate Recordable(p: Program, liveOut: LiveMap, inter: Pairs, moves: Moves) {
    && WellFormedProgram(p) && liveOut.Keys == p.Keys && KnownProgram(p, liveOut, Nodes(), Universe()) && 0 in p
    && PairsOfBlocks([0], p, liveOut) == inter && MovesOfBlocks([0], p) == moves
  }

  lemma OneBlock(p: Program, liveOut: LiveMap, b: Block, inter: Pairs, moves: Moves)
    requires p == map[0 := b] && liveOut == map[0 := {}] && WellFormedBlock(b) && KnownBlock(b, {}, Nodes(), Universe())
    requires BlockPairs(b, {}) == inter && MovesFrom(0, b, 0) == moves
    ensures Recordable(p, liveOut, inter, moves)
  {
    assert [0][..0] == [];
  }

  lemma CodeFacts(b: Block, lo: nat, mid: nat, hi: nat)
    requires lo == 6 && mid == 31 && hi == 32 && b == Code(lo, mid, hi)
    ensures WellFormedBlock(b) && KnownBlock(b, {}, Nodes(), Universe())
    ensures BlockPairs(b, {}) == Interferences(lo, mid, hi) && MovesFrom(0, b, 0) == {M1, M2}
  {
    CodeKnown(lo, mid, hi);
    CodeLive(lo, mid, hi);
    CodeMoves(0, b, lo, mid, hi);
  }

  lemma FunctionRecorded(p: Program, liveOut: LiveMap, lo: nat, mid: nat, hi: nat)
    requires Function(p, liveOut, lo, mid, hi)
    ensures Recordable(p, liveOut, Interferences(lo, mid, hi), {M1, M2})
  {
    CodeFacts(p[0], lo, mid, hi);
    OneBlock(p, liveOut, p[0], Interferences(lo, mid, hi), {M1, M2});
  }

  lemma TablesBuilt(s0: State, s1: State)
    requires Begun(s0) && Blank(s0) && Builds(s0, s1) && Adds(s0, s1)
    requires s1.inter == Interferences(6, 31, 32) && s1.worklist == {M1, M2}
    ensures EdgesOk(s1.edges) && GraphHas(s1.graph) && MovesHave(s1.moveList)
  {
    EdgesBuilt(s1.edges, s1.inter);
    GraphBuilt(s1.universe, s1.edges, s1.graph);
    MovesBuilt(s0.moveList, s1.moveList);
  }

  lemma AllDegreesBuilt(s0: State, s1: State)
    requires Blank(s0) && Adds(s0, s1) && GraphHas(s1.graph)
    ensures forall r: Reg :: DegreeOf(s1.degree, r) == if r.Virt? then DegreeAtFirst(r) else 0
  {
    assert Counted(s0.graph, s0.degree);
    forall r: Reg
      ensures DegreeOf(s1.degree, r) == if r.Virt? then DegreeAtFirst(r) else 0
    {
      DegreesBuilt(s0.degree, s1.degree, s1.graph, r);
    }
  }

  /** The state after BuildGraph and MakeWorklist is the one that the nine turns start with. */
  lemma BuiltAndListed(s0: State, s1: State, s: State)
    requires Begun(s0) && Blank(s0) && s0.nodes == Nodes() && s0.universe == Universe()
    requires Builds(s0, s1) && Adds(s0, s1)
    requires s1.inter == Interferences(6, 31, 32) && s1.worklist == {M1, M2} && Listed(s1, s)
    ensures Wired(s) && Degrees(s.degree, 28, 27, 0)
    ensures Stage(s, {A}, {V, Y}, {T, X}, {M1, M2}, {}, [])
  {
    TablesBuilt(s0, s1);
    AllDegreesBuilt(s0, s1);
    NodesListed(s1, s);
  }

  lemma NodesKnown()
    ensures forall v :: v in Nodes() ==> v.Virt? && v in Universe()
  {
  }

  method BuildRecorded(p: Program, live_out: LiveMap, ghost inter: Pairs) returns (ghost s: State)
    requires Recordable(p, live_out, inter, {M1, M2}) && inter == Interferences(6, 31, 32)
    ensures Wired(s) && Degrees(s.degree, 28, 27, 0)
    ensures Stage(s, {A}, {V, Y}, {T, X}, {M1, M2}, {}, [])
  {
    NodesKnown();
    var allocation := new RegisterAllocation(Nodes(), Universe(), false);
    ghost var s0 := allocation.st;
    allocation.BuildGraph([0], p, live_out);
    ghost var s1 := allocation.st;
    allocation.MakeWorklist();
    s := allocation.st;
    BuiltAndListed(s0, s1, s);
  }

  /** What the round of this function begins with, when its graph is built and its nodes listed. */
  method BuildFunction(p: Program, live_out: LiveMap, ghost lo: nat, ghost mid: nat, ghost hi: nat)
      returns (ghost s: State)
    requires Function(p, live_out, lo, mid, hi)
    ensures Wired(s) && Degrees(s.degree, 28, 27, 0)
    ensures Stage(s, {A}, {V, Y}, {T, X}, {M1, M2}, {}, [])
    ensures Recordable(p, live_out, s.inter, {M1, M2})
  {
    FunctionRecorded(p, live_out, lo, mid, hi);
    s := BuildRecorded(p, live_out, Interferences(lo, mid, hi));
  }

  /** From there its turns may lead to a stack that is popped without a spill, to colours that
      are not proper: x gets $a0. */
  lemma ArgumentClashes(s: State) returns (s': State, color: ColorMap)
    requires Wired(s) && Degrees(s.degree, 28, 27, 0)
    requires Stage(s, {A}, {V, Y}, {T, X}, {M1, M2}, {}, [])
    ensures Reaches(s, 9, s') && s'.simplify == s'.freeze == s'.spill == {} && s'.worklist == {} && A0 in s'.stack
    ensures Pops(s', 5, {}, map[], color)
    ensures !ProperColoring(s'.nodes, s'.inter, GivenColor(s'.rep, color, X), {})
    ensures s'.inter == s.inter
  {
    var s3 := FirstTurns(s);
    var s6 := MiddleTurns(s, s3);
    s' := LastTurns(s, s6);
    color := StackPops(s');
    ColorsClash(s', color);
  }
}
