// The control-flow graph that the front end builds for statements, as functions of the graph
// built so far.

module Lowering {
  import opened SysY

  /** How a block ends. Branch evaluates a condition and goes to one of two blocks. */
  datatype Term = Open | Goto(target: nat) | Branch(exp: nat, yes: nat, no: nat) | Ret(exp: nat) | RetVoid

  /** The blocks so far, the number of the next one, and where instructions are appended. */
  datatype Graph = Graph(code: map<nat, seq<nat>>, term: map<nat, Term>, next: nat, cur: nat)

  function CodeOf(g: Graph, b: nat): seq<nat> { if b in g.code then g.code[b] else [] }
  function TermOf(g: Graph, b: nat): Term { if b in g.term then g.term[b] else Open }

  predicate IsOpen(g: Graph) { TermOf(g, g.cur).Open? }

  function NewBlock(g: Graph): Graph {
    g.(code := g.code[g.next := []], term := g.term[g.next := Open], next := g.next + 1)
  }

  function Emit(g: Graph, e: nat): Graph { g.(code := g.code[g.cur := CodeOf(g, g.cur) + [e]]) }

  function End(g: Graph, t: Term): Graph { g.(term := g.term[g.cur := t]) }

  function At(g: Graph, b: nat): Graph { g.(cur := b) }

  /** Goes on at b, unless the block has ended already. */
  function Close(g: Graph, b: nat): Graph { if IsOpen(g) then End(g, Goto(b)) else g }

  /** Branches to t or f; && and || pass their operands other targets. */
  function LowerCond(c: Cond, t: nat, f: nat, g: Graph): Graph {
    match c
    case Test(e) => End(g, Branch(e, t, f))
    case And(l, r) => LowerCond(r, t, f, At(LowerCond(l, g.next, f, NewBlock(g)), g.next))
    case Or(l, r) => LowerCond(r, t, f, At(LowerCond(l, t, g.next, NewBlock(g)), g.next))
  }

  /** The three blocks of a selection or a loop are made, and the condition is built in the first. */
  function Opened(c: Cond, g: Graph): Graph {
    LowerCond(c, g.next + 1, g.next + 2, At(End(NewBlock(NewBlock(NewBlock(g))), Goto(g.next)), g.next))
  }

  function Lower(s: Stmt, endBB: nat, condBB: nat, g: Graph): Graph
    decreases s
  {
    match s
    case Do(e) => Emit(g, e)
    case Block(ss) => LowerAll(ss, endBB, condBB, g)
    case If(c, t) =>
      var g1 := Lower(t, endBB, condBB, At(Opened(c, g), g.next + 1));
      At(Close(g1, g.next + 2), g.next + 2)
    case IfElse(c, t, e) =>
      var g0 := Opened(c, g);
      var g1 := Lower(t, endBB, condBB, At(NewBlock(g0), g.next + 1));
      var g2 := Lower(e, endBB, condBB, At(Close(g1, g0.next), g.next + 2));
      At(Close(g2, g0.next), g0.next)
    case While(c, body) =>
      var g1 := Lower(body, g.next + 2, g.next, At(Opened(c, g), g.next + 1));
      At(Close(g1, g.next), g.next + 2)
    case Break => End(g, Goto(endBB))
    case Continue => End(g, Goto(condBB))
    case Return(e) => End(g, Ret(e))
    case ReturnVoid => End(g, RetVoid)
  }

  /** What comes behind the end of a block is dropped. */
  function LowerAll(ss: seq<Stmt>, endBB: nat, condBB: nat, g: Graph): Graph
    decreases ss
  {
    if ss == [] then g
    else
      var g1 := Lower(ss[0], endBB, condBB, g);
      if IsOpen(g1) then LowerAll(ss[1..], endBB, condBB, g1) else g1
  }

  // ----- graphs grow -----

  ghost predicate Ok(g: Graph) {
    && g.code.Keys == g.term.Keys && g.cur in g.code
    && forall b :: b in g.code ==> b < g.next
  }

  /** What g' has of block b: everything, if b has ended in g. */
  ghost predicate KeptAt(g: Graph, g': Graph, b: nat) {
    && b in g'.code && CodeOf(g, b) <= CodeOf(g', b)
    && (!TermOf(g, b).Open? ==> CodeOf(g', b) == CodeOf(g, b) && TermOf(g', b) == TermOf(g, b))
  }

  ghost predicate Grows(g: Graph, g': Graph) {
    forall b {:trigger KeptAt(g, g', b)} :: b in g.code ==> KeptAt(g, g', b)
  }

  /** Other blocks than the one instructions were appended to are as they were. */
  ghost predicate Frames(g: Graph, g': Graph) {
    && g.next <= g'.next && (g'.cur == g.cur || g'.cur >= g.next)
    && forall b {:trigger CodeOf(g', b)} {:trigger TermOf(g', b)} :: b in g.code && b != g.cur ==>
         CodeOf(g', b) == CodeOf(g, b) && TermOf(g', b) == TermOf(g, b)
  }

  /** Building went from g to g'. */
  ghost predicate Built(g: Graph, g': Graph) {
    Ok(g') && Grows(g, g') && Frames(g, g')
  }

  lemma GrowsTransitive(g: Graph, g1: Graph, g2: Graph)
    requires Grows(g, g1) && Grows(g1, g2)
    ensures Grows(g, g2)
  {
    forall b | b in g.code
      ensures KeptAt(g, g2, b)
    {
      assert KeptAt(g, g1, b);
      assert KeptAt(g1, g2, b);
    }
  }

  lemma NewBlockBuilds(g: Graph)
    requires Ok(g)
    ensures Built(g, NewBlock(g)) && NewBlock(g).cur == g.cur && TermOf(NewBlock(g), g.next) == Open &&
      CodeOf(NewBlock(g), g.next) == []
    ensures IsOpen(NewBlock(g)) == IsOpen(g) && g.next in NewBlock(g).code
  {
    forall b | b in g.code
      ensures KeptAt(g, NewBlock(g), b)
    {
    }
  }

  lemma EmitBuilds(g: Graph, e: nat)
    requires Ok(g) && IsOpen(g)
    ensures Built(g, Emit(g, e)) && IsOpen(Emit(g, e))
  {
    forall b | b in g.code
      ensures KeptAt(g, Emit(g, e), b)
    {
    }
  }

  lemma EndBuilds(g: Graph, t: Term)
    requires Ok(g) && IsOpen(g)
    ensures Built(g, End(g, t))
  {
    forall b | b in g.code
      ensures KeptAt(g, End(g, t), b)
    {
    }
  }

  lemma CloseBuilds(g: Graph, t: nat)
    requires Ok(g)
    ensures Built(g, Close(g, t)) && Close(g, t).next == g.next && Close(g, t).cur == g.cur
  {
    if IsOpen(g) {
      EndBuilds(g, Goto(t));
    } else {
      forall b | b in g.code
        ensures KeptAt(g, g, b)
      {
      }
    }
  }

  lemma MovedOk(g: Graph, b: nat)
    requires Ok(g) && b in g.code
    ensures Ok(At(g, b)) && IsOpen(At(g, b)) == TermOf(g, b).Open?
  {
  }

  /** Going on at another block, which was there or is new. */
  lemma BuiltThen(g: Graph, g1: Graph, b: nat, g2: Graph)
    requires Ok(g) && Built(g, g1) && Built(At(g1, b), g2)
    requires b == g.cur || b >= g.next
    ensures Built(g, g2)
  {
    forall d | d in g.code
      ensures KeptAt(g, g2, d)
    {
      assert KeptAt(g, g1, d);
      assert KeptAt(At(g1, b), g2, d);
    }
    forall d | d in g.code && d != g.cur
      ensures CodeOf(g2, d) == CodeOf(g, d) && TermOf(g2, d) == TermOf(g, d)
    {
      assert d in g1.code by { assert KeptAt(g, g1, d); }
      assert CodeOf(g1, d) == CodeOf(g, d);
    }
  }

  /** A new block is not touched while another one is built. */
  lemma StillEmpty(g: Graph, b: nat, g': Graph)
    requires Built(g, g') && b in g.code && b != g.cur
    ensures b in g'.code && TermOf(g', b) == TermOf(g, b) && CodeOf(g', b) == CodeOf(g, b)
  {
    assert KeptAt(g, g', b);
  }

  lemma BuiltOn(g: Graph, g1: Graph, g2: Graph)
    requires Ok(g) && Built(g, g1) && Built(g1, g2)
    ensures Built(g, g2)
  {
    assert At(g1, g1.cur) == g1;
    BuiltThen(g, g1, g1.cur, g2);
  }

  lemma BuiltMoved(g: Graph, g1: Graph, b: nat)
    requires Ok(g) && Built(g, g1) && b in g1.code && (b == g.cur || b >= g.next)
    ensures Built(g, At(g1, b))
  {
    forall d | d in g.code
      ensures KeptAt(g, At(g1, b), d)
    {
      assert KeptAt(g, g1, d);
    }
    forall d | d in g.code && d != g.cur
      ensures CodeOf(At(g1, b), d) == CodeOf(g, d) && TermOf(At(g1, b), d) == TermOf(g, d)
    {
      assert CodeOf(g1, d) == CodeOf(g, d);
    }
  }

  lemma {:induction false} CondBuilds(c: Cond, t: nat, f: nat, g: Graph)
    requires Ok(g) && IsOpen(g)
    ensures Built(g, LowerCond(c, t, f, g))
    decreases c, 1
  {
    match c
    case Test(e) => EndBuilds(g, Branch(e, t, f));
    case And(l, r) => TwoConds(c, l, r, g.next, f, t, f, g);
    case Or(l, r) => TwoConds(c, l, r, t, g.next, t, f, g);
  }

  lemma {:induction false} TwoConds(c: Cond, l: Cond, r: Cond, t1: nat, f1: nat, t2: nat, f2: nat, g: Graph)
    requires (c == And(l, r) || c == Or(l, r)) && Ok(g) && IsOpen(g)
    ensures Built(g, LowerCond(r, t2, f2, At(LowerCond(l, t1, f1, NewBlock(g)), g.next)))
    decreases c, 0
  {
    NewBlockBuilds(g);
    var g0 := NewBlock(g);
    CondBuilds(l, t1, f1, g0);
    var g1 := LowerCond(l, t1, f1, g0);
    StillEmpty(g0, g.next, g1);
    BuiltOn(g, g0, g1);
    MovedOk(g1, g.next);
    CondBuilds(r, t2, f2, At(g1, g.next));
    BuiltThen(g, g1, g.next, LowerCond(r, t2, f2, At(g1, g.next)));
  }

  /** An empty block that can be built in. */
  ghost predicate Empty(g: Graph, b: nat) {
    b in g.code && CodeOf(g, b) == [] && TermOf(g, b).Open?
  }

  /** The graph with the three new blocks of a selection or a loop. */
  function WithThree(g: Graph): Graph { At(End(NewBlock(NewBlock(NewBlock(g))), Goto(g.next)), g.next) }

  lemma ThreeBlocks(g: Graph)
    requires Ok(g) && IsOpen(g)
    ensures Built(g, WithThree(g)) && IsOpen(WithThree(g)) && WithThree(g).next == g.next + 3
    ensures Empty(WithThree(g), g.next) && Empty(WithThree(g), g.next + 1) && Empty(WithThree(g), g.next + 2)
    ensures TermOf(WithThree(g), g.cur) == Goto(g.next) && CodeOf(WithThree(g), g.cur) == CodeOf(g, g.cur)
  {
    var g1, g2, g3 := NewBlock(g), NewBlock(NewBlock(g)), NewBlock(NewBlock(NewBlock(g)));
    NewBlockBuilds(g);
    NewBlockBuilds(g1);
    NewBlockBuilds(g2);
    EndBuilds(g3, Goto(g.next));
    BuiltOn(g, g1, g2);
    BuiltOn(g, g2, g3);
    BuiltOn(g, g3, End(g3, Goto(g.next)));
    BuiltMoved(g, End(g3, Goto(g.next)), g.next);
  }

  lemma OpenedBuilds(c: Cond, g: Graph)
    requires Ok(g) && IsOpen(g)
    ensures Built(g, Opened(c, g)) && Built(WithThree(g), Opened(c, g))
    ensures Empty(Opened(c, g), g.next + 1) && Empty(Opened(c, g), g.next + 2) && g.next + 3 <= Opened(c, g).next
  {
    ThreeBlocks(g);
    var g' := WithThree(g);
    CondBuilds(c, g.next + 1, g.next + 2, g');
    BuiltOn(g, g', Opened(c, g));
    StillEmpty(g', g.next + 1, Opened(c, g));
    StillEmpty(g', g.next + 2, Opened(c, g));
  }

  /** Building in an empty block, and then closing it. */
  lemma {:induction false} BranchBuilds(s: Stmt, endBB: nat, condBB: nat, g: Graph, g0: Graph, b: nat, to: nat)
    requires Ok(g) && Built(g, g0) && Empty(g0, b) && b >= g.next
    ensures Built(At(g0, b), Lower(s, endBB, condBB, At(g0, b)))
    ensures Built(g, Close(Lower(s, endBB, condBB, At(g0, b)), to))
    ensures forall d :: Empty(g0, d) && d != b ==> Empty(Close(Lower(s, endBB, condBB, At(g0, b)), to), d)
    decreases s, 2
  {
    MovedOk(g0, b);
    var g1 := Lower(s, endBB, condBB, At(g0, b));
    LowerBuilds(s, endBB, condBB, At(g0, b));
    CloseBuilds(g1, to);
    BuiltOn(At(g0, b), g1, Close(g1, to));
    BuiltThen(g, g0, b, Close(g1, to));
    forall d | Empty(g0, d) && d != b
      ensures Empty(Close(g1, to), d)
    {
      StillEmpty(At(g0, b), d, Close(g1, to));
    }
  }

  /** Whatever is built, blocks that have ended stay as they are, and the others are not touched. */
  lemma {:induction false} LowerBuilds(s: Stmt, endBB: nat, condBB: nat, g: Graph)
    requires Ok(g) && IsOpen(g)
    ensures Built(g, Lower(s, endBB, condBB, g))
    decreases s, 1
  {
    match s
    case Do(e) => EmitBuilds(g, e);
    case Block(ss) => LowerAllBuilds(ss, endBB, condBB, g);
    case If(c, t) => OneBranchBuilds(s, t, c, endBB, condBB, g, g.next + 2);
    case IfElse(c, t, e) =>
      IfElseIs(c, t, e, endBB, condBB, g);
      IfElseBuilds(s, c, t, e, endBB, condBB, g);
    case While(c, body) => OneBranchBuilds(s, body, c, g.next + 2, g.next, g, g.next);
    case Break => EndBuilds(g, Goto(endBB));
    case Continue => EndBuilds(g, Goto(condBB));
    case Return(e) => EndBuilds(g, Ret(e));
    case ReturnVoid => EndBuilds(g, RetVoid);
  }

  lemma {:induction false} OneBranchBuilds(s: Stmt, t: Stmt, c: Cond, endBB: nat, condBB: nat, g: Graph, to: nat)
    requires (s == If(c, t) || s == While(c, t)) && Ok(g) && IsOpen(g)
    ensures Built(g, At(Close(Lower(t, endBB, condBB, At(Opened(c, g), g.next + 1)), to), g.next + 2))
    decreases s, 0
  {
    OpenedBuilds(c, g);
    BranchBuilds(t, endBB, condBB, g, Opened(c, g), g.next + 1, to);
    BuiltMoved(g, Close(Lower(t, endBB, condBB, At(Opened(c, g), g.next + 1)), to), g.next + 2);
  }

  /** The graph of a selection, when its condition has been built and the merge block made. */
  function WithMerge(c: Cond, g: Graph): Graph { NewBlock(Opened(c, g)) }

  lemma WithMergeBuilds(c: Cond, g: Graph)
    requires Ok(g) && IsOpen(g)
    ensures Built(g, WithMerge(c, g)) && Empty(WithMerge(c, g), g.next + 1) && Empty(WithMerge(c, g), g.next + 2)
    ensures Empty(WithMerge(c, g), Opened(c, g).next) && g.next + 3 <= Opened(c, g).next
  {
    OpenedBuilds(c, g);
    NewBlockBuilds(Opened(c, g));
    BuiltOn(g, Opened(c, g), WithMerge(c, g));
  }

  lemma {:induction false} IfElseIs(c: Cond, t: Stmt, e: Stmt, endBB: nat, condBB: nat, g: Graph)
    ensures
      var x0, to := NewBlock(Opened(c, g)), Opened(c, g).next;
      var x1 := Close(Lower(t, endBB, condBB, At(x0, g.next + 1)), to);
      Lower(IfElse(c, t, e), endBB, condBB, g) == At(Close(Lower(e, endBB, condBB, At(x1, g.next + 2)), to), to)
  {
  }

  lemma {:induction false} IfElseBuilds(s: Stmt, c: Cond, t: Stmt, e: Stmt, endBB: nat, condBB: nat, g: Graph)
    requires s == IfElse(c, t, e) && Ok(g) && IsOpen(g)
    ensures
      var x0, to := NewBlock(Opened(c, g)), Opened(c, g).next;
      var x1 := Close(Lower(t, endBB, condBB, At(x0, g.next + 1)), to);
      Built(g, At(Close(Lower(e, endBB, condBB, At(x1, g.next + 2)), to), to))
    decreases s, 0
  {
    WithMergeBuilds(c, g);
    BothBuild(s, t, e, endBB, condBB, g, NewBlock(Opened(c, g)), g.next + 1, g.next + 2, Opened(c, g).next);
  }

  /** Two branches, each lowered in an empty block of its own and left for the same third. */
  lemma {:induction false} BothBuild(s: Stmt, t: Stmt, e: Stmt, endBB: nat, condBB: nat, g: Graph, g0: Graph,
                                     yes: nat, no: nat, to: nat)
    requires t < s && e < s && Ok(g) && Built(g, g0) && g.next <= yes < no < to
    requires Empty(g0, yes) && Empty(g0, no) && Empty(g0, to)
    ensures
      var g1 := Close(Lower(t, endBB, condBB, At(g0, yes)), to);
      Built(g, At(Close(Lower(e, endBB, condBB, At(g1, no)), to), to))
    decreases s, 0, 0
  {
    BranchBuilds(t, endBB, condBB, g, g0, yes, to);
    var g1 := Close(Lower(t, endBB, condBB, At(g0, yes)), to);
    BranchBuilds(e, endBB, condBB, g, g1, no, to);
    BuiltMoved(g, Close(Lower(e, endBB, condBB, At(g1, no)), to), to);
  }

  lemma {:induction false} LowerAllBuilds(ss: seq<Stmt>, endBB: nat, condBB: nat, g: Graph)
    requires Ok(g) && IsOpen(g)
    ensures Built(g, LowerAll(ss, endBB, condBB, g))
    decreases ss, 3
  {
    if ss == [] {
      CloseBuilds(g, 0);
      forall b | b in g.code
        ensures KeptAt(g, g, b)
      {
      }
    } else {
      LowerBuilds(ss[0], endBB, condBB, g);
      var g1 := Lower(ss[0], endBB, condBB, g);
      if IsOpen(g1) {
        LowerAllBuilds(ss[1..], endBB, condBB, g1);
        BuiltOn(g, g1, LowerAll(ss[1..], endBB, condBB, g1));
      }
    }
  }
}
