// The builder that walks over statements and conditions, with an insertion point and a context
// that tells where conditions branch to and where loops end and continue.

module CminusfBuilder {
  import opened SysY
  import opened Lowering
  import opened LoweredRuns

  class CminusfBuilder {
    var fn: Graph
    var trueBB: nat
    var falseBB: nat
    var condBB: nat
    var iteration_endBB: nat
    var iteration_condBB: nat

    /** The builder of a function, at its entry; block 0, the entry, stands for no target. */
    constructor ()
      ensures fn == EntryOnly()
      ensures trueBB == falseBB == condBB == iteration_endBB == iteration_condBB == 0
    {
      fn := EntryOnly();
      trueBB, falseBB, condBB, iteration_endBB, iteration_condBB := 0, 0, 0, 0, 0;
    }

    method CreateBB() returns (bb: nat)
      modifies this`fn
      ensures fn == NewBlock(old(fn)) && bb == old(fn).next
    {
      bb := fn.next;
      fn := NewBlock(fn);
    }

    method CreateBr(bb: nat)
      requires IsOpen(fn)
      modifies this`fn
      ensures fn == End(old(fn), Goto(bb))
    {
      fn := End(fn, Goto(bb));
    }

    method CreateCondBr(exp: nat, ifTrue: nat, ifFalse: nat)
      requires IsOpen(fn)
      modifies this`fn
      ensures fn == End(old(fn), Branch(exp, ifTrue, ifFalse))
    {
      fn := End(fn, Branch(exp, ifTrue, ifFalse));
    }

    /** An operand of && or ||, or the whole condition: a logic expression branches by itself, and
        returns nothing; another expression returns its value. */
    method VisitExp(node: Cond) returns (ret: seq<nat>)
      requires Ok(fn) && IsOpen(fn)
      modifies this`fn, this`trueBB, this`falseBB
      ensures trueBB == old(trueBB) && falseBB == old(falseBB)
      ensures node.Test? ==> ret == [node.exp] && fn == old(fn)
      ensures !node.Test? ==> ret == [] && fn == LowerCond(node, trueBB, falseBB, old(fn))
      decreases node, 0
    {
      if node.Test? {
        return [node.exp];
      }
      ret := [];
      ghost var g := fn;
      if node.And? {
        ghost var t, f := trueBB, falseBB;
        var new_trueBB := CreateBB();
        var old_trueBB := trueBB;
        trueBB := new_trueBB;
        NewBlockBuilds(g);
        VisitOperand(node.lhs);
        fn := At(fn, new_trueBB);
        trueBB := old_trueBB;
        SecondIsOpen(node.lhs, new_trueBB, f, g);
        VisitOperand(node.rhs);
      } else {
        ghost var t, f := trueBB, falseBB;
        var new_falseBB := CreateBB();
        var old_falseBB := falseBB;
        falseBB := new_falseBB;
        NewBlockBuilds(g);
        VisitOperand(node.lhs);
        fn := At(fn, new_falseBB);
        falseBB := old_falseBB;
        SecondIsOpen(node.lhs, t, new_falseBB, g);
        VisitOperand(node.rhs);
      }
    }

    /** Visits an operand, and branches on its value if it has not branched itself. */
    method VisitOperand(node: Cond)
      requires Ok(fn) && IsOpen(fn)
      modifies this`fn, this`trueBB, this`falseBB
      ensures trueBB == old(trueBB) && falseBB == old(falseBB)
      ensures fn == LowerCond(node, trueBB, falseBB, old(fn))
      decreases node, 1
    {
      var ret := VisitExp(node);
      if ret != [] {
        CreateCondBr(ret[0], trueBB, falseBB);
      }
    }

    /** Builds the condition in the block that the context has for it. */
    method VisitCond(node: Cond)
      requires Ok(At(fn, condBB)) && IsOpen(At(fn, condBB))
      modifies this`fn, this`trueBB, this`falseBB
      ensures trueBB == old(trueBB) && falseBB == old(falseBB)
      ensures fn == LowerCond(node, trueBB, falseBB, At(old(fn), condBB))
    {
      fn := At(fn, condBB);
      VisitOperand(node);
    }

    /** Makes the blocks of a selection or a loop, jumps to the first, and makes them the targets
        of conditions. */
    method EnterBranches() returns (cond: nat, yes: nat, no: nat)
      requires Ok(fn) && IsOpen(fn)
      modifies this`fn, this`condBB, this`trueBB, this`falseBB
      ensures At(fn, cond) == WithThree(old(fn)) && Ok(WithThree(old(fn))) && IsOpen(WithThree(old(fn)))
      ensures condBB == cond == old(fn).next && trueBB == yes == cond + 1 && falseBB == no == cond + 2
    {
      ThreeBlocks(fn);
      NewBlockBuilds(fn);
      cond := CreateBB();
      NewBlockBuilds(fn);
      yes := CreateBB();
      NewBlockBuilds(fn);
      no := CreateBB();
      CreateBr(cond);
      condBB, trueBB, falseBB := cond, yes, no;
    }

    method VisitSelection(node: Stmt)
      requires (node.If? || node.IfElse?) && Ok(fn) && IsOpen(fn)
      modifies this
      ensures trueBB == old(trueBB) && falseBB == old(falseBB) && condBB == old(condBB)
      ensures iteration_endBB == old(iteration_endBB) && iteration_condBB == old(iteration_condBB)
      ensures fn == Lower(node, iteration_endBB, iteration_condBB, old(fn))
      decreases node, 0
    {
      ghost var g := fn;
      OpenedBuilds(node.cond, g);
      var old_condBB, old_trueBB, old_falseBB := condBB, trueBB, falseBB;
      var cond, yes, no := EnterBranches();
      VisitCond(node.cond);
      if node.IfElse? {
        var mergeBB := CreateBB();
        ElseIsOpen(node.cond, node.then_, iteration_endBB, iteration_condBB, g, mergeBB);
        fn := At(fn, yes);
        VisitStmt(node.then_);
        CloseBlock(mergeBB);
        fn := At(fn, no);
        VisitStmt(node.else_);
        CloseBlock(mergeBB);
        fn := At(fn, mergeBB);
      } else {
        MovedOk(fn, yes);
        fn := At(fn, yes);
        VisitStmt(node.then_);
        CloseBlock(no);
        fn := At(fn, no);
      }
      condBB, trueBB, falseBB := old_condBB, old_trueBB, old_falseBB;
    }

    /** Jumps to bb, unless the block has ended. */
    method CloseBlock(bb: nat)
      modifies this`fn
      ensures fn == Close(old(fn), bb)
    {
      if IsOpen(fn) {
        CreateBr(bb);
      }
    }

    method VisitIteration(node: Stmt)
      requires node.While? && Ok(fn) && IsOpen(fn)
      modifies this
      ensures trueBB == old(trueBB) && falseBB == old(falseBB) && condBB == old(condBB)
      ensures iteration_endBB == old(iteration_endBB) && iteration_condBB == old(iteration_condBB)
      ensures fn == Lower(node, iteration_endBB, iteration_condBB, old(fn))
      decreases node, 0
    {
      ghost var g := fn;
      OpenedBuilds(node.cond, g);
      var old_condBB, old_trueBB, old_falseBB := condBB, trueBB, falseBB;
      var old_iteration_endBB, old_iteration_condBB := iteration_endBB, iteration_condBB;
      var cond, yes, no := EnterBranches();
      iteration_endBB, iteration_condBB := no, cond;
      VisitCond(node.cond);
      MovedOk(fn, yes);
      fn := At(fn, yes);
      VisitStmt(node.body);
      CloseBlock(cond);
      fn := At(fn, no);
      condBB, trueBB, falseBB := old_condBB, old_trueBB, old_falseBB;
      iteration_endBB, iteration_condBB := old_iteration_endBB, old_iteration_condBB;
    }

    method VisitStmt(node: Stmt)
      requires Ok(fn) && IsOpen(fn)
      modifies this
      ensures trueBB == old(trueBB) && falseBB == old(falseBB) && condBB == old(condBB)
      ensures iteration_endBB == old(iteration_endBB) && iteration_condBB == old(iteration_condBB)
      ensures fn == Lower(node, iteration_endBB, iteration_condBB, old(fn))
      decreases node, 1
    {
      match node
      case Do(e) => fn := Emit(fn, e);
      case Block(ss) => VisitBlock(ss);
      case If(_, _) => VisitSelection(node);
      case IfElse(_, _, _) => VisitSelection(node);
      case While(_, _) => VisitIteration(node);
      case Break => CreateBr(iteration_endBB);
      case Continue => CreateBr(iteration_condBB);
      case Return(e) => fn := End(fn, Ret(e));
      case ReturnVoid => fn := End(fn, RetVoid);
    }

    method VisitBlock(stmts: seq<Stmt>)
      requires Ok(fn) && IsOpen(fn)
      modifies this
      ensures trueBB == old(trueBB) && falseBB == old(falseBB) && condBB == old(condBB)
      ensures iteration_endBB == old(iteration_endBB) && iteration_condBB == old(iteration_condBB)
      ensures fn == LowerAll(stmts, iteration_endBB, iteration_condBB, old(fn))
      decreases stmts, 2
    {
      ghost var g := fn;
      var k := 0;
      while k < |stmts|
        invariant 0 <= k <= |stmts| && Ok(fn) && IsOpen(fn)
        invariant trueBB == old(trueBB) && falseBB == old(falseBB) && condBB == old(condBB)
        invariant iteration_endBB == old(iteration_endBB) && iteration_condBB == old(iteration_condBB)
        invariant LowerAll(stmts[k..], iteration_endBB, iteration_condBB, fn) ==
          LowerAll(stmts, iteration_endBB, iteration_condBB, g)
      {
        assert stmts[k..][0] == stmts[k] && stmts[k..][1..] == stmts[k + 1..];
        LowerBuilds(stmts[k], iteration_endBB, iteration_condBB, fn);
        VisitStmt(stmts[k]);
        if !IsOpen(fn) {
          return;
        }
        k := k + 1;
      }
    }

    /** The body of a function. */
    method VisitFuncDef(body: Stmt)
      requires fn == EntryOnly() && iteration_endBB == iteration_condBB == 0
      modifies this
      ensures trueBB == old(trueBB) && falseBB == old(falseBB) && condBB == old(condBB)
      ensures iteration_endBB == old(iteration_endBB) && iteration_condBB == old(iteration_condBB)
      ensures fn == LowerFunc(body)
    {
      EntryOk();
      VisitStmt(body);
      if IsOpen(fn) {
        fn := End(fn, RetVoid);
      }
    }
  }

  /** The blocks of a selection with else are open when it is their turn. */
  lemma ElseIsOpen(c: Cond, t: Stmt, endBB: nat, condBB: nat, g: Graph, to: nat)
    requires Ok(g) && IsOpen(g) && to == Opened(c, g).next
    ensures var g0 := At(WithMerge(c, g), g.next + 1); Ok(g0) && IsOpen(g0)
    ensures var g1 := At(Close(Lower(t, endBB, condBB, At(WithMerge(c, g), g.next + 1)), to), g.next + 2);
      Ok(g1) && IsOpen(g1)
  {
    WithMergeBuilds(c, g);
    MovedOk(WithMerge(c, g), g.next + 1);
    BranchBuilds(t, endBB, condBB, g, WithMerge(c, g), g.next + 1, to);
    MovedOk(Close(Lower(t, endBB, condBB, At(WithMerge(c, g), g.next + 1)), to), g.next + 2);
  }

  lemma SecondIsOpen(l: Cond, t: nat, f: nat, g: Graph)
    requires Ok(g) && IsOpen(g)
    ensures var g1 := At(LowerCond(l, t, f, NewBlock(g)), g.next); Ok(g1) && IsOpen(g1)
  {
    NewBlockBuilds(g);
    CondBuilds(l, t, f, NewBlock(g));
    StillEmpty(NewBlock(g), g.next, LowerCond(l, t, f, NewBlock(g)));
    MovedOk(LowerCond(l, t, f, NewBlock(g)), g.next);
  }
}
