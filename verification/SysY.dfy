// Statements and conditions of the source language, and what they mean.

module SysY {

  /** A condition: expressions, which are named, under && and ||. */
  datatype Cond = Test(exp: nat) | And(lhs: Cond, rhs: Cond) | Or(lhs: Cond, rhs: Cond)

  /** Do is a statement without control flow: an expression, an assignment or a declaration. */
  datatype Stmt =
    | Do(exp: nat)
    | Block(stmts: seq<Stmt>)
    | If(cond: Cond, then_: Stmt)
    | IfElse(cond: Cond, then_: Stmt, else_: Stmt)
    | While(cond: Cond, body: Stmt)
    | Break
    | Continue
    | Return(exp: nat)
    | ReturnVoid

  type World = seq<int>

  /** What evaluating a named expression does to the world, and its value. The world may well
      record which expressions have been evaluated, in which order. */
  type Act = (nat, World) -> (int, World)

  function EvalCond(act: Act, c: Cond, w: World): (bool, World) {
    match c
    case Test(e) =>
      var (v, w') := act(e, w);
      (v != 0, w')
    case And(l, r) =>
      var (b, w') := EvalCond(act, l, w);
      if b then EvalCond(act, r, w') else (false, w')
    case Or(l, r) =>
      var (b, w') := EvalCond(act, l, w);
      if b then (true, w') else EvalCond(act, r, w')
  }

  datatype Outcome =
    | Normal(world: World)
    | Broken(world: World)
    | Continued(world: World)
    | Returned(value: int, world: World)
    | OutOfFuel

  /** Runs s; the fuel bounds how deep loops are unrolled. */
  function Exec(act: Act, n: nat, s: Stmt, w: World): Outcome
    decreases n, s
  {
    match s
    case Do(e) => Normal(act(e, w).1)
    case Block(ss) => ExecAll(act, n, ss, w)
    case If(c, t) =>
      var (b, w') := EvalCond(act, c, w);
      if b then Exec(act, n, t, w') else Normal(w')
    case IfElse(c, t, e) =>
      var (b, w') := EvalCond(act, c, w);
      if b then Exec(act, n, t, w') else Exec(act, n, e, w')
    case While(c, body) =>
      if n == 0 then OutOfFuel
      else
        var (b, w') := EvalCond(act, c, w);
        if !b then Normal(w')
        else
          var r := Exec(act, n - 1, body, w');
          if r.Normal? || r.Continued? then Exec(act, n - 1, s, r.world)
          else if r.Broken? then Normal(r.world)
          else r
    case Break => Broken(w)
    case Continue => Continued(w)
    case Return(e) =>
      var (v, w') := act(e, w);
      Returned(v, w')
    case ReturnVoid => Returned(0, w)
  }

  function ExecAll(act: Act, n: nat, ss: seq<Stmt>, w: World): Outcome
    decreases n, ss
  {
    if ss == [] then Normal(w)
    else
      var r := Exec(act, n, ss[0], w);
      if r.Normal? then ExecAll(act, n, ss[1..], r.world) else r
  }

  /** break and continue occur in loops alone. */
  predicate Proper(s: Stmt, inLoop: bool) {
    match s
    case Block(ss) => forall k :: 0 <= k < |ss| ==> Proper(ss[k], inLoop)
    case If(_, t) => Proper(t, inLoop)
    case IfElse(_, t, e) => Proper(t, inLoop) && Proper(e, inLoop)
    case While(_, body) => Proper(body, true)
    case Break => inLoop
    case Continue => inLoop
    case _ => true
  }

  predicate AllProper(ss: seq<Stmt>, inLoop: bool) {
    forall k :: 0 <= k < |ss| ==> Proper(ss[k], inLoop)
  }

  lemma {:induction false} ProperEnds(act: Act, n: nat, s: Stmt, w: World)
    requires Proper(s, false)
    ensures !Exec(act, n, s, w).Broken? && !Exec(act, n, s, w).Continued?
    decreases n, s
  {
    match s
    case Block(ss) => ProperEndsAll(act, n, ss, w);
    case If(c, t) => ProperEnds(act, n, t, EvalCond(act, c, w).1);
    case IfElse(c, t, e) =>
      ProperEnds(act, n, t, EvalCond(act, c, w).1);
      ProperEnds(act, n, e, EvalCond(act, c, w).1);
    case While(c, body) =>
      if n > 0 && EvalCond(act, c, w).0 {
        var r := Exec(act, n - 1, body, EvalCond(act, c, w).1);
        if r.Normal? || r.Continued? {
          ProperEnds(act, n - 1, s, r.world);
        }
      }
    case _ =>
  }

  lemma {:induction false} ProperEndsAll(act: Act, n: nat, ss: seq<Stmt>, w: World)
    requires AllProper(ss, false)
    ensures !ExecAll(act, n, ss, w).Broken? && !ExecAll(act, n, ss, w).Continued?
    decreases n, ss
  {
    if ss != [] {
      ProperEnds(act, n, ss[0], w);
      var r := Exec(act, n, ss[0], w);
      if r.Normal? {
        ProperEndsAll(act, n, ss[1..], r.world);
      }
    }
  }
}
