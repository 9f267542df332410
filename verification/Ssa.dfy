// Functions whose local variables live in memory, functions in SSA form, and how both run.

module Ssa {
  import opened FlowGraph

  /** Values are named by the instruction that computes them; a phi by its block and variable. */
  datatype Name = Val(id: nat) | Phi(block: nat, v: nat)
  datatype Operand = Const(value: int) | Ref(name: Name)

  // An Op computes its result from its arguments; calls and other accesses to memory are Ops too.
  datatype Instr =
    | Alloca(v: nat)
    | Load(dst: nat, v: nat)
    | Store(v: nat, op: Operand)
    | Op(dst: nat, code: nat, args: seq<Operand>)

  /** `term` is what a block branches on, or returns. */
  datatype Func = Func(g: Cfg, body: map<nat, seq<Instr>>, term: map<nat, Operand>)

  type Env = map<Name, int>
  type World = seq<int>
  type Ops = (nat, seq<int>, World) -> (int, World)

  function Eval(env: Env, op: Operand): int {
    match op
    case Const(n) => n
    case Ref(x) => if x in env then env[x] else 0
  }

  function EvalAll(env: Env, args: seq<Operand>): seq<int> {
    seq(|args|, k requires 0 <= k < |args| => Eval(env, args[k]))
  }

  /** `vars` holds the variables that have been stored to since they were allocated. */
  datatype State = Live(env: Env, vars: map<nat, int>, world: World) | Undefined

  function Step(ops: Ops, i: Instr, s: State): State {
    if s.Undefined? then s
    else match i
      case Alloca(v) => s.(vars := s.vars - {v})
      case Load(x, v) => if v in s.vars then s.(env := s.env[Val(x) := s.vars[v]]) else Undefined
      case Store(v, op) => s.(vars := s.vars[v := Eval(s.env, op)])
      case Op(x, code, args) =>
        var (n, w) := ops(code, EvalAll(s.env, args), s.world);
        s.(env := s.env[Val(x) := n], world := w)
  }

  function Steps(ops: Ops, code: seq<Instr>, s: State): State {
    if code == [] then s else Step(ops, code[|code| - 1], Steps(ops, code[..|code| - 1], s))
  }

  /** Where a block goes when its branch value is n. */
  function Target(g: Cfg, b: nat, n: int): nat
    requires b in g.succ && g.succ[b] != []
  {
    if n != 0 || |g.succ[b]| == 1 then g.succ[b][0] else g.succ[b][1]
  }

  datatype Run = At(block: nat, state: State) | Done(value: int, world: World) | Fault

  /** One block of a function without phis. */
  function RunBlock(ops: Ops, f: Func, b: nat, s: State): (r: Run)
    requires b in f.body && b in f.term && b in f.g.succ && s.Live?
    ensures r.At? ==> r.state.Live? && r.block in f.g.succ[b]
  {
    var s' := Steps(ops, f.body[b], s);
    if s'.Undefined? then Fault
    else
      var n := Eval(s'.env, f.term[b]);
      if f.g.succ[b] == [] then Done(n, s'.world) else At(Target(f.g, b, n), s')
  }

  ghost predicate Complete(f: Func) {
    && f.g.Valid() && f.body.Keys == f.g.blocks && f.term.Keys == f.g.blocks
  }

  predicate Runnable(f: Func) {
    && f.body.Keys == f.g.blocks && f.term.Keys == f.g.blocks && f.g.succ.Keys == f.g.blocks
    && forall b :: b in f.g.blocks ==> forall d :: d in f.g.succ[b] ==> d in f.g.blocks
  }

  function RunFor(ops: Ops, f: Func, n: nat, b: nat, s: State): Run
    requires Runnable(f) && b in f.g.blocks && s.Live?
    decreases n
  {
    if n == 0 then At(b, s)
    else
      var r := RunBlock(ops, f, b, s);
      if r.At? then RunFor(ops, f, n - 1, r.block, r.state) else r
  }

  // ----- functions with phis -----

  /** phis[b] are the variables that have a phi in b, args what it takes from a predecessor. */
  datatype SsaFunc = SsaFunc(code: Func, phis: map<nat, set<nat>>, args: map<(nat, nat, nat), Operand>)

  /** The value the phi of v in b takes on the way from p; a missing argument is undefined. */
  function PhiValue(f: SsaFunc, env: Env, p: nat, b: nat, v: nat): int {
    if (p, b, v) in f.args then Eval(env, f.args[(p, b, v)]) else 0
  }

  /** All phis of b take their values at once. */
  function Enter(f: SsaFunc, env: Env, p: nat, b: nat): Env {
    if b !in f.phis then env
    else
      map x | x in env.Keys + (set v | v in f.phis[b] :: Phi(b, v)) ::
        if x.Phi? && x.block == b && x.v in f.phis[b] then PhiValue(f, env, p, b, x.v) else if x in env then env[x]
          else 0
  }

  function RunSsaBlock(ops: Ops, f: SsaFunc, b: nat, s: State): (r: Run)
    requires b in f.code.body && b in f.code.term && b in f.code.g.succ && s.Live?
    ensures r.At? ==> r.state.Live? && r.block in f.code.g.succ[b]
  {
    var r := RunBlock(ops, f.code, b, s);
    if r.At? then At(r.block, r.state.(env := Enter(f, r.state.env, b, r.block))) else r
  }

  function RunSsaFor(ops: Ops, f: SsaFunc, n: nat, b: nat, s: State): Run
    requires Runnable(f.code) && b in f.code.g.blocks && s.Live?
    decreases n
  {
    if n == 0 then At(b, s)
    else
      var r := RunSsaBlock(ops, f, b, s);
      if r.At? then RunSsaFor(ops, f, n - 1, r.block, r.state) else r
  }
}
