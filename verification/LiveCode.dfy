// Functions whose instructions may be useless, how they run, and why only the operands of
// critical instructions matter.

module LiveCode {
  import Purity

  datatype Operand = Const(n: int) | Ref(id: nat)

  /** A phi has a predecessor for each operand; an OpK computes a value and changes nothing:
      arithmetic, addresses, loads. */
  datatype Kind = PhiK(preds: seq<nat>) | OpK | StoreK | CallK(callee: nat) | BranchK | ReturnK

  datatype Instr = Instr(kind: Kind, code: nat, args: seq<Operand>)

  /** Instructions are named; blocks list the names. */
  datatype Func = Func(entry: nat, blocks: map<nat, seq<nat>>, succ: map<nat, seq<nat>>, pred: map<nat, seq<nat>>,
                       instrs: map<nat, Instr>)

  /** What has to stay: everything but phis, operations and calls of pure functions. */
  predicate IsCritical(pure: set<nat>, i: Instr) {
    match i.kind
    case CallK(g) => g !in pure
    case PhiK(_) => false
    case OpK => false
    case _ => true
  }

  type World = Purity.World
  type Env = map<nat, int>

  /** What instructions do. A call goes one way through its callee in the module m, which leaves
      the world as the instructions on that way do. */
  datatype Isa = Isa(m: Purity.Module, extern_: Purity.Extern,
                     value: (nat, seq<int>, World) -> int, store: (nat, seq<int>, World) -> World,
                     result: (nat, seq<int>, World) -> int, way: (nat, seq<int>, World) -> Purity.Run,
                     choose: (nat, seq<int>) -> nat)

  /** Calls go ways that their callees allow, and come back. */
  ghost predicate CallsReturn(isa: Isa) {
    forall g: nat, vals: seq<int>, w: World {:trigger isa.way(g, vals, w)} ::
      g in isa.m ==> isa.way(g, vals, w).f == g && Purity.ValidRun(isa.m, isa.way(g, vals, w))
  }

  function AfterCall(isa: Isa, g: nat, vals: seq<int>, w: World): World {
    Purity.AfterRun(isa.extern_, isa.m, isa.way(g, vals, w), w)
  }

  /** The functions that have been found to be pure. */
  ghost predicate PureIn(m: Purity.Module, pure: set<nat>) {
    forall g :: g in pure ==> g in m && !Purity.Impure(m, g)
  }

  /** Calling a pure function leaves the world alone. */
  lemma PureCall(isa: Isa, pure: set<nat>, g: nat, vals: seq<int>, w: World)
    requires CallsReturn(isa) && Purity.PureStayInside(isa.m) && PureIn(isa.m, pure) && g in pure
    ensures AfterCall(isa, g, vals, w) == w
  {
    Purity.PureKeepsWorld(isa.extern_, isa.m, isa.way(g, vals, w), w);
  }

  function Look(env: Env, x: nat): int { if x in env then env[x] else 0 }

  function Eval(env: Env, op: Operand): int {
    match op
    case Const(n) => n
    case Ref(x) => Look(env, x)
  }

  function EvalAll(env: Env, args: seq<Operand>): seq<int> {
    seq(|args|, k requires 0 <= k < |args| => Eval(env, args[k]))
  }

  /** What a phi takes from p. */
  function PhiOperand(preds: seq<nat>, args: seq<Operand>, p: nat): Operand {
    if preds == [] || args == [] then Const(0) else if preds[0] == p then args[0]
      else PhiOperand(preds[1..], args[1..], p)
  }

  function InstrOf(f: Func, x: nat): Instr { if x in f.instrs then f.instrs[x] else Instr(OpK, 0, []) }
  function CodeOf(f: Func, b: nat): seq<nat> { if b in f.blocks then f.blocks[b] else [] }
  function SuccOf(f: Func, b: nat): seq<nat> { if b in f.succ then f.succ[b] else [] }

  /** All phis of a block take their values at once, from the values env0 before. */
  function Phis(f: Func, code: seq<nat>, p: nat, env0: Env, env: Env): Env {
    if code == [] then env
    else
      var i := InstrOf(f, code[0]);
      if i.kind.PhiK? then Phis(f, code[1..], p, env0, env[code[0] := Eval(env0, PhiOperand(i.kind.preds, i.args, p))])
      else Phis(f, code[1..], p, env0, env)
  }

  datatype End = Falls | Chooses(choice: nat) | Returns(vals: seq<int>)
  datatype State = State(env: Env, world: World)

  /** The instructions of a block that are no phis. */
  function Body(isa: Isa, f: Func, code: seq<nat>, s: State): (State, End) {
    if code == [] then (s, Falls)
    else
      var i := InstrOf(f, code[0]);
      var vals := EvalAll(s.env, i.args);
      match i.kind
      case PhiK(_) => Body(isa, f, code[1..], s)
      case OpK => Body(isa, f, code[1..], s.(env := s.env[code[0] := isa.value(i.code, vals, s.world)]))
      case StoreK => Body(isa, f, code[1..], s.(world := isa.store(i.code, vals, s.world)))
      case CallK(g) =>
        Body(isa, f, code[1..], State(s.env[code[0] := isa.result(g, vals, s.world)], AfterCall(isa, g, vals, s.world)))
      case BranchK => (s, Chooses(isa.choose(i.code, vals)))
      case ReturnK => (s, Returns(vals))
  }

  /** What can be seen of a run after n blocks. */
  datatype Seen = At(block: nat, world: World) | Returned(vals: seq<int>, world: World) | Stuck

  function RunFor(isa: Isa, f: Func, n: nat, p: nat, b: nat, s: State): Seen
    decreases n
  {
    if n == 0 then At(b, s.world)
    else
      var (t, e) := Body(isa, f, CodeOf(f, b), State(Phis(f, CodeOf(f, b), p, s.env, s.env), s.world));
      match e
      case Falls => Stuck
      case Returns(vals) => Returned(vals, t.world)
      case Chooses(k) => if k < |SuccOf(f, b)| then RunFor(isa, f, n - 1, b, SuccOf(f, b)[k], t) else Stuck
  }

  // ----- removing instructions -----

  function Kept(code: seq<nat>, marked: set<nat>): seq<nat> {
    if code == [] then [] else (if code[0] in marked then [code[0]] else []) + Kept(code[1..], marked)
  }

  function Swept(f: Func, marked: set<nat>): Func {
    f.(blocks := map b | b in f.blocks :: Kept(f.blocks[b], marked))
  }

  /** Everything critical in the code is marked. */
  predicate CriticalMarked(f: Func, pure: set<nat>, marked: set<nat>, code: seq<nat>) {
    forall x :: x in code ==> x in f.instrs && (IsCritical(pure, f.instrs[x]) ==> x in marked)
  }

  /** What marked instructions use is marked. */
  ghost predicate Closed(f: Func, marked: set<nat>) {
    forall x, y {:trigger UsesValue(f, x, y)} :: x in marked && UsesValue(f, x, y) ==> y in marked
  }

  predicate UsesValue(f: Func, x: nat, y: nat) { x in f.instrs && y in f.instrs && Ref(y) in f.instrs[x].args }

  /** The two environments agree on what is marked; and on what no instruction computes. */
  ghost predicate Agree(f: Func, marked: set<nat>, env: Env, env': Env) {
    forall x {:trigger Look(env, x)} {:trigger Look(env', x)} :: x in marked || x !in f.instrs ==>
      Look(env', x) == Look(env, x)
  }

  lemma EvalAgrees(f: Func, marked: set<nat>, x: nat, op: Operand, env: Env, env': Env)
    requires Closed(f, marked) && Agree(f, marked, env, env') && x in marked && x in f.instrs && op in f.instrs[x].args
    ensures Eval(env', op) == Eval(env, op)
  {
    if op.Ref? {
      assert UsesValue(f, x, op.id) || op.id !in f.instrs;
    }
  }

  lemma EvalAllAgrees(f: Func, marked: set<nat>, x: nat, env: Env, env': Env)
    requires Closed(f, marked) && Agree(f, marked, env, env') && x in marked && x in f.instrs
    ensures EvalAll(env', f.instrs[x].args) == EvalAll(env, f.instrs[x].args)
  {
    var args := f.instrs[x].args;
    forall k | 0 <= k < |args|
      ensures Eval(env', args[k]) == Eval(env, args[k])
    {
      assert args[k] in args;
      EvalAgrees(f, marked, x, args[k], env, env');
    }
  }

  lemma {:induction false} PhiOperandIsArg(preds: seq<nat>, args: seq<Operand>, p: nat)
    ensures PhiOperand(preds, args, p) in args || PhiOperand(preds, args, p) == Const(0)
    decreases |args|
  {
    if preds != [] && args != [] && preds[0] != p {
      PhiOperandIsArg(preds[1..], args[1..], p);
      assert forall a :: a in args[1..] ==> a in args;
    }
  }

  lemma AgreeUpdated(f: Func, marked: set<nat>, env: Env, env': Env, x: nat, n: int)
    requires Agree(f, marked, env, env')
    ensures Agree(f, marked, env[x := n], env'[x := n])
    ensures x in f.instrs && x !in marked ==> Agree(f, marked, env[x := n], env')
  {
    forall y {:trigger Look(env[x := n], y)} {:trigger Look(env'[x := n], y)} | y in marked || y !in f.instrs
      ensures Look(env'[x := n], y) == Look(env[x := n], y)
    {
      assert Look(env', y) == Look(env, y);
    }
    forall y {:trigger Look(env[x := n], y)} {:trigger Look(env', y)} | x in f.instrs && x !in marked &&
      (y in marked || y !in f.instrs)
      ensures Look(env', y) == Look(env[x := n], y)
    {
      assert Look(env', y) == Look(env, y);
    }
  }

  lemma CriticalRest(f: Func, pure: set<nat>, marked: set<nat>, code: seq<nat>)
    requires CriticalMarked(f, pure, marked, code) && code != []
    ensures code[0] in f.instrs && (IsCritical(pure, f.instrs[code[0]]) ==> code[0] in marked)
    ensures CriticalMarked(f, pure, marked, code[1..])
  {
    assert forall x :: x in code[1..] ==> x in code;
  }

  lemma KeptFirst(code: seq<nat>, marked: set<nat>)
    requires code != []
    ensures code[0] in marked ==>
      Kept(code, marked) != [] && Kept(code, marked)[0] == code[0] && Kept(code, marked)[1..] == Kept(code[1..], marked)
    ensures code[0] !in marked ==> Kept(code, marked) == Kept(code[1..], marked)
  {
    assert [] + Kept(code[1..], marked) == Kept(code[1..], marked);
  }

  lemma {:induction false} PhisAgree(f: Func, pure: set<nat>, marked: set<nat>, code: seq<nat>, p: nat, env0: Env,
                                     env0': Env, env: Env, env': Env)
    requires Closed(f, marked) && CriticalMarked(f, pure, marked, code) && Agree(f, marked, env0, env0') &&
      Agree(f, marked, env, env')
    ensures Agree(f, marked, Phis(f, code, p, env0, env), Phis(f, Kept(code, marked), p, env0', env'))
    decreases |code|
  {
    if code != [] {
      CriticalRest(f, pure, marked, code);
      var x, i := code[0], f.instrs[code[0]];
      KeptFirst(code, marked);
      if i.kind.PhiK? {
        var op := PhiOperand(i.kind.preds, i.args, p);
        PhiOperandIsArg(i.kind.preds, i.args, p);
        AgreeUpdated(f, marked, env, env', x, Eval(env0, op));
        if x in marked {
          if op in i.args {
            EvalAgrees(f, marked, x, op, env0, env0');
          }
          PhisAgree(f, pure, marked, code[1..], p, env0, env0', env[x := Eval(env0, op)], env'[x := Eval(env0, op)]);
        } else {
          PhisAgree(f, pure, marked, code[1..], p, env0, env0', env[x := Eval(env0, op)], env');
        }
      } else {
        PhisAgree(f, pure, marked, code[1..], p, env0, env0', env, env');
      }
    }
  }

  ghost predicate StatesAgree(f: Func, marked: set<nat>, s: State, s': State) {
    s'.world == s.world && Agree(f, marked, s.env, s'.env)
  }

  lemma {:induction false} BodyAgrees(isa: Isa, f: Func, pure: set<nat>, marked: set<nat>, code: seq<nat>, s: State,
                                      s': State)
    requires CallsReturn(isa) && Purity.PureStayInside(isa.m) && PureIn(isa.m, pure)
    requires Closed(f, marked) && CriticalMarked(f, pure, marked, code) && StatesAgree(f, marked, s, s')
    ensures StatesAgree(f, marked, Body(isa, f, code, s).0, Body(isa, f, Kept(code, marked), s').0)
    ensures Body(isa, f, Kept(code, marked), s').1 == Body(isa, f, code, s).1
    decreases |code|
  {
    if code != [] {
      CriticalRest(f, pure, marked, code);
      var x, i := code[0], f.instrs[code[0]];
      var vals := EvalAll(s.env, i.args);
      KeptFirst(code, marked);
      if x in marked {
        EvalAllAgrees(f, marked, x, s.env, s'.env);
      }
      match i.kind
      case PhiK(_) => BodyAgrees(isa, f, pure, marked, code[1..], s, s');
      case OpK =>
        var n := isa.value(i.code, vals, s.world);
        AgreeUpdated(f, marked, s.env, s'.env, x, n);
        BodyAgrees(isa, f, pure, marked, code[1..], s.(env := s.env[x := n]),
                   if x in marked then s'.(env := s'.env[x := n]) else s');
      case StoreK =>
        var w := isa.store(i.code, vals, s.world);
        BodyAgrees(isa, f, pure, marked, code[1..], s.(world := w), s'.(world := w));
      case CallK(g) =>
        var n, w := isa.result(g, vals, s.world), AfterCall(isa, g, vals, s.world);
        AgreeUpdated(f, marked, s.env, s'.env, x, n);
        if g in pure {
          PureCall(isa, pure, g, vals, s.world);
        }
        BodyAgrees(isa, f, pure, marked, code[1..], State(s.env[x := n], w),
                   if x in marked then State(s'.env[x := n], w) else s');
      case BranchK =>
      case ReturnK =>
    }
  }

  ghost predicate Complete(f: Func) {
    && f.entry in f.blocks && f.succ.Keys == f.blocks.Keys && f.pred.Keys == f.blocks.Keys
    && (forall b, x {:trigger x in f.blocks[b]} :: b in f.blocks && x in f.blocks[b] ==> x in f.instrs)
    && (forall b, d {:trigger d in f.succ[b]} :: b in f.blocks && d in f.succ[b] ==> d in f.blocks && b in f.pred[d])
    && forall b, d {:trigger b in f.pred[d]} :: d in f.blocks && b in f.pred[d] ==> b in f.blocks && d in f.succ[b]
  }

  ghost predicate AllCriticalMarked(f: Func, pure: set<nat>, marked: set<nat>) {
    forall b :: b in f.blocks ==> CriticalMarked(f, pure, marked, f.blocks[b])
  }

  /** Sweeping everything that is not marked leaves every run as it was: the same blocks, the same
      effects in the same order, the same result. */
  lemma {:induction false} SweepKeepsRuns(isa: Isa, f: Func, pure: set<nat>, marked: set<nat>, n: nat, p: nat, b: nat,
                                          s: State, s': State)
    requires CallsReturn(isa) && Purity.PureStayInside(isa.m) && PureIn(isa.m, pure) && Complete(f) &&
      Closed(f, marked) &&
      AllCriticalMarked(f, pure, marked) && b in f.blocks && StatesAgree(f, marked, s, s')
    ensures RunFor(isa, Swept(f, marked), n, p, b, s') == RunFor(isa, f, n, p, b, s)
    decreases n
  {
    if n > 0 {
      var g, code := Swept(f, marked), f.blocks[b];
      PhisAgree(f, pure, marked, code, p, s.env, s'.env, s.env, s'.env);
      var t, t' := State(Phis(f, code, p, s.env, s.env), s.world),
        State(Phis(f, Kept(code, marked), p, s'.env, s'.env), s'.world);
      BodyAgrees(isa, f, pure, marked, code, t, t');
      SweptRunsAlike(isa, f, marked, b, p, s', t');
      var (u, e) := Body(isa, f, code, t);
      assert SuccOf(g, b) == SuccOf(f, b) == f.succ[b];
      if e.Chooses? && e.choice < |f.succ[b]| {
        assert f.succ[b][e.choice] in f.succ[b];
        SweepKeepsRuns(isa, f, pure, marked, n - 1, b, f.succ[b][e.choice], u, Body(isa, f, Kept(code, marked), t').0);
      }
    }
  }

  lemma SweptRunsAlike(isa: Isa, f: Func, marked: set<nat>, b: nat, p: nat, s': State, t': State)
    requires b in f.blocks && t' == State(Phis(f, Kept(f.blocks[b], marked), p, s'.env, s'.env), s'.world)
    ensures CodeOf(Swept(f, marked), b) == Kept(f.blocks[b], marked)
    ensures Phis(Swept(f, marked), Kept(f.blocks[b], marked), p, s'.env, s'.env) == t'.env
    ensures Body(isa, Swept(f, marked), Kept(f.blocks[b], marked), t') == Body(isa, f, Kept(f.blocks[b], marked), t')
  {
    SamePhis(f, Swept(f, marked), Kept(f.blocks[b], marked), p, s'.env, s'.env);
    SameBody(isa, f, Swept(f, marked), Kept(f.blocks[b], marked), t');
  }

  lemma {:induction false} SamePhis(f: Func, g: Func, code: seq<nat>, p: nat, env0: Env, env: Env)
    requires g.instrs == f.instrs
    ensures Phis(g, code, p, env0, env) == Phis(f, code, p, env0, env)
    decreases |code|
  {
    if code != [] {
      var i := InstrOf(f, code[0]);
      assert InstrOf(g, code[0]) == i;
      SamePhis(f, g, code[1..], p, env0,
               if i.kind.PhiK? then env[code[0] := Eval(env0, PhiOperand(i.kind.preds, i.args, p))] else env);
    }
  }

  lemma {:induction false} SameBody(isa: Isa, f: Func, g: Func, code: seq<nat>, s: State)
    requires g.instrs == f.instrs
    ensures Body(isa, g, code, s) == Body(isa, f, code, s)
    decreases |code|
  {
    if code != [] {
      var i := InstrOf(f, code[0]);
      assert InstrOf(g, code[0]) == i;
      var vals := EvalAll(s.env, i.args);
      match i.kind
      case PhiK(_) => SameBody(isa, f, g, code[1..], s);
      case OpK => SameBody(isa, f, g, code[1..], s.(env := s.env[code[0] := isa.value(i.code, vals, s.world)]));
      case StoreK => SameBody(isa, f, g, code[1..], s.(world := isa.store(i.code, vals, s.world)));
      case CallK(h) =>
        SameBody(isa, f, g, code[1..], State(s.env[code[0] := isa.result(h, vals, s.world)],
                                             AfterCall(isa, h, vals, s.world)));
      case BranchK =>
      case ReturnK =>
    }
  }

  // ----- removing blocks -----

  function Others(bs: seq<nat>, b: nat): seq<nat> {
    if bs == [] then [] else (if bs[0] == b then [] else [bs[0]]) + Others(bs[1..], b)
  }

  lemma {:induction false} OthersMember(bs: seq<nat>, b: nat, x: nat)
    ensures x in Others(bs, b) <==> x in bs && x != b
    decreases |bs|
  {
    if bs != [] {
      OthersMember(bs[1..], b, x);
      assert x in bs <==> x == bs[0] || x in bs[1..];
    }
  }

  function Without(f: Func, b: nat): Func {
    f.(blocks := f.blocks - {b}, succ := map d | d in f.succ && d != b :: Others(f.succ[d], b),
       pred := map d | d in f.pred && d != b :: Others(f.pred[d], b))
  }

  /** A block without predecessors, other than the entry. */
  predicate IsUnreached(f: Func, b: nat) { b in f.blocks && b != f.entry && b in f.pred && f.pred[b] == [] }

  lemma {:induction false} OthersSame(bs: seq<nat>, b: nat)
    requires b !in bs
    ensures Others(bs, b) == bs
    decreases |bs|
  {
    if bs != [] {
      assert bs[0] in bs && forall x :: x in bs[1..] ==> x in bs;
      OthersSame(bs[1..], b);
    }
  }

  lemma WithoutIsComplete(f: Func, b: nat)
    requires Complete(f) && IsUnreached(f, b)
    ensures Complete(Without(f, b))
  {
    var g := Without(f, b);
    forall c, d | c in g.blocks
      ensures (d in g.succ[c] <==> d in f.succ[c] && d != b) && (d in g.pred[c] <==> d in f.pred[c] && d != b)
    {
      OthersMember(f.succ[c], b, d);
      OthersMember(f.pred[c], b, d);
    }
  }

  /** Nothing ever gets to such a block. */
  lemma {:induction false} WithoutKeepsRuns(isa: Isa, f: Func, b: nat, n: nat, p: nat, c: nat, s: State)
    requires Complete(f) && IsUnreached(f, b) && c in f.blocks && c != b
    ensures RunFor(isa, Without(f, b), n, p, c, s) == RunFor(isa, f, n, p, c, s)
    decreases n
  {
    if n > 0 {
      var g, code := Without(f, b), f.blocks[c];
      SuccessorsStay(f, b, c);
      SamePhis(f, g, code, p, s.env, s.env);
      var t := State(Phis(f, code, p, s.env, s.env), s.world);
      SameBody(isa, f, g, code, t);
      var (u, e) := Body(isa, f, code, t);
      if e.Chooses? && e.choice < |f.succ[c]| {
        var d := f.succ[c][e.choice];
        assert d in f.succ[c];
        WithoutKeepsRuns(isa, f, b, n - 1, c, d, u);
      }
    }
  }

  lemma SuccessorsStay(f: Func, b: nat, c: nat)
    requires Complete(f) && IsUnreached(f, b) && c in f.blocks && c != b
    ensures CodeOf(Without(f, b), c) == f.blocks[c] && SuccOf(Without(f, b), c) == f.succ[c]
    ensures forall d :: d in f.succ[c] ==> d in f.blocks && d != b
  {
    assert b !in f.succ[c];
    OthersSame(f.succ[c], b);
  }

  /** Two functions of the module m behave the same, in every run from the entry: the same blocks,
      the same world after each, the same result; whatever instructions and called functions do. */
  ghost predicate SameRuns(m: Purity.Module, f: Func, g: Func) {
    && g.entry == f.entry
    && forall isa: Isa, n: nat, p: nat, s: State :: isa.m == m && CallsReturn(isa) && Purity.PureStayInside(m) ==>
         RunFor(isa, g, n, p, f.entry, s) == RunFor(isa, f, n, p, f.entry, s)
  }

  lemma SameRunsReflexive(m: Purity.Module, f: Func)
    ensures SameRuns(m, f, f)
  {
  }

  lemma SameRunsTransitive(m: Purity.Module, f: Func, g: Func, h: Func)
    requires SameRuns(m, f, g) && SameRuns(m, g, h)
    ensures SameRuns(m, f, h)
  {
  }

  lemma SweepSameRuns(m: Purity.Module, f: Func, pure: set<nat>, marked: set<nat>)
    requires PureIn(m, pure) && Complete(f) && Closed(f, marked) && AllCriticalMarked(f, pure, marked)
    ensures SameRuns(m, f, Swept(f, marked))
  {
    forall isa: Isa, n: nat, p: nat, s: State | isa.m == m && CallsReturn(isa) && Purity.PureStayInside(m)
      ensures RunFor(isa, Swept(f, marked), n, p, f.entry, s) == RunFor(isa, f, n, p, f.entry, s)
    {
      SweepKeepsRuns(isa, f, pure, marked, n, p, f.entry, s, s);
    }
  }

  lemma WithoutSameRuns(m: Purity.Module, f: Func, b: nat)
    requires Complete(f) && IsUnreached(f, b)
    ensures SameRuns(m, f, Without(f, b))
  {
    forall isa: Isa, n: nat, p: nat, s: State
      ensures RunFor(isa, Without(f, b), n, p, f.entry, s) == RunFor(isa, f, n, p, f.entry, s)
    {
      WithoutKeepsRuns(isa, f, b, n, p, f.entry, s);
    }
  }

  lemma {:induction false} KeptMember(code: seq<nat>, marked: set<nat>, x: nat)
    ensures x in Kept(code, marked) <==> x in code && x in marked
    decreases |code|
  {
    if code != [] {
      KeptMember(code[1..], marked, x);
      assert x in code <==> x == code[0] || x in code[1..];
    }
  }

  lemma SweptMember(f: Func, marked: set<nat>, b: nat, x: nat)
    requires b in f.blocks
    ensures x in Swept(f, marked).blocks[b] <==> x in f.blocks[b] && x in marked
  {
    KeptMember(f.blocks[b], marked, x);
  }

  lemma SweptIsComplete(f: Func, marked: set<nat>)
    requires Complete(f)
    ensures Complete(Swept(f, marked))
  {
    var g := Swept(f, marked);
    forall b, x {:trigger x in g.blocks[b]} | b in g.blocks && x in g.blocks[b]
      ensures x in g.instrs
    {
      SweptMember(f, marked, b, x);
      assert x in f.blocks[b];
    }
  }

  // ----- how much is left -----

  /** The places of instructions, and of blocks. */
  function Places(f: Func): set<(nat, int)> {
    set b, k | b in f.blocks && -1 <= k < |f.blocks[b]| :: (b, k)
  }

  lemma {:induction false} KeptIsShorter(code: seq<nat>, marked: set<nat>)
    ensures |Kept(code, marked)| <= |code|
    decreases |code|
  {
    if code != [] {
      KeptIsShorter(code[1..], marked);
    }
  }

  lemma {:induction false} KeptIsAll(code: seq<nat>, marked: set<nat>)
    requires |Kept(code, marked)| == |code|
    ensures Kept(code, marked) == code
    decreases |code|
  {
    if code != [] {
      KeptIsShorter(code[1..], marked);
      assert code == [code[0]] + code[1..];
      KeptIsAll(code[1..], marked);
    }
  }

  lemma PlaceOf(f: Func, b: nat, k: int)
    ensures (b, k) in Places(f) <==> b in f.blocks && -1 <= k < |f.blocks[b]|
  {
  }

  lemma SweptIsSmaller(f: Func, marked: set<nat>, b: nat)
    requires b in f.blocks && |Kept(f.blocks[b], marked)| < |f.blocks[b]|
    ensures |Places(Swept(f, marked))| < |Places(f)|
  {
    var g := Swept(f, marked);
    forall c, k | (c, k) in Places(g)
      ensures (c, k) in Places(f)
    {
      PlaceOf(g, c, k);
      KeptIsShorter(f.blocks[c], marked);
      PlaceOf(f, c, k);
    }
    PlaceOf(f, b, |f.blocks[b]| - 1);
    PlaceOf(g, b, |f.blocks[b]| - 1);
    FewerPlaces(Places(g), Places(f), (b, |f.blocks[b]| - 1));
  }

  lemma FewerPlaces(s: set<(nat, int)>, s': set<(nat, int)>, x: (nat, int))
    requires s <= s' && x in s' && x !in s
    ensures |s| < |s'|
  {
    assert s' == s + (s' - s) && x in s' - s;
  }

  lemma WithoutIsSmaller(f: Func, b: nat)
    requires b in f.blocks
    ensures |Places(Without(f, b))| < |Places(f)|
  {
    var g := Without(f, b);
    forall c, k | (c, k) in Places(g)
      ensures (c, k) in Places(f)
    {
      PlaceOf(g, c, k);
      PlaceOf(f, c, k);
    }
    PlaceOf(f, b, -1);
    PlaceOf(g, b, -1);
    FewerPlaces(Places(g), Places(f), (b, -1));
  }
}
