// The function after renaming, and the proof that it computes what the original computes.

module MemoryToSsa {
  import opened FlowGraph
  import opened DomTree
  import opened Ssa
  import opened Renaming

  function ReplacedAll(c: Ctx, args: seq<Operand>): seq<Operand> {
    seq(|args|, k requires 0 <= k < |args| => Replaced(c, args[k]))
  }

  /** What is left of an instruction: loads and stores of local variables go. */
  function NewInstr(c: Ctx, i: Instr): seq<Instr> {
    match i
    case Alloca(_) => [i]
    case Load(_, _) => []
    case Store(_, _) => []
    case Op(x, code, args) => [Op(x, code, ReplacedAll(c, args))]
  }

  function NewBody(c: Ctx, code: seq<Instr>): seq<Instr> {
    if code == [] then [] else NewBody(c, code[..|code| - 1]) + NewInstr(c, code[|code| - 1])
  }

  /** What the phi of v in b gets from p. */
  function PhiArg(c: Ctx, p: nat, v: nat): Option<Operand>
    requires p in c.t.up
  {
    Cur(c, p, |Code(c, p)|, v)
  }

  function NewCode(c: Ctx): Func
    requires Complete(c.f)
  {
    Func(c.f.g, map b | b in c.f.g.blocks :: NewBody(c, Code(c, b)),
         map b | b in c.f.g.blocks :: Replaced(c, c.f.term[b]))
  }

  function PhisOf(c: Ctx, b: nat): set<nat> {
    set v | v in c.phi && b in c.phi[v]
  }

  ghost predicate IsResult(c: Ctx, q: SsaFunc)
    requires Complete(c.f) && TreeOk(c.t) && Total(c.f.g, c.t)
  {
    && q.code == NewCode(c)
    && q.phis.Keys == c.f.g.blocks && (forall b :: b in c.f.g.blocks ==> q.phis[b] == PhisOf(c, b))
    && forall p: nat, b: nat, v: nat {:trigger (p, b, v) in q.args} ::
      p in c.f.g.blocks && b in c.f.g.succ[p] && HasPhi(c, b, v) ==>
         if PhiArg(c, p, v).Some? then (p, b, v) in q.args && q.args[(p, b, v)] == PhiArg(c, p, v).value
         else (p, b, v) !in q.args
  }

  // ----- corresponding states -----

  /** Every variable that has been stored to is found in the value that stands for it. */
  ghost predicate VarsHold(c: Ctx, b: nat, k: nat, vars: map<nat, int>, env: Env)
    requires WellFormed(c) && b in c.f.g.blocks && k <= |Code(c, b)|
  {
    forall v {:trigger v in vars} :: v in vars && v in c.home && Before(c, c.home[v], b, k) ==>
      Cur(c, b, k, v).Some? && Eval(env, Cur(c, b, k, v).value) == vars[v]
  }

  /** Every value that has been computed is found in what it is replaced by. */
  ghost predicate ValuesHold(c: Ctx, b: nat, k: nat, env: Env, env': Env)
    requires WellFormed(c) && b in c.f.g.blocks && k <= |Code(c, b)|
  {
    forall x {:trigger Replaced(c, Ref(Val(x)))} :: x in c.site && Before(c, c.site[x], b, k) ==>
      Eval(env', Replaced(c, Ref(Val(x)))) == Eval(env, Ref(Val(x)))
  }

  ghost predicate Corresponds(c: Ctx, b: nat, k: nat, s: State, s': State)
    requires WellFormed(c) && b in c.f.g.blocks && k <= |Code(c, b)|
  {
    && s.Live? && s'.Live? && s'.world == s.world
    && VarsHold(c, b, k, s.vars, s'.env) && ValuesHold(c, b, k, s.env, s'.env)
  }

  lemma OperandCorresponds(c: Ctx, b: nat, k: nat, op: Operand, env: Env, env': Env)
    requires WellFormed(c) && b in c.f.g.blocks && k <= |Code(c, b)|
    requires OperandOk(c, b, k, op) && ValuesHold(c, b, k, env, env')
    ensures Eval(env', Replaced(c, op)) == Eval(env, op)
  {
    if op.Ref? {
      assert op == Ref(Val(op.name.id));
    }
  }

  lemma ReplacedSettled(c: Ctx, b: nat, k: nat, x: nat)
    requires WellFormed(c) && b in c.f.g.blocks && k <= |Code(c, b)| && x in c.site && Before(c, c.site[x], b, k)
    ensures Settled(c, b, k, Replaced(c, Ref(Val(x))))
  {
    var op := Ref(Val(x));
    SubstIsReplaced(c, b, k, op);
    SubstSettled(c, b, k, op, Replaced(c, op));
  }

  /** What stands for something in front of an instruction is not what the instruction computes. */
  lemma SettledIsNotNew(c: Ctx, b: nat, k: nat, op: Operand, x: nat, env: Env, n: int)
    requires WellFormed(c) && b in c.f.g.blocks && Settled(c, b, k, op) && x in c.site && c.site[x] == (b, k)
    ensures Eval(env[Val(x) := n], op) == Eval(env, op)
  {
  }

  lemma VarsStay(c: Ctx, b: nat, k: nat, vars: map<nat, int>, env: Env, x: nat, n: int)
    requires WellFormed(c) && b in c.f.g.blocks && k <= |Code(c, b)| && x in c.site && c.site[x] == (b, k)
    requires VarsHold(c, b, k, vars, env)
    ensures VarsHold(c, b, k, vars, env[Val(x) := n])
  {
    forall v {:trigger v in vars} | v in vars && v in c.home && Before(c, c.home[v], b, k)
      ensures Cur(c, b, k, v).Some? && Eval(env[Val(x) := n], Cur(c, b, k, v).value) == vars[v]
    {
      CurSettled(c, b, k, v, Cur(c, b, k, v).value);
      SettledIsNotNew(c, b, k, Cur(c, b, k, v).value, x, env, n);
    }
  }

  /** Positions are passed one at a time. */
  lemma BeforeNext(c: Ctx, s: Site, b: nat, k: nat)
    requires TreeOk(c.t) && b in c.t.up
    ensures Before(c, s, b, k + 1) <==> Before(c, s, b, k) || s == (b, k)
  {
  }

  lemma CurNext(c: Ctx, b: nat, k: nat, v: nat)
    requires b in c.t.up && k < |Code(c, b)| && !(Code(c, b)[k].Store? && Code(c, b)[k].v == v)
    ensures Cur(c, b, k + 1, v) == Cur(c, b, k, v)
  {
  }

  lemma SiteHere(c: Ctx, b: nat, k: nat, x: nat)
    requires WellFormed(c) && b in c.f.g.blocks && k < |Code(c, b)| && x in c.site && c.site[x] == (b, k)
    ensures match Code(c, b)[k] case Load(y, _) => y == x case Op(y, _, _) => y == x case _ => false
  {
    assert DefinesAt(c, x, c.site[x]);
  }

  lemma HomeHere(c: Ctx, b: nat, k: nat, v: nat)
    requires WellFormed(c) && b in c.f.g.blocks && k < |Code(c, b)| && v in c.home && c.home[v] == (b, k)
    ensures Code(c, b)[k] == Alloca(v)
  {
    assert AllocatesAt(c, v, c.home[v]);
  }

  // ----- one instruction -----

  lemma AllocaStep(ops: Ops, c: Ctx, b: nat, k: nat, s: State, s': State, v: nat)
    requires WellFormed(c) && b in c.f.g.blocks && k < |Code(c, b)| && Code(c, b)[k] == Alloca(v)
    requires Corresponds(c, b, k, s, s')
    ensures Corresponds(c, b, k + 1, Step(ops, Alloca(v), s), Step(ops, Alloca(v), s'))
  {
    var vars := s.vars - {v};
    forall u {:trigger u in vars} | u in vars && u in c.home && Before(c, c.home[u], b, k + 1)
      ensures Cur(c, b, k + 1, u).Some? && Eval(s'.env, Cur(c, b, k + 1, u).value) == vars[u]
    {
      BeforeNext(c, c.home[u], b, k);
      if c.home[u] == (b, k) {
        HomeHere(c, b, k, u);
      }
      CurNext(c, b, k, u);
    }
    forall x {:trigger Replaced(c, Ref(Val(x)))} | x in c.site && Before(c, c.site[x], b, k + 1)
      ensures Eval(s'.env, Replaced(c, Ref(Val(x)))) == Eval(s.env, Ref(Val(x)))
    {
      BeforeNext(c, c.site[x], b, k);
      if c.site[x] == (b, k) {
        SiteHere(c, b, k, x);
      }
    }
  }

  /** Unless an instruction stores to v or allocates it, what holds of the variables goes on to hold. */
  lemma VarsGoOn(c: Ctx, b: nat, k: nat, vars: map<nat, int>, env: Env)
    requires WellFormed(c) && b in c.f.g.blocks && k < |Code(c, b)| && VarsHold(c, b, k, vars, env)
    requires Code(c, b)[k].Load? || Code(c, b)[k].Op?
    ensures VarsHold(c, b, k + 1, vars, env)
  {
    forall u {:trigger u in vars} | u in vars && u in c.home && Before(c, c.home[u], b, k + 1)
      ensures Cur(c, b, k + 1, u).Some? && Eval(env, Cur(c, b, k + 1, u).value) == vars[u]
    {
      BeforeNext(c, c.home[u], b, k);
      if c.home[u] == (b, k) {
        HomeHere(c, b, k, u);
      }
      CurNext(c, b, k, u);
    }
  }

  lemma LoadReplaced(c: Ctx, b: nat, k: nat, x: nat, v: nat)
    requires WellFormed(c) && b in c.f.g.blocks && k < |Code(c, b)| && Code(c, b)[k] == Load(x, v)
    ensures x in c.site && c.site[x] == (b, k) && v in c.home && Before(c, c.home[v], b, k)
    ensures Replaced(c, Ref(Val(x))) == if Cur(c, b, k, v).Some? then Cur(c, b, k, v).value else Ref(Val(x))
  {
    assert InstrOk(c, b, k, Code(c, b)[k]);
  }

  lemma LoadedValue(c: Ctx, b: nat, k: nat, s: State, s': State, x: nat, v: nat)
    requires WellFormed(c) && b in c.f.g.blocks && k < |Code(c, b)| && Code(c, b)[k] == Load(x, v)
    requires Corresponds(c, b, k, s, s') && v in s.vars
    ensures Eval(s'.env, Replaced(c, Ref(Val(x)))) == s.vars[v]
  {
    LoadReplaced(c, b, k, x, v);
  }

  lemma EvalUpdated(env: Env, x: nat, n: int, y: nat)
    ensures Eval(env[Val(x) := n], Ref(Val(y))) == if y == x then n else Eval(env, Ref(Val(y)))
  {
  }

  lemma ValueHolds(c: Ctx, b: nat, k: nat, env: Env, env': Env, y: nat)
    requires WellFormed(c) && b in c.f.g.blocks && k <= |Code(c, b)| && ValuesHold(c, b, k, env, env')
    requires y in c.site && Before(c, c.site[y], b, k)
    ensures Eval(env', Replaced(c, Ref(Val(y)))) == Eval(env, Ref(Val(y)))
  {
  }

  lemma LoadIsHere(c: Ctx, b: nat, k: nat, x: nat, v: nat, y: nat)
    requires WellFormed(c) && b in c.f.g.blocks && k < |Code(c, b)| && Code(c, b)[k] == Load(x, v) && y in c.site
    ensures c.site[y] == (b, k) <==> y == x
  {
    assert InstrOk(c, b, k, Code(c, b)[k]);
    if c.site[y] == (b, k) {
      SiteHere(c, b, k, y);
    }
  }

  lemma AfterLoad(c: Ctx, b: nat, k: nat, s: State, s': State, x: nat, v: nat, y: nat, n: int)
    requires WellFormed(c) && b in c.f.g.blocks && k < |Code(c, b)| && Code(c, b)[k] == Load(x, v)
    requires Corresponds(c, b, k, s, s') && v in s.vars && n == s.vars[v]
    requires y in c.site && Before(c, c.site[y], b, k + 1)
    ensures Eval(s'.env, Replaced(c, Ref(Val(y)))) == Eval(s.env[Val(x) := n], Ref(Val(y)))
  {
    BeforeNext(c, c.site[y], b, k);
    LoadIsHere(c, b, k, x, v, y);
    EvalUpdated(s.env, x, n, y);
    if y == x {
      LoadedValue(c, b, k, s, s', x, v);
    } else {
      ValueHolds(c, b, k, s.env, s'.env, y);
    }
  }

  lemma LoadStep(ops: Ops, c: Ctx, b: nat, k: nat, s: State, s': State, x: nat, v: nat)
    requires WellFormed(c) && b in c.f.g.blocks && k < |Code(c, b)| && Code(c, b)[k] == Load(x, v)
    requires Corresponds(c, b, k, s, s') && v in s.vars
    ensures Corresponds(c, b, k + 1, Step(ops, Load(x, v), s), s')
  {
    VarsGoOn(c, b, k, s.vars, s'.env);
    forall y {:trigger Replaced(c, Ref(Val(y)))} | y in c.site && Before(c, c.site[y], b, k + 1)
      ensures Eval(s'.env, Replaced(c, Ref(Val(y)))) == Eval(s.env[Val(x) := s.vars[v]], Ref(Val(y)))
    {
      AfterLoad(c, b, k, s, s', x, v, y, s.vars[v]);
    }
  }

  lemma StoreStep(ops: Ops, c: Ctx, b: nat, k: nat, s: State, s': State, v: nat, op: Operand)
    requires WellFormed(c) && b in c.f.g.blocks && k < |Code(c, b)| && Code(c, b)[k] == Store(v, op)
    requires Corresponds(c, b, k, s, s')
    ensures Corresponds(c, b, k + 1, Step(ops, Store(v, op), s), s')
  {
    assert InstrOk(c, b, k, Code(c, b)[k]);
    OperandCorresponds(c, b, k, op, s.env, s'.env);
    SubstIsReplaced(c, b, k, op);
    var vars := s.vars[v := Eval(s.env, op)];
    forall u {:trigger u in vars} | u in vars && u in c.home && Before(c, c.home[u], b, k + 1)
      ensures Cur(c, b, k + 1, u).Some? && Eval(s'.env, Cur(c, b, k + 1, u).value) == vars[u]
    {
      BeforeNext(c, c.home[u], b, k);
      if c.home[u] == (b, k) {
        HomeHere(c, b, k, u);
      }
      if u != v {
        assert u in s.vars;
        CurNext(c, b, k, u);
      }
    }
    forall x {:trigger Replaced(c, Ref(Val(x)))} | x in c.site && Before(c, c.site[x], b, k + 1)
      ensures Eval(s'.env, Replaced(c, Ref(Val(x)))) == Eval(s.env, Ref(Val(x)))
    {
      BeforeNext(c, c.site[x], b, k);
      if c.site[x] == (b, k) {
        SiteHere(c, b, k, x);
      }
    }
  }

  lemma ArgsCorrespond(c: Ctx, b: nat, k: nat, args: seq<Operand>, env: Env, env': Env)
    requires WellFormed(c) && b in c.f.g.blocks && k <= |Code(c, b)| && ValuesHold(c, b, k, env, env')
    requires forall a :: a in args ==> OperandOk(c, b, k, a)
    ensures EvalAll(env', ReplacedAll(c, args)) == EvalAll(env, args)
  {
    forall j | 0 <= j < |args|
      ensures Eval(env', Replaced(c, args[j])) == Eval(env, args[j])
    {
      assert args[j] in args;
      OperandCorresponds(c, b, k, args[j], env, env');
    }
  }

  lemma OpNotReplaced(c: Ctx, b: nat, k: nat, x: nat)
    requires WellFormed(c) && b in c.f.g.blocks && k < |Code(c, b)| && Code(c, b)[k].Op? && Code(c, b)[k].dst == x
    ensures x in c.site && c.site[x] == (b, k) && Replaced(c, Ref(Val(x))) == Ref(Val(x))
  {
    assert InstrOk(c, b, k, Code(c, b)[k]);
  }

  lemma OpIsHere(c: Ctx, b: nat, k: nat, x: nat, y: nat)
    requires WellFormed(c) && b in c.f.g.blocks && k < |Code(c, b)| && Code(c, b)[k].Op? && Code(c, b)[k].dst == x &&
      y in c.site
    ensures c.site[y] == (b, k) <==> y == x
  {
    OpNotReplaced(c, b, k, x);
    if c.site[y] == (b, k) {
      SiteHere(c, b, k, y);
    }
  }

  lemma AfterOp(c: Ctx, b: nat, k: nat, env: Env, env': Env, x: nat, n: int, y: nat)
    requires WellFormed(c) && b in c.f.g.blocks && k < |Code(c, b)| && Code(c, b)[k].Op? && Code(c, b)[k].dst == x
    requires ValuesHold(c, b, k, env, env') && y in c.site && Before(c, c.site[y], b, k + 1)
    ensures Eval(env'[Val(x) := n], Replaced(c, Ref(Val(y)))) == Eval(env[Val(x) := n], Ref(Val(y)))
  {
    BeforeNext(c, c.site[y], b, k);
    OpIsHere(c, b, k, x, y);
    EvalUpdated(env, x, n, y);
    OpNotReplaced(c, b, k, x);
    if y != x {
      ReplacedSettled(c, b, k, y);
      SettledIsNotNew(c, b, k, Replaced(c, Ref(Val(y))), x, env', n);
      ValueHolds(c, b, k, env, env', y);
    }
  }

  lemma ValuesGoOn(c: Ctx, b: nat, k: nat, env: Env, env': Env, x: nat, n: int)
    requires WellFormed(c) && b in c.f.g.blocks && k < |Code(c, b)| && Code(c, b)[k].Op? && Code(c, b)[k].dst == x
    requires ValuesHold(c, b, k, env, env')
    ensures ValuesHold(c, b, k + 1, env[Val(x) := n], env'[Val(x) := n])
  {
    forall y {:trigger Replaced(c, Ref(Val(y)))} | y in c.site && Before(c, c.site[y], b, k + 1)
      ensures Eval(env'[Val(x) := n], Replaced(c, Ref(Val(y)))) == Eval(env[Val(x) := n], Ref(Val(y)))
    {
      AfterOp(c, b, k, env, env', x, n, y);
    }
  }

  lemma OpStep(ops: Ops, c: Ctx, b: nat, k: nat, s: State, s': State, x: nat, code: nat, args: seq<Operand>)
    requires WellFormed(c) && b in c.f.g.blocks && k < |Code(c, b)| && Code(c, b)[k] == Op(x, code, args)
    requires Corresponds(c, b, k, s, s')
    ensures Corresponds(c, b, k + 1, Step(ops, Op(x, code, args), s), Step(ops, Op(x, code, ReplacedAll(c, args)), s'))
  {
    assert InstrOk(c, b, k, Code(c, b)[k]);
    ArgsCorrespond(c, b, k, args, s.env, s'.env);
    var (n, w) := ops(code, EvalAll(s.env, args), s.world);
    VarsStay(c, b, k, s.vars, s'.env, x, n);
    VarsGoOn(c, b, k, s.vars, s'.env[Val(x) := n]);
    ValuesGoOn(c, b, k, s.env, s'.env, x, n);
  }

  lemma StepsOne(ops: Ops, i: Instr, s: State)
    ensures Steps(ops, [i], s) == Step(ops, i, s)
  {
    assert [i][..0] == [];
  }

  /** What is left of an instruction, run on its own. */
  lemma LeftSteps(ops: Ops, c: Ctx, i: Instr, s': State)
    ensures i.Load? || i.Store? ==> Steps(ops, NewInstr(c, i), s') == s'
    ensures i.Alloca? ==> Steps(ops, NewInstr(c, i), s') == Step(ops, i, s')
    ensures i.Op? ==> Steps(ops, NewInstr(c, i), s') == Step(ops, Op(i.dst, i.code, ReplacedAll(c, i.args)), s')
  {
    match i
    case Alloca(_) => StepsOne(ops, i, s');
    case Op(x, code, args) => StepsOne(ops, Op(x, code, ReplacedAll(c, args)), s');
    case _ =>
  }

  lemma InstrCorresponds(ops: Ops, c: Ctx, b: nat, k: nat, i: Instr, s: State, s': State, t: State, t': State)
    requires WellFormed(c) && b in c.f.g.blocks && k < |Code(c, b)| && Corresponds(c, b, k, s, s')
    requires i == Code(c, b)[k] && t == Step(ops, i, s) && t.Live? && t' == Steps(ops, NewInstr(c, i), s')
    ensures Corresponds(c, b, k + 1, t, t')
  {
    LeftSteps(ops, c, i, s');
    match i
    case Alloca(v) =>
      AllocaStep(ops, c, b, k, s, s', v);
    case Load(x, v) =>
      LoadStep(ops, c, b, k, s, s', x, v);
    case Store(v, op) =>
      StoreStep(ops, c, b, k, s, s', v, op);
    case Op(x, code, args) =>
      OpStep(ops, c, b, k, s, s', x, code, args);
  }

  // ----- a block -----

  lemma {:induction false} StepsAppend(ops: Ops, a: seq<Instr>, b: seq<Instr>, s: State)
    ensures Steps(ops, a + b, s) == Steps(ops, b, Steps(ops, a, s))
    decreases |b|
  {
    if b == [] {
      assert a + b == a;
    } else {
      assert (a + b)[..|a + b| - 1] == a + b[..|b| - 1];
      StepsAppend(ops, a, b[..|b| - 1], s);
    }
  }

  lemma TakeNext(code: seq<Instr>, k: nat)
    requires k < |code|
    ensures code[..k + 1][..k] == code[..k] && code[..k + 1][k] == code[k] && |code[..k + 1]| == k + 1
  {
  }

  lemma {:induction false} PrefixCorresponds(ops: Ops, c: Ctx, b: nat, k: nat, s: State, s': State)
    requires WellFormed(c) && b in c.f.g.blocks && k <= |Code(c, b)| && Corresponds(c, b, 0, s, s')
    requires Steps(ops, Code(c, b)[..k], s).Live?
    ensures Corresponds(c, b, k, Steps(ops, Code(c, b)[..k], s), Steps(ops, NewBody(c, Code(c, b)[..k]), s'))
  {
    var code := Code(c, b);
    if k > 0 {
      TakeNext(code, k - 1);
      PrefixCorresponds(ops, c, b, k - 1, s, s');
      StepsAppend(ops, NewBody(c, code[..k - 1]), NewInstr(c, code[k - 1]), s');
      InstrCorresponds(ops, c, b, k - 1, code[k - 1], Steps(ops, code[..k - 1], s),
                       Steps(ops, NewBody(c, code[..k - 1]), s'),
                       Steps(ops, code[..k], s), Steps(ops, NewBody(c, code[..k]), s'));
    }
  }

  lemma BlockCorresponds(ops: Ops, c: Ctx, b: nat, s: State, s': State)
    requires WellFormed(c) && b in c.f.g.blocks && Corresponds(c, b, 0, s, s')
    requires Steps(ops, Code(c, b), s).Live?
    ensures Corresponds(c, b, |Code(c, b)|, Steps(ops, Code(c, b), s), Steps(ops, NewBody(c, Code(c, b)), s'))
  {
    assert Code(c, b)[..|Code(c, b)|] == Code(c, b);
    PrefixCorresponds(ops, c, b, |Code(c, b)|, s, s');
  }

  // ----- an edge -----

  lemma EnterKeeps(q: SsaFunc, env: Env, p: nat, b: nat, op: Operand)
    requires op.Ref? && op.name.Phi? ==> op.name.block != b
    ensures Eval(Enter(q, env, p, b), op) == Eval(env, op)
  {
  }

  lemma EnterSets(q: SsaFunc, env: Env, p: nat, b: nat, v: nat)
    requires b in q.phis && v in q.phis[b]
    ensures Eval(Enter(q, env, p, b), Ref(Phi(b, v))) == PhiValue(q, env, p, b, v)
  {
  }

  /** What comes before the head of b comes before the end of each predecessor. */
  lemma BeforeOnEdge(c: Ctx, s: Site, p: nat, b: nat)
    requires WellFormed(c) && b in c.f.g.blocks && p in c.f.g.pred[b] && Before(c, s, b, 0)
    requires s.0 in c.f.g.blocks && s.1 < |Code(c, s.0)|
    ensures p in c.f.g.blocks && Before(c, s, p, |Code(c, p)|)
  {
    assert s.0 in Above(c.t, b) <==> Dominates(c.f.g, s.0, b);
    DominatesPredecessors(c.f.g, s.0, b, p);
    assert s.0 in Above(c.t, p) <==> Dominates(c.f.g, s.0, p);
  }

  /** What stands for something above b is no phi of b. */
  lemma SettledAbove(c: Ctx, d: nat, k: nat, b: nat, op: Operand)
    requires WellFormed(c) && b in c.f.g.blocks && d in Above(c.t, b) && d in c.t.up && d != b && Settled(c, d, k, op)
    ensures op.Ref? && op.name.Phi? ==> op.name.block != b
  {
    NotAboveItself(c, b, d);
  }

  lemma ReplacementAbove(c: Ctx, b: nat, x: nat)
    requires WellFormed(c) && b in c.f.g.blocks && x in c.site && Before(c, c.site[x], b, 0)
    ensures var op := Replaced(c, Ref(Val(x))); op.Ref? && op.name.Phi? ==> op.name.block != b
  {
    var op, s := Replaced(c, Ref(Val(x))), c.site[x];
    SiteKnown(c, b, 0, x);
    if op != Ref(Val(x)) {
      CurSettled(c, s.0, s.1, Code(c, s.0)[s.1].v, op);
      SettledAbove(c, s.0, s.1, b, op);
    }
  }

  lemma ValuesCross(c: Ctx, q: SsaFunc, p: nat, b: nat, env: Env, env': Env)
    requires WellFormed(c) && b in c.f.g.blocks && p in c.f.g.pred[b] && p in c.f.g.blocks
    requires ValuesHold(c, p, |Code(c, p)|, env, env')
    ensures ValuesHold(c, b, 0, env, Enter(q, env', p, b))
  {
    forall x {:trigger Replaced(c, Ref(Val(x)))} | x in c.site && Before(c, c.site[x], b, 0)
      ensures Eval(Enter(q, env', p, b), Replaced(c, Ref(Val(x)))) == Eval(env, Ref(Val(x)))
    {
      assert DefinesAt(c, x, c.site[x]);
      BeforeOnEdge(c, c.site[x], p, b);
      ReplacementAbove(c, b, x);
      EnterKeeps(q, env', p, b, Replaced(c, Ref(Val(x))));
    }
  }

  lemma VarCrosses(c: Ctx, q: SsaFunc, p: nat, b: nat, v: nat, n: int, env': Env)
    requires WellFormed(c) && PhisPlaced(c) && IsResult(c, q) && b in c.f.g.blocks && p in c.f.g.pred[b] &&
      p in c.f.g.blocks
    requires v in c.home && Before(c, c.home[v], b, 0)
    requires PhiArg(c, p, v).Some? && Eval(env', PhiArg(c, p, v).value) == n
    ensures Cur(c, b, 0, v).Some? && Eval(Enter(q, env', p, b), Cur(c, b, 0, v).value) == n
  {
    if HasPhi(c, b, v) {
      assert b in c.f.g.succ[p];
      assert v in PhisOf(c, b);
      assert (p, b, v) in q.args;
      EnterSets(q, env', p, b, v);
    } else {
      CurFromPredecessor(c, b, p, v);
      var op := Cur(c, b, 0, v).value;
      UpIsLower(c, b);
      CurSettled(c, Up(c.t, b), |Code(c, Up(c.t, b))|, v, op);
      assert Up(c.t, b) in Above(c.t, b) by { assert Up(c.t, b) in Above(c.t, Up(c.t, b)); }
      assert Hangs(c.t, b);
      SettledAbove(c, Up(c.t, b), |Code(c, Up(c.t, b))|, b, op);
      EnterKeeps(q, env', p, b, op);
    }
  }

  lemma EdgeCorresponds(c: Ctx, q: SsaFunc, p: nat, b: nat, s: State, s': State)
    requires WellFormed(c) && PhisPlaced(c) && IsResult(c, q) && b in c.f.g.blocks && p in c.f.g.pred[b] &&
      p in c.f.g.blocks
    requires Corresponds(c, p, |Code(c, p)|, s, s')
    ensures Corresponds(c, b, 0, s, s'.(env := Enter(q, s'.env, p, b)))
  {
    ValuesCross(c, q, p, b, s.env, s'.env);
    forall v {:trigger v in s.vars} | v in s.vars && v in c.home && Before(c, c.home[v], b, 0)
      ensures Cur(c, b, 0, v).Some? && Eval(Enter(q, s'.env, p, b), Cur(c, b, 0, v).value) == s.vars[v]
    {
      assert AllocatesAt(c, v, c.home[v]);
      BeforeOnEdge(c, c.home[v], p, b);
      VarCrosses(c, q, p, b, v, s.vars[v], s'.env);
    }
  }

  // ----- whole runs -----

  /** Nothing has been computed or stored when the function is entered. */
  lemma EntryCorresponds(c: Ctx, env: Env, env': Env, w: World)
    requires WellFormed(c)
    ensures Corresponds(c, c.f.g.entry, 0, Live(env, map[], w), Live(env', map[], w))
  {
  }

  ghost predicate SameRun(c: Ctx, r: Run, r': Run)
    requires WellFormed(c)
  {
    match r
    case At(b, s) => b in c.f.g.blocks && r'.At? && r'.block == b && Corresponds(c, b, 0, s, r'.state)
    case Done(n, w) => r' == r
    case Fault => true
  }

  lemma ResultRunnable(c: Ctx)
    requires Complete(c.f)
    ensures Runnable(c.f) && Runnable(NewCode(c)) && NewCode(c).g == c.f.g
  {
  }

  lemma LeavingCorresponds(c: Ctx, q: SsaFunc, b: nat, t: State, t': State)
    requires WellFormed(c) && PhisPlaced(c) && IsResult(c, q) && b in c.f.g.blocks && c.f.g.succ[b] != []
    requires Corresponds(c, b, |Code(c, b)|, t, t')
    ensures var d := Target(c.f.g, b, Eval(t.env, c.f.term[b]));
      && d in c.f.g.blocks && Eval(t'.env, Replaced(c, c.f.term[b])) == Eval(t.env, c.f.term[b])
      && Corresponds(c, d, 0, t, t'.(env := Enter(q, t'.env, b, d)))
  {
    OperandCorresponds(c, b, |Code(c, b)|, c.f.term[b], t.env, t'.env);
    var d := Target(c.f.g, b, Eval(t.env, c.f.term[b]));
    assert d in c.f.g.succ[b];
    EdgeCorresponds(c, q, b, d, t, t');
  }

  lemma TurnCorresponds(ops: Ops, c: Ctx, q: SsaFunc, b: nat, s: State, s': State)
    requires WellFormed(c) && PhisPlaced(c) && IsResult(c, q) && b in c.f.g.blocks && Corresponds(c, b, 0, s, s')
    ensures SameRun(c, RunBlock(ops, c.f, b, s), RunSsaBlock(ops, q, b, s'))
  {
    if Steps(ops, Code(c, b), s).Live? {
      BlockCorresponds(ops, c, b, s, s');
      var t, t' := Steps(ops, Code(c, b), s), Steps(ops, NewBody(c, Code(c, b)), s');
      if c.f.g.succ[b] == [] {
        OperandCorresponds(c, b, |Code(c, b)|, c.f.term[b], t.env, t'.env);
      } else {
        LeavingCorresponds(c, q, b, t, t');
      }
    }
  }

  lemma RunForStep(ops: Ops, f: Func, n: nat, b: nat, s: State, r: Run)
    requires n > 0 && Runnable(f) && b in f.g.blocks && s.Live? && r == RunBlock(ops, f, b, s)
    ensures r.At? ==> r.block in f.g.blocks
    ensures RunFor(ops, f, n, b, s) == if r.At? then RunFor(ops, f, n - 1, r.block, r.state) else r
  {
  }

  lemma RunSsaForStep(ops: Ops, q: SsaFunc, n: nat, b: nat, s: State, r: Run)
    requires n > 0 && Runnable(q.code) && b in q.code.g.blocks && s.Live? && r == RunSsaBlock(ops, q, b, s)
    ensures r.At? ==> r.block in q.code.g.blocks
    ensures RunSsaFor(ops, q, n, b, s) == if r.At? then RunSsaFor(ops, q, n - 1, r.block, r.state) else r
  {
  }

  /** SSA construction preserves meaning: unless the original reads a variable that has not been
      stored to, both functions go through the same blocks, with the same operations on the same
      values, for any number of steps, and end with the same result. */
  lemma RenamingPreservesRuns(ops: Ops, c: Ctx, q: SsaFunc, n: nat, b: nat, s: State, s': State)
    requires WellFormed(c) && PhisPlaced(c) && IsResult(c, q) && b in c.f.g.blocks && Corresponds(c, b, 0, s, s')
    requires Runnable(c.f) && Runnable(q.code) && q.code.g == c.f.g
    ensures SameRun(c, RunFor(ops, c.f, n, b, s), RunSsaFor(ops, q, n, b, s'))
  {
    var k, d, t, t' := n, b, s, s';
    while k > 0
      invariant d in c.f.g.blocks && Corresponds(c, d, 0, t, t')
      invariant SameRun(c, RunFor(ops, c.f, k, d, t), RunSsaFor(ops, q, k, d, t')) ==>
        SameRun(c, RunFor(ops, c.f, n, b, s), RunSsaFor(ops, q, n, b, s'))
      decreases k
    {
      var r, r' := RunBlock(ops, c.f, d, t), RunSsaBlock(ops, q, d, t');
      TurnCorresponds(ops, c, q, d, t, t');
      RunForStep(ops, c.f, k, d, t, r);
      RunSsaForStep(ops, q, k, d, t', r');
      if !r.At? {
        return;
      }
      k, d, t, t' := k - 1, r.block, r.state, r'.state;
    }
  }

  /** From the entry, in particular, whatever values are around. */
  lemma SsaPreservesMeaning(ops: Ops, c: Ctx, q: SsaFunc, n: nat, env: Env, env': Env, w: World)
    requires WellFormed(c) && PhisPlaced(c) && IsResult(c, q)
    ensures Runnable(c.f) && Runnable(q.code) && q.code.g == c.f.g
    ensures SameRun(c, RunFor(ops, c.f, n, c.f.g.entry, Live(env, map[], w)),
                    RunSsaFor(ops, q, n, c.f.g.entry, Live(env', map[], w)))
  {
    ResultRunnable(c);
    EntryCorresponds(c, env, env', w);
    RenamingPreservesRuns(ops, c, q, n, c.f.g.entry, Live(env, map[], w), Live(env', map[], w));
  }
}
