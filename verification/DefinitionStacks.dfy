// The stacks of definitions that renaming keeps, one for every variable, and what they mean.

module DefinitionStacks {
  import opened FlowGraph
  import opened DomTree
  import opened Ssa
  import opened Renaming
  import opened MemoryToSsa

  // ----- stacks of definitions -----

  type Stacks = map<nat, seq<Operand>>

  type Args = map<(nat, nat, nat), Operand>

  function Stack(m: Stacks, v: nat): seq<Operand> { if v in m then m[v] else [] }

  function Top(m: Stacks, v: nat): Option<Operand> {
    var s := Stack(m, v);
    if s == [] then None else Some(s[|s| - 1])
  }

  function Push(m: Stacks, v: nat, op: Operand): Stacks { m[v := Stack(m, v) + [op]] }

  function Pop(m: Stacks, v: nat): Stacks
    requires Stack(m, v) != []
  {
    m[v := Stack(m, v)[..|Stack(m, v)| - 1]]
  }

  lemma TopAfterPush(m: Stacks, v: nat, op: Operand, u: nat)
    ensures Top(Push(m, v, op), u) == if u == v then Some(op) else Top(m, u)
  {
  }

  /** The tops of the stacks are the current definitions. */
  ghost predicate Tops(c: Ctx, b: nat, k: nat, m: Stacks)
    requires b in c.t.up && k <= |Code(c, b)|
  {
    forall v {:trigger Top(m, v)} :: Top(m, v) == Cur(c, b, k, v)
  }

  /** The tops with which block b is entered. */
  ghost predicate TopsAbove(c: Ctx, b: nat, m: Stacks)
    requires WellFormed(c) && b in c.f.g.blocks
  {
    forall v {:trigger Top(m, v)} :: Top(m, v) == CurAbove(c, b, v)
  }

  ghost function CurAbove(c: Ctx, b: nat, v: nat): Option<Operand>
    requires WellFormed(c) && b in c.f.g.blocks
  {
    UpKnown(c, b);
    if b == c.f.g.entry then None else Cur(c, Up(c.t, b), |Code(c, Up(c.t, b))|, v)
  }

  lemma UpKnown(c: Ctx, b: nat)
    requires WellFormed(c) && b in c.f.g.blocks
    ensures Up(c.t, b) in c.t.up
  {
    assert Hangs(c.t, b);
  }

  lemma CurAtHead(c: Ctx, b: nat, v: nat)
    requires WellFormed(c) && b in c.f.g.blocks
    ensures Cur(c, b, 0, v) == if HasPhi(c, b, v) then Some(Ref(Phi(b, v))) else CurAbove(c, b, v)
  {
    if b == c.f.g.entry {
      AtEntry(c);
    } else {
      UpIsLower(c, b);
    }
  }

  /** How often v is pushed in the first k instructions. */
  function StoresTo(code: seq<Instr>, k: nat, v: nat): nat
    requires k <= |code|
  {
    if k == 0 then 0 else StoresTo(code, k - 1, v) + (if code[k - 1].Store? && code[k - 1].v == v then 1 else 0)
  }

  function One(p: bool): nat { if p then 1 else 0 }

  /** m is m0 with n(v) more definitions on the stack of v. */
  ghost predicate Grown(m0: Stacks, m: Stacks, n: nat -> nat) {
    forall v {:trigger Stack(m, v)} :: |Stack(m, v)| == |Stack(m0, v)| + n(v) &&
      Stack(m, v)[..|Stack(m0, v)|] == Stack(m0, v)
  }

  ghost predicate SameStacks(m0: Stacks, m: Stacks) {
    forall v {:trigger Stack(m, v)} :: Stack(m, v) == Stack(m0, v)
  }

  lemma PushGrows(m0: Stacks, m: Stacks, n: nat -> nat, v: nat, op: Operand, n': nat -> nat)
    requires Grown(m0, m, n) && forall u :: n'(u) == n(u) + One(u == v)
    ensures Grown(m0, Push(m, v, op), n')
  {
    var m' := Push(m, v, op);
    forall u
      ensures |Stack(m', u)| == |Stack(m0, u)| + n'(u) && Stack(m', u)[..|Stack(m0, u)|] == Stack(m0, u)
    {
      assert |Stack(m, u)| == |Stack(m0, u)| + n(u);
    }
  }

  lemma PopShrinks(m0: Stacks, m: Stacks, n: nat -> nat, v: nat, n': nat -> nat)
    requires Grown(m0, m, n) && n(v) > 0 && forall u :: n(u) == n'(u) + One(u == v)
    ensures Stack(m, v) != [] && Grown(m0, Pop(m, v), n')
  {
    assert |Stack(m, v)| == |Stack(m0, v)| + n(v);
    var m' := Pop(m, v);
    forall u
      ensures |Stack(m', u)| == |Stack(m0, u)| + n'(u) && Stack(m', u)[..|Stack(m0, u)|] == Stack(m0, u)
    {
      assert |Stack(m, u)| == |Stack(m0, u)| + n(u);
    }
  }

  // ----- what has been replaced -----

  function Subs(replaced: map<nat, Operand>, op: Operand): Operand {
    if op.Ref? && op.name.Val? && op.name.id in replaced then replaced[op.name.id] else op
  }

  /** The load x has been dealt with. */
  ghost predicate LoadDone(c: Ctx, replaced: map<nat, Operand>, x: nat) {
    IsLoad(c, x) && c.site[x].0 in c.t.up ==>
      && (x in replaced <==> Replacement(c, x).Some?)
      && (x in replaced ==> replaced[x] == Replacement(c, x).value)
  }

  ghost predicate LoadsDone(c: Ctx, replaced: map<nat, Operand>, b: nat, k: nat)
    requires TreeOk(c.t) && b in c.t.up
  {
    forall x {:trigger LoadDone(c, replaced, x)} :: x in c.site && Before(c, c.site[x], b, k) ==>
      LoadDone(c, replaced, x)
  }

  ghost predicate OnlyLoads(c: Ctx, replaced: map<nat, Operand>) {
    forall x :: x in replaced ==> IsLoad(c, x)
  }

  lemma SubsIsSubst(c: Ctx, replaced: map<nat, Operand>, b: nat, k: nat, op: Operand)
    requires WellFormed(c) && b in c.f.g.blocks && k <= |Code(c, b)| && OperandOk(c, b, k, op)
    requires LoadsDone(c, replaced, b, k) && OnlyLoads(c, replaced)
    ensures Subs(replaced, op) == Subst(c, b, k, op)
  {
    SubstIsReplaced(c, b, k, op);
    if op.Ref? {
      SiteKnown(c, b, k, op.name.id);
      assert LoadDone(c, replaced, op.name.id);
    }
  }

  // ----- one block -----

  /** The phis of b, as far as they are not in rest, have been pushed. */
  ghost predicate PhisPushed(c: Ctx, b: nat, rest: set<nat>, m: Stacks)
    requires WellFormed(c) && b in c.f.g.blocks
  {
    forall v {:trigger Top(m, v)} ::
      Top(m, v) == if HasPhi(c, b, v) && v !in rest then Some(Ref(Phi(b, v))) else CurAbove(c, b, v)
  }

  lemma AllPhisPushed(c: Ctx, b: nat, m: Stacks)
    requires WellFormed(c) && b in c.f.g.blocks && PhisPushed(c, b, {}, m)
    ensures Tops(c, b, 0, m)
  {
    forall v ensures Top(m, v) == Cur(c, b, 0, v) {
      CurAtHead(c, b, v);
    }
  }

  /** How often v has been pushed in b, when the phis and k instructions have been looked at. */
  function Pushes(c: Ctx, b: nat, k: nat): nat -> nat
    requires k <= |Code(c, b)|
  {
    v => One(HasPhi(c, b, v)) + (if k <= |Code(c, b)| then StoresTo(Code(c, b), k, v) else 0)
  }

  lemma StoreTops(c: Ctx, b: nat, k: nat, m: Stacks, v: nat, op: Operand)
    requires WellFormed(c) && b in c.f.g.blocks && k < |Code(c, b)| && Code(c, b)[k] == Store(v, op) && Tops(c, b, k, m)
    ensures Tops(c, b, k + 1, Push(m, v, Subst(c, b, k, op)))
  {
    forall u
      ensures Top(Push(m, v, Subst(c, b, k, op)), u) == Cur(c, b, k + 1, u)
    {
      TopAfterPush(m, v, Subst(c, b, k, op), u);
      assert Top(m, u) == Cur(c, b, k, u);
    }
  }

  lemma OtherTops(c: Ctx, b: nat, k: nat, m: Stacks)
    requires WellFormed(c) && b in c.f.g.blocks && k < |Code(c, b)| && !Code(c, b)[k].Store? && Tops(c, b, k, m)
    ensures Tops(c, b, k + 1, m)
  {
    forall u
      ensures Top(m, u) == Cur(c, b, k + 1, u)
    {
      assert Top(m, u) == Cur(c, b, k, u);
    }
  }

  /** The load at position k has been dealt with: its value is replaced by the top of the stack,
      if there is one. */
  lemma LoadTurn(c: Ctx, b: nat, k: nat, m: Stacks, replaced: map<nat, Operand>, replaced': map<nat, Operand>, x: nat,
                 v: nat)
    requires WellFormed(c) && b in c.f.g.blocks && k < |Code(c, b)| && Code(c, b)[k] == Load(x, v) && Tops(c, b, k, m)
    requires LoadsDone(c, replaced, b, k) && OnlyLoads(c, replaced) && x !in replaced
    requires replaced' == if Top(m, v).Some? then replaced[x := Top(m, v).value] else replaced
    ensures LoadsDone(c, replaced', b, k + 1) && OnlyLoads(c, replaced')
  {
    assert InstrOk(c, b, k, Code(c, b)[k]);
    assert Top(m, v) == Cur(c, b, k, v);
    forall y {:trigger LoadDone(c, replaced', y)} | y in c.site && Before(c, c.site[y], b, k + 1)
      ensures LoadDone(c, replaced', y)
    {
      BeforeNext(c, c.site[y], b, k);
      if c.site[y] == (b, k) {
        SiteHere(c, b, k, y);
      } else {
        assert LoadDone(c, replaced, y);
      }
    }
  }

  lemma OtherTurn(c: Ctx, b: nat, k: nat, replaced: map<nat, Operand>)
    requires WellFormed(c) && b in c.f.g.blocks && k < |Code(c, b)| && !Code(c, b)[k].Load?
    requires LoadsDone(c, replaced, b, k)
    ensures LoadsDone(c, replaced, b, k + 1)
  {
    forall y {:trigger LoadDone(c, replaced, y)} | y in c.site && Before(c, c.site[y], b, k + 1)
      ensures LoadDone(c, replaced, y)
    {
      BeforeNext(c, c.site[y], b, k);
    }
  }

  /** A load that has not been replaced yet. */
  ghost predicate Untouched(c: Ctx, replaced: map<nat, Operand>, b: nat, k: nat) {
    forall x :: x in replaced && x in c.site && c.site[x].0 == b ==> c.site[x].1 < k
  }

  /** The loads outside block b are as they were. */
  ghost predicate OnlyIn(c: Ctx, s: set<nat>, replaced: map<nat, Operand>, replaced': map<nat, Operand>) {
    forall x {:trigger x in replaced'} {:trigger x in replaced} :: x in c.site && c.site[x].0 !in s ==>
      (x in replaced' <==> x in replaced) && (x in replaced ==> replaced'[x] == replaced[x])
  }

  /** The phis of the blocks behind p take the definitions that p ends with. */
  ghost predicate ArgsDone(c: Ctx, args: Args, p: nat)
    requires p in c.t.up && p in c.f.g.succ
  {
    forall b: nat, v: nat {:trigger (p, b, v) in args} :: b in c.f.g.succ[p] && HasPhi(c, b, v) ==>
      if PhiArg(c, p, v).Some? then (p, b, v) in args && args[(p, b, v)] == PhiArg(c, p, v).value
        else (p, b, v) !in args
  }

  ghost predicate ArgsOnlyFrom(s: set<nat>, args: Args, args': Args) {
    forall p: nat, b: nat, v: nat {:trigger (p, b, v) in args'} {:trigger (p, b, v) in args} :: p !in s ==>
      ((p, b, v) in args' <==> (p, b, v) in args) && ((p, b, v) in args ==> args'[(p, b, v)] == args[(p, b, v)])
  }

  ghost predicate NoArgsFrom(s: set<nat>, args: Args) {
    forall p: nat, b: nat, v: nat {:trigger (p, b, v) in args} :: p in s ==> (p, b, v) !in args
  }

  lemma PhiPushed(c: Ctx, b: nat, rest: set<nat>, m: Stacks, v: nat)
    requires WellFormed(c) && b in c.f.g.blocks && PhisPushed(c, b, rest, m) && v in rest && HasPhi(c, b, v)
    ensures PhisPushed(c, b, rest - {v}, Push(m, v, Ref(Phi(b, v))))
  {
    forall u
      ensures Top(Push(m, v, Ref(Phi(b, v))), u) == if HasPhi(c, b, u) && u !in rest - {v} then Some(Ref(Phi(b, u)))
        else CurAbove(c, b, u)
    {
      TopAfterPush(m, v, Ref(Phi(b, v)), u);
      assert Top(m, u) == if HasPhi(c, b, u) && u !in rest then Some(Ref(Phi(b, u))) else CurAbove(c, b, u);
    }
  }

  lemma GrownSame(m0: Stacks, m: Stacks, n: nat -> nat, n': nat -> nat)
    requires Grown(m0, m, n) && forall v :: n'(v) == n(v)
    ensures Grown(m0, m, n')
  {
  }

  /** How often v has been pushed when the phis in rest are still to come. */
  function PhiPushes(phis: set<nat>, rest: set<nat>): nat -> nat {
    v => One(v in phis && v !in rest)
  }

  /** The phis of b are being pushed. */
  ghost predicate AtPhi(c: Ctx, b: nat, phis: set<nat>, rest: set<nat>, m0: Stacks, m: Stacks)
    requires WellFormed(c) && b in c.f.g.blocks
  {
    && (forall v :: v in phis <==> HasPhi(c, b, v)) && rest <= phis
    && PhisPushed(c, b, rest, m) && Grown(m0, m, PhiPushes(phis, rest))
  }

  lemma PhisBegin(c: Ctx, b: nat, phis: set<nat>, m: Stacks)
    requires WellFormed(c) && b in c.f.g.blocks && TopsAbove(c, b, m) && forall v :: v in phis <==> HasPhi(c, b, v)
    ensures AtPhi(c, b, phis, phis, m, m)
  {
    forall v
      ensures Top(m, v) == if HasPhi(c, b, v) && v !in phis then Some(Ref(Phi(b, v))) else CurAbove(c, b, v)
    {
    }
  }

  lemma PhiMoves(c: Ctx, b: nat, phis: set<nat>, rest: set<nat>, m0: Stacks, m: Stacks, v: nat, m': Stacks)
    requires WellFormed(c) && b in c.f.g.blocks && AtPhi(c, b, phis, rest, m0, m) && v in rest
    requires m' == Push(m, v, Ref(Phi(b, v)))
    ensures AtPhi(c, b, phis, rest - {v}, m0, m')
  {
    PhiPushed(c, b, rest, m, v);
    PushGrows(m0, m, PhiPushes(phis, rest), v, Ref(Phi(b, v)), PhiPushes(phis, rest - {v}));
  }

  lemma PhisCounted(c: Ctx, b: nat, phis: set<nat>, m0: Stacks, m: Stacks)
    requires Grown(m0, m, PhiPushes(phis, {})) && forall v :: v in phis <==> HasPhi(c, b, v)
    ensures Grown(m0, m, Pushes(c, b, 0))
  {
    GrownSame(m0, m, PhiPushes(phis, {}), Pushes(c, b, 0));
  }

  lemma PhisEnd(c: Ctx, b: nat, phis: set<nat>, m0: Stacks, m: Stacks, r: map<nat, Operand>, a: Args)
    requires Ready(c, b, m0, r, a) && AtPhi(c, b, phis, {}, m0, m)
    ensures AtInstr(c, b, 0, m0, m, r, r)
  {
    BlockReady(c, b, m0, r, a);
    AllPhisPushed(c, b, m);
    PhisCounted(c, b, phis, m0, m);
  }

  // ----- the instructions of a block -----

  /** Renaming has come to position k of block b; m0 and r0 are what it started from. */
  ghost predicate AtInstr(c: Ctx, b: nat, k: nat, m0: Stacks, m: Stacks, r0: map<nat, Operand>, r: map<nat, Operand>)
    requires WellFormed(c) && b in c.f.g.blocks && k <= |Code(c, b)|
  {
    && Tops(c, b, k, m) && Grown(m0, m, Pushes(c, b, k))
    && LoadsDone(c, r, b, k) && OnlyLoads(c, r) && Untouched(c, r, b, k) && OnlyIn(c, {b}, r0, r)
  }

  lemma PushesNext(c: Ctx, b: nat, k: nat, m0: Stacks, m: Stacks)
    requires k < |Code(c, b)| && !Code(c, b)[k].Store? && Grown(m0, m, Pushes(c, b, k))
    ensures Grown(m0, m, Pushes(c, b, k + 1))
  {
    GrownSame(m0, m, Pushes(c, b, k), Pushes(c, b, k + 1));
  }

  lemma UntouchedNext(c: Ctx, b: nat, k: nat, r: map<nat, Operand>)
    requires Untouched(c, r, b, k)
    ensures Untouched(c, r, b, k + 1)
  {
  }

  lemma OtherMoves(c: Ctx, b: nat, k: nat, m0: Stacks, m: Stacks, r0: map<nat, Operand>, r: map<nat, Operand>)
    requires WellFormed(c) && b in c.f.g.blocks && k < |Code(c, b)| && AtInstr(c, b, k, m0, m, r0, r)
    requires !Code(c, b)[k].Store? && !Code(c, b)[k].Load?
    ensures AtInstr(c, b, k + 1, m0, m, r0, r)
  {
    OtherTops(c, b, k, m);
    OtherTurn(c, b, k, r);
    PushesNext(c, b, k, m0, m);
    UntouchedNext(c, b, k, r);
  }

  lemma StoreMoves(c: Ctx, b: nat, k: nat, m0: Stacks, m: Stacks, r0: map<nat, Operand>, r: map<nat, Operand>, v: nat,
                   op: Operand, m': Stacks)
    requires WellFormed(c) && b in c.f.g.blocks && k < |Code(c, b)| && AtInstr(c, b, k, m0, m, r0, r)
    requires Code(c, b)[k] == Store(v, op) && m' == Push(m, v, Subs(r, op))
    ensures AtInstr(c, b, k + 1, m0, m', r0, r)
  {
    assert InstrOk(c, b, k, Code(c, b)[k]);
    SubsIsSubst(c, r, b, k, op);
    StoreTops(c, b, k, m, v, op);
    PushGrows(m0, m, Pushes(c, b, k), v, Subs(r, op), Pushes(c, b, k + 1));
    OtherTurn(c, b, k, r);
    UntouchedNext(c, b, k, r);
  }

  lemma LoadHere(c: Ctx, b: nat, k: nat, x: nat, v: nat, r: map<nat, Operand>)
    requires WellFormed(c) && b in c.f.g.blocks && k < |Code(c, b)| && Code(c, b)[k] == Load(x, v) &&
      Untouched(c, r, b, k)
    ensures x in c.site && c.site[x] == (b, k) && x !in r
  {
    assert InstrOk(c, b, k, Code(c, b)[k]);
  }

  lemma LoadEntered(c: Ctx, b: nat, k: nat, x: nat, r0: map<nat, Operand>, r: map<nat, Operand>, r': map<nat, Operand>)
    requires x in c.site && c.site[x] == (b, k) && Untouched(c, r, b, k) && OnlyIn(c, {b}, r0, r)
    requires forall y :: y != x ==> (y in r' <==> y in r) && (y in r ==> r'[y] == r[y])
    ensures Untouched(c, r', b, k + 1) && OnlyIn(c, {b}, r0, r')
  {
    forall y {:trigger y in r'} {:trigger y in r0} | y in c.site && c.site[y].0 !in {b}
      ensures (y in r' <==> y in r0) && (y in r0 ==> r'[y] == r0[y])
    {
      assert y in r <==> y in r0;
    }
  }

  lemma LoadMoves(c: Ctx, b: nat, k: nat, m0: Stacks, m: Stacks, r0: map<nat, Operand>, r: map<nat, Operand>, x: nat,
                  v: nat, r': map<nat, Operand>)
    requires WellFormed(c) && b in c.f.g.blocks && k < |Code(c, b)| && AtInstr(c, b, k, m0, m, r0, r)
    requires Code(c, b)[k] == Load(x, v) && r' == if Top(m, v).Some? then r[x := Top(m, v).value] else r
    ensures AtInstr(c, b, k + 1, m0, m, r0, r')
  {
    LoadHere(c, b, k, x, v, r);
    LoadTurn(c, b, k, m, r, r', x, v);
    OtherTops(c, b, k, m);
    PushesNext(c, b, k, m0, m);
    LoadEntered(c, b, k, x, r0, r, r');
  }

  /** One instruction: a load whose variable has a definition is replaced, a store pushes one. */
  lemma InstrMoves(c: Ctx, b: nat, k: nat, m0: Stacks, m: Stacks, r0: map<nat, Operand>, r: map<nat, Operand>, i: Instr,
                   m': Stacks, r': map<nat, Operand>)
    requires WellFormed(c) && b in c.f.g.blocks && k < |Code(c, b)| && AtInstr(c, b, k, m0, m, r0, r) &&
      i == Code(c, b)[k]
    requires m' == if i.Store? then Push(m, i.v, Subs(r, i.op)) else m
    requires r' == if i.Load? && Top(m, i.v).Some? then r[i.dst := Top(m, i.v).value] else r
    ensures AtInstr(c, b, k + 1, m0, m', r0, r')
  {
    match i
    case Load(x, v) => LoadMoves(c, b, k, m0, m, r0, r, x, v, r');
    case Store(v, op) => StoreMoves(c, b, k, m0, m, r0, r, v, op, m');
    case _ => OtherMoves(c, b, k, m0, m, r0, r);
  }

  // ----- phi arguments -----

  ghost predicate ArgsSound(c: Ctx, args: Args, p: nat)
    requires p in c.t.up
  {
    forall b: nat, v: nat {:trigger (p, b, v) in args} :: (p, b, v) in args ==> PhiArg(c, p, v) == Some(args[(p, b, v)])
  }

  /** The phis of b, other than those in rest, have what they take from p. */
  ghost predicate ArgsFilled(c: Ctx, args: Args, p: nat, b: nat, rest: set<nat>)
    requires p in c.t.up
  {
    forall v: nat {:trigger (p, b, v) in args} :: HasPhi(c, b, v) && v !in rest && PhiArg(c, p, v).Some? ==>
      (p, b, v) in args
  }

  ghost predicate ArgsGrow(args: Args, args': Args) {
    forall p: nat, b: nat, v: nat {:trigger (p, b, v) in args'} :: (p, b, v) in args ==> (p, b, v) in args'
  }

  lemma ArgAdded(c: Ctx, args0: Args, args: Args, p: nat, b: nat, rest: set<nat>, v: nat, args': Args)
    requires p in c.t.up && ArgsSound(c, args, p) && ArgsFilled(c, args, p, b, rest) &&
      ArgsOnlyFrom({p}, args0, args) && ArgsGrow(args0, args)
    requires args' == if PhiArg(c, p, v).Some? then args[(p, b, v) := PhiArg(c, p, v).value] else args
    ensures ArgsSound(c, args', p) && ArgsFilled(c, args', p, b, rest - {v}) && ArgsOnlyFrom({p}, args0, args') &&
      ArgsGrow(args0, args')
  {
    forall q: nat, d: nat, u: nat {:trigger (q, d, u) in args'} {:trigger (q, d, u) in args0} | q !in {p}
      ensures ((q, d, u) in args' <==> (q, d, u) in args0) &&
        ((q, d, u) in args0 ==> args'[(q, d, u)] == args0[(q, d, u)])
    {
      assert (q, d, u) in args <==> (q, d, u) in args0;
    }
    forall q: nat, d: nat, u: nat {:trigger (q, d, u) in args'} | (q, d, u) in args0
      ensures (q, d, u) in args'
    {
      assert (q, d, u) in args;
    }
  }

  lemma FilledGrows(c: Ctx, args: Args, args': Args, p: nat, b: nat)
    requires p in c.t.up && ArgsFilled(c, args, p, b, {}) && ArgsGrow(args, args')
    ensures ArgsFilled(c, args', p, b, {})
  {
  }

  lemma FilledIsDone(c: Ctx, args: Args, p: nat)
    requires p in c.t.up && p in c.f.g.succ && ArgsSound(c, args, p)
    requires forall b :: b in c.f.g.succ[p] ==> ArgsFilled(c, args, p, b, {})
    ensures ArgsDone(c, args, p)
  {
  }

  // ----- taking the definitions of a block off the stacks -----

  /** How often v is pushed from position k on. */
  function StoresFrom(code: seq<Instr>, k: nat, v: nat): nat
    requires k <= |code|
    decreases |code| - k
  {
    if k == |code| then 0 else One(code[k].Store? && code[k].v == v) + StoresFrom(code, k + 1, v)
  }

  lemma {:induction false} StoresSplit(code: seq<Instr>, k: nat, v: nat)
    requires k <= |code|
    ensures StoresTo(code, k, v) + StoresFrom(code, k, v) == StoresTo(code, |code|, v)
    decreases |code| - k
  {
    if k < |code| {
      StoresSplit(code, k + 1, v);
    }
  }

  /** What is still to be popped: the phis in rest, and the stores from position k on. */
  function ToPop(code: seq<Instr>, rest: set<nat>, k: nat): nat -> nat
    requires k <= |code|
  {
    v => One(v in rest) + (if k <= |code| then StoresFrom(code, k, v) else 0)
  }

  lemma PopsAreThePushes(c: Ctx, b: nat, m0: Stacks, m: Stacks, phis: set<nat>)
    requires Grown(m0, m, Pushes(c, b, |Code(c, b)|)) && forall v :: v in phis <==> HasPhi(c, b, v)
    ensures Grown(m0, m, ToPop(Code(c, b), phis, 0))
  {
    forall v
      ensures ToPop(Code(c, b), phis, 0)(v) == Pushes(c, b, |Code(c, b)|)(v)
    {
      StoresSplit(Code(c, b), 0, v);
    }
    GrownSame(m0, m, Pushes(c, b, |Code(c, b)|), ToPop(Code(c, b), phis, 0));
  }

  lemma PopPhi(code: seq<Instr>, rest: set<nat>, m0: Stacks, m: Stacks, v: nat)
    requires Grown(m0, m, ToPop(code, rest, 0)) && v in rest
    ensures Stack(m, v) != [] && Grown(m0, Pop(m, v), ToPop(code, rest - {v}, 0))
  {
    PopShrinks(m0, m, ToPop(code, rest, 0), v, ToPop(code, rest - {v}, 0));
  }

  lemma PopStore(code: seq<Instr>, k: nat, m0: Stacks, m: Stacks)
    requires k < |code| && Grown(m0, m, ToPop(code, {}, k))
    ensures code[k].Store? ==> Stack(m, code[k].v) != [] && Grown(m0, Pop(m, code[k].v), ToPop(code, {}, k + 1))
    ensures !code[k].Store? ==> Grown(m0, m, ToPop(code, {}, k + 1))
  {
    if code[k].Store? {
      PopShrinks(m0, m, ToPop(code, {}, k), code[k].v, ToPop(code, {}, k + 1));
    } else {
      GrownSame(m0, m, ToPop(code, {}, k), ToPop(code, {}, k + 1));
    }
  }

  lemma NothingToPop(code: seq<Instr>, m0: Stacks, m: Stacks)
    requires Grown(m0, m, ToPop(code, {}, |code|))
    ensures SameStacks(m0, m)
  {
    forall v
      ensures Stack(m, v) == Stack(m0, v)
    {
      assert |Stack(m, v)| == |Stack(m0, v)| + ToPop(code, {}, |code|)(v);
    }
  }

  lemma GrownThenSame(m0: Stacks, m1: Stacks, m2: Stacks, n: nat -> nat)
    requires Grown(m0, m1, n) && SameStacks(m1, m2)
    ensures Grown(m0, m2, n)
  {
    forall v
      ensures |Stack(m2, v)| == |Stack(m0, v)| + n(v) && Stack(m2, v)[..|Stack(m0, v)|] == Stack(m0, v)
    {
      assert Stack(m2, v) == Stack(m1, v);
    }
  }

  // ----- parts of the tree -----

  ghost predicate NoLoadsIn(c: Ctx, s: set<nat>, r: map<nat, Operand>) {
    forall x :: x in r && x in c.site ==> c.site[x].0 !in s
  }

  ghost predicate DoneIn(c: Ctx, s: set<nat>, r: map<nat, Operand>) {
    forall x {:trigger LoadDone(c, r, x)} :: x in c.site && c.site[x].0 in s ==> LoadDone(c, r, x)
  }

  ghost predicate ArgsDoneIn(c: Ctx, s: set<nat>, args: Args) {
    forall p {:trigger ArgsDone(c, args, p)} :: p in s && p in c.t.up && p in c.f.g.succ ==> ArgsDone(c, args, p)
  }

  /** The blocks in s have been renamed, and nothing else has been touched. */
  ghost predicate Renamed(c: Ctx, s: set<nat>, r0: map<nat, Operand>, r: map<nat, Operand>, a0: Args, a: Args) {
    && DoneIn(c, s, r) && OnlyLoads(c, r) && OnlyIn(c, s, r0, r)
    && ArgsDoneIn(c, s, a) && ArgsOnlyFrom(s, a0, a)
  }

  /** Block b can be renamed, with everything below it. */
  ghost predicate Ready(c: Ctx, b: nat, m: Stacks, r: map<nat, Operand>, a: Args) {
    && WellFormed(c) && b in c.f.g.blocks && TopsAbove(c, b, m)
    && LoadsDone(c, r, b, 0) && OnlyLoads(c, r)
    && NoLoadsIn(c, Below(c.f.g, c.t, b), r) && NoArgsFrom(Below(c.f.g, c.t, b), a)
  }

  lemma DoneStays(c: Ctx, s: set<nat>, t: set<nat>, r: map<nat, Operand>, r': map<nat, Operand>)
    requires DoneIn(c, s, r) && OnlyIn(c, t, r, r') && s !! t
    ensures DoneIn(c, s, r')
  {
    forall x {:trigger LoadDone(c, r', x)} | x in c.site && c.site[x].0 in s
      ensures LoadDone(c, r', x)
    {
      assert LoadDone(c, r, x);
      assert x in r' <==> x in r;
    }
  }

  lemma OnlyInTwice(c: Ctx, s: set<nat>, t: set<nat>, r0: map<nat, Operand>, r1: map<nat, Operand>,
                    r2: map<nat, Operand>)
    requires OnlyIn(c, s, r0, r1) && OnlyIn(c, t, r1, r2)
    ensures OnlyIn(c, s + t, r0, r2)
  {
    forall x {:trigger x in r2} {:trigger x in r0} | x in c.site && c.site[x].0 !in s + t
      ensures (x in r2 <==> x in r0) && (x in r0 ==> r2[x] == r0[x])
    {
      assert x in r1 <==> x in r0;
      assert x in r2 <==> x in r1;
    }
  }

  lemma ArgsStay(c: Ctx, s: set<nat>, t: set<nat>, a: Args, a': Args)
    requires ArgsDoneIn(c, s, a) && ArgsOnlyFrom(t, a, a') && s !! t
    ensures ArgsDoneIn(c, s, a')
  {
    forall p {:trigger ArgsDone(c, a', p)} | p in s && p in c.t.up && p in c.f.g.succ
      ensures ArgsDone(c, a', p)
    {
      ArgsStayAt(c, t, a, a', p);
    }
  }

  lemma ArgsStayAt(c: Ctx, t: set<nat>, a: Args, a': Args, p: nat)
    requires p in c.t.up && p in c.f.g.succ && ArgsDone(c, a, p) && ArgsOnlyFrom(t, a, a') && p !in t
    ensures ArgsDone(c, a', p)
  {
    forall b: nat, v: nat {:trigger (p, b, v) in a'} | b in c.f.g.succ[p] && HasPhi(c, b, v)
      ensures if PhiArg(c, p, v).Some? then (p, b, v) in a' && a'[(p, b, v)] == PhiArg(c, p, v).value
        else (p, b, v) !in a'
    {
      assert (p, b, v) in a' <==> (p, b, v) in a;
    }
  }

  lemma ArgsOnlyFromTwice(s: set<nat>, t: set<nat>, a0: Args, a1: Args, a2: Args)
    requires ArgsOnlyFrom(s, a0, a1) && ArgsOnlyFrom(t, a1, a2)
    ensures ArgsOnlyFrom(s + t, a0, a2)
  {
    forall p: nat, b: nat, v: nat {:trigger (p, b, v) in a2} {:trigger (p, b, v) in a0} | p !in s + t
      ensures ((p, b, v) in a2 <==> (p, b, v) in a0) && ((p, b, v) in a0 ==> a2[(p, b, v)] == a0[(p, b, v)])
    {
      assert (p, b, v) in a1 <==> (p, b, v) in a0;
      assert (p, b, v) in a2 <==> (p, b, v) in a1;
    }
  }

  lemma RenamedMore(c: Ctx, s: set<nat>, t: set<nat>, r0: map<nat, Operand>, r1: map<nat, Operand>,
                    r2: map<nat, Operand>,
                    a0: Args, a1: Args, a2: Args)
    requires Renamed(c, s, r0, r1, a0, a1) && Renamed(c, t, r1, r2, a1, a2) && s !! t
    ensures Renamed(c, s + t, r0, r2, a0, a2)
  {
    DoneStays(c, s, t, r1, r2);
    OnlyInTwice(c, s, t, r0, r1, r2);
    ArgsStay(c, s, t, a1, a2);
    ArgsOnlyFromTwice(s, t, a0, a1, a2);
    assert forall x :: x in s + t ==> x in s || x in t;
  }

  // ----- going down to a child -----

  lemma ChildTops(c: Ctx, b: nat, child: nat, m1: Stacks, m: Stacks)
    requires WellFormed(c) && b in c.f.g.blocks && Child(c.f.g, c.t, b, child)
    requires Tops(c, b, |Code(c, b)|, m1) && SameStacks(m1, m)
    ensures TopsAbove(c, child, m)
  {
    forall v
      ensures Top(m, v) == CurAbove(c, child, v)
    {
      assert Stack(m, v) == Stack(m1, v);
      assert Top(m1, v) == Cur(c, b, |Code(c, b)|, v);
    }
  }

  lemma ChildLoadDone(c: Ctx, b: nat, child: nat, seen: set<nat>, r0: map<nat, Operand>, r: map<nat, Operand>, x: nat,
                      d: nat)
    requires WellFormed(c) && b in c.f.g.blocks && Child(c.f.g, c.t, b, child)
    requires LoadsDone(c, r0, b, 0) && DoneIn(c, {b} + seen, r) && OnlyIn(c, {b} + seen, r0, r)
    requires forall y :: y in seen ==> y in Below(c.f.g, c.t, b) && y != b
    requires x in c.site && d == c.site[x].0 && d != child && d in Above(c.t, child)
    ensures LoadDone(c, r, x)
  {
    AboveIsHigher(c.t, child, d);
    if d != b {
      if d in seen {
        NotAboveItself(c, b, d);
      }
      assert LoadDone(c, r0, x);
      assert x in r <==> x in r0;
    }
  }

  lemma ChildLoads(c: Ctx, b: nat, child: nat, seen: set<nat>, r0: map<nat, Operand>, r: map<nat, Operand>)
    requires WellFormed(c) && b in c.f.g.blocks && Child(c.f.g, c.t, b, child)
    requires LoadsDone(c, r0, b, 0) && DoneIn(c, {b} + seen, r) && OnlyIn(c, {b} + seen, r0, r)
    requires forall y :: y in seen ==> y in Below(c.f.g, c.t, b) && y != b
    ensures LoadsDone(c, r, child, 0)
  {
    forall x {:trigger LoadDone(c, r, x)} | x in c.site && Before(c, c.site[x], child, 0)
      ensures LoadDone(c, r, x)
    {
      ChildLoadDone(c, b, child, seen, r0, r, x, c.site[x].0);
    }
  }

  lemma ChildUntouched(c: Ctx, s: set<nat>, seen: set<nat>, below: set<nat>, r0: map<nat, Operand>,
                       r: map<nat, Operand>, a0: Args, a: Args)
    requires NoLoadsIn(c, below, r0) && NoArgsFrom(below, a0) && OnlyIn(c, seen, r0, r) && ArgsOnlyFrom(seen, a0, a)
    requires s <= below && s !! seen
    ensures NoLoadsIn(c, s, r) && NoArgsFrom(s, a)
  {
    forall x | x in r && x in c.site
      ensures c.site[x].0 !in s
    {
      assert c.site[x].0 in seen || (x in r <==> x in r0);
    }
    forall p: nat, b: nat, v: nat {:trigger (p, b, v) in a} | p in s
      ensures (p, b, v) !in a
    {
      assert (p, b, v) in a <==> (p, b, v) in a0;
    }
  }

  lemma ChildReady(c: Ctx, b: nat, child: nat, seen: set<nat>, m0: Stacks, m1: Stacks, m: Stacks,
                   r0: map<nat, Operand>, r: map<nat, Operand>, a0: Args, a: Args)
    requires Ready(c, b, m0, r0, a0) && Child(c.f.g, c.t, b, child)
    requires Tops(c, b, |Code(c, b)|, m1) && SameStacks(m1, m) && Renamed(c, {b} + seen, r0, r, a0, a)
    requires Below(c.f.g, c.t, child) !! {b} + seen && Below(c.f.g, c.t, child) <= Below(c.f.g, c.t, b)
    requires forall y :: y in seen ==> y in Below(c.f.g, c.t, b) && y != b
    ensures Ready(c, child, m, r, a)
  {
    ChildTops(c, b, child, m1, m);
    ChildLoads(c, b, child, seen, r0, r);
    ChildUntouched(c, Below(c.f.g, c.t, child), {b} + seen, Below(c.f.g, c.t, b), r0, r, a0, a);
  }

  lemma SeenIsBelow(g: Cfg, t: Tree, x: nat, rest: set<nat>, seen: set<nat>, y: nat)
    requires g.Valid() && TreeOk(t) && Total(g, t) && Sweeping(g, t, x, rest, seen) && y in seen
    ensures y in Below(g, t, x) && y != x
  {
    var c :| Child(g, t, x, c) && c !in rest && y in Below(g, t, c);
    ChildIsBelow(g, t, x, c);
  }

  /** The block itself has been renamed. */
  lemma BlockRenamed(c: Ctx, b: nat, m0: Stacks, m: Stacks, r0: map<nat, Operand>, r: map<nat, Operand>, a0: Args,
                     a: Args)
    requires WellFormed(c) && b in c.f.g.blocks && AtInstr(c, b, |Code(c, b)|, m0, m, r0, r)
    requires ArgsDone(c, a, b) && ArgsOnlyFrom({b}, a0, a)
    ensures Renamed(c, {b}, r0, r, a0, a)
  {
    forall x {:trigger LoadDone(c, r, x)} | x in c.site && c.site[x].0 in {b}
      ensures LoadDone(c, r, x)
    {
      assert DefinesAt(c, x, c.site[x]);
    }
    forall p {:trigger ArgsDone(c, a, p)} | p in {b}
      ensures p in c.t.up && p in c.f.g.succ && ArgsDone(c, a, p)
    {
    }
  }

  lemma BlockReady(c: Ctx, b: nat, m: Stacks, r: map<nat, Operand>, a: Args)
    requires Ready(c, b, m, r, a)
    ensures Untouched(c, r, b, 0) && OnlyIn(c, {b}, r, r) && NoArgsFrom({b}, a)
  {
    assert b in Below(c.f.g, c.t, b);
  }

  lemma NextChild(c: Ctx, b: nat, child: nat, rest: set<nat>, seen: set<nat>, m0: Stacks, m1: Stacks, m: Stacks,
                  r0: map<nat, Operand>, r: map<nat, Operand>, a0: Args, a: Args)
    requires Ready(c, b, m0, r0, a0) && Sweeping(c.f.g, c.t, b, rest, seen) && child in rest
    requires Tops(c, b, |Code(c, b)|, m1) && SameStacks(m1, m) && Renamed(c, {b} + seen, r0, r, a0, a)
    ensures Ready(c, child, m, r, a) && Num(c.t, child) < Num(c.t, b)
    ensures Sweeping(c.f.g, c.t, b, rest - {child}, seen + Below(c.f.g, c.t, child))
    ensures Below(c.f.g, c.t, child) !! {b} + seen
  {
    ChildIsBelow(c.f.g, c.t, b, child);
    SweepStep(c.f.g, c.t, b, rest, seen, child);
    forall y | y in seen
      ensures y in Below(c.f.g, c.t, b) && y != b
    {
      SeenIsBelow(c.f.g, c.t, b, rest, seen, y);
    }
    ChildReady(c, b, child, seen, m0, m1, m, r0, r, a0, a);
  }

  lemma ChildRenamed(c: Ctx, b: nat, child: nat, seen: set<nat>, m1: Stacks, m: Stacks, m': Stacks,
                     r0: map<nat, Operand>, r: map<nat, Operand>, r': map<nat, Operand>, a0: Args, a: Args, a': Args)
    requires WellFormed(c) && Below(c.f.g, c.t, child) !! {b} + seen
    requires SameStacks(m1, m) && SameStacks(m, m')
    requires Renamed(c, {b} + seen, r0, r, a0, a) && Renamed(c, Below(c.f.g, c.t, child), r, r', a, a')
    ensures SameStacks(m1, m') && Renamed(c, {b} + (seen + Below(c.f.g, c.t, child)), r0, r', a0, a')
  {
    forall v
      ensures Stack(m', v) == Stack(m1, v)
    {
      assert Stack(m, v) == Stack(m1, v);
    }
    RenamedMore(c, {b} + seen, Below(c.f.g, c.t, child), r0, r, r', a0, a, a');
    assert {b} + seen + Below(c.f.g, c.t, child) == {b} + (seen + Below(c.f.g, c.t, child));
  }

  // ----- what is left -----

  function SubsAll(args: seq<Operand>, r: map<nat, Operand>): seq<Operand> {
    seq(|args|, k requires 0 <= k < |args| => Subs(r, args[k]))
  }

  function ClearedInstr(i: Instr, r: map<nat, Operand>): seq<Instr> {
    match i
    case Alloca(_) => [i]
    case Load(_, _) => []
    case Store(_, _) => []
    case Op(x, code, args) => [Op(x, code, SubsAll(args, r))]
  }

  function Cleared(code: seq<Instr>, r: map<nat, Operand>): seq<Instr> {
    if code == [] then [] else Cleared(code[..|code| - 1], r) + ClearedInstr(code[|code| - 1], r)
  }

  lemma SubsIsReplaced(c: Ctx, r: map<nat, Operand>, b: nat, k: nat, op: Operand)
    requires WellFormed(c) && b in c.f.g.blocks && OperandOk(c, b, k, op) && DoneIn(c, c.f.g.blocks, r) &&
      OnlyLoads(c, r)
    ensures Subs(r, op) == Replaced(c, op)
  {
    if op.Ref? {
      SiteKnown(c, b, k, op.name.id);
      assert LoadDone(c, r, op.name.id);
    }
  }

  lemma SubsAllIsReplaced(c: Ctx, r: map<nat, Operand>, b: nat, k: nat, args: seq<Operand>)
    requires WellFormed(c) && b in c.f.g.blocks && DoneIn(c, c.f.g.blocks, r) && OnlyLoads(c, r)
    requires forall a :: a in args ==> OperandOk(c, b, k, a)
    ensures SubsAll(args, r) == ReplacedAll(c, args)
  {
    forall j | 0 <= j < |args|
      ensures Subs(r, args[j]) == Replaced(c, args[j])
    {
      assert args[j] in args;
      SubsIsReplaced(c, r, b, k, args[j]);
    }
  }

  lemma ClearedOne(c: Ctx, r: map<nat, Operand>, b: nat, k: nat, i: Instr)
    requires WellFormed(c) && b in c.f.g.blocks && k < |Code(c, b)| && DoneIn(c, c.f.g.blocks, r) && OnlyLoads(c, r)
    requires i == Code(c, b)[k]
    ensures ClearedInstr(i, r) == NewInstr(c, i)
  {
    if i.Op? {
      assert InstrOk(c, b, k, i);
      SubsAllIsReplaced(c, r, b, k, i.args);
    }
  }

  lemma {:induction false} ClearedIsNew(c: Ctx, r: map<nat, Operand>, b: nat, k: nat)
    requires WellFormed(c) && b in c.f.g.blocks && k <= |Code(c, b)| && DoneIn(c, c.f.g.blocks, r) && OnlyLoads(c, r)
    ensures Cleared(Code(c, b)[..k], r) == NewBody(c, Code(c, b)[..k])
  {
    if k > 0 {
      TakeNext(Code(c, b), k - 1);
      ClearedIsNew(c, r, b, k - 1);
      ClearedOne(c, r, b, k - 1, Code(c, b)[k - 1]);
    }
  }

  /** The code of f, with loads and stores cleared away. */
  ghost predicate ClearedFrom(f: Func, r: map<nat, Operand>, code: Func) {
    && code.g == f.g && code.body.Keys == f.g.blocks && code.term.Keys == f.g.blocks
    && f.body.Keys == f.g.blocks && f.term.Keys == f.g.blocks
    && forall b :: b in f.g.blocks ==> code.body[b] == Cleared(f.body[b], r) && code.term[b] == Subs(r, f.term[b])
  }

  lemma ClearedBlock(c: Ctx, r: map<nat, Operand>, b: nat)
    requires WellFormed(c) && b in c.f.g.blocks && DoneIn(c, c.f.g.blocks, r) && OnlyLoads(c, r)
    ensures Cleared(Code(c, b), r) == NewBody(c, Code(c, b)) && Subs(r, c.f.term[b]) == Replaced(c, c.f.term[b])
  {
    assert Code(c, b)[..|Code(c, b)|] == Code(c, b);
    ClearedIsNew(c, r, b, |Code(c, b)|);
    SubsIsReplaced(c, r, b, |Code(c, b)|, c.f.term[b]);
  }

  function ClearedFunc(f: Func, r: map<nat, Operand>): Func
    requires f.body.Keys == f.g.blocks && f.term.Keys == f.g.blocks
  {
    Func(f.g, map b | b in f.g.blocks :: Cleared(f.body[b], r), map b | b in f.g.blocks :: Subs(r, f.term[b]))
  }

  lemma ClearedFuncIsCleared(f: Func, r: map<nat, Operand>)
    requires f.body.Keys == f.g.blocks && f.term.Keys == f.g.blocks
    ensures ClearedFrom(f, r, ClearedFunc(f, r))
  {
  }

  lemma MapsEqual<V>(m: map<nat, V>, m': map<nat, V>)
    requires m.Keys == m'.Keys && forall x :: x in m ==> m[x] == m'[x]
    ensures m == m'
  {
  }

  lemma ClearedCode(c: Ctx, r: map<nat, Operand>, code: Func)
    requires WellFormed(c) && ClearedFrom(c.f, r, code) && DoneIn(c, c.f.g.blocks, r) && OnlyLoads(c, r)
    ensures code == NewCode(c)
  {
    forall b | b in code.body
      ensures code.body[b] == NewCode(c).body[b]
    {
      ClearedBlock(c, r, b);
    }
    forall b | b in code.term
      ensures code.term[b] == NewCode(c).term[b]
    {
      ClearedBlock(c, r, b);
    }
    MapsEqual(code.body, NewCode(c).body);
    MapsEqual(code.term, NewCode(c).term);
  }

  lemma ArgsDoneAt(c: Ctx, args: Args, p: nat, b: nat, v: nat)
    requires p in c.t.up && p in c.f.g.succ && ArgsDone(c, args, p) && b in c.f.g.succ[p] && HasPhi(c, b, v)
    ensures if PhiArg(c, p, v).Some? then (p, b, v) in args && args[(p, b, v)] == PhiArg(c, p, v).value
      else (p, b, v) !in args
  {
  }

  lemma ArgsAreResult(c: Ctx, args: Args)
    requires c.f.g.succ.Keys == c.f.g.blocks && c.t.up.Keys == c.f.g.blocks && ArgsDoneIn(c, c.f.g.blocks, args)
    ensures forall p: nat, b: nat, v: nat {:trigger (p, b, v) in args} ::
      p in c.f.g.blocks && b in c.f.g.succ[p] && HasPhi(c, b, v) ==>
      if PhiArg(c, p, v).Some? then (p, b, v) in args && args[(p, b, v)] == PhiArg(c, p, v).value
        else (p, b, v) !in args
  {
    forall p: nat, b: nat, v: nat {:trigger (p, b, v) in args} | p in c.f.g.blocks && b in c.f.g.succ[p] &&
      HasPhi(c, b, v)
      ensures if PhiArg(c, p, v).Some? then (p, b, v) in args && args[(p, b, v)] == PhiArg(c, p, v).value
        else (p, b, v) !in args
    {
      assert ArgsDone(c, args, p);
      ArgsDoneAt(c, args, p, b, v);
    }
  }

  function PhisIn(g: Cfg, phi: map<nat, set<nat>>): map<nat, set<nat>> {
    map b | b in g.blocks :: (set v | v in phi && b in phi[v])
  }

  lemma PhisAreResult(c: Ctx)
    ensures PhisIn(c.f.g, c.phi).Keys == c.f.g.blocks && forall b :: b in c.f.g.blocks ==>
      PhisIn(c.f.g, c.phi)[b] == PhisOf(c, b)
  {
  }

  lemma ClearedIsResult(c: Ctx, r: map<nat, Operand>, q: SsaFunc)
    requires WellFormed(c) && Renamed(c, c.f.g.blocks, map[], r, map[], q.args) && q.code == ClearedFunc(c.f, r)
    requires q.phis == PhisIn(c.f.g, c.phi)
    ensures IsResult(c, q)
  {
    ClearedFuncIsCleared(c.f, r);
    ClearedCode(c, r, q.code);
    ArgsAreResult(c, q.args);
    PhisAreResult(c);
  }
}
