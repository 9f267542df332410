// Machine code that stands for phis: copies to temporaries in the predecessors, and moves from
// the temporaries at the head of the block.

module PhiCopies {

  /** What a phi takes from a predecessor. */
  datatype Src = Imm(n: int) | Reg(id: nat)

  /** The operands of a phi come in pairs, with the predecessor. */
  datatype Phi = Phi(dst: nat, args: seq<(nat, Src)>)

  datatype Term =
    | Jump(target: nat)
    | IfCmp(op: nat, x: nat, y: nat, yes: nat, no: nat)
    | IfNez(x: nat, yes: nat, no: nat)
    | Return

  /** Other instructions than phis and branches are named. */
  datatype IRBlock = IRBlock(phis: seq<Phi>, body: seq<nat>, term: Term)

  type IRFunc = map<nat, IRBlock>

  /** Copy moves a source to the temporary of phi i of block b; Head moves that temporary to the
      register of the phi. BCmp stands for the four branches that compare two registers. */
  datatype MInstr =
    | Copy(b: nat, i: nat, src: Src)
    | Head(b: nat, i: nat)
    | Other(id: nat)
    | BCmp(op: nat, x: nat, y: nat, target: nat)
    | BNez(x: nat, target: nat)
    | B(target: nat)
    | BExit

  predicate IsBranch(m: MInstr) { m.BCmp? || m.BNez? || m.B? || m.BExit? }

  /** What copies are put in front of. */
  predicate StopsCopies(m: MInstr) { m.BNez? || m.B? || m.BExit? }

  predicate NoBranches(code: seq<MInstr>) { forall m :: m in code ==> !IsBranch(m) }

  function Block(f: IRFunc, b: nat): IRBlock { if b in f then f[b] else IRBlock([], [], Return) }

  function Heads(b: nat, n: nat): seq<MInstr> { seq(n, i requires 0 <= i < n => Head(b, i)) }
  function Others(body: seq<nat>): seq<MInstr> { seq(|body|, k requires 0 <= k < |body| => Other(body[k])) }

  /** The branch of a block: what comes before the copies that are still to be put in, and what
      comes behind them. */
  function BranchFirst(t: Term): seq<MInstr> {
    match t
    case IfCmp(op, x, y, yes, _) => [BCmp(op, x, y, yes)]
    case _ => []
  }

  function BranchLast(t: Term): seq<MInstr> {
    match t
    case Jump(b) => [B(b)]
    case IfCmp(_, _, _, _, no) => [B(no)]
    case IfNez(x, yes, no) => [BNez(x, yes), B(no)]
    case Return => [BExit]
  }

  /** The finished code of a block. */
  function Full(f: IRFunc, b: nat, early: seq<MInstr>, late: seq<MInstr>): seq<MInstr> {
    var i := Block(f, b);
    Heads(b, |i.phis|) + Others(i.body) + early + BranchFirst(i.term) + late + BranchLast(i.term)
  }

  // ----- running -----

  type World = seq<int>
  type Vals = map<nat, int>
  type Tmps = map<(nat, nat), int>

  datatype State = State(vals: Vals, tmps: Tmps, world: World)

  /** What named instructions do to registers and the world, and what comparisons say. */
  datatype Isa = Isa(act: (nat, Vals, World) -> (Vals, World), cmp: (nat, int, int) -> bool)

  function Val(vals: Vals, x: nat): int { if x in vals then vals[x] else 0 }
  function Tmp(tmps: Tmps, b: nat, i: nat): int { if (b, i) in tmps then tmps[(b, i)] else 0 }

  function Eval(vals: Vals, s: Src): int {
    match s
    case Imm(n) => n
    case Reg(x) => Val(vals, x)
  }

  function Do(isa: Isa, f: IRFunc, m: MInstr, s: State): State {
    match m
    case Copy(b, i, src) => s.(tmps := s.tmps[(b, i) := Eval(s.vals, src)])
    case Head(b, i) =>
      if i < |Block(f, b).phis| then s.(vals := s.vals[Block(f, b).phis[i].dst := Tmp(s.tmps, b, i)]) else s
    case Other(id) =>
      var (v, w) := isa.act(id, s.vals, s.world);
      s.(vals := v, world := w)
    case _ => s
  }

  /** Code without branches. */
  function DoAll(isa: Isa, f: IRFunc, code: seq<MInstr>, s: State): State {
    if code == [] then s else Do(isa, f, code[|code| - 1], DoAll(isa, f, code[..|code| - 1], s))
  }

  datatype Next = To(block: nat, state: State) | Exit(state: State) | Fell

  /** Runs code up to the first branch that is taken. */
  function Run(isa: Isa, f: IRFunc, code: seq<MInstr>, s: State): Next {
    if code == [] then Fell
    else
      match code[0]
      case BCmp(op, x, y, t) => if isa.cmp(op, Val(s.vals, x), Val(s.vals, y)) then To(t, s)
        else Run(isa, f, code[1..], s)
      case BNez(x, t) => if Val(s.vals, x) != 0 then To(t, s) else Run(isa, f, code[1..], s)
      case B(t) => To(t, s)
      case BExit => Exit(s)
      case _ => Run(isa, f, code[1..], Do(isa, f, code[0], s))
  }

  lemma {:induction false} DoAllFront(isa: Isa, f: IRFunc, m: MInstr, code: seq<MInstr>, s: State)
    ensures DoAll(isa, f, [m] + code, s) == DoAll(isa, f, code, Do(isa, f, m, s))
  {
    if code == [] {
      assert [m] + code == [m] && [m][..0] == [];
    } else {
      assert ([m] + code)[..|[m] + code| - 1] == [m] + code[..|code| - 1];
      DoAllFront(isa, f, m, code[..|code| - 1], s);
    }
  }

  /** Code without branches is run through. */
  lemma {:induction false} RunThrough(isa: Isa, f: IRFunc, code: seq<MInstr>, rest: seq<MInstr>, s: State)
    requires NoBranches(code)
    ensures Run(isa, f, code + rest, s) == Run(isa, f, rest, DoAll(isa, f, code, s))
    decreases |code|
  {
    if code == [] {
      assert code + rest == rest;
    } else {
      assert (code + rest)[1..] == code[1..] + rest;
      assert code[0] in code;
      RunThrough(isa, f, code[1..], rest, Do(isa, f, code[0], s));
      DoAllFront(isa, f, code[0], code[1..], s);
      assert [code[0]] + code[1..] == code;
    }
  }

  // ----- what phis mean -----

  predicate HasArg(phi: Phi, p: nat) { exists k :: 0 <= k < |phi.args| && phi.args[k].0 == p }

  /** What a phi takes from p. */
  function ArgOf(args: seq<(nat, Src)>, p: nat): Src {
    if args == [] then Imm(0) else if args[0].0 == p then args[0].1 else ArgOf(args[1..], p)
  }

  /** Every phi has one operand for each predecessor. */
  ghost predicate OneArgEach(phi: Phi) {
    forall k, l :: 0 <= k < |phi.args| && 0 <= l < |phi.args| && phi.args[k].0 == phi.args[l].0 ==>
      phi.args[k].1 == phi.args[l].1
  }

  function Body(isa: Isa, body: seq<nat>, vals: Vals, w: World): (Vals, World) {
    if body == [] then (vals, w)
    else
      var (v, u) := Body(isa, body[..|body| - 1], vals, w);
      isa.act(body[|body| - 1], v, u)
  }

  /** All phis of b take their values from p at once. */
  function ParVals(f: IRFunc, b: nat, p: nat, n: nat, vals: Vals): Vals
    requires n <= |Block(f, b).phis|
  {
    if n == 0 then vals
    else ParVals(f, b, p, n - 1, vals)[Block(f, b).phis[n - 1].dst := Eval(vals,
                                                                           ArgOf(Block(f, b).phis[n - 1].args, p))]
  }

  /** Where a block goes when it has come to its end; None for a return. */
  datatype Option = None | Some(block: nat)

  function Target(isa: Isa, t: Term, vals: Vals): Option {
    match t
    case Jump(b) => Some(b)
    case IfCmp(op, x, y, yes, no) => if isa.cmp(op, Val(vals, x), Val(vals, y)) then Some(yes) else Some(no)
    case IfNez(x, yes, no) => if Val(vals, x) != 0 then Some(yes) else Some(no)
    case Return => None
  }

  /** The branch is a comparison that holds. */
  predicate TakenCompare(isa: Isa, t: Term, vals: Vals) {
    t.IfCmp? && isa.cmp(t.op, Val(vals, t.x), Val(vals, t.y))
  }

  lemma {:induction false} ArgIsOne(args: seq<(nat, Src)>, p: nat, src: Src)
    requires (p, src) in args && forall k, l :: 0 <= k < |args| && 0 <= l < |args| && args[k].0 == args[l].0 ==>
      args[k].1 == args[l].1
    ensures ArgOf(args, p) == src
    decreases |args|
  {
    var k :| 0 <= k < |args| && args[k] == (p, src);
    if args[0].0 != p {
      assert args[1..][k - 1] == args[k];
      ArgIsOne(args[1..], p, src);
    } else {
      assert args[0].0 == args[k].0;
    }
  }

  // ----- segments of finished code -----

  /** Copies for phis, of what they take from p. */
  ghost predicate CopiesFrom(f: IRFunc, p: nat, code: seq<MInstr>) {
    forall m {:trigger m in code} :: m in code ==> IsCopyFrom(f, p, m)
  }

  ghost predicate IsCopyFrom(f: IRFunc, p: nat, m: MInstr) {
    m.Copy? && m.b in f && m.i < |f[m.b].phis| && (p, m.src) in f[m.b].phis[m.i].args
  }

  ghost predicate Copied(code: seq<MInstr>, b: nat, i: nat) {
    exists m :: m in code && m.Copy? && m.b == b && m.i == i
  }

  ghost predicate ArgsOk(f: IRFunc) {
    forall b, i {:trigger f[b].phis[i]} :: b in f && 0 <= i < |f[b].phis| ==> OneArgEach(f[b].phis[i])
  }

  lemma CopiesDoNotBranch(f: IRFunc, p: nat, code: seq<MInstr>)
    requires CopiesFrom(f, p, code)
    ensures NoBranches(code)
  {
  }

  lemma CopiesSplit(f: IRFunc, p: nat, code: seq<MInstr>, m: MInstr)
    ensures CopiesFrom(f, p, code + [m]) <==> CopiesFrom(f, p, code) && IsCopyFrom(f, p, m)
  {
    assert forall c :: c in code + [m] <==> c in code || c == m;
    if CopiesFrom(f, p, code + [m]) {
      assert m in code + [m];
      forall c | c in code ensures IsCopyFrom(f, p, c) {
        assert c in code + [m];
      }
    }
  }

  lemma CopiedOneMore(code: seq<MInstr>, m: MInstr, b: nat, i: nat)
    requires m.Copy?
    ensures Copied(code + [m], b, i) <==> Copied(code, b, i) || (m.b == b && m.i == i)
  {
    if Copied(code + [m], b, i) {
      var c :| c in code + [m] && c.Copy? && c.b == b && c.i == i;
      assert c in code || c == m;
    }
    if Copied(code, b, i) {
      var c :| c in code && c.Copy? && c.b == b && c.i == i;
      assert c in code + [m];
    }
    assert m in code + [m];
  }

  /** Copies leave registers alone, and what has been copied is what the phi takes from p. */
  lemma {:induction false} CopiesRun(isa: Isa, f: IRFunc, p: nat, code: seq<MInstr>, s: State, b: nat, i: nat)
    requires CopiesFrom(f, p, code) && ArgsOk(f) && b in f && i < |f[b].phis|
    ensures DoAll(isa, f, code, s).vals == s.vals && DoAll(isa, f, code, s).world == s.world
    ensures Tmp(DoAll(isa, f, code, s).tmps, b, i) ==
      if Copied(code, b, i) then Eval(s.vals, ArgOf(f[b].phis[i].args, p)) else Tmp(s.tmps, b, i)
    decreases |code|
  {
    if code != [] {
      var c, m := code[..|code| - 1], code[|code| - 1];
      assert code == c + [m];
      CopiesSplit(f, p, c, m);
      CopiesRun(isa, f, p, c, s, b, i);
      CopiedOneMore(c, m, b, i);
      var s' := DoAll(isa, f, c, s);
      assert DoAll(isa, f, code, s) == Do(isa, f, m, s');
      CopyRuns(isa, f, p, m, s', b, i);
    }
  }

  lemma CopyRuns(isa: Isa, f: IRFunc, p: nat, m: MInstr, s: State, b: nat, i: nat)
    requires IsCopyFrom(f, p, m) && ArgsOk(f) && b in f && i < |f[b].phis|
    ensures Do(isa, f, m, s).vals == s.vals && Do(isa, f, m, s).world == s.world
    ensures Tmp(Do(isa, f, m, s).tmps, b, i) ==
      if m.b == b && m.i == i then Eval(s.vals, ArgOf(f[b].phis[i].args, p)) else Tmp(s.tmps, b, i)
  {
    if m.b == b && m.i == i {
      assert OneArgEach(f[b].phis[i]);
      ArgIsOne(f[b].phis[i].args, p, m.src);
    }
  }

  lemma {:induction false} CopiesKeep(isa: Isa, f: IRFunc, p: nat, code: seq<MInstr>, s: State)
    requires CopiesFrom(f, p, code)
    ensures DoAll(isa, f, code, s).vals == s.vals && DoAll(isa, f, code, s).world == s.world
    decreases |code|
  {
    if code != [] {
      assert code == code[..|code| - 1] + [code[|code| - 1]];
      CopiesSplit(f, p, code[..|code| - 1], code[|code| - 1]);
      CopiesKeep(isa, f, p, code[..|code| - 1], s);
    }
  }

  function HeadVals(f: IRFunc, b: nat, n: nat, vals: Vals, tmps: Tmps): Vals
    requires n <= |Block(f, b).phis|
  {
    if n == 0 then vals else HeadVals(f, b, n - 1, vals, tmps)[Block(f, b).phis[n - 1].dst := Tmp(tmps, b, n - 1)]
  }

  lemma {:induction false} HeadsRun(isa: Isa, f: IRFunc, b: nat, n: nat, s: State)
    requires n <= |Block(f, b).phis|
    ensures NoBranches(Heads(b, n))
    ensures DoAll(isa, f, Heads(b, n), s) == s.(vals := HeadVals(f, b, n, s.vals, s.tmps))
    decreases n
  {
    if n > 0 {
      assert Heads(b, n)[..n - 1] == Heads(b, n - 1);
      HeadsRun(isa, f, b, n - 1, s);
    }
  }

  lemma {:induction false} OthersRun(isa: Isa, f: IRFunc, body: seq<nat>, s: State)
    ensures NoBranches(Others(body))
    ensures DoAll(isa, f, Others(body), s) ==
      s.(vals := Body(isa, body, s.vals, s.world).0, world := Body(isa, body, s.vals, s.world).1)
    decreases |body|
  {
    if body != [] {
      assert Others(body)[..|body| - 1] == Others(body[..|body| - 1]);
      OthersRun(isa, f, body[..|body| - 1], s);
    }
  }

  /** Swaps and lost copies are no problem: the temporaries hold all values before any phi changes. */
  lemma {:induction false} HeadsArePhis(f: IRFunc, b: nat, p: nat, n: nat, vals: Vals, tmps: Tmps)
    requires n <= |Block(f, b).phis|
    requires forall i :: 0 <= i < n ==> Tmp(tmps, b, i) == Eval(vals, ArgOf(Block(f, b).phis[i].args, p))
    ensures HeadVals(f, b, n, vals, tmps) == ParVals(f, b, p, n, vals)
    decreases n
  {
    if n > 0 {
      HeadsArePhis(f, b, p, n - 1, vals, tmps);
    }
  }

  // ----- a finished block -----

  /** What is known of the copies in block p, when blocks have been selected in the given order:
      those for phis of blocks that came before p are in front of the branch, those for later
      blocks behind a comparison. */
  ghost predicate Placed(f: IRFunc, order: nat -> nat, p: nat, early: seq<MInstr>, late: seq<MInstr>) {
    && CopiesFrom(f, p, early) && CopiesFrom(f, p, late)
    && (forall m {:trigger m in early} :: m in early ==> m.Copy? && order(m.b) < order(p))
    && (forall m {:trigger m in late} :: m in late ==> m.Copy? && order(m.b) > order(p))
    && (forall b, i {:trigger Copied(early, b, i)} {:trigger Copied(late, b, i)} ::
          b in f && 0 <= i < |f[b].phis| && HasArg(f[b].phis[i], p) ==>
            if order(b) < order(p) then Copied(early, b, i) else Copied(late, b, i))
  }

  /** The state at the end of block p: after heads, the instructions and the copies in front of the
      branch. */
  function BeforeBranch(isa: Isa, f: IRFunc, p: nat, early: seq<MInstr>, s: State): State {
    DoAll(isa, f, early, DoAll(isa, f, Others(Block(f, p).body), DoAll(isa, f, Heads(p, |Block(f, p).phis|), s)))
  }

  lemma FullRuns(isa: Isa, f: IRFunc, p: nat, early: seq<MInstr>, late: seq<MInstr>, s: State)
    requires NoBranches(early) && NoBranches(late)
    ensures Run(isa, f, Full(f, p, early, late), s)
      == Run(isa, f, BranchFirst(Block(f, p).term) + (late + BranchLast(Block(f, p).term)),
             BeforeBranch(isa, f, p, early, s))
  {
    var i := Block(f, p);
    var h, o, rest := Heads(p, |i.phis|), Others(i.body), BranchFirst(i.term) + (late + BranchLast(i.term));
    HeadsRun(isa, f, p, |i.phis|, s);
    OthersRun(isa, f, i.body, DoAll(isa, f, h, s));
    assert Full(f, p, early, late) == h + (o + (early + rest));
    RunThrough(isa, f, h, o + (early + rest), s);
    RunThrough(isa, f, o, early + rest, DoAll(isa, f, h, s));
    RunThrough(isa, f, early, rest, DoAll(isa, f, o, DoAll(isa, f, h, s)));
  }

  /** The end of a block: the late copies are skipped by a comparison that holds, and by nothing else. */
  lemma BranchRuns(isa: Isa, f: IRFunc, t: Term, late: seq<MInstr>, s: State)
    requires NoBranches(late) && DoAll(isa, f, late, s).vals == s.vals
    ensures var r := Run(isa, f, BranchFirst(t) + (late + BranchLast(t)), s);
      var s' := if TakenCompare(isa, t, s.vals) then s else DoAll(isa, f, late, s);
      match Target(isa, t, s.vals)
      case Some(b) => r == To(b, s')
      case None => r == Exit(s')
  {
    var rest := late + BranchLast(t);
    RunThrough(isa, f, late, BranchLast(t), s);
    assert [] + rest == rest;
    if t.IfCmp? {
      assert (BranchFirst(t) + rest)[1..] == rest;
    }
    if t.IfNez? {
      assert BranchLast(t)[1..] == [B(t.no)];
    }
  }

  /** The state in which p is left. */
  function Leaving(isa: Isa, f: IRFunc, p: nat, early: seq<MInstr>, late: seq<MInstr>, s: State): State {
    var s' := BeforeBranch(isa, f, p, early, s);
    if TakenCompare(isa, Block(f, p).term, s'.vals) then s' else DoAll(isa, f, late, s')
  }

  /** The machine is at the head of b in state s, and its phis are about to take their values;
      vals and w are what they will be. */
  ghost predicate Entering(f: IRFunc, b: nat, vals: Vals, w: World, s: State) {
    HeadVals(f, b, |Block(f, b).phis|, s.vals, s.tmps) == vals && s.world == w
  }

  lemma BodyRuns(isa: Isa, f: IRFunc, p: nat, early: seq<MInstr>, s: State, vals: Vals, w: World)
    requires Entering(f, p, vals, w, s) && CopiesFrom(f, p, early)
    ensures BeforeBranch(isa, f, p, early, s).vals == Body(isa, Block(f, p).body, vals, w).0
    ensures BeforeBranch(isa, f, p, early, s).world == Body(isa, Block(f, p).body, vals, w).1
  {
    var i := Block(f, p);
    HeadsRun(isa, f, p, |i.phis|, s);
    var s1 := DoAll(isa, f, Heads(p, |i.phis|), s);
    OthersRun(isa, f, i.body, s1);
    CopiesKeep(isa, f, p, early, DoAll(isa, f, Others(i.body), s1));
  }

  /** The temporary of a phi when p is left: what the phi takes from p, if a copy is passed, and
      what it was otherwise. */
  lemma TmpWhenLeaving(isa: Isa, f: IRFunc, order: nat -> nat, p: nat, early: seq<MInstr>, late: seq<MInstr>,
                       s: State, vals: Vals, w: World,
                       b: nat, i: nat)
    requires ArgsOk(f) && Placed(f, order, p, early, late) && Entering(f, p, vals, w, s)
    requires b in f && i < |f[b].phis| && HasArg(f[b].phis[i], p)
    ensures var v := Body(isa, Block(f, p).body, vals, w).0;
      Tmp(Leaving(isa, f, p, early, late, s).tmps, b, i) ==
        if order(b) < order(p) || !TakenCompare(isa, Block(f, p).term, v) then Eval(v, ArgOf(f[b].phis[i].args, p))
        else Tmp(s.tmps, b, i)
  {
    var ir := Block(f, p);
    HeadsRun(isa, f, p, |ir.phis|, s);
    var s1 := DoAll(isa, f, Heads(p, |ir.phis|), s);
    OthersRun(isa, f, ir.body, s1);
    var s2 := DoAll(isa, f, Others(ir.body), s1);
    CopiesRun(isa, f, p, early, s2, b, i);
    CopiesRun(isa, f, p, late, BeforeBranch(isa, f, p, early, s), b, i);
    assert Copied(early, b, i) ==> order(b) < order(p);
    assert Copied(late, b, i) ==> order(b) > order(p);
    assert if order(b) < order(p) then Copied(early, b, i) else Copied(late, b, i);
  }

  // ----- edges -----

  /** The copies that the edge from p to b relies on are passed: it is not a comparison that holds,
      or b has been selected before p. */
  predicate Delivered(isa: Isa, order: nat -> nat, p: nat, t: Term, b: nat, vals: Vals) {
    !TakenCompare(isa, t, vals) || order(b) < order(p)
  }

  ghost predicate AllArgs(f: IRFunc, b: nat, p: nat) {
    forall i :: 0 <= i < |Block(f, b).phis| ==> HasArg(Block(f, b).phis[i], p)
  }

  /** One block, and the edge to the next: the machine goes where the phis' function goes, and finds
      the phis there ready to take the values they take from p, all at once. */
  lemma TurnIsRight(isa: Isa, f: IRFunc, order: nat -> nat, p: nat, early: seq<MInstr>, late: seq<MInstr>, s: State,
                    vals: Vals, w: World)
    requires ArgsOk(f) && Placed(f, order, p, early, late) && Entering(f, p, vals, w, s)
    ensures var (v, u) := Body(isa, Block(f, p).body, vals, w);
      var s' := Leaving(isa, f, p, early, late, s);
      s'.vals == v && s'.world == u &&
      match Target(isa, Block(f, p).term, v)
      case Some(b) =>
        && Run(isa, f, Full(f, p, early, late), s) == To(b, s')
        && (AllArgs(f, b, p) && Delivered(isa, order, p, Block(f, p).term, b, v) ==>
              Entering(f, b, ParVals(f, b, p, |Block(f, b).phis|, v), u, s'))
      case None => Run(isa, f, Full(f, p, early, late), s) == Exit(s')
  {
    var t := Block(f, p).term;
    var (v, u) := Body(isa, Block(f, p).body, vals, w);
    var s1, s' := BeforeBranch(isa, f, p, early, s), Leaving(isa, f, p, early, late, s);
    CopiesDoNotBranch(f, p, early);
    CopiesDoNotBranch(f, p, late);
    FullRuns(isa, f, p, early, late, s);
    BodyRuns(isa, f, p, early, s, vals, w);
    CopiesKeep(isa, f, p, late, s1);
    BranchRuns(isa, f, t, late, s1);
    var to := Target(isa, t, v);
    if to.Some? && AllArgs(f, to.block, p) && Delivered(isa, order, p, t, to.block, v) {
      EdgeIsRight(isa, f, order, p, early, late, s, vals, w, to.block);
    }
  }

  lemma EdgeIsRight(isa: Isa, f: IRFunc, order: nat -> nat, p: nat, early: seq<MInstr>, late: seq<MInstr>, s: State,
                    vals: Vals, w: World, b: nat)
    requires ArgsOk(f) && Placed(f, order, p, early, late) && Entering(f, p, vals, w, s) && AllArgs(f, b, p)
    requires Leaving(isa, f, p, early, late, s).vals == Body(isa, Block(f, p).body, vals, w).0
    requires Delivered(isa, order, p, Block(f, p).term, b, Body(isa, Block(f, p).body, vals, w).0)
    ensures var v := Body(isa, Block(f, p).body, vals, w).0; var s' := Leaving(isa, f, p, early, late, s);
      HeadVals(f, b, |Block(f, b).phis|, s'.vals, s'.tmps) == ParVals(f, b, p, |Block(f, b).phis|, v)
  {
    var v, s' := Body(isa, Block(f, p).body, vals, w).0, Leaving(isa, f, p, early, late, s);
    forall i | 0 <= i < |Block(f, b).phis|
      ensures Tmp(s'.tmps, b, i) == Eval(v, ArgOf(Block(f, b).phis[i].args, p))
    {
      TmpWhenLeaving(isa, f, order, p, early, late, s, vals, w, b, i);
    }
    HeadsArePhis(f, b, p, |Block(f, b).phis|, v, s'.tmps);
  }

  /** The temporaries of p's own phis are the same. */
  ghost predicate SameHeads(f: IRFunc, p: nat, tmps: Tmps, tmps': Tmps) {
    forall i :: 0 <= i < |Block(f, p).phis| ==> Tmp(tmps', p, i) == Tmp(tmps, p, i)
  }

  lemma {:induction false} SameHeadVals(f: IRFunc, p: nat, n: nat, vals: Vals, tmps: Tmps, tmps': Tmps)
    requires n <= |Block(f, p).phis| && SameHeads(f, p, tmps, tmps')
    ensures HeadVals(f, p, n, vals, tmps') == HeadVals(f, p, n, vals, tmps)
    decreases n
  {
    if n > 0 {
      SameHeadVals(f, p, n - 1, vals, tmps, tmps');
    }
  }

  /** The edge that is taken from p in state s is right whatever the temporaries of other phis hold. */
  ghost predicate AlwaysRight(isa: Isa, f: IRFunc, p: nat, early: seq<MInstr>, late: seq<MInstr>, s: State,
                              vals: Vals, w: World, b: nat) {
    var (v, u) := Body(isa, Block(f, p).body, vals, w);
    forall tmps :: SameHeads(f, p, s.tmps, tmps) ==>
      Entering(f, b, ParVals(f, b, p, |Block(f, b).phis|, v), u, Leaving(isa, f, p, early, late, s.(tmps := tmps)))
  }

  /** Phis have registers of their own. */
  ghost predicate OwnRegisters(f: IRFunc, b: nat) {
    forall i, j :: 0 <= i < j < |Block(f, b).phis| ==> Block(f, b).phis[i].dst != Block(f, b).phis[j].dst
  }

  lemma {:induction false} HeadValsAt(f: IRFunc, b: nat, n: nat, vals: Vals, tmps: Tmps, i: nat)
    requires i < n <= |Block(f, b).phis| && OwnRegisters(f, b)
    ensures Val(HeadVals(f, b, n, vals, tmps), Block(f, b).phis[i].dst) == Tmp(tmps, b, i)
    decreases n
  {
    if i < n - 1 {
      HeadValsAt(f, b, n - 1, vals, tmps, i);
      assert Block(f, b).phis[i].dst != Block(f, b).phis[n - 1].dst;
    }
  }

  lemma {:induction false} ParValsAt(f: IRFunc, b: nat, p: nat, n: nat, vals: Vals, i: nat)
    requires i < n <= |Block(f, b).phis| && OwnRegisters(f, b)
    ensures Val(ParVals(f, b, p, n, vals), Block(f, b).phis[i].dst) == Eval(vals, ArgOf(Block(f, b).phis[i].args, p))
    decreases n
  {
    if i < n - 1 {
      ParValsAt(f, b, p, n - 1, vals, i);
      assert Block(f, b).phis[i].dst != Block(f, b).phis[n - 1].dst;
    }
  }

  /** Exactly when it is right: an edge to a block with phis is right, whatever stale values there
      are, if and only if its copies are passed. */
  lemma EdgeIsExact(isa: Isa, f: IRFunc, order: nat -> nat, p: nat, early: seq<MInstr>, late: seq<MInstr>, s: State,
                    vals: Vals, w: World, b: nat)
    requires ArgsOk(f) && Placed(f, order, p, early, late) && Entering(f, p, vals, w, s)
    requires b in f && b != p && f[b].phis != [] && AllArgs(f, b, p) && OwnRegisters(f, b)
    ensures AlwaysRight(isa, f, p, early, late, s, vals, w, b) <==>
      Delivered(isa, order, p, Block(f, p).term, b, Body(isa, Block(f, p).body, vals, w).0)
  {
    var (v, u) := Body(isa, Block(f, p).body, vals, w);
    if Delivered(isa, order, p, Block(f, p).term, b, v) {
      forall tmps | SameHeads(f, p, s.tmps, tmps)
        ensures Entering(f, b, ParVals(f, b, p, |Block(f, b).phis|, v), u,
                         Leaving(isa, f, p, early, late, s.(tmps := tmps)))
      {
        SameHeadVals(f, p, |Block(f, p).phis|, s.vals, s.tmps, tmps);
        TurnIsRight(isa, f, order, p, early, late, s.(tmps := tmps), vals, w);
        EdgeIsRight(isa, f, order, p, early, late, s.(tmps := tmps), vals, w, b);
      }
    } else {
      var tmps := StaleTemporary(isa, f, order, p, early, late, s, vals, w, b);
    }
  }

  /** A state in which the edge goes wrong: the first phi gets what its temporary held before. */
  lemma StaleTemporary(isa: Isa, f: IRFunc, order: nat -> nat, p: nat, early: seq<MInstr>, late: seq<MInstr>,
                       s: State, vals: Vals, w: World, b: nat)
    returns (tmps: Tmps)
    requires ArgsOk(f) && Placed(f, order, p, early, late) && Entering(f, p, vals, w, s)
    requires b in f && b != p && f[b].phis != [] && AllArgs(f, b, p) && OwnRegisters(f, b)
    requires !Delivered(isa, order, p, Block(f, p).term, b, Body(isa, Block(f, p).body, vals, w).0)
    ensures SameHeads(f, p, s.tmps, tmps)
    ensures var (v, u) := Body(isa, Block(f, p).body, vals, w);
      !Entering(f, b, ParVals(f, b, p, |Block(f, b).phis|, v), u, Leaving(isa, f, p, early, late, s.(tmps := tmps)))
  {
    var (v, u) := Body(isa, Block(f, p).body, vals, w);
    var n, x := |Block(f, b).phis|, Eval(v, ArgOf(f[b].phis[0].args, p));
    tmps := s.tmps[(b, 0) := x + 1];
    SameHeadVals(f, p, |Block(f, p).phis|, s.vals, s.tmps, tmps);
    var s1 := s.(tmps := tmps);
    TmpWhenLeaving(isa, f, order, p, early, late, s1, vals, w, b, 0);
    var s' := Leaving(isa, f, p, early, late, s1);
    HeadValsAt(f, b, n, s'.vals, s'.tmps, 0);
    ParValsAt(f, b, p, n, v, 0);
  }

  // ----- whole runs -----

  type Program = map<nat, seq<MInstr>>

  function Code(q: Program, b: nat): seq<MInstr> { if b in q then q[b] else [] }

  /** All blocks are finished, and their copies are where they have been put. */
  ghost predicate Finished(f: IRFunc, order: nat -> nat, q: Program, early: Program, late: Program) {
    && ArgsOk(f)
    && forall p {:trigger Code(q, p)} :: p in f ==>
         Code(q, p) == Full(f, p, Code(early, p), Code(late, p)) && Placed(f, order, p, Code(early, p), Code(late, p))
  }

  datatype IRRun = AtBlock(block: nat, vals: Vals, world: World) | Over(vals: Vals, world: World)
  datatype MRun = InBlock(block: nat, state: State) | Ended(state: State) | Lost

  /** n blocks; the phis of b have taken their values already. */
  function RunIR(isa: Isa, f: IRFunc, n: nat, b: nat, vals: Vals, w: World): IRRun
    decreases n
  {
    if n == 0 then AtBlock(b, vals, w)
    else
      var (v, u) := Body(isa, Block(f, b).body, vals, w);
      match Target(isa, Block(f, b).term, v)
      case Some(t) => RunIR(isa, f, n - 1, t, ParVals(f, t, b, |Block(f, t).phis|, v), u)
      case None => Over(v, u)
  }

  function RunMachine(isa: Isa, f: IRFunc, q: Program, n: nat, b: nat, s: State): MRun
    decreases n
  {
    if n == 0 then InBlock(b, s)
    else
      match Run(isa, f, Code(q, b), s)
      case To(t, s') => RunMachine(isa, f, q, n - 1, t, s')
      case Exit(s') => Ended(s')
      case Fell => Lost
  }

  function Successors(t: Term): set<nat> {
    match t
    case Jump(b) => {b}
    case IfCmp(_, _, _, yes, no) => {yes, no}
    case IfNez(_, yes, no) => {yes, no}
    case Return => {}
  }

  /** Edges lead to blocks whose phis have an operand for them. */
  ghost predicate EdgesOk(f: IRFunc) {
    forall p, b {:trigger b in Successors(f[p].term)} :: p in f && b in Successors(f[p].term) ==>
      b in f && AllArgs(f, b, p)
  }

  /** A block with phis is no target of a comparison, unless it is selected before it. */
  ghost predicate NoLateTargets(f: IRFunc, order: nat -> nat) {
    forall p :: p in f && f[p].term.IfCmp? ==> Block(f, f[p].term.yes).phis == [] || order(f[p].term.yes) < order(p)
  }

  lemma TargetIsSuccessor(isa: Isa, t: Term, vals: Vals)
    ensures Target(isa, t, vals).Some? ==> Target(isa, t, vals).block in Successors(t)
    ensures TakenCompare(isa, t, vals) ==> Target(isa, t, vals) == Some(t.yes)
  {
  }

  ghost predicate SameRun(f: IRFunc, r: IRRun, r': MRun) {
    match r
    case AtBlock(b, vals, w) => r'.InBlock? && r'.block == b && Entering(f, b, vals, w, r'.state)
    case Over(vals, w) => r'.Ended? && r'.state.vals == vals && r'.state.world == w
  }

  /** Phi elimination preserves meaning: the machine goes through the same blocks, with the same
      values in all registers, for any number of steps. */
  lemma {:induction false} PhiEliminationPreservesRuns(isa: Isa, f: IRFunc, order: nat -> nat, q: Program,
                                                       early: Program, late: Program,
                                                       n: nat, b: nat, vals: Vals, w: World, s: State)
    requires Finished(f, order, q, early, late) && EdgesOk(f) && NoLateTargets(f, order)
    requires b in f && Entering(f, b, vals, w, s)
    ensures SameRun(f, RunIR(isa, f, n, b, vals, w), RunMachine(isa, f, q, n, b, s))
    decreases n
  {
    if n > 0 {
      var (v, u) := Body(isa, Block(f, b).body, vals, w);
      assert Code(q, b) == Full(f, b, Code(early, b), Code(late, b));
      TurnIsRight(isa, f, order, b, Code(early, b), Code(late, b), s, vals, w);
      TargetIsSuccessor(isa, Block(f, b).term, v);
      var to := Target(isa, Block(f, b).term, v);
      if to.Some? {
        NextTurn(isa, f, order, b, Code(early, b), Code(late, b), s, vals, w, to.block);
        PhiEliminationPreservesRuns(isa, f, order, q, early, late, n - 1, to.block,
                                    ParVals(f, to.block, b, |Block(f, to.block).phis|, v), u,
                                    Leaving(isa, f, b, Code(early, b), Code(late, b), s));
      }
    }
  }

  lemma NextTurn(isa: Isa, f: IRFunc, order: nat -> nat, p: nat, early: seq<MInstr>, late: seq<MInstr>, s: State,
                 vals: Vals, w: World, b: nat)
    requires ArgsOk(f) && Placed(f, order, p, early, late) && EdgesOk(f) && NoLateTargets(f, order)
    requires p in f && Entering(f, p, vals, w, s) && Target(isa, f[p].term, Body(isa, f[p].body, vals, w).0) == Some(b)
    ensures b in f && Entering(f, b, ParVals(f, b, p, |f[b].phis|, Body(isa, f[p].body, vals, w).0),
                               Body(isa, f[p].body, vals, w).1,
                               Leaving(isa, f, p, early, late, s))
  {
    var v := Body(isa, f[p].body, vals, w).0;
    TargetIsSuccessor(isa, f[p].term, v);
    TurnIsRight(isa, f, order, p, early, late, s, vals, w);
  }
}
