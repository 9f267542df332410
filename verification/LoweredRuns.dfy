// Running the graph, and why it does what the statements say.

module LoweredRuns {
  import opened SysY
  import opened Lowering

  datatype Config = Here(block: nat, pos: nat, world: World) | Done(value: int, world: World) | Stuck

  function Step(act: Act, g: Graph, c: Config): Config {
    if !c.Here? then c
    else if c.pos < |CodeOf(g, c.block)| then Here(c.block, c.pos + 1, act(CodeOf(g, c.block)[c.pos], c.world).1)
    else
      match TermOf(g, c.block)
      case Open => Stuck
      case Goto(b) => Here(b, 0, c.world)
      case Branch(e, y, n) =>
        var (v, w) := act(e, c.world);
        Here(if v != 0 then y else n, 0, w)
      case Ret(e) =>
        var (v, w) := act(e, c.world);
        Done(v, w)
      case RetVoid => Done(0, c.world)
  }

  function Steps(act: Act, g: Graph, m: nat, c: Config): Config {
    if m == 0 then c else Steps(act, g, m - 1, Step(act, g, c))
  }

  lemma {:induction false} StepsAdd(act: Act, g: Graph, m: nat, k: nat, c: Config)
    ensures Steps(act, g, m + k, c) == Steps(act, g, k, Steps(act, g, m, c))
    decreases m
  {
    if m > 0 {
      StepsAdd(act, g, m - 1, k, Step(act, g, c));
    }
  }

  lemma {:induction false} StaysEnded(act: Act, g: Graph, m: nat, c: Config)
    requires !c.Here?
    ensures Steps(act, g, m, c) == c
    decreases m
  {
    if m > 0 {
      StaysEnded(act, g, m - 1, c);
    }
  }

  lemma OneStep(act: Act, g: Graph, c: Config)
    ensures Steps(act, g, 1, c) == Step(act, g, c)
  {
    assert Steps(act, g, 0, Step(act, g, c)) == Step(act, g, c);
  }

  /** From c, the run follows o: it comes to `exit` after m steps, or is still under way after n. */
  ghost predicate Follows(act: Act, g: Graph, c: Config, n: nat, m: nat, o: Outcome, exit: Config) {
    if o.OutOfFuel? then Steps(act, g, n, c).Here? else Steps(act, g, m, c) == exit
  }

  lemma FollowsThen(act: Act, g: Graph, c: Config, k: nat, c1: Config, n1: nat, m1: nat, o: Outcome, exit: Config,
                    n: nat)
    requires Steps(act, g, k, c) == c1 && Follows(act, g, c1, n1, m1, o, exit) && n <= k + n1
    ensures Follows(act, g, c, n, k + m1, o, exit)
  {
    StepsAdd(act, g, k, m1, c);
    StepsAdd(act, g, k, n1, c);
    StepsAdd(act, g, n, k + n1 - n, c);
    if !Steps(act, g, n, c).Here? {
      StaysEnded(act, g, k + n1 - n, Steps(act, g, n, c));
    }
  }

  lemma StepsThen(act: Act, g: Graph, c: Config, k: nat, c1: Config, m: nat, c2: Config)
    requires Steps(act, g, k, c) == c1 && Steps(act, g, m, c1) == c2
    ensures Steps(act, g, k + m, c) == c2
  {
    StepsAdd(act, g, k, m, c);
  }

  // ----- where things are in the finished graph -----

  /** Where building goes on. */
  function Cursor(g: Graph, w: World): Config { Here(g.cur, |CodeOf(g, g.cur)|, w) }

  lemma EmittedStep(act: Act, g: Graph, e: nat, h: Graph, w: World)
    requires Ok(g) && Grows(Emit(g, e), h)
    ensures Step(act, h, Cursor(g, w)) == Cursor(Emit(g, e), act(e, w).1)
  {
    var g' := Emit(g, e);
    assert KeptAt(g', h, g.cur);
    assert CodeOf(g', g.cur)[|CodeOf(g, g.cur)|] == e;
    assert CodeOf(h, g.cur)[..|CodeOf(g', g.cur)|] == CodeOf(g', g.cur);
  }

  lemma CursorEnded(act: Act, g: Graph, t: Term, h: Graph, w: World)
    requires Ok(g) && Grows(End(g, t), h) && !t.Open?
    ensures TermOf(h, g.cur) == t && |CodeOf(h, g.cur)| == |CodeOf(g, g.cur)|
  {
    assert KeptAt(End(g, t), h, g.cur);
  }

  lemma GrowsAnywhere(g: Graph, b: nat, h: Graph)
    ensures Grows(At(g, b), h) <==> Grows(g, h)
  {
    assert forall d :: KeptAt(At(g, b), h, d) <==> KeptAt(g, h, d);
  }

  // ----- conditions -----

  /** The condition is true exactly when the yes block is reached, with the world as the operands
      that have to be evaluated leave it. */
  lemma {:induction false} CondRuns(act: Act, c: Cond, t: nat, f: nat, g: Graph, h: Graph, w: World) returns (m: nat)
    requires Ok(g) && IsOpen(g) && Grows(LowerCond(c, t, f, g), h)
    ensures m > 0 && Steps(act, h, m, Cursor(g, w)) ==
      Here(if EvalCond(act, c, w).0 then t else f, 0, EvalCond(act, c, w).1)
    decreases c
  {
    match c
    case Test(e) =>
      CursorEnded(act, g, Branch(e, t, f), h, w);
      OneStep(act, h, Cursor(g, w));
      m := 1;
    case And(l, r) =>
      SecondCond(c, l, r, g.next, f, t, f, g, h);
      var k := CondRuns(act, l, g.next, f, NewBlock(g), h, w);
      m := k;
      if EvalCond(act, l, w).0 {
        var w' := EvalCond(act, l, w).1;
        var j := CondRuns(act, r, t, f, At(LowerCond(l, g.next, f, NewBlock(g)), g.next), h, w');
        StepsAdd(act, h, k, j, Cursor(g, w));
        m := k + j;
      }
    case Or(l, r) =>
      SecondCond(c, l, r, t, g.next, t, f, g, h);
      var k := CondRuns(act, l, t, g.next, NewBlock(g), h, w);
      m := k;
      if !EvalCond(act, l, w).0 {
        var w' := EvalCond(act, l, w).1;
        var j := CondRuns(act, r, t, f, At(LowerCond(l, t, g.next, NewBlock(g)), g.next), h, w');
        StepsAdd(act, h, k, j, Cursor(g, w));
        m := k + j;
      }
  }

  /** The second operand of && and || is built in a block of its own, which is empty until then. */
  lemma SecondCond(c: Cond, l: Cond, r: Cond, t1: nat, f1: nat, t2: nat, f2: nat, g: Graph, h: Graph)
    requires Ok(g) && IsOpen(g) && Grows(LowerCond(r, t2, f2, At(LowerCond(l, t1, f1, NewBlock(g)), g.next)), h)
    ensures var g1 := LowerCond(l, t1, f1, NewBlock(g));
      Ok(NewBlock(g)) && IsOpen(NewBlock(g)) && Grows(g1, h) && Ok(At(g1, g.next)) && IsOpen(At(g1, g.next)) &&
        CodeOf(g1, g.next) == []
    ensures CodeOf(NewBlock(g), g.cur) == CodeOf(g, g.cur)
  {
    NewBlockBuilds(g);
    var g1 := LowerCond(l, t1, f1, NewBlock(g));
    CondBuilds(l, t1, f1, NewBlock(g));
    StillEmpty(NewBlock(g), g.next, g1);
    MovedOk(g1, g.next);
    CondBuilds(r, t2, f2, At(g1, g.next));
    GrowsTransitive(At(g1, g.next), LowerCond(r, t2, f2, At(g1, g.next)), h);
    GrowsAnywhere(g1, g.next, h);
  }

  // ----- statements -----

  /** Where the run is when a statement has had the outcome o. */
  function ExitOf(o: Outcome, g': Graph, endBB: nat, condBB: nat): Config {
    match o
    case Normal(w) => Cursor(g', w)
    case Broken(w) => Here(endBB, 0, w)
    case Continued(w) => Here(condBB, 0, w)
    case Returned(v, w) => Done(v, w)
    case OutOfFuel => Stuck
  }

  /** From c, the code built by going from g to g' does what o says; where o is normal, building
      can go on behind it. */
  ghost predicate Does(act: Act, h: Graph, c: Config, n: nat, m: nat, o: Outcome, g': Graph, endBB: nat, condBB: nat) {
    Follows(act, h, c, n, m, o, ExitOf(o, g', endBB, condBB)) && (o.Normal? ==> IsOpen(g'))
  }

  lemma DoesThen(act: Act, h: Graph, c: Config, k: nat, c1: Config, n1: nat, m1: nat, o: Outcome, g': Graph,
                 endBB: nat, condBB: nat, n: nat)
    requires Steps(act, h, k, c) == c1 && Does(act, h, c1, n1, m1, o, g', endBB, condBB) && n <= k + n1
    ensures Does(act, h, c, n, k + m1, o, g', endBB, condBB)
  {
    FollowsThen(act, h, c, k, c1, n1, m1, o, ExitOf(o, g', endBB, condBB), n);
  }

  /** A branch that has been built in a block of its own, b, and closed with a jump to `to`. */
  lemma ClosedBranch(act: Act, h: Graph, c: Config, n: nat, m: nat, o: Outcome, g1: Graph, endBB: nat, condBB: nat,
                     to: nat) returns (k: nat)
    requires Ok(g1) && Does(act, h, c, n, m, o, g1, endBB, condBB) && Grows(Close(g1, to), h)
    ensures o.Normal? ==> Steps(act, h, k, c) == Here(to, 0, o.world)
    ensures !o.Normal? ==> k == m
  {
    k := m;
    if o.Normal? {
      CursorEnded(act, g1, Goto(to), h, o.world);
      OneStep(act, h, Cursor(g1, o.world));
      StepsThen(act, h, c, m, Cursor(g1, o.world), 1, Here(to, 0, o.world));
      k := m + 1;
    }
  }

  /** The same, when building goes on at `to`, in a block that is still empty. */
  lemma JoinedBranch(act: Act, h: Graph, c: Config, n: nat, m: nat, o: Outcome, g1: Graph, endBB: nat, condBB: nat,
                     to: nat, g': Graph)
    returns (k: nat)
    requires Ok(g1) && Does(act, h, c, n, m, o, g1, endBB, condBB) && Grows(Close(g1, to), h)
    requires g'.cur == to && CodeOf(g', to) == [] && IsOpen(g')
    ensures Does(act, h, c, n, k, o, g', endBB, condBB)
  {
    k := ClosedBranch(act, h, c, n, m, o, g1, endBB, condBB, to);
  }

  /** The jump to the condition, and the condition. */
  lemma ConditionRuns(act: Act, c: Cond, g: Graph, h: Graph, w: World) returns (m: nat)
    requires Ok(g) && IsOpen(g) && Grows(Opened(c, g), h)
    ensures m > 0 && Steps(act, h, m, Here(g.next, 0, w)) ==
      Here(if EvalCond(act, c, w).0 then g.next + 1 else g.next + 2, 0, EvalCond(act, c, w).1)
    ensures Steps(act, h, 1, Cursor(g, w)) == Here(g.next, 0, w)
  {
    ThreeBlocks(g);
    OpenedBuilds(c, g);
    GrowsTransitive(WithThree(g), Opened(c, g), h);
    assert KeptAt(WithThree(g), h, g.cur) by { assert KeptAt(g, WithThree(g), g.cur); }
    OneStep(act, h, Cursor(g, w));
    m := CondRuns(act, c, g.next + 1, g.next + 2, WithThree(g), h, w);
  }

  lemma BothSteps(act: Act, c: Cond, g: Graph, h: Graph, w: World) returns (m: nat)
    requires Ok(g) && IsOpen(g) && Grows(Opened(c, g), h)
    ensures m > 0 && Steps(act, h, m, Cursor(g, w)) ==
      Here(if EvalCond(act, c, w).0 then g.next + 1 else g.next + 2, 0, EvalCond(act, c, w).1)
  {
    var k := ConditionRuns(act, c, g, h, w);
    StepsAdd(act, h, 1, k, Cursor(g, w));
    m := 1 + k;
  }

  /** What the branch of a selection or a loop is built in. */
  function BranchStart(c: Cond, g: Graph): Graph { At(Opened(c, g), g.next + 1) }

  /** A statement that is built in an empty block: building it goes from g0 to g1, and is then
      closed with a jump to `to`. */
  ghost predicate Part(s: Stmt, endBB: nat, condBB: nat, b: nat, g0: Graph, g1: Graph, to: nat, h: Graph) {
    && Ok(g0) && IsOpen(g0) && g0.cur == b && CodeOf(g0, b) == []
    && g1 == Lower(s, endBB, condBB, g0) && Ok(g1) && Grows(g1, h) && Grows(Close(g1, to), h)
  }

  lemma PartIs(s: Stmt, endBB: nat, condBB: nat, g: Graph, b: nat, g0: Graph, g1: Graph, to: nat, h: Graph)
    requires Ok(g) && Empty(g, b) && g0 == At(g, b) && g1 == Lower(s, endBB, condBB, g0) && Grows(Close(g1, to), h)
    ensures Part(s, endBB, condBB, b, g0, g1, to, h) && Grows(g, h)
  {
    MovedOk(g, b);
    LowerBuilds(s, endBB, condBB, g0);
    CloseBuilds(g1, to);
    GrowsTransitive(g1, Close(g1, to), h);
    GrowsTransitive(g0, g1, h);
    GrowsAnywhere(g, b, h);
  }

  /** Building goes on at b, which is still empty. */
  ghost predicate GoesOnAt(g': Graph, b: nat) { g'.cur == b && CodeOf(g', b) == [] && IsOpen(g') }

  lemma GoesOn(g: Graph, b: nat, h: Graph)
    requires Empty(g, b) && Grows(At(g, b), h)
    ensures GoesOnAt(At(g, b), b) && Grows(g, h)
  {
    GrowsAnywhere(g, b, h);
  }

  /** A branch that is built in block b of x0, and closed; building goes on at block d. */
  lemma LastBranch(s: Stmt, endBB: nat, condBB: nat, g: Graph, x0: Graph, b: nat, g0: Graph, g1: Graph, to: nat,
                   x1: Graph, d: nat, h: Graph)
    requires Ok(g) && Built(g, x0) && Empty(x0, b) && Empty(x0, d) && b >= g.next && d != b
    requires g0 == At(x0, b) && g1 == Lower(s, endBB, condBB, g0) && x1 == Close(g1, to) && Grows(At(x1, d), h)
    ensures Part(s, endBB, condBB, b, g0, g1, to, h) && Grows(x0, h) && GoesOnAt(At(x1, d), d)
  {
    BranchDone(s, endBB, condBB, g, x0, b, g0, g1, to, x1);
    GoesOn(x1, d, h);
    PartIs(s, endBB, condBB, x0, b, g0, g1, to, h);
  }

  lemma BranchDone(s: Stmt, endBB: nat, condBB: nat, g: Graph, x0: Graph, b: nat, g0: Graph, g1: Graph, to: nat,
                   x1: Graph)
    requires Ok(g) && Built(g, x0) && Empty(x0, b) && b >= g.next
    requires g0 == At(x0, b) && g1 == Lower(s, endBB, condBB, g0) && x1 == Close(g1, to)
    ensures Built(g, x1) && forall d :: Empty(x0, d) && d != b ==> Empty(x1, d)
  {
    BranchBuilds(s, endBB, condBB, g, x0, b, to);
  }

  lemma OneBranch(s: Stmt, c: Cond, endBB: nat, condBB: nat, g: Graph, to: nat, x0: Graph, g0: Graph, g1: Graph,
                  x1: Graph, h: Graph)
    requires Ok(g) && IsOpen(g) && x0 == Opened(c, g) && g0 == At(x0, g.next + 1)
    requires g1 == Lower(s, endBB, condBB, g0) && x1 == Close(g1, to) && Grows(At(x1, g.next + 2), h)
    ensures Part(s, endBB, condBB, g.next + 1, g0, g1, to, h)
    ensures Grows(x0, h) && GoesOnAt(At(x1, g.next + 2), g.next + 2)
  {
    OpenedBuilds(c, g);
    LastBranch(s, endBB, condBB, g, x0, g.next + 1, g0, g1, to, x1, g.next + 2, h);
  }

  lemma LowerOne(s: Stmt, c: Cond, t: Stmt, endBB: nat, condBB: nat, g: Graph)
    requires s == If(c, t) || s == While(c, t)
    ensures var to, e, d := if s.If? then g.next + 2 else g.next, if s.If? then endBB
      else g.next + 2, if s.If? then condBB else g.next;
      Lower(s, endBB, condBB, g) == At(Close(Lower(t, e, d, BranchStart(c, g)), to), g.next + 2)
  {
  }

  /** The parts that the graph of a selection without else is made of. */
  lemma LowerIf(s: Stmt, c: Cond, t: Stmt, endBB: nat, condBB: nat, g: Graph, g': Graph, h: Graph)
      returns (g0: Graph, g1: Graph)
    requires s == If(c, t) && Ok(g) && IsOpen(g) && g' == Lower(s, endBB, condBB, g) && Grows(g', h)
    ensures Part(t, endBB, condBB, g.next + 1, g0, g1, g.next + 2, h)
    ensures Grows(Opened(c, g), h) && GoesOnAt(g', g.next + 2)
  {
    LowerOne(s, c, t, endBB, condBB, g);
    g0 := BranchStart(c, g);
    g1 := Lower(t, endBB, condBB, g0);
    OneBranch(t, c, endBB, condBB, g, g.next + 2, Opened(c, g), g0, g1, Close(g1, g.next + 2), h);
  }

  /** The parts that the graph of a loop is made of. */
  lemma LowerWhile(s: Stmt, c: Cond, body: Stmt, endBB: nat, condBB: nat, g: Graph, g': Graph, h: Graph)
      returns (g0: Graph, g1: Graph)
    requires s == While(c, body) && Ok(g) && IsOpen(g) && g' == Lower(s, endBB, condBB, g) && Grows(g', h)
    ensures Part(body, g.next + 2, g.next, g.next + 1, g0, g1, g.next, h)
    ensures Grows(Opened(c, g), h) && GoesOnAt(g', g.next + 2)
  {
    LowerOne(s, c, body, endBB, condBB, g);
    g0 := BranchStart(c, g);
    g1 := Lower(body, g.next + 2, g.next, g0);
    OneBranch(body, c, g.next + 2, g.next, g, g.next, Opened(c, g), g0, g1, Close(g1, g.next), h);
  }

  lemma {:induction false} StmtRuns(act: Act, n: nat, s: Stmt, endBB: nat, condBB: nat, g: Graph, h: Graph, w: World)
      returns (m: nat)
    requires Ok(g) && IsOpen(g) && Grows(Lower(s, endBB, condBB, g), h)
    ensures Does(act, h, Cursor(g, w), n, m, Exec(act, n, s, w), Lower(s, endBB, condBB, g), endBB, condBB)
    decreases n, s, 2
  {
    m := 1;
    var g' := Lower(s, endBB, condBB, g);
    OneStep(act, h, Cursor(g, w));
    match s
    case Do(e) =>
      EmittedStep(act, g, e, h, w);
    case Block(ss) =>
      m := AllRun(act, n, ss, endBB, condBB, g, h, w);
    case If(c, t) =>
      var g0, g1 := LowerIf(s, c, t, endBB, condBB, g, g', h);
      m := IfRuns(act, n, s, c, t, endBB, condBB, g, g0, g1, g', h, w);
    case IfElse(c, t, e) =>
      var g0, to, g1, g2, g3 := LowerIfElse(s, c, t, e, endBB, condBB, g, g', h);
      m := IfElseRuns(act, n, s, c, t, e, endBB, condBB, g, to, g0, g1, g2, g3, g', h, w);
    case While(c, body) =>
      var g0, g1 := LowerWhile(s, c, body, endBB, condBB, g, g', h);
      m := LoopRuns(act, n, s, c, body, endBB, condBB, g, g0, g1, g', h, w);
    case Break =>
      CursorEnded(act, g, Goto(endBB), h, w);
    case Continue =>
      CursorEnded(act, g, Goto(condBB), h, w);
    case Return(e) =>
      CursorEnded(act, g, Ret(e), h, w);
    case ReturnVoid =>
      CursorEnded(act, g, RetVoid, h, w);
  }

  lemma {:induction false} AllRun(act: Act, n: nat, ss: seq<Stmt>, endBB: nat, condBB: nat, g: Graph, h: Graph,
                                  w: World) returns (m: nat)
    requires Ok(g) && IsOpen(g) && Grows(LowerAll(ss, endBB, condBB, g), h)
    ensures Does(act, h, Cursor(g, w), n, m, ExecAll(act, n, ss, w), LowerAll(ss, endBB, condBB, g), endBB, condBB)
    decreases n, ss, 2
  {
    m := 0;
    if ss != [] {
      LowerBuilds(ss[0], endBB, condBB, g);
      var g1 := Lower(ss[0], endBB, condBB, g);
      if IsOpen(g1) {
        LowerAllBuilds(ss[1..], endBB, condBB, g1);
        GrowsTransitive(g1, LowerAll(ss[1..], endBB, condBB, g1), h);
      }
      m := StmtRuns(act, n, ss[0], endBB, condBB, g, h, w);
      var o := Exec(act, n, ss[0], w);
      if o.Normal? {
        var k := AllRun(act, n, ss[1..], endBB, condBB, g1, h, o.world);
        DoesThen(act, h, Cursor(g, w), m, Cursor(g1, o.world), n, k, ExecAll(act, n, ss[1..], o.world),
                 LowerAll(ss[1..], endBB, condBB, g1), endBB, condBB, n);
        m := m + k;
      }
    }
  }

  lemma {:induction false} IfRuns(act: Act, n: nat, s: Stmt, c: Cond, t: Stmt, endBB: nat, condBB: nat, g: Graph,
                                  g0: Graph, g1: Graph, g': Graph, h: Graph, w: World) returns (m: nat)
    requires s == If(c, t) && Ok(g) && IsOpen(g) && Grows(Opened(c, g), h)
    requires Part(t, endBB, condBB, g.next + 1, g0, g1, g.next + 2, h) && GoesOnAt(g', g.next + 2)
    ensures Does(act, h, Cursor(g, w), n, m, Exec(act, n, s, w), g', endBB, condBB)
    decreases n, s, 0
  {
    var (b, w') := EvalCond(act, c, w);
    var k := BothSteps(act, c, g, h, w);
    if b {
      m := PartRuns(act, Cursor(g, w), k, n, t, endBB, condBB, g.next + 1, g0, g1, g.next + 2, h, w', g');
    } else {
      GoesStraightOn(act, h, Cursor(g, w), n, k, w', g', g.next + 2, endBB, condBB);
      m := k;
    }
  }

  /** Nothing is left to do but to go on at `to`. */
  lemma GoesStraightOn(act: Act, h: Graph, c: Config, n: nat, k: nat, w: World, g': Graph, to: nat, endBB: nat,
                       condBB: nat)
    requires Steps(act, h, k, c) == Here(to, 0, w) && GoesOnAt(g', to)
    ensures Does(act, h, c, n, k, Normal(w), g', endBB, condBB)
  {
  }

  /** A branch of a selection, up to where building goes on behind the selection. */
  lemma {:induction false} PartRuns(act: Act, c: Config, k: nat, n: nat, s: Stmt, endBB: nat, condBB: nat, b: nat,
                                    g0: Graph, g1: Graph, to: nat, h: Graph, w: World, g': Graph) returns (m: nat)
    requires Steps(act, h, k, c) == Here(b, 0, w)
    requires Part(s, endBB, condBB, b, g0, g1, to, h) && GoesOnAt(g', to)
    ensures Does(act, h, c, n, m, Exec(act, n, s, w), g', endBB, condBB)
    decreases n, s, 3
  {
    var j := StmtRuns(act, n, s, endBB, condBB, g0, h, w);
    var o := Exec(act, n, s, w);
    var i := JoinedBranch(act, h, Here(b, 0, w), n, j, o, g1, endBB, condBB, to, g');
    DoesThen(act, h, c, k, Here(b, 0, w), n, i, o, g', endBB, condBB, n);
    m := k + i;
  }

  lemma {:induction false} LoopRuns(act: Act, n: nat, s: Stmt, c: Cond, body: Stmt, endBB: nat, condBB: nat, g: Graph,
                                    g0: Graph, g1: Graph, g': Graph, h: Graph, w: World) returns (m: nat)
    requires s == While(c, body) && Ok(g) && IsOpen(g) && Grows(Opened(c, g), h)
    requires Part(body, g.next + 2, g.next, g.next + 1, g0, g1, g.next, h) && GoesOnAt(g', g.next + 2)
    ensures Does(act, h, Cursor(g, w), n, m, Exec(act, n, s, w), g', endBB, condBB)
    decreases n, s, 1
  {
    var k := ConditionRuns(act, c, g, h, w);
    var j := WhileRuns(act, n, s, c, body, endBB, condBB, g, g0, g1, g', h, w);
    DoesThen(act, h, Cursor(g, w), 1, Here(g.next, 0, w), n, j, Exec(act, n, s, w), g', endBB, condBB, n);
    m := 1 + j;
  }

  /** From the condition of a loop. */
  lemma {:induction false} WhileRuns(act: Act, n: nat, s: Stmt, c: Cond, body: Stmt, endBB: nat, condBB: nat, g: Graph,
                                     g0: Graph, g1: Graph, g': Graph, h: Graph, w: World) returns (m: nat)
    requires s == While(c, body) && Ok(g) && IsOpen(g) && Grows(Opened(c, g), h)
    requires Part(body, g.next + 2, g.next, g.next + 1, g0, g1, g.next, h) && GoesOnAt(g', g.next + 2)
    ensures Does(act, h, Here(g.next, 0, w), n, m, Exec(act, n, s, w), g', endBB, condBB)
    decreases n, s, 0
  {
    m := 0;
    if n > 0 {
      var k := ConditionRuns(act, c, g, h, w);
      var (b, w') := EvalCond(act, c, w);
      m := k;
      OneTurn(act, n, s, c, body, w);
      if b {
        var o, i := TurnRuns(act, n - 1, s, c, body, endBB, condBB, g, g0, g1, g', h, w');
        DoesThen(act, h, Here(g.next, 0, w), k, Here(g.next + 1, 0, w'), n - 1, i, o, g', endBB, condBB, n);
        m := k + i;
      }
    }
  }

  /** What is left of a loop when its condition has held. */
  function AfterTurn(act: Act, n: nat, s: Stmt, body: Stmt, w: World): Outcome {
    var r := Exec(act, n, body, w);
    if r.Normal? || r.Continued? then Exec(act, n, s, r.world)
    else if r.Broken? then Normal(r.world)
    else r
  }

  lemma OneTurn(act: Act, n: nat, s: Stmt, c: Cond, body: Stmt, w: World)
    requires s == While(c, body) && n > 0
    ensures var (b, w') := EvalCond(act, c, w);
      Exec(act, n, s, w) == if b then AfterTurn(act, n - 1, s, body, w') else Normal(w')
  {
  }

  /** A break has left the loop for the block behind it, where building goes on. */
  lemma BrokenGoesOn(act: Act, h: Graph, c: Config, n: nat, m: nat, o: Outcome, g1: Graph, to: nat, inner: nat,
                     g': Graph, endBB: nat, condBB: nat)
    requires o.Broken? && Does(act, h, c, n, m, o, g1, to, inner) && GoesOnAt(g', to)
    ensures Does(act, h, c, n, m, Normal(o.world), g', endBB, condBB)
  {
  }

  /** A return leaves everything, and so does running out of fuel. */
  lemma ReturnedAnyway(act: Act, h: Graph, c: Config, n: nat, m: nat, o: Outcome, g1: Graph, to: nat, inner: nat,
                       g': Graph, endBB: nat, condBB: nat)
    requires !o.Normal? && !o.Broken? && !o.Continued? && Does(act, h, c, n, m, o, g1, to, inner)
    ensures Does(act, h, c, n, m, o, g', endBB, condBB)
  {
  }

  /** From the condition of a loop again, at the end of a turn. */
  lemma {:induction false} AgainRuns(act: Act, a: Config, k: nat, n: nat, s: Stmt, c: Cond, body: Stmt, endBB: nat,
                                     condBB: nat, g: Graph,
                                     g0: Graph, g1: Graph, g': Graph, h: Graph, w: World) returns (m: nat)
    requires Steps(act, h, k, a) == Here(g.next, 0, w)
    requires s == While(c, body) && Ok(g) && IsOpen(g) && Grows(Opened(c, g), h)
    requires Part(body, g.next + 2, g.next, g.next + 1, g0, g1, g.next, h) && GoesOnAt(g', g.next + 2)
    ensures Does(act, h, a, n, m, Exec(act, n, s, w), g', endBB, condBB)
    decreases n, s, 1
  {
    var l := WhileRuns(act, n, s, c, body, endBB, condBB, g, g0, g1, g', h, w);
    DoesThen(act, h, a, k, Here(g.next, 0, w), n, l, Exec(act, n, s, w), g', endBB, condBB, n);
    m := k + l;
  }

  /** The body, once, and the loop again. */
  lemma {:induction false} TurnRuns(act: Act, n: nat, s: Stmt, c: Cond, body: Stmt, endBB: nat, condBB: nat, g: Graph,
                                    g0: Graph, g1: Graph, g': Graph, h: Graph, w: World) returns (o: Outcome, m: nat)
    requires s == While(c, body) && Ok(g) && IsOpen(g) && Grows(Opened(c, g), h)
    requires Part(body, g.next + 2, g.next, g.next + 1, g0, g1, g.next, h) && GoesOnAt(g', g.next + 2)
    ensures o == AfterTurn(act, n, s, body, w) && Does(act, h, Here(g.next + 1, 0, w), n, m, o, g', endBB, condBB)
    decreases n, s, 3
  {
    var j := StmtRuns(act, n, body, g.next + 2, g.next, g0, h, w);
    o := Exec(act, n, body, w);
    m := ClosedBranch(act, h, Here(g.next + 1, 0, w), n, j, o, g1, g.next + 2, g.next, g.next);
    if o.Normal? || o.Continued? {
      m := AgainRuns(act, Here(g.next + 1, 0, w), m, n, s, c, body, endBB, condBB, g, g0, g1, g', h, o.world);
      o := Exec(act, n, s, o.world);
    } else if o.Broken? {
      BrokenGoesOn(act, h, Here(g.next + 1, 0, w), n, m, o, g1, g.next + 2, g.next, g', endBB, condBB);
      o := Normal(o.world);
    } else {
      ReturnedAnyway(act, h, Here(g.next + 1, 0, w), n, m, o, g1, g.next + 2, g.next, g', endBB, condBB);
    }
  }

  /** The parts that the graph of a selection with else is made of. */
  lemma LowerIfElse(s: Stmt, c: Cond, t: Stmt, e: Stmt, endBB: nat, condBB: nat, g: Graph, g': Graph, h: Graph)
    returns (g0: Graph, to: nat, g1: Graph, g2: Graph, g3: Graph)
    requires s == IfElse(c, t, e) && Ok(g) && IsOpen(g) && g' == Lower(s, endBB, condBB, g) && Grows(g', h)
    ensures Part(t, endBB, condBB, g.next + 1, g0, g1, to, h) && Part(e, endBB, condBB, g.next + 2, g2, g3, to, h)
    ensures Grows(Opened(c, g), h) && GoesOnAt(g', to)
  {
    var x0, x1, x2;
    to, x0, g0, g1, x1, g2, g3, x2 := IfElsePieces(s, c, t, e, endBB, condBB, g, g', h);
    BothBranches(t, e, endBB, condBB, g, g.next + 1, g.next + 2, to, x0, g0, g1, x1, g2, g3, x2, h);
  }

  lemma IfElsePieces(s: Stmt, c: Cond, t: Stmt, e: Stmt, endBB: nat, condBB: nat, g: Graph, g': Graph, h: Graph)
    returns (to: nat, x0: Graph, g0: Graph, g1: Graph, x1: Graph, g2: Graph, g3: Graph, x2: Graph)
    requires s == IfElse(c, t, e) && Ok(g) && IsOpen(g) && g' == Lower(s, endBB, condBB, g)
    ensures Built(g, x0) && Empty(x0, g.next + 1) && Empty(x0, g.next + 2) && Empty(x0, to) && to >= g.next + 3
    ensures g0 == At(x0, g.next + 1) && g1 == Lower(t, endBB, condBB, g0) && x1 == Close(g1, to)
    ensures g2 == At(x1, g.next + 2) && g3 == Lower(e, endBB, condBB, g2) && x2 == Close(g3, to) && g' == At(x2, to)
    ensures Grows(x0, h) ==> Grows(Opened(c, g), h)
  {
    to, x0 := Opened(c, g).next, WithMerge(c, g);
    g0 := At(x0, g.next + 1);
    g1 := Lower(t, endBB, condBB, g0);
    x1 := Close(g1, to);
    g2 := At(x1, g.next + 2);
    g3 := Lower(e, endBB, condBB, g2);
    x2 := Close(g3, to);
    IfElseParts(s, c, t, e, endBB, condBB, g, g', to, x0, g0, g1, x1, g2, g3, x2);
    MergeIs(c, g, x0, to);
    if Grows(x0, h) {
      MergeGrows(c, g, x0, h);
    }
  }

  lemma {:induction false} IfElseParts(s: Stmt, c: Cond, t: Stmt, e: Stmt, endBB: nat, condBB: nat, g: Graph,
                                       g': Graph, to: nat,
                    x0: Graph, g0: Graph, g1: Graph, x1: Graph, g2: Graph, g3: Graph, x2: Graph)
    requires s == IfElse(c, t, e) && g' == Lower(s, endBB, condBB, g)
    requires to == Opened(c, g).next && x0 == WithMerge(c, g) && g0 == At(x0, g.next + 1)
    requires g1 == Lower(t, endBB, condBB, g0) && x1 == Close(g1, to) && g2 == At(x1, g.next + 2)
    requires g3 == Lower(e, endBB, condBB, g2) && x2 == Close(g3, to)
    ensures g' == At(x2, to)
  {
    IfElseIs(c, t, e, endBB, condBB, g);
  }

  /** Two branches that lead to the same block. */
  lemma BothBranches(t: Stmt, e: Stmt, endBB: nat, condBB: nat, g: Graph, yes: nat, no: nat, to: nat,
                     x0: Graph, g0: Graph, g1: Graph, x1: Graph, g2: Graph, g3: Graph, x2: Graph, h: Graph)
    requires Ok(g) && Built(g, x0) && Empty(x0, yes) && Empty(x0, no) && Empty(x0, to)
    requires g.next <= yes < no < to
    requires g0 == At(x0, yes) && g1 == Lower(t, endBB, condBB, g0) && x1 == Close(g1, to)
    requires g2 == At(x1, no) && g3 == Lower(e, endBB, condBB, g2) && x2 == Close(g3, to) && Grows(At(x2, to), h)
    ensures Part(t, endBB, condBB, yes, g0, g1, to, h) && Part(e, endBB, condBB, no, g2, g3, to, h)
    ensures Grows(x0, h) && GoesOnAt(At(x2, to), to)
  {
    BranchDone(t, endBB, condBB, g, x0, yes, g0, g1, to, x1);
    LastBranch(e, endBB, condBB, g, x1, no, g2, g3, to, x2, to, h);
    PartIs(t, endBB, condBB, x0, yes, g0, g1, to, h);
  }

  lemma MergeIs(c: Cond, g: Graph, x0: Graph, to: nat)
    requires Ok(g) && IsOpen(g) && to == Opened(c, g).next && x0 == WithMerge(c, g)
    ensures Built(g, x0) && Empty(x0, g.next + 1) && Empty(x0, g.next + 2) && Empty(x0, to) && to >= g.next + 3
  {
    WithMergeBuilds(c, g);
  }

  lemma MergeGrows(c: Cond, g: Graph, x0: Graph, h: Graph)
    requires Ok(g) && IsOpen(g) && x0 == WithMerge(c, g) && Grows(x0, h)
    ensures Grows(Opened(c, g), h)
  {
    OpenedBuilds(c, g);
    NewBlockBuilds(Opened(c, g));
    GrowsTransitive(Opened(c, g), x0, h);
  }

  lemma {:induction false} IfElseRuns(act: Act, n: nat, s: Stmt, c: Cond, t: Stmt, e: Stmt, endBB: nat, condBB: nat,
                                      g: Graph,
                                      to: nat, g0: Graph, g1: Graph, g2: Graph, g3: Graph, g': Graph, h: Graph,
                                        w: World) returns (m: nat)
    requires s == IfElse(c, t, e) && Ok(g) && IsOpen(g) && Grows(Opened(c, g), h)
    requires Part(t, endBB, condBB, g.next + 1, g0, g1, to, h) && Part(e, endBB, condBB, g.next + 2, g2, g3, to, h) &&
      GoesOnAt(g', to)
    ensures Does(act, h, Cursor(g, w), n, m, Exec(act, n, s, w), g', endBB, condBB)
    decreases n, s, 0
  {
    var k := BothSteps(act, c, g, h, w);
    var (b, w') := EvalCond(act, c, w);
    if b {
      m := PartRuns(act, Cursor(g, w), k, n, t, endBB, condBB, g.next + 1, g0, g1, to, h, w', g');
    } else {
      m := PartRuns(act, Cursor(g, w), k, n, e, endBB, condBB, g.next + 2, g2, g3, to, h, w', g');
    }
  }

  // ----- functions -----

  /** The graph with nothing but an empty entry block. */
  function EntryOnly(): Graph { Graph(map[0 := []], map[0 := Open], 1, 0) }

  /** The graph of a function; one that does not end with a return returns 0. */
  function LowerFunc(body: Stmt): Graph {
    var g := Lower(body, 0, 0, EntryOnly());
    if IsOpen(g) then End(g, RetVoid) else g
  }

  /** What a function with this body returns. */
  function Call(act: Act, n: nat, body: Stmt, w: World): Outcome {
    var o := Exec(act, n, body, w);
    if o.Normal? then Returned(0, o.world) else o
  }

  lemma EntryOk()
    ensures Ok(EntryOnly()) && IsOpen(EntryOnly()) && CodeOf(EntryOnly(), 0) == []
  {
  }

  lemma FuncGrows(body: Stmt)
    ensures Ok(Lower(body, 0, 0, EntryOnly())) && Grows(Lower(body, 0, 0, EntryOnly()), LowerFunc(body))
  {
    EntryOk();
    LowerBuilds(body, 0, 0, EntryOnly());
    CloseBuilds(Lower(body, 0, 0, EntryOnly()), 0);
    var g := Lower(body, 0, 0, EntryOnly());
    forall b | b in g.code
      ensures KeptAt(g, LowerFunc(body), b)
    {
    }
  }

  /** Lowering preserves meaning: when the body returns, so does the graph, the same value in the
      same world; as long as the body is under way, so is the graph. */
  lemma FunctionRuns(act: Act, n: nat, body: Stmt, w: World) returns (m: nat)
    requires Proper(body, false)
    ensures var o := Call(act, n, body, w);
      if o.OutOfFuel? then Steps(act, LowerFunc(body), n, Here(0, 0, w)).Here?
      else o.Returned? && Steps(act, LowerFunc(body), m, Here(0, 0, w)) == Done(o.value, o.world)
  {
    EntryOk();
    FuncGrows(body);
    ProperEnds(act, n, body, w);
    var g, h := Lower(body, 0, 0, EntryOnly()), LowerFunc(body);
    m := StmtRuns(act, n, body, 0, 0, EntryOnly(), h, w);
    var o := Exec(act, n, body, w);
    if o.Normal? {
      CursorEnded(act, g, RetVoid, h, o.world);
      OneStep(act, h, Cursor(g, o.world));
      StepsThen(act, h, Here(0, 0, w), m, Cursor(g, o.world), 1, Done(0, o.world));
      m := m + 1;
    }
  }

  lemma DoneOnce(act: Act, h: Graph, c: Config, m: nat, k: nat)
    requires Steps(act, h, m, c).Done? && Steps(act, h, k, c).Done?
    ensures Steps(act, h, m, c) == Steps(act, h, k, c)
  {
    if m <= k {
      StepsAdd(act, h, m, k - m, c);
      StaysEnded(act, h, k - m, Steps(act, h, m, c));
    } else {
      StepsAdd(act, h, k, m - k, c);
      StaysEnded(act, h, m - k, Steps(act, h, k, c));
    }
  }

  /** The graph returns v in w' exactly when the body does. */
  lemma FunctionIsExact(act: Act, body: Stmt, w: World, v: int, w': World)
    requires Proper(body, false)
    ensures (exists n: nat :: Call(act, n, body, w) == Returned(v, w')) <==>
      (exists m: nat :: Steps(act, LowerFunc(body), m, Here(0, 0, w)) == Done(v, w'))
  {
    if n: nat :| Call(act, n, body, w) == Returned(v, w') {
      var m := FunctionRuns(act, n, body, w);
      assert Steps(act, LowerFunc(body), m, Here(0, 0, w)) == Done(v, w');
    }
    if m: nat :| Steps(act, LowerFunc(body), m, Here(0, 0, w)) == Done(v, w') {
      var k := FunctionRuns(act, m, body, w);
      DoneOnce(act, LowerFunc(body), Here(0, 0, w), m, k);
      assert Call(act, m, body, w) == Returned(v, w');
    }
  }
}
