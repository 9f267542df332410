// Turning loads and stores of local variables into values: what every use is replaced by, and
// why the result computes the same.

module Renaming {
  import opened FlowGraph
  import opened DomTree
  import opened Ssa

  datatype Option<T> = None | Some(value: T)

  type Site = (nat, nat)

  /** A function with its dominator tree, the blocks that have a phi for each variable, and where
      values and variables come from: block and position of the instruction. */
  datatype Ctx = Ctx(f: Func, t: Tree, phi: map<nat, set<nat>>, site: map<nat, Site>, home: map<nat, Site>)

  function Code(c: Ctx, b: nat): seq<Instr> {
    if b in c.f.body then c.f.body[b] else []
  }

  predicate HasPhi(c: Ctx, b: nat, v: nat) {
    v in c.phi && b in c.phi[v]
  }

  /** The position s comes before position k of block b, on every way there. */
  ghost predicate Before(c: Ctx, s: Site, b: nat, k: nat)
    requires TreeOk(c.t) && b in c.t.up
  {
    if s.0 == b then s.1 < k else s.0 in Above(c.t, b)
  }

  function Height(c: Ctx, b: nat): nat {
    if Num(c.t, b) <= Num(c.t, c.t.root) then Num(c.t, c.t.root) - Num(c.t, b) else 0
  }

  predicate IsLoad(c: Ctx, x: nat) {
    x in c.site && c.site[x].1 < |Code(c, c.site[x].0)| && Code(c, c.site[x].0)[c.site[x].1].Load?
  }

  /** Earlier in the order in which blocks are renamed. */
  predicate Earlier(c: Ctx, s: Site, b: nat, k: nat) {
    s.0 in c.t.up && s.1 <= |Code(c, s.0)| && ((s.0 == b && s.1 < k) || Height(c, s.0) < Height(c, b))
  }

  // ----- the value of a variable at a position -----

  /** The last definition of v in front of position k of block b, as the stack of v has it. */
  function Cur(c: Ctx, b: nat, k: nat, v: nat): Option<Operand>
    requires b in c.t.up && k <= |Code(c, b)|
    decreases Height(c, b), k, 1
  {
    if k == 0 then
      if HasPhi(c, b, v) then Some(Ref(Phi(b, v)))
      else if Up(c.t, b) in c.t.up && Height(c, Up(c.t, b)) < Height(c, b) then
        Cur(c, Up(c.t, b), |Code(c, Up(c.t, b))|, v)
      else None
    else
      match Code(c, b)[k - 1]
      case Store(u, op) => if u == v then Some(Subst(c, b, k - 1, op)) else Cur(c, b, k - 1, v)
      case _ => Cur(c, b, k - 1, v)
  }

  /** What an operand at position k of block b becomes. */
  function Subst(c: Ctx, b: nat, k: nat, op: Operand): Operand
    decreases Height(c, b), k, 0
  {
    if op.Ref? && op.name.Val? && IsLoad(c, op.name.id) && Earlier(c, c.site[op.name.id], b, k) then
      var s := c.site[op.name.id];
      match Cur(c, s.0, s.1, Code(c, s.0)[s.1].v)
      case Some(o) => o
      case None => op
    else op
  }

  /** What the value of a load is replaced by. */
  function Replacement(c: Ctx, x: nat): Option<Operand>
    requires IsLoad(c, x) && c.site[x].0 in c.t.up
  {
    Cur(c, c.site[x].0, c.site[x].1, Code(c, c.site[x].0)[c.site[x].1].v)
  }

  function Replaced(c: Ctx, op: Operand): Operand {
    if op.Ref? && op.name.Val? && IsLoad(c, op.name.id) && c.site[op.name.id].0 in c.t.up then
      match Replacement(c, op.name.id)
      case Some(o) => o
      case None => op
    else op
  }

  // ----- the functions this is about -----

  /** An operand at position k of block b names a value that is computed before. */
  ghost predicate OperandOk(c: Ctx, b: nat, k: nat, op: Operand)
    requires TreeOk(c.t) && b in c.t.up
  {
    op.Ref? ==> op.name.Val? && op.name.id in c.site && Before(c, c.site[op.name.id], b, k)
  }

  ghost predicate InstrOk(c: Ctx, b: nat, k: nat, i: Instr)
    requires TreeOk(c.t) && b in c.t.up
  {
    match i
    case Alloca(v) => v in c.home && c.home[v] == (b, k)
    case Load(x, v) => x in c.site && c.site[x] == (b, k) && v in c.home && Before(c, c.home[v], b, k)
    case Store(v, op) => OperandOk(c, b, k, op) && v in c.home && Before(c, c.home[v], b, k)
    case Op(x, _, args) => x in c.site && c.site[x] == (b, k) && forall a :: a in args ==> OperandOk(c, b, k, a)
  }

  ghost predicate DefinesAt(c: Ctx, x: nat, s: Site) {
    && s.0 in c.f.g.blocks && s.1 < |Code(c, s.0)|
    && match Code(c, s.0)[s.1]
       case Load(y, _) => y == x
       case Op(y, _, _) => y == x
       case _ => false
  }

  ghost predicate AllocatesAt(c: Ctx, v: nat, s: Site) {
    s.0 in c.f.g.blocks && s.1 < |Code(c, s.0)| && Code(c, s.0)[s.1] == Alloca(v)
  }

  /** Every value is computed once, before it is used, and variables are allocated before they
      are accessed. */
  ghost predicate WellFormed(c: Ctx) {
    && Complete(c.f) && TreeOk(c.t) && Total(c.f.g, c.t) && Exact(c.f.g, c.t) && AllReachable(c.f.g)
    && (forall b, k {:trigger InstrOk(c, b, k, Code(c, b)[k])} :: b in c.f.g.blocks && 0 <= k < |Code(c, b)| ==>
        InstrOk(c, b, k, Code(c, b)[k]))
    && (forall b {:trigger c.f.term[b]} :: b in c.f.g.blocks ==> OperandOk(c, b, |Code(c, b)|, c.f.term[b]))
    && (forall x :: x in c.site ==> DefinesAt(c, x, c.site[x]))
    && (forall v :: v in c.home ==> AllocatesAt(c, v, c.home[v]))
  }

  ghost predicate StoresIn(c: Ctx, b: nat, v: nat) {
    exists k :: 0 <= k < |Code(c, b)| && Code(c, b)[k].Store? && Code(c, b)[k].v == v
  }

  /** b writes v, or is where it is allocated. */
  ghost predicate Defines(c: Ctx, b: nat, v: nat) {
    v in c.home && (b == c.home[v].0 || StoresIn(c, b, v))
  }

  /** The phis are where phi placement puts them: a variable that is written outside its home
      block has one wherever the frontier of a definition, or of a phi, is. */
  ghost predicate PhisPlaced(c: Ctx)
    requires Complete(c.f) && TreeOk(c.t) && Total(c.f.g, c.t)
  {
    && (forall v, b {:trigger HasPhi(c, b, v)} :: HasPhi(c, b, v) ==>
        b in c.f.g.blocks && b != c.f.g.entry && v in c.home)
    && forall v, x, y {:trigger Defines(c, x, v), InFrontier(c.f.g, c.t, x, y)} {:trigger HasPhi(c, x, v),
      InFrontier(c.f.g, c.t, x, y)} ::
         v in c.home && x in c.f.g.blocks && (Defines(c, x, v) || HasPhi(c, x, v)) && InFrontier(c.f.g, c.t, x, y)
         ==> HasPhi(c, y, v) || OneBlock(c, v)
  }

  /** v is written in its home block alone, and has no phis. */
  ghost predicate OneBlock(c: Ctx, v: nat) {
    && v in c.home
    && (forall b :: StoresIn(c, b, v) ==> b == c.home[v].0)
    && (forall b :: !HasPhi(c, b, v))
  }

  // ----- positions -----

  lemma BeforeEnd(c: Ctx, s: Site, b: nat)
    requires WellFormed(c) && b in c.f.g.blocks && Before(c, s, b, |Code(c, b)|)
    ensures s.0 in Above(c.t, b)
  {
    assert b in Above(c.t, b);
  }

  lemma BeforeTransitive(c: Ctx, s: Site, r: Site, b: nat, k: nat)
    requires WellFormed(c) && b in c.f.g.blocks && r.0 in c.t.up && Before(c, s, r.0, r.1) && Before(c, r, b, k)
    ensures Before(c, s, b, k)
  {
    if r.0 != b {
      AboveTransitive(c.t, b, r.0);
      if s.0 == b {
        AboveIsHigher(c.t, b, r.0);
        AboveIsHigher(c.t, r.0, b);
      } else if s.0 == r.0 {
      } else {
        assert s.0 in Above(c.t, r.0);
      }
    }
  }

  lemma HigherIsEarlier(c: Ctx, s: Site, b: nat, k: nat)
    requires WellFormed(c) && b in c.f.g.blocks && Before(c, s, b, k) && s.0 in c.f.g.blocks && s.1 < |Code(c, s.0)|
    ensures Earlier(c, s, b, k)
  {
    if s.0 != b {
      AboveIsHigher(c.t, b, s.0);
      assert Hangs(c.t, s.0);
    }
  }

  lemma SiteKnown(c: Ctx, b: nat, k: nat, x: nat)
    requires WellFormed(c) && b in c.f.g.blocks && x in c.site && Before(c, c.site[x], b, k)
    ensures c.site[x].0 in c.t.up && Earlier(c, c.site[x], b, k)
  {
    assert DefinesAt(c, x, c.site[x]);
    HigherIsEarlier(c, c.site[x], b, k);
  }

  /** Operands of well-formed code are replaced the same way wherever they are used. */
  lemma SubstIsReplaced(c: Ctx, b: nat, k: nat, op: Operand)
    requires WellFormed(c) && b in c.f.g.blocks && OperandOk(c, b, k, op)
    ensures Subst(c, b, k, op) == Replaced(c, op)
  {
    if op.Ref? {
      SiteKnown(c, b, k, op.name.id);
    }
  }

  /** An operand that may stand for a variable in front of position k of b: a phi of a block at or
      above b, or a value computed before that is no load to be replaced. */
  ghost predicate Settled(c: Ctx, b: nat, k: nat, op: Operand)
    requires TreeOk(c.t) && b in c.t.up
  {
    op.Ref? ==>
      match op.name
      case Phi(d, v) => d in Above(c.t, b) && HasPhi(c, d, v)
      case Val(x) => x in c.site && Before(c, c.site[x], b, k)
  }

  lemma SettledLater(c: Ctx, r: Site, b: nat, k: nat, op: Operand)
    requires WellFormed(c) && b in c.f.g.blocks && r.0 in c.f.g.blocks && Before(c, r, b, k) && Settled(c, r.0, r.1, op)
    ensures Settled(c, b, k, op)
  {
    if op.Ref? {
      if r.0 != b {
        AboveTransitive(c.t, b, r.0);
      }
      if op.name.Val? {
        BeforeTransitive(c, c.site[op.name.id], r, b, k);
      }
    }
  }

  lemma SettledBelow(c: Ctx, b: nat, op: Operand)
    requires WellFormed(c) && b in c.f.g.blocks && b != c.f.g.entry && Settled(c, Up(c.t, b), |Code(c, Up(c.t, b))|, op)
    ensures Settled(c, b, 0, op)
  {
    assert Hangs(c.t, b);
    assert Up(c.t, b) in Above(c.t, Up(c.t, b));
    AboveTransitive(c.t, b, Up(c.t, b));
    if op.Ref? && op.name.Val? {
      var s := c.site[op.name.id];
      BeforeEnd(c, s, Up(c.t, b));
      AboveIsHigher(c.t, Up(c.t, b), s.0);
    }
  }

  lemma UpIsLower(c: Ctx, b: nat)
    requires WellFormed(c) && b in c.f.g.blocks && b != c.f.g.entry
    ensures Up(c.t, b) in c.t.up && Height(c, Up(c.t, b)) < Height(c, b)
  {
    assert Hangs(c.t, b) && Hangs(c.t, Up(c.t, b));
  }

  lemma AtEntry(c: Ctx)
    requires WellFormed(c)
    ensures !(Height(c, Up(c.t, c.f.g.entry)) < Height(c, c.f.g.entry))
  {
  }

  lemma {:induction false} CurSettled(c: Ctx, b: nat, k: nat, v: nat, op: Operand)
    requires WellFormed(c) && b in c.f.g.blocks && k <= |Code(c, b)| && Cur(c, b, k, v) == Some(op)
    ensures Settled(c, b, k, op)
    decreases Height(c, b), k, 1
  {
    if k > 0 {
      CurSettledInside(c, b, k - 1, v, op);
    } else if HasPhi(c, b, v) {
      assert b in Above(c.t, b);
    } else if b == c.f.g.entry {
      AtEntry(c);
    } else {
      UpIsLower(c, b);
      CurSettled(c, Up(c.t, b), |Code(c, Up(c.t, b))|, v, op);
      SettledBelow(c, b, op);
    }
  }

  lemma {:induction false} CurSettledInside(c: Ctx, b: nat, k: nat, v: nat, op: Operand)
    requires WellFormed(c) && b in c.f.g.blocks && k < |Code(c, b)| && Cur(c, b, k + 1, v) == Some(op)
    ensures Settled(c, b, k + 1, op)
    decreases Height(c, b), k + 1, 0
  {
    var i := Code(c, b)[k];
    if i.Store? && i.v == v {
      assert InstrOk(c, b, k, i);
      SubstSettled(c, b, k, i.op, op);
    } else {
      CurSettled(c, b, k, v, op);
    }
    SettledNext(c, b, k, op);
  }

  lemma SettledNext(c: Ctx, b: nat, k: nat, op: Operand)
    requires TreeOk(c.t) && b in c.t.up && Settled(c, b, k, op)
    ensures Settled(c, b, k + 1, op)
  {
  }

  lemma {:induction false} SubstSettled(c: Ctx, b: nat, k: nat, op: Operand, op': Operand)
    requires WellFormed(c) && b in c.f.g.blocks && k <= |Code(c, b)| && OperandOk(c, b, k, op) &&
      op' == Subst(c, b, k, op)
    ensures Settled(c, b, k, op')
    decreases Height(c, b), k, 0
  {
    if op.Ref? && op' != op {
      var s := c.site[op.name.id];
      assert DefinesAt(c, op.name.id, s);
      CurSettled(c, s.0, s.1, Code(c, s.0)[s.1].v, op');
      SettledLater(c, s, b, k, op');
    }
  }

  // ----- a block without a phi sees one definition -----

  lemma {:induction false} CurSkips(c: Ctx, b: nat, k: nat, v: nat)
    requires b in c.t.up && k <= |Code(c, b)| && !StoresIn(c, b, v)
    ensures Cur(c, b, k, v) == Cur(c, b, 0, v)
  {
    if k > 0 {
      assert !(Code(c, b)[k - 1].Store? && Code(c, b)[k - 1].v == v);
      CurSkips(c, b, k - 1, v);
    }
  }

  /** A block between a predecessor of b and the immediate dominator of b has b in its frontier. */
  lemma BetweenIsInFrontier(c: Ctx, b: nat, p: nat, r: nat)
    requires WellFormed(c) && b in c.f.g.blocks && b != c.f.g.entry && p in c.f.g.pred[b]
    requires r in Above(c.t, p) && r !in Above(c.t, Up(c.t, b))
    ensures InFrontier(c.f.g, c.t, r, b)
  {
    ProperlyAbove(c.f.g, c.t, b, r);
    assert Dominates(c.f.g, r, p);
    FrontierIsDominanceFrontier(c.f.g, c.t, r, b);
  }

  lemma BetweenIsSilent(c: Ctx, b: nat, p: nat, r: nat, v: nat)
    requires WellFormed(c) && PhisPlaced(c) && b in c.f.g.blocks && b != c.f.g.entry && p in c.f.g.pred[b]
    requires r in Above(c.t, p) && r !in Above(c.t, Up(c.t, b))
    requires v in c.home && c.home[v].0 in Above(c.t, Up(c.t, b)) && !HasPhi(c, b, v)
    ensures !StoresIn(c, r, v) && !HasPhi(c, r, v)
  {
    BetweenIsInFrontier(c, b, p, r);
    AboveIsHigher(c.t, p, r);
    assert Defines(c, r, v) || HasPhi(c, r, v) ==> OneBlock(c, v);
  }

  lemma {:induction false} CurAlongTree(c: Ctx, b: nat, p: nat, r: nat, v: nat)
    requires WellFormed(c) && PhisPlaced(c) && b in c.f.g.blocks && b != c.f.g.entry && p in c.f.g.pred[b]
    requires r in c.t.up && r in Above(c.t, p) && Up(c.t, b) in Above(c.t, r)
    requires v in c.home && c.home[v].0 in Above(c.t, Up(c.t, b)) && !HasPhi(c, b, v)
    ensures Up(c.t, b) in c.t.up
    ensures Cur(c, r, |Code(c, r)|, v) == Cur(c, Up(c.t, b), |Code(c, Up(c.t, b))|, v)
    decreases Height(c, r)
  {
    var z := Up(c.t, b);
    AboveIsHigher(c.t, r, z);
    if r != z {
      NotAboveItself(c, r, z);
      BetweenIsSilent(c, b, p, r, v);
      CurSkips(c, r, |Code(c, r)|, v);
      assert r != c.f.g.entry by { assert Hangs(c.t, z); }
      UpIsLower(c, r);
      AboveIsHigher(c.t, p, r);
      UpStaysAbove(c, p, r);
      CurAlongTree(c, b, p, Up(c.t, r), v);
    }
  }

  lemma NotAboveItself(c: Ctx, r: nat, z: nat)
    requires TreeOk(c.t) && r in c.t.up && z in Above(c.t, r) && z != r
    ensures z in c.t.up && r !in Above(c.t, z)
  {
    AboveIsHigher(c.t, r, z);
    if r in Above(c.t, z) {
      AboveIsHigher(c.t, z, r);
    }
  }

  lemma UpStaysAbove(c: Ctx, p: nat, r: nat)
    requires WellFormed(c) && p in c.f.g.blocks && r in Above(c.t, p) && r in c.t.up && r != c.f.g.entry
    ensures Up(c.t, r) in Above(c.t, p)
  {
    assert Hangs(c.t, r);
    assert Up(c.t, r) in Above(c.t, Up(c.t, r)) && Up(c.t, r) in Above(c.t, r);
    AboveTransitive(c.t, p, r);
  }

  /** The heart of SSA construction: a block that needs no phi for v finds the same definition of
      v at the end of each of its predecessors, and that is the one its immediate dominator ends with. */
  lemma CurFromPredecessor(c: Ctx, b: nat, p: nat, v: nat)
    requires WellFormed(c) && PhisPlaced(c) && b in c.f.g.blocks && b != c.f.g.entry && p in c.f.g.pred[b]
    requires v in c.home && c.home[v].0 in Above(c.t, b) && c.home[v].0 != b && !HasPhi(c, b, v)
    ensures p in c.t.up && Cur(c, p, |Code(c, p)|, v) == Cur(c, b, 0, v)
  {
    AboveIsHigher(c.t, b, c.home[v].0);
    UpIsLower(c, b);
    UpIsAbovePredecessors(c.f.g, c.t, b, p);
    assert p in Above(c.t, p);
    CurAlongTree(c, b, p, p, v);
  }
}
