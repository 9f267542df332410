// Trees of candidate immediate dominators, and what one pass of the algorithm over all blocks
// does to them.

module DomTree {
  import opened FlowGraph

  datatype Tree = Tree(up: map<nat, nat>, num: map<nat, nat>, root: nat)

  function Up(t: Tree, c: nat): nat { if c in t.up then t.up[c] else c }
  function Num(t: Tree, c: nat): nat { if c in t.num then t.num[c] else 0 }

  /** Every block in the tree hangs under one with a higher number, up to the root. */
  ghost predicate TreeOk(t: Tree) {
    && t.root in t.up && Up(t, t.root) == t.root
    && (forall c {:trigger Up(t, c)} :: c in t.up ==> Hangs(t, c))
  }

  predicate Hangs(t: Tree, c: nat) {
    Up(t, c) in t.up && Num(t, c) <= Num(t, t.root) && (c != t.root ==> Num(t, c) < Num(t, Up(t, c)))
  }

  /** c and everything above it. */
  function Above(t: Tree, c: nat): set<nat>
    requires TreeOk(t) && c in t.up
    decreases Num(t, t.root) - Num(t, c)
  {
    if c == t.root then {c} else assert Num(t, c) < Num(t, Up(t, c)); {c} + Above(t, Up(t, c))
  }

  lemma {:induction false} AboveIsHigher(t: Tree, c: nat, a: nat)
    requires TreeOk(t) && c in t.up && a in Above(t, c)
    ensures a in t.up && Num(t, c) <= Num(t, a) && (a != c ==> Num(t, c) < Num(t, a) && a in Above(t, Up(t, c)))
    decreases Num(t, t.root) - Num(t, c)
  {
    if a != c {
      assert Num(t, c) < Num(t, Up(t, c));
      AboveIsHigher(t, Up(t, c), a);
    }
  }

  lemma {:induction false} RootIsAbove(t: Tree, c: nat)
    requires TreeOk(t) && c in t.up
    ensures t.root in Above(t, c)
    decreases Num(t, t.root) - Num(t, c)
  {
    if c != t.root {
      assert Num(t, c) < Num(t, Up(t, c));
      RootIsAbove(t, Up(t, c));
    }
  }

  lemma {:induction false} AboveTransitive(t: Tree, c: nat, a: nat)
    requires TreeOk(t) && c in t.up && a in Above(t, c)
    ensures a in t.up && Above(t, a) <= Above(t, c)
    decreases Num(t, t.root) - Num(t, c)
  {
    if a != c {
      assert Num(t, c) < Num(t, Up(t, c));
      AboveTransitive(t, Up(t, c), a);
    }
  }

  /** Of two blocks above c, the higher one is above the lower one. */
  lemma {:induction false} AboveIsChain(t: Tree, c: nat, a: nat, b: nat)
    requires TreeOk(t) && c in t.up && a in Above(t, c) && b in Above(t, c)
    requires Num(t, a) <= Num(t, b)
    ensures a in t.up && b in Above(t, a)
    decreases Num(t, t.root) - Num(t, c)
  {
    if a != c {
      assert Num(t, c) < Num(t, Up(t, c));
      AboveIsHigher(t, c, a);
      AboveIsChain(t, Up(t, c), a, b);
    }
  }

  // ----- the nearest common block above two others -----

  lemma ClimbKeepsCommon(t: Tree, a: nat, b: nat)
    requires TreeOk(t) && a in t.up && b in t.up && Num(t, a) < Num(t, b)
    ensures a != t.root && Up(t, a) in t.up && Above(t, a) * Above(t, b) == Above(t, Up(t, a)) * Above(t, b)
    ensures Num(t, a) < Num(t, Up(t, a))
  {
    if a in Above(t, b) {
      AboveIsHigher(t, b, a);
    }
  }

  /** The blocks above everything in ps that has a place in the tree. */
  ghost function Meet(t: Tree, ps: seq<nat>): set<nat>
    requires TreeOk(t)
  {
    set a | a in t.up && forall p :: p in ps && p in t.up ==> a in Above(t, p)
  }

  lemma MeetMember(t: Tree, ps: seq<nat>, p: nat, a: nat)
    requires TreeOk(t) && a in Meet(t, ps) && p in ps && p in t.up
    ensures a in Above(t, p)
  {
  }

  lemma MeetOneMore(t: Tree, ps: seq<nat>, p: nat, a: nat)
    requires TreeOk(t) && a in t.up
    ensures a in Meet(t, ps + [p]) <==> a in Meet(t, ps) && (p in t.up ==> a in Above(t, p))
  {
    assert forall q :: q in ps + [p] <==> q in ps || q == p;
  }

  // ----- moving one block -----

  function Moved(t: Tree, x: nat, z: nat): Tree { t.(up := t.up[x := z]) }

  lemma MovedOk(t: Tree, x: nat, z: nat)
    requires TreeOk(t) && x != t.root && z in t.up && Num(t, x) < Num(t, z)
    ensures TreeOk(Moved(t, x, z))
  {
    var u := Moved(t, x, z);
    assert Up(u, u.root) == Up(t, t.root);
    forall c | c in u.up
      ensures Hangs(u, c)
    {
      assert Up(t, z) in t.up;
      assert Up(u, c) == if c == x then z else Up(t, c);
    }
  }

  /** Two trees that agree on everything with a number above n. */
  ghost predicate AgreeAbove(t: Tree, u: Tree, n: int) {
    && u.num == t.num && u.root == t.root
    && forall y {:trigger Up(u, y)} {:trigger Up(t, y)} :: Num(t, y) > n ==>
         (y in t.up <==> y in u.up) && (y in t.up ==> Up(t, y) == Up(u, y))
  }

  ghost predicate AgreeBelow(t: Tree, u: Tree, n: int) {
    && u.num == t.num && u.root == t.root
    && forall y {:trigger Up(u, y)} {:trigger Up(t, y)} :: Num(t, y) <= n ==>
         (y in t.up <==> y in u.up) && (y in t.up ==> Up(t, y) == Up(u, y))
  }

  lemma {:induction false} AboveAgrees(t: Tree, u: Tree, n: int, y: nat)
    requires TreeOk(t) && TreeOk(u) && AgreeAbove(t, u, n) && y in t.up && Num(t, y) > n
    ensures y in u.up && Above(t, y) == Above(u, y)
    decreases Num(t, t.root) - Num(t, y)
  {
    assert Up(t, y) == Up(u, y);
    if y != t.root {
      assert Num(t, y) < Num(t, Up(t, y));
      AboveAgrees(t, u, n, Up(t, y));
    }
  }

  lemma MovedAgrees(t: Tree, x: nat, z: nat)
    requires TreeOk(t) && x != t.root && z in t.up && Num(t, x) < Num(t, z)
    ensures AgreeAbove(t, Moved(t, x, z), Num(t, x))
    ensures AgreeBelow(t, Moved(t, x, z), Num(t, x) - 1)
  {
  }

  // ----- one pass -----

  /** Everything is in the tree. */
  ghost predicate Total(g: Cfg, t: Tree) {
    t.up.Keys == g.blocks && t.num.Keys == g.blocks && t.root == g.entry
  }

  /** The block that the algorithm starts from when it looks at x. */
  function FrontOf(g: Cfg, x: nat): nat
    requires x in g.pred && g.pred[x] != []
  {
    g.pred[x][0]
  }

  /** The first predecessor of every block but the entry has a higher number. */
  ghost predicate FrontFirst(g: Cfg, num: map<nat, nat>) {
    forall x {:trigger g.pred[x]} :: x in g.blocks && x != g.entry ==>
      x in g.pred && g.pred[x] != [] && x in num && FrontOf(g, x) in num && num[x] < num[FrontOf(g, x)]
  }

  /** x was moved under the nearest common block above its predecessors, in the tree h as it was
      then: blocks with higher numbers had been moved already, the others not yet. */
  ghost predicate MovedIn(g: Cfg, t0: Tree, t1: Tree, x: nat, h: Tree)
    requires g.Valid()
  {
    && x in g.blocks && x in t1.up
    && TreeOk(h) && Up(t1, x) in h.up
    && AgreeAbove(h, t1, Num(t1, x)) && AgreeBelow(h, t0, Num(t1, x))
    && Above(h, Up(t1, x)) == Meet(h, g.pred[x])
  }

  ghost predicate MovedWell(g: Cfg, t0: Tree, t1: Tree, x: nat)
    requires g.Valid()
  {
    exists h :: MovedIn(g, t0, t1, x, h)
  }

  ghost predicate Pass(g: Cfg, t0: Tree, t1: Tree)
    requires g.Valid()
  {
    forall x :: x in g.blocks && x != g.entry ==> MovedWell(g, t0, t1, x)
  }

  /** What every pass establishes: a block hangs above its first predecessor, ... */
  ghost predicate UnderFront(g: Cfg, t: Tree)
    requires g.Valid() && TreeOk(t)
  {
    forall x {:trigger Up(t, x)} :: x in g.blocks && x != g.entry && x in t.up && g.pred[x] != [] ==>
      FrontOf(g, x) in t.up && Up(t, x) in Above(t, FrontOf(g, x))
  }

  /** ... and what is above all predecessors is above the block. */
  ghost predicate Descending(g: Cfg, t: Tree)
    requires g.Valid() && TreeOk(t)
  {
    forall x {:trigger Meet(t, g.pred[x])} :: x in g.blocks && x != g.entry && x in t.up ==>
      Meet(t, g.pred[x]) <= Above(t, x)
  }

  lemma MovedUnderFront(g: Cfg, t0: Tree, t1: Tree, x: nat, h: Tree, f: nat)
    requires g.Valid() && TreeOk(t1) && MovedIn(g, t0, t1, x, h)
    requires f in g.pred[x] && f in t1.up && Num(t1, x) < Num(t1, f)
    ensures Up(t1, x) in Above(t1, f)
  {
    assert Up(t1, f) == Up(h, f);
    AboveAgrees(h, t1, Num(t1, x), f);
    MeetMember(h, g.pred[x], f, Up(t1, x));
  }

  lemma PassUnderFront(g: Cfg, t0: Tree, t1: Tree)
    requires g.Valid() && TreeOk(t1) && Total(g, t1) && Pass(g, t0, t1) && FrontFirst(g, t1.num)
    ensures UnderFront(g, t1)
  {
    forall x {:trigger Up(t1, x)} | x in g.blocks && x != g.entry
      ensures FrontOf(g, x) in t1.up && Up(t1, x) in Above(t1, FrontOf(g, x))
    {
      var h :| MovedIn(g, t0, t1, x, h);
      assert FrontOf(g, x) in g.pred[x];
      MovedUnderFront(g, t0, t1, x, h, FrontOf(g, x));
    }
  }

  // ----- a pass over a tree that holds all blocks -----

  lemma {:induction false} MixedIsBelow(t0: Tree, t1: Tree, h: Tree, n: int, y: nat)
    requires TreeOk(t0) && TreeOk(t1) && TreeOk(h) && AgreeAbove(h, t1, n) && AgreeBelow(h, t0, n)
    requires y in h.up && h.up.Keys == t0.up.Keys == t1.up.Keys
    requires forall z {:trigger Above(t1, z)} :: z in t1.up && Num(t1, z) > n ==> Above(t1, z) <= Above(t0, z)
    ensures Above(h, y) <= Above(t0, y)
    decreases Num(t0, t0.root) - Num(t0, y)
  {
    if Num(t0, y) > n {
      AboveAgrees(h, t1, n, y);
    } else if y != t0.root {
      assert Up(h, y) == Up(t0, y);
      assert Num(t0, y) < Num(t0, Up(t0, y));
      MixedIsBelow(t0, t1, h, n, Up(t0, y));
    }
  }

  lemma MeetShrinks(t0: Tree, h: Tree, ps: seq<nat>)
    requires TreeOk(t0) && TreeOk(h) && h.up.Keys == t0.up.Keys
    requires forall p :: p in ps && p in h.up ==> Above(h, p) <= Above(t0, p)
    ensures Meet(h, ps) <= Meet(t0, ps)
  {
  }

  /** Nothing new gets above a block: blocks only move up along their old way to the root. */
  lemma {:induction false} OnlyUpwards(g: Cfg, t0: Tree, t1: Tree, x: nat)
    requires g.Valid() && TreeOk(t0) && TreeOk(t1) && Total(g, t0) && Total(g, t1) && t0.num == t1.num
    requires Pass(g, t0, t1) && Descending(g, t0) && x in g.blocks
    ensures Above(t1, x) <= Above(t0, x)
    decreases Num(t0, t0.root) - Num(t0, x)
  {
    if x != g.entry {
      var u := Up(t1, x);
      assert Num(t1, x) < Num(t1, u);
      var h :| MovedIn(g, t0, t1, x, h);
      forall z {:trigger Above(t1, z)} | z in t1.up && Num(t1, z) > Num(t1, x)
        ensures Above(t1, z) <= Above(t0, z)
      {
        OnlyUpwards(g, t0, t1, z);
      }
      StepUpwards(g, t0, t1, x, h);
    }
  }

  lemma StepUpwards(g: Cfg, t0: Tree, t1: Tree, x: nat, h: Tree)
    requires g.Valid() && TreeOk(t0) && TreeOk(t1) && Total(g, t0) && Total(g, t1) && t0.num == t1.num
    requires MovedIn(g, t0, t1, x, h) && Descending(g, t0) && x != g.entry
    requires forall z {:trigger Above(t1, z)} :: z in t1.up && Num(t1, z) > Num(t1, x) ==> Above(t1, z) <= Above(t0, z)
    ensures Above(t1, x) <= Above(t0, x)
  {
    var n, u := Num(t1, x), Up(t1, x);
    MixedKeys(t0, t1, h, n);
    forall p | p in g.pred[x]
      ensures p in h.up && Above(h, p) <= Above(t0, p)
    {
      MixedIsBelow(t0, t1, h, n, p);
    }
    MeetShrinks(t0, h, g.pred[x]);
    assert Meet(t0, g.pred[x]) <= Above(t0, x);
    assert Up(t1, x) == u && n < Num(t1, u);
    AboveAgrees(h, t1, n, u);
  }

  lemma MixedKeys(t0: Tree, t1: Tree, h: Tree, n: int)
    requires AgreeAbove(h, t1, n) && AgreeBelow(h, t0, n) && t0.up.Keys == t1.up.Keys
    ensures h.up.Keys == t0.up.Keys
  {
    forall y
      ensures y in h.up <==> y in t0.up
    {
      var u, v := Up(h, y), Up(t1, y);
    }
  }

  /** Both trees hang every block above its first predecessor, so what is above f in the new tree
      is also above everything that is above f in the old one, once it is high enough. */
  lemma {:induction false} AlongTheFront(g: Cfg, t0: Tree, t1: Tree, f: nat, u: nat, a: nat)
    requires g.Valid() && TreeOk(t0) && TreeOk(t1) && Total(g, t0) && Total(g, t1) && t0.num == t1.num
    requires UnderFront(g, t0) && UnderFront(g, t1) && FrontFirst(g, t0.num)
    requires f in g.blocks && u in Above(t0, f) && a in Above(t1, f) && Num(t0, u) <= Num(t0, a)
    ensures u in t1.up && a in Above(t1, u)
    decreases Num(t0, t0.root) - Num(t0, f)
  {
    AboveIsHigher(t0, f, u);
    if u != f {
      AboveIsHigher(t1, f, a);
      var h := FrontOf(g, f);
      assert h in g.pred[f];
      FrontStep(g, t0, f, u);
      FrontStep(g, t1, f, a);
      assert Hangs(t0, h) by { assert Up(t0, h) in t0.up; }
      AlongTheFront(g, t0, t1, h, u, a);
    }
  }

  lemma FrontStep(g: Cfg, t: Tree, f: nat, a: nat)
    requires g.Valid() && TreeOk(t) && Total(g, t) && UnderFront(g, t) && FrontFirst(g, t.num)
    requires f in g.blocks && f != g.entry && a in Above(t, f) && a != f
    ensures FrontOf(g, f) in t.up && a in Above(t, FrontOf(g, f)) && Num(t, f) < Num(t, FrontOf(g, f))
  {
    assert g.pred[f] != [];
    assert Up(t, f) in Above(t, FrontOf(g, f));
    AboveIsHigher(t, f, a);
    AboveTransitive(t, FrontOf(g, f), Up(t, f));
  }

  lemma {:induction false} NewIsBelowMixed(g: Cfg, t0: Tree, t1: Tree, h: Tree, n: int, y: nat, a: nat)
    requires g.Valid() && TreeOk(t0) && TreeOk(t1) && Total(g, t0) && Total(g, t1) && t0.num == t1.num
    requires UnderFront(g, t0) && UnderFront(g, t1) && FrontFirst(g, t0.num)
    requires Pass(g, t0, t1) && Descending(g, t0)
    requires TreeOk(h) && AgreeAbove(h, t1, n) && AgreeBelow(h, t0, n) && h.up.Keys == g.blocks
    requires y in g.blocks && a in Above(t1, y)
    ensures a in Above(h, y)
    decreases Num(t0, t0.root) - Num(t0, y)
  {
    if Num(t0, y) > n {
      AboveAgrees(h, t1, n, y);
    } else if a != y {
      OnlyUpwards(g, t0, t1, y);
      AboveIsHigher(t0, y, a);
      var u := Up(t0, y);
      AboveIsHigher(t0, u, a);
      assert Hangs(t0, y);
      AlongTheFront(g, t0, t1, y, u, a);
      assert Up(h, y) == u;
      NewIsBelowMixed(g, t0, t1, h, n, u, a);
    }
  }

  lemma MeetIntro(t: Tree, ps: seq<nat>, a: nat)
    requires TreeOk(t) && a in t.up && forall p :: p in ps && p in t.up ==> a in Above(t, p)
    ensures a in Meet(t, ps)
  {
  }

  lemma MovedDescends(g: Cfg, t0: Tree, t1: Tree, x: nat, h: Tree, a: nat)
    requires g.Valid() && TreeOk(t1) && Total(g, t1) && MovedIn(g, t0, t1, x, h) && x != g.entry
    requires a in Meet(h, g.pred[x])
    ensures a in Above(t1, x)
  {
    var u := Up(t1, x);
    assert Hangs(t1, x) && u != x;
    AboveAgrees(h, t1, Num(t1, x), u);
  }

  /** A later pass keeps what the pass before it established. */
  lemma PassDescends(g: Cfg, t0: Tree, t1: Tree)
    requires g.Valid() && TreeOk(t0) && TreeOk(t1) && Total(g, t0) && Total(g, t1) && t0.num == t1.num
    requires UnderFront(g, t0) && UnderFront(g, t1) && FrontFirst(g, t0.num)
    requires Pass(g, t0, t1) && Descending(g, t0)
    ensures Descending(g, t1)
  {
    forall x, a | x in g.blocks && x != g.entry && a in Meet(t1, g.pred[x])
      ensures a in Above(t1, x)
    {
      var h :| MovedIn(g, t0, t1, x, h);
      MixedKeys(t0, t1, h, Num(t1, x));
      forall p | p in g.pred[x] && p in h.up
        ensures a in Above(h, p)
      {
        MeetMember(t1, g.pred[x], p, a);
        NewIsBelowMixed(g, t0, t1, h, Num(t1, x), p, a);
      }
      MeetIntro(h, g.pred[x], a);
      MovedDescends(g, t0, t1, x, h, a);
    }
  }

  /** The first pass starts from the entry alone. */
  lemma FirstPassDescends(g: Cfg, t0: Tree, t1: Tree)
    requires g.Valid() && TreeOk(t0) && TreeOk(t1) && Total(g, t1) && t0.num == t1.num && t0.root == t1.root
    requires t0.up.Keys == {g.entry} && FrontFirst(g, t0.num) && Pass(g, t0, t1)
    ensures Descending(g, t1)
  {
    forall x, a | x in g.blocks && x != g.entry && a in Meet(t1, g.pred[x])
      ensures a in Above(t1, x)
    {
      var h :| MovedIn(g, t0, t1, x, h);
      var n := Num(t1, x);
      forall p | p in g.pred[x] && p in h.up
        ensures a in Above(h, p)
      {
        MeetMember(t1, g.pred[x], p, a);
        FirstPassHigh(g, t0, t1, x, h, p);
        AboveAgrees(h, t1, n, p);
      }
      FrontInMixed(g, t0, t1, x, h, a);
      MeetIntro(h, g.pred[x], a);
      MovedDescends(g, t0, t1, x, h, a);
    }
  }

  lemma FirstPassHigh(g: Cfg, t0: Tree, t1: Tree, x: nat, h: Tree, p: nat)
    requires g.Valid() && TreeOk(t1) && t0.num == t1.num && t1.root == g.entry && t0.up.Keys == {g.entry}
    requires MovedIn(g, t0, t1, x, h) && x != g.entry && p in h.up
    ensures Num(t1, p) > Num(t1, x)
  {
    assert Hangs(t1, x) && Hangs(t1, Up(t1, x));
    var u, v := Up(h, p), Up(t0, p);
  }

  lemma FrontInMixed(g: Cfg, t0: Tree, t1: Tree, x: nat, h: Tree, a: nat)
    requires g.Valid() && TreeOk(t1) && Total(g, t1) && FrontFirst(g, t1.num)
    requires MovedIn(g, t0, t1, x, h) && x != g.entry && a in Meet(t1, g.pred[x])
    ensures a in h.up
  {
    var f := FrontOf(g, x);
    assert f in g.pred[x];
    MeetMember(t1, g.pred[x], f, a);
    AboveIsHigher(t1, f, a);
    var u, v := Up(h, a), Up(t1, a);
  }

  // ----- dominators are never lost -----

  /** Moving up one step in the tree skips no dominator. */
  ghost predicate Safe(g: Cfg, t: Tree)
    requires g.Valid()
  {
    forall c, d {:trigger Dominates(g, d, c), Up(t, c)} ::
      c in t.up && c != t.root && d != c && Dominates(g, d, c) ==> Dominates(g, d, Up(t, c))
  }

  lemma {:induction false} DominatorsAreAbove(g: Cfg, t: Tree, c: nat, d: nat)
    requires g.Valid() && TreeOk(t) && Safe(g, t) && t.root == g.entry && c in t.up && Dominates(g, d, c)
    ensures d in Above(t, c)
    decreases Num(t, t.root) - Num(t, c)
  {
    if c == t.root {
      OnlyEntryDominatesEntry(g, d);
    } else if d != c {
      assert Hangs(t, c);
      DominatorsAreAbove(g, t, Up(t, c), d);
    }
  }

  lemma {:induction false} DominatesUpTo(g: Cfg, t: Tree, c: nat, d: nat, z: nat)
    requires g.Valid() && TreeOk(t) && Safe(g, t) && c in t.up && Dominates(g, d, c)
    requires z in Above(t, c) && z in t.up && d in Above(t, z)
    ensures Dominates(g, d, z)
    decreases Num(t, t.root) - Num(t, c)
  {
    if c != z {
      AboveIsHigher(t, c, z);
      AboveIsHigher(t, z, d);
      assert Hangs(t, c);
      DominatesUpTo(g, t, Up(t, c), d, z);
    }
  }

  /** The common block above the predecessors of x is still below all dominators of x. */
  lemma MeetIsSafe(g: Cfg, t: Tree, x: nat, z: nat, d: nat)
    requires g.Valid() && TreeOk(t) && Safe(g, t) && t.root == g.entry && x in g.blocks && g.pred[x] != []
    requires z in t.up && Above(t, z) == Meet(t, g.pred[x]) && FrontOf(g, x) in t.up
    requires d != x && Dominates(g, d, x)
    ensures Dominates(g, d, z)
  {
    forall p | p in g.pred[x] && p in t.up
      ensures d in Above(t, p)
    {
      DominatesPredecessors(g, d, x, p);
      DominatorsAreAbove(g, t, p, d);
    }
    var f := FrontOf(g, x);
    assert f in g.pred[x];
    AboveIsHigher(t, f, d);
    MeetIntro(t, g.pred[x], d);
    MeetMember(t, g.pred[x], f, z);
    DominatesPredecessors(g, d, x, f);
    DominatesUpTo(g, t, f, d, z);
  }

  lemma MovedIsSafe(g: Cfg, t: Tree, x: nat, z: nat)
    requires g.Valid() && TreeOk(t) && Safe(g, t) && t.root == g.entry && x in g.blocks && g.pred[x] != []
    requires z in t.up && Above(t, z) == Meet(t, g.pred[x]) && FrontOf(g, x) in t.up && x != g.entry
    ensures Safe(g, Moved(t, x, z))
  {
    var u := Moved(t, x, z);
    forall c, d {:trigger Dominates(g, d, c), Up(u, c)} | c in u.up && c != u.root && d != c && Dominates(g, d, c)
      ensures Dominates(g, d, Up(u, c))
    {
      if c == x {
        MeetIsSafe(g, t, x, z, d);
      } else {
        assert Up(u, c) == Up(t, c);
      }
    }
  }

  // ----- when nothing changes any more -----

  lemma {:induction false} AboveDominates(g: Cfg, t: Tree, x: nat, a: nat, p: seq<nat>)
    requires g.Valid() && TreeOk(t) && Total(g, t) && Pass(g, t, t) && x in g.blocks && EntryPath(g, p, x)
    requires a in Above(t, x)
    ensures a in p
    decreases |p|
  {
    assert p[|p| - 1] == x;
    if a != x {
      AboveIsHigher(t, x, a);
      OnlyEntryStartsPaths(g, p, x);
      PathPrefix(g, p, x);
      var q := p[|p| - 2];
      var h :| MovedIn(g, t, t, x, h);
      FixedTree(g, t, x, h);
      MeetMember(t, g.pred[x], q, Up(t, x));
      AboveTransitive(t, q, Up(t, x));
      AboveDominates(g, t, q, a, p[..|p| - 1]);
    }
  }

  lemma FixedTree(g: Cfg, t: Tree, x: nat, h: Tree)
    requires g.Valid() && TreeOk(t) && Total(g, t) && MovedIn(g, t, t, x, h)
    ensures h == t
  {
    MixedKeys(t, t, h, Num(t, x));
    forall y | y in t.up
      ensures h.up[y] == t.up[y]
    {
      var u, v := Up(h, y), Up(t, y);
    }
    assert h.up == t.up;
  }

  /** The tree is the dominator tree: what is above a block is exactly what dominates it. */
  ghost predicate Exact(g: Cfg, t: Tree)
    requires g.Valid() && TreeOk(t) && Total(g, t)
  {
    forall b, a {:trigger a in Above(t, b)} {:trigger Dominates(g, a, b)} :: b in g.blocks ==>
      (a in Above(t, b) <==> Dominates(g, a, b))
  }

  lemma FixpointIsExact(g: Cfg, t: Tree)
    requires g.Valid() && TreeOk(t) && Total(g, t) && Safe(g, t) && Pass(g, t, t)
    ensures Exact(g, t)
  {
    forall b, a | b in g.blocks
      ensures a in Above(t, b) <==> Dominates(g, a, b)
    {
      if Dominates(g, a, b) {
        DominatorsAreAbove(g, t, b, a);
      }
      if a in Above(t, b) {
        forall p | EntryPath(g, p, b)
          ensures a in p
        {
          AboveDominates(g, t, b, a, p);
        }
      }
    }
  }

  // ----- the passes come to an end -----

  /** The room that blocks have for moving up. */
  ghost function Room(g: Cfg, t: Tree): set<(nat, int)>
    requires Total(g, t)
  {
    set x, k | x in g.blocks && Num(t, Up(t, x)) < k <= Num(t, t.root) :: (x, k)
  }

  ghost predicate Injective(num: map<nat, nat>) {
    forall a, b :: a in num && b in num && num[a] == num[b] ==> a == b
  }

  lemma MovesUp(g: Cfg, t0: Tree, t1: Tree, x: nat)
    requires g.Valid() && TreeOk(t0) && TreeOk(t1) && Total(g, t0) && Total(g, t1) && t0.num == t1.num
    requires Pass(g, t0, t1) && Descending(g, t0) && x in g.blocks
    ensures Num(t0, Up(t0, x)) <= Num(t0, Up(t1, x)) <= Num(t0, t0.root)
  {
    var u := Up(t1, x);
    assert Hangs(t1, x) && Hangs(t1, u);
    if x != g.entry {
      OnlyUpwards(g, t0, t1, x);
      assert u in Above(t1, u) && u in Above(t1, x);
      AboveIsHigher(t0, x, u);
      AboveIsHigher(t0, Up(t0, x), u);
    }
  }

  lemma RoomOf(g: Cfg, t: Tree, x: nat, k: int)
    requires Total(g, t)
    ensures (x, k) in Room(g, t) <==> x in g.blocks && Num(t, Up(t, x)) < k <= Num(t, t.root)
  {
  }

  lemma RoomShrinks(g: Cfg, t0: Tree, t1: Tree)
    requires g.Valid() && TreeOk(t0) && TreeOk(t1) && Total(g, t0) && Total(g, t1) && t0.num == t1.num
    requires Pass(g, t0, t1) && Descending(g, t0) && Injective(t0.num) && t0 != t1
    ensures Room(g, t1) < Room(g, t0)
  {
    forall x, k | (x, k) in Room(g, t1)
      ensures (x, k) in Room(g, t0)
    {
      RoomOf(g, t1, x, k);
      MovesUp(g, t0, t1, x);
      RoomOf(g, t0, x, k);
    }
    var x :| x in g.blocks && t0.up[x] != t1.up[x];
    var u, v := Up(t0, x), Up(t1, x);
    MovesUp(g, t0, t1, x);
    assert Hangs(t0, x) && Hangs(t1, x);
    assert Num(t0, u) != Num(t0, v) by {
      assert u in t0.num && v in t0.num;
    }
    RoomOf(g, t0, x, Num(t1, v));
    RoomOf(g, t1, x, Num(t1, v));
  }

  // ----- dominance frontiers -----

  /** y has two predecessors or more, x is above one of them, and x is not properly above y. */
  ghost predicate InFrontier(g: Cfg, t: Tree, x: nat, y: nat)
    requires g.Valid() && TreeOk(t) && Total(g, t)
  {
    && y in g.blocks && |g.pred[y]| >= 2
    && (exists p :: p in g.pred[y] && x in Above(t, p)) && x !in Above(t, Up(t, y))
  }

  /** The frontiers of all blocks, as far as the blocks in `rest` do not matter. */
  ghost predicate Frontiers(g: Cfg, t: Tree, df: map<nat, set<nat>>, rest: set<nat>)
    requires g.Valid() && TreeOk(t) && Total(g, t)
  {
    && df.Keys == g.blocks
    && forall x, y {:trigger InFrontier(g, t, x, y)} {:trigger y in df[x]} ::
         x in g.blocks ==> (y in df[x] <==> y !in rest && InFrontier(g, t, x, y))
  }

  lemma UpIsAbovePredecessors(g: Cfg, t: Tree, y: nat, p: nat)
    requires g.Valid() && TreeOk(t) && Total(g, t) && Exact(g, t) && y in g.blocks && y != g.entry && p in g.pred[y]
    ensures Up(t, y) in Above(t, p)
  {
    assert Hangs(t, y);
    assert Up(t, y) in Above(t, Up(t, y)) && Up(t, y) in Above(t, y);
    DominatesPredecessors(g, Up(t, y), y, p);
  }

  lemma ProperlyAbove(g: Cfg, t: Tree, y: nat, x: nat)
    requires g.Valid() && TreeOk(t) && Total(g, t) && Exact(g, t) && y in g.blocks && y != g.entry
    ensures x in Above(t, Up(t, y)) <==> x != y && Dominates(g, x, y)
  {
    assert Hangs(t, y);
    if x in Above(t, Up(t, y)) {
      AboveIsHigher(t, Up(t, y), x);
    }
    assert x in Above(t, y) <==> Dominates(g, x, y);
  }

  /** The block above b is its immediate dominator: it properly dominates b, and every other
      proper dominator of b dominates it. */
  lemma UpIsImmediateDominator(g: Cfg, t: Tree, b: nat, d: nat)
    requires g.Valid() && TreeOk(t) && Total(g, t) && Exact(g, t) && b in g.blocks && b != g.entry
    ensures Up(t, b) != b && Dominates(g, Up(t, b), b)
    ensures d != b && Dominates(g, d, b) ==> Dominates(g, d, Up(t, b))
  {
    assert Hangs(t, b);
    assert Up(t, b) in Above(t, Up(t, b)) && Up(t, b) in Above(t, b);
    if d != b && Dominates(g, d, b) {
      ProperlyAbove(g, t, b, d);
    }
  }

  lemma OnlyPredecessor(g: Cfg, x: nat, y: nat, p: nat)
    requires g.Valid() && y in g.blocks && g.pred[y] == [p] && Dominates(g, x, p) && Reachable(g, y)
    ensures x != y && Dominates(g, x, y)
  {
    forall q | EntryPath(g, q, y)
      ensures x in q
    {
      OnlyEntryStartsPaths(g, q, y);
      PathPrefix(g, q, y);
      assert q[|q| - 2] == p;
      assert x in q[..|q| - 1];
    }
    var q := DirectPath(g, y);
    OnlyEntryStartsPaths(g, q, y);
    PathPrefix(g, q, y);
    assert q[|q| - 2] == p && x in q[..|q| - 1];
  }

  /** The frontier of x is where its dominance ends: the blocks with a predecessor that x
      dominates, which x does not properly dominate itself. */
  lemma FrontierIsDominanceFrontier(g: Cfg, t: Tree, x: nat, y: nat)
    requires g.Valid() && TreeOk(t) && Total(g, t) && Exact(g, t) && y in g.blocks && Reachable(g, y)
    ensures InFrontier(g, t, x, y) <==>
      (exists p :: p in g.pred[y] && Dominates(g, x, p)) && !(Dominates(g, x, y) && x != y)
  {
    if y != g.entry {
      ProperlyAbove(g, t, y, x);
      forall p | p in g.pred[y]
        ensures x in Above(t, p) <==> Dominates(g, x, p)
      {
      }
      if |g.pred[y]| == 1 {
        var p := g.pred[y][0];
        assert g.pred[y] == [p];
        if Dominates(g, x, p) {
          OnlyPredecessor(g, x, y, p);
        }
      }
    }
  }

  // ----- the tree from above -----

  /** The blocks that x is above of. */
  ghost function Below(g: Cfg, t: Tree, x: nat): set<nat>
    requires g.Valid() && TreeOk(t) && Total(g, t)
  {
    set y | y in g.blocks && x in Above(t, y)
  }

  ghost predicate Child(g: Cfg, t: Tree, x: nat, c: nat) {
    c in g.blocks && Up(t, c) == x && c != x
  }

  ghost predicate Children(g: Cfg, t: Tree, succ: map<nat, set<nat>>) {
    && succ.Keys == g.blocks
    && forall x, c {:trigger Child(g, t, x, c)} {:trigger c in succ[x]} ::
         x in g.blocks ==> (c in succ[x] <==> Child(g, t, x, c))
  }

  lemma ChildIsBelow(g: Cfg, t: Tree, x: nat, c: nat)
    requires g.Valid() && TreeOk(t) && Total(g, t) && Child(g, t, x, c)
    ensures x in g.blocks && Num(t, c) < Num(t, x) && Below(g, t, c) <= Below(g, t, x) && x !in Below(g, t, c)
  {
    assert Hangs(t, c);
    assert x in Above(t, c);
    forall y | y in Below(g, t, c)
      ensures y in Below(g, t, x)
    {
      AboveTransitive(t, y, c);
    }
    if c in Above(t, x) {
      AboveIsHigher(t, x, c);
    }
  }

  /** Whatever is properly below x is below one of its children. */
  lemma {:induction false} BelowAChild(g: Cfg, t: Tree, x: nat, y: nat) returns (c: nat)
    requires g.Valid() && TreeOk(t) && Total(g, t) && y in Below(g, t, x) && y != x
    ensures Child(g, t, x, c) && y in Below(g, t, c)
    decreases Num(t, t.root) - Num(t, y)
  {
    assert Hangs(t, y);
    if Up(t, y) == x {
      c := y;
    } else {
      AboveIsHigher(t, y, x);
      assert Num(t, y) < Num(t, Up(t, y));
      c := BelowAChild(g, t, x, Up(t, y));
    }
  }

  lemma ChildrenApart(g: Cfg, t: Tree, x: nat, c: nat, d: nat)
    requires g.Valid() && TreeOk(t) && Total(g, t) && Child(g, t, x, c) && Child(g, t, x, d) && c != d
    ensures Below(g, t, c) !! Below(g, t, d)
  {
    forall y | y in Below(g, t, c) && y in Below(g, t, d)
      ensures false
    {
      if Num(t, c) <= Num(t, d) {
        AboveIsChain(t, y, c, d);
        SiblingsNotAbove(g, t, x, c, d);
      } else {
        AboveIsChain(t, y, d, c);
        SiblingsNotAbove(g, t, x, d, c);
      }
    }
  }

  lemma SiblingsNotAbove(g: Cfg, t: Tree, x: nat, c: nat, d: nat)
    requires g.Valid() && TreeOk(t) && Total(g, t) && Child(g, t, x, c) && Child(g, t, x, d) && c != d
    ensures d !in Above(t, c)
  {
    assert Hangs(t, c) && Hangs(t, d);
    if d in Above(t, c) {
      AboveIsHigher(t, c, d);
      AboveIsHigher(t, x, d);
    }
  }

  /** `seen` is what lies below the children of x that are not in `rest`. */
  ghost predicate Sweeping(g: Cfg, t: Tree, x: nat, rest: set<nat>, seen: set<nat>)
    requires g.Valid() && TreeOk(t) && Total(g, t)
  {
    && (forall c :: c in rest ==> Child(g, t, x, c))
    && (forall y :: y in seen ==> exists c :: Child(g, t, x, c) && c !in rest && y in Below(g, t, c))
    && (forall c, y {:trigger Child(g, t, x, c), y in Below(g, t, c)} ::
          Child(g, t, x, c) && c !in rest && y in Below(g, t, c) ==> y in seen)
  }

  /** Neither of two blocks below different children is above the other. */
  lemma CousinsApart(g: Cfg, t: Tree, x: nat, c: nat, d: nat, a: nat, b: nat)
    requires g.Valid() && TreeOk(t) && Total(g, t) && Child(g, t, x, c) && Child(g, t, x, d) && c != d
    requires a in Below(g, t, c) && b in Below(g, t, d)
    ensures a !in Above(t, b)
  {
    ChildrenApart(g, t, x, c, d);
    if a in Above(t, b) {
      AboveTransitive(t, b, a);
    }
  }

  lemma SweepStep(g: Cfg, t: Tree, x: nat, rest: set<nat>, seen: set<nat>, c: nat)
    requires g.Valid() && TreeOk(t) && Total(g, t) && Sweeping(g, t, x, rest, seen) && c in rest
    ensures Sweeping(g, t, x, rest - {c}, seen + Below(g, t, c))
    ensures Below(g, t, c) !! seen && x !in Below(g, t, c)
    ensures forall a, b :: a in seen && b in Below(g, t, c) ==>
      b in t.up && a in t.up && a !in Above(t, b) && b !in Above(t, a)
  {
    ChildIsBelow(g, t, x, c);
    forall a, b | a in seen && b in Below(g, t, c)
      ensures a in t.up && b in t.up && a !in Above(t, b) && b !in Above(t, a)
    {
      var d :| Child(g, t, x, d) && d !in rest && a in Below(g, t, d);
      CousinsApart(g, t, x, d, c, a, b);
      CousinsApart(g, t, x, c, d, b, a);
    }
    forall b | b in Below(g, t, c)
      ensures b !in seen
    {
      assert b in Above(t, b);
    }
  }

  lemma SweepEnds(g: Cfg, t: Tree, x: nat, seen: set<nat>)
    requires g.Valid() && TreeOk(t) && Total(g, t) && x in g.blocks && Sweeping(g, t, x, {}, seen)
    ensures Below(g, t, x) == seen + {x} && x !in seen
  {
    forall y
      ensures y in Below(g, t, x) <==> y in seen || y == x
    {
      if y in Below(g, t, x) && y != x {
        var c := BelowAChild(g, t, x, y);
      }
      if y in seen {
        var c :| Child(g, t, x, c) && y in Below(g, t, c);
        ChildIsBelow(g, t, x, c);
      }
    }
    if x in seen {
      var c :| Child(g, t, x, c) && x in Below(g, t, c);
      ChildIsBelow(g, t, x, c);
    }
  }
}
