// The dominator analysis: post-order numbers, immediate dominators, dominance frontiers and the
// dominator tree with its depth-first intervals.

module Dominators {
  import opened FlowGraph
  import opened PostOrder
  import opened DomTree

  /** Each block has its position in the order as its number. */
  ghost predicate Numbered(order: seq<nat>, num: map<nat, nat>) {
    && (forall x :: x in num <==> x in order)
    && (forall i :: 0 <= i < |order| ==> order[i] in num && num[order[i]] == i)
  }

  lemma NumberedInjective(order: seq<nat>, num: map<nat, nat>)
    requires Numbered(order, num)
    ensures Injective(num)
  {
    forall a, b | a in num && b in num && num[a] == num[b]
      ensures a == b
    {
      var i :| 0 <= i < |order| && order[i] == a;
      var j :| 0 <= j < |order| && order[j] == b;
    }
  }

  lemma NumbersDiffer(order: seq<nat>, num: map<nat, nat>, a: nat, b: nat)
    requires Numbered(order, num) && a in num && b in num && a != b
    ensures num[a] != num[b]
  {
    var i :| 0 <= i < |order| && order[i] == a;
    var j :| 0 <= j < |order| && order[j] == b;
  }

  /** What create_idom starts from: the entry comes last, and every other block has its first
      predecessor behind it. */
  ghost predicate Ordered(g: Cfg, order: seq<nat>, num: map<nat, nat>) {
    && g.Valid() && Numbered(order, num) && num.Keys == g.blocks
    && |order| > 0 && order[|order| - 1] == g.entry
    && FrontFirst(g, num)
  }

  /** The first predecessor of every block but the entry is left after it. */
  ghost predicate FrontBehind(g: Cfg, order: seq<nat>) {
    forall x {:trigger g.pred[x]} :: x in g.blocks && x != g.entry ==>
      x in g.pred && g.pred[x] != [] && exists i, j ::
        0 <= i < j < |order| && order[i] == x && order[j] == FrontOf(g, x)
  }

  lemma FrontBehindOrders(g: Cfg, order: seq<nat>, num: map<nat, nat>)
    requires g.Valid() && Numbered(order, num) && num.Keys == g.blocks && FrontBehind(g, order)
    requires |order| > 0 && order[|order| - 1] == g.entry
    ensures Ordered(g, order, num)
  {
    forall x {:trigger g.pred[x]} | x in g.blocks && x != g.entry
      ensures x in num && FrontOf(g, x) in num && num[x] < num[FrontOf(g, x)]
    {
      var i, j :| 0 <= i < j < |order| && order[i] == x && order[j] == FrontOf(g, x);
      assert num[order[i]] == i && num[order[j]] == j;
    }
  }

  lemma MovedInStays(g: Cfg, t0: Tree, t: Tree, x: nat, h: Tree, y: nat, z: nat)
    requires g.Valid() && MovedIn(g, t0, t, x, h) && Num(t, y) < Num(t, x)
    ensures MovedIn(g, t0, Moved(t, y, z), x, h)
  {
    var u := Moved(t, y, z);
    assert Up(u, x) == Up(t, x);
    forall w | Num(h, w) > Num(t, x)
      ensures (w in h.up <==> w in u.up) && (w in h.up ==> Up(h, w) == Up(u, w))
    {
      var a, b := Up(h, w), Up(t, w);
    }
  }

  /** The pass has come down to position n. */
  ghost predicate PassedTo(g: Cfg, order: seq<nat>, t0: Tree, t: Tree, n: nat)
    requires g.Valid()
  {
    && n <= |order|
    && TreeOk(t) && Safe(g, t) && t.num == t0.num && t.root == g.entry && t.up.Keys <= g.blocks
    && AgreeBelow(t, t0, n - 1)
    && (forall k :: n <= k < |order| ==> order[k] in t.up && (order[k] != g.entry ==> MovedWell(g, t0, t, order[k])))
  }

  lemma NumOf(order: seq<nat>, num: map<nat, nat>, t: Tree, k: nat)
    requires Numbered(order, num) && t.num == num && k < |order|
    ensures order[k] in num && Num(t, order[k]) == k
  {
  }

  /** A tree that a pass may start from. */
  ghost predicate Startable(g: Cfg, t: Tree)
    requires g.Valid()
  {
    TreeOk(t) && Safe(g, t) && t.root == g.entry && t.up.Keys <= g.blocks
  }

  lemma PassStarts(g: Cfg, order: seq<nat>, t0: Tree)
    requires g.Valid() && Startable(g, t0)
    ensures PassedTo(g, order, t0, t0, |order|)
  {
  }

  lemma FrontInTree(g: Cfg, order: seq<nat>, t0: Tree, t: Tree, n: nat)
    requires Ordered(g, order, t.num) && 0 < n && PassedTo(g, order, t0, t, n) && order[n - 1] != g.entry
    ensures g.pred[order[n - 1]] != [] && FrontOf(g, order[n - 1]) in t.up
    ensures Num(t, order[n - 1]) == n - 1 < Num(t, FrontOf(g, order[n - 1]))
  {
    var x := order[n - 1];
    assert x in g.blocks by { assert x in t.num; }
    assert g.pred[x] != [];
    var f := FrontOf(g, x);
    assert f in t.num;
    var k :| 0 <= k < |order| && order[k] == f;
    NumOf(order, t.num, t, k);
    NumOf(order, t.num, t, n - 1);
  }

  lemma AgreeLess(t: Tree, u: Tree, n: int)
    requires AgreeBelow(t, u, n)
    ensures AgreeBelow(t, u, n - 1)
  {
    forall y | Num(t, y) <= n - 1
      ensures (y in t.up <==> y in u.up) && (y in t.up ==> Up(t, y) == Up(u, y))
    {
      var a := Up(t, y);
    }
  }

  lemma EntryStep(g: Cfg, order: seq<nat>, t0: Tree, t: Tree, n: nat)
    requires Ordered(g, order, t.num) && 0 < n && PassedTo(g, order, t0, t, n) && order[n - 1] == g.entry
    ensures PassedTo(g, order, t0, t, n - 1)
    ensures SomeChanged(order, t0, t, n) ==> SomeChanged(order, t0, t, n - 1)
  {
    AgreeLess(t, t0, n - 1);
    forall k | n - 1 <= k < |order|
      ensures order[k] in t.up && (order[k] != g.entry ==> MovedWell(g, t0, t, order[k]))
    {
      if k == n - 1 {
        assert order[k] == t.root;
      }
    }
  }

  lemma MovedWellStays(g: Cfg, t0: Tree, t: Tree, x: nat, y: nat, z: nat)
    requires g.Valid() && MovedWell(g, t0, t, x) && Num(t, y) < Num(t, x)
    ensures MovedWell(g, t0, Moved(t, y, z), x)
  {
    var h :| MovedIn(g, t0, t, x, h);
    MovedInStays(g, t0, t, x, h, y, z);
  }

  /** The blocks that have been moved stay where they are. */
  lemma MovedStay(g: Cfg, order: seq<nat>, t0: Tree, t: Tree, n: nat, x: nat, z: nat, k: nat)
    requires Ordered(g, order, t.num) && 0 < n && PassedTo(g, order, t0, t, n) && x == order[n - 1]
    requires MovedWell(g, t0, Moved(t, x, z), x) && n - 1 <= k < |order|
    ensures order[k] in Moved(t, x, z).up && (order[k] != g.entry ==> MovedWell(g, t0, Moved(t, x, z), order[k]))
  {
    NumOf(order, t.num, t, n - 1);
    NumOf(order, t.num, t, k);
    if k >= n && order[k] != g.entry {
      MovedWellStays(g, t0, t, order[k], x, z);
    }
  }

  lemma MoveIsUp(g: Cfg, order: seq<nat>, t0: Tree, t: Tree, n: nat, z: nat)
    requires Ordered(g, order, t.num) && 0 < n && PassedTo(g, order, t0, t, n) && order[n - 1] != g.entry
    requires z in t.up && Above(t, z) == Meet(t, g.pred[order[n - 1]])
    ensures Num(t, order[n - 1]) == n - 1 < Num(t, z)
  {
    FrontInTree(g, order, t0, t, n);
    var f := FrontOf(g, order[n - 1]);
    assert f in g.pred[order[n - 1]];
    MeetMember(t, g.pred[order[n - 1]], f, z);
    AboveIsHigher(t, f, z);
  }

  lemma MoveKeepsShape(g: Cfg, order: seq<nat>, t0: Tree, t: Tree, n: nat, k: nat, x: nat, z: nat)
    requires Ordered(g, order, t.num) && n == k + 1 && PassedTo(g, order, t0, t, n) && order[k] == x != g.entry
    requires z in t.up && Above(t, z) == Meet(t, g.pred[x]) && Num(t, x) == k < Num(t, z)
    ensures TreeOk(Moved(t, x, z)) && Safe(g, Moved(t, x, z)) && MovedWell(g, t0, Moved(t, x, z), x)
  {
    FrontInTree(g, order, t0, t, n);
    assert x in t.num;
    MovedOk(t, x, z);
    MovedIsSafe(g, t, x, z);
    MovedAgrees(t, x, z);
    MovedHere(g, t0, t, x, z);
  }

  /** Block x at position k is hung under z. */
  lemma MoveStep(g: Cfg, order: seq<nat>, t0: Tree, t: Tree, n: nat, k: nat, x: nat, z: nat)
    requires Ordered(g, order, t.num) && n == k + 1 && PassedTo(g, order, t0, t, n) && order[k] == x != g.entry
    requires z in t.up && Above(t, z) == Meet(t, g.pred[x])
    ensures PassedTo(g, order, t0, Moved(t, x, z), k)
  {
    MoveIsUp(g, order, t0, t, n, z);
    MoveKeepsShape(g, order, t0, t, n, k, x, z);
    forall j | k <= j < |order|
      ensures order[j] in Moved(t, x, z).up && (order[j] != g.entry ==> MovedWell(g, t0, Moved(t, x, z), order[j]))
    {
      MovedStay(g, order, t0, t, n, x, z, j);
    }
    MovedAgrees(t, x, z);
    AgreeFurther(t0, t, Moved(t, x, z), k - 1);
    assert x in t.num && Moved(t, x, z).up.Keys == t.up.Keys + {x};
  }

  lemma MovedHere(g: Cfg, t0: Tree, t: Tree, x: nat, z: nat)
    requires g.Valid() && TreeOk(t) && x in g.blocks && z in t.up && Above(t, z) == Meet(t, g.pred[x])
    requires AgreeBelow(t, t0, Num(t, x)) && AgreeAbove(t, Moved(t, x, z), Num(t, x))
    ensures MovedWell(g, t0, Moved(t, x, z), x)
  {
    assert Up(Moved(t, x, z), x) == z;
    assert MovedIn(g, t0, Moved(t, x, z), x, t);
  }

  lemma AgreeFurther(t0: Tree, t: Tree, u: Tree, n: int)
    requires AgreeBelow(t, t0, n + 1) && AgreeBelow(t, u, n)
    ensures AgreeBelow(u, t0, n)
  {
    forall y | Num(u, y) <= n
      ensures (y in u.up <==> y in t0.up) && (y in u.up ==> Up(u, y) == Up(t0, y))
    {
      var a, b := Up(t, y), Up(u, y);
    }
  }

  lemma PassEnds(g: Cfg, order: seq<nat>, t0: Tree, t: Tree)
    requires Ordered(g, order, t.num) && PassedTo(g, order, t0, t, 0)
    ensures Pass(g, t0, t) && Total(g, t)
  {
    forall x | x in g.blocks
      ensures x in t.up && (x != g.entry ==> MovedWell(g, t0, t, x))
    {
      assert x in t.num;
      var k :| 0 <= k < |order| && order[k] == x;
    }
  }

  /** What holds of the tree after every pass. */
  ghost predicate AfterPass(g: Cfg, t: Tree)
    requires g.Valid()
  {
    TreeOk(t) && Total(g, t) && Safe(g, t) && UnderFront(g, t) && Descending(g, t)
  }

  lemma FirstPassDone(g: Cfg, order: seq<nat>, t0: Tree, t: Tree)
    requires Ordered(g, order, t.num) && PassedTo(g, order, t0, t, 0) && TreeOk(t0) && t0.root == g.entry
    requires t0.up.Keys == {g.entry}
    ensures AfterPass(g, t)
  {
    PassEnds(g, order, t0, t);
    PassUnderFront(g, t0, t);
    FirstPassDescends(g, t0, t);
  }

  lemma LaterPassDone(g: Cfg, order: seq<nat>, t0: Tree, t: Tree)
    requires Ordered(g, order, t.num) && AfterPass(g, t0) && PassedTo(g, order, t0, t, 0)
    ensures AfterPass(g, t)
    ensures t0 != t ==> Room(g, t) < Room(g, t0)
    ensures t0 == t ==> Exact(g, t)
  {
    PassEnds(g, order, t0, t);
    PassUnderFront(g, t0, t);
    PassDescends(g, t0, t);
    NumberedInjective(order, t.num);
    if t0 == t {
      FixpointIsExact(g, t);
    } else {
      RoomShrinks(g, t0, t);
    }
  }

  lemma CommonAbove(t: Tree, ps: seq<nat>, first: nat, p: nat, z: nat, z': nat)
    requires TreeOk(t) && z in t.up && z' in t.up && p in t.up
    requires Above(t, z) == Meet(t, [first] + ps) && Above(t, z') == Above(t, p) * Above(t, z)
    ensures Above(t, z') == Meet(t, [first] + (ps + [p]))
  {
    assert [first] + (ps + [p]) == ([first] + ps) + [p];
    forall a | a in t.up
      ensures a in Above(t, z') <==> a in Meet(t, [first] + (ps + [p]))
    {
      MeetOneMore(t, [first] + ps, p, a);
    }
    forall a | a in Above(t, z') ensures a in t.up {
      AboveIsHigher(t, z', a);
    }
  }

  lemma SkippedAbove(t: Tree, ps: seq<nat>, first: nat, p: nat)
    requires TreeOk(t) && (p == first || p !in t.up)
    ensures Meet(t, [first] + (ps + [p])) == Meet(t, [first] + ps)
  {
    assert [first] + (ps + [p]) == ([first] + ps) + [p];
    forall a | a in t.up
      ensures a in Meet(t, [first] + (ps + [p])) <==> a in Meet(t, [first] + ps)
    {
      MeetOneMore(t, [first] + ps, p, a);
      assert first in [first] + ps;
    }
  }

  lemma MeetOfFront(t: Tree, ps: seq<nat>)
    requires TreeOk(t) && ps != []
    ensures Meet(t, [ps[0]] + ps) == Meet(t, ps)
  {
    assert forall q :: q in [ps[0]] + ps <==> q in ps;
  }

  lemma MeetOfOne(t: Tree, p: nat)
    requires TreeOk(t) && p in t.up
    ensures Meet(t, [p] + []) == Above(t, p)
  {
    forall a | a in Above(t, p) ensures a in t.up {
      AboveIsHigher(t, p, a);
    }
  }

  lemma SuccessorsKnown(g: Cfg, b: nat)
    requires g.Valid() && b in g.blocks
    ensures forall k :: 0 <= k <= |g.succ[b]| ==> forall s :: s in g.succ[b][k..] ==> s in g.blocks
  {
    assert forall s :: s in g.succ[b] ==> s in g.blocks;
  }

  /** After k successors, with the blocks in `left` left so far, the search goes on from there. */
  ghost predicate Resumes(g: Cfg, bs: seq<nat>, visited: set<nat>, k: nat, now: set<nat>, left: seq<nat>)
    requires g.Valid() && k <= |bs| && visited <= g.blocks && now <= g.blocks
  {
    && (forall b :: b in bs ==> b in g.blocks)
    && (forall b :: b in bs[k..] ==> b in g.blocks)
    && var w := DfsAll(g, bs[k..], now);
       DfsAll(g, bs, visited) == Walk(w.visited, left + w.order)
  }

  lemma ResumeStep(g: Cfg, bs: seq<nat>, visited: set<nat>, k: nat, now: set<nat>, left: seq<nat>)
    requires g.Valid() && k < |bs| && visited <= g.blocks && now <= g.blocks && Resumes(g, bs, visited, k, now, left)
    ensures bs[k] in now ==> Resumes(g, bs, visited, k + 1, now, left)
    ensures bs[k] !in now ==>
      bs[k] in g.blocks && var w := Dfs(g, bs[k], now); Resumes(g, bs, visited, k + 1, w.visited, left + w.order)
  {
    assert bs[k..][0] == bs[k] && bs[k..][1..] == bs[k + 1..];
    assert bs[k] in bs;
    if bs[k] !in now {
      var w := Dfs(g, bs[k], now);
      var v := DfsAll(g, bs[k + 1..], w.visited);
      assert left + (w.order + v.order) == (left + w.order) + v.order;
    }
  }

  lemma {:induction false} NumberedSize(order: seq<nat>, num: map<nat, nat>)
    requires Numbered(order, num)
    ensures |num| == |order|
  {
    if order == [] {
      assert num.Keys == {};
    } else {
      var n := |order| - 1;
      var init := order[..n];
      var rest := num - {order[n]};
      assert order == init + [order[n]];
      forall x ensures x in rest <==> x in init {
        if x in init {
          var i :| 0 <= i < n && order[i] == x;
          assert num[x] == i;
        }
      }
      NumberedSize(init, rest);
      assert num.Keys == rest.Keys + {order[n]};
      assert |num.Keys| == |rest.Keys| + 1;
    }
  }

  lemma NumberedOneMore(order: seq<nat>, num: map<nat, nat>, b: nat)
    requires Numbered(order, num) && b !in order
    ensures Numbered(order + [b], num[b := |num|])
  {
    NumberedSize(order, num);
  }

  lemma InTree(t: Tree, b: nat)
    requires TreeOk(t) && b in t.up
    ensures Num(t, b) <= Num(t, t.root) && Up(t, b) == t.up[b] && Up(t, b) in t.up
  {
    assert Hangs(t, b);
  }

  ghost predicate Changed(t0: Tree, t: Tree, x: nat) {
    x in t.up && (x !in t0.up || t0.up[x] != t.up[x])
  }

  /** One of the blocks from position n on has been moved. */
  ghost predicate SomeChanged(order: seq<nat>, t0: Tree, t: Tree, n: nat) {
    exists k :: n <= k < |order| && Changed(t0, t, order[k])
  }

  lemma StillChanged(order: seq<nat>, t0: Tree, t: Tree, n: nat, m: nat, x: nat, z: nat)
    requires Numbered(order, t.num) && n < |order| && m == n + 1 && x == order[n] && SomeChanged(order, t0, t, m)
    ensures SomeChanged(order, t0, Moved(t, x, z), n)
  {
    var k :| m <= k < |order| && Changed(t0, t, order[k]);
    assert order[k] != x;
    assert Changed(t0, Moved(t, x, z), order[k]);
  }

  lemma NowChanged(g: Cfg, order: seq<nat>, t0: Tree, t: Tree, n: nat, m: nat, x: nat, z: nat)
    requires Ordered(g, order, t.num) && n < |order| && m == n + 1 && x == order[n] && AgreeBelow(t, t0, n)
    requires x !in t.up || t.up[x] != z
    ensures SomeChanged(order, t0, Moved(t, x, z), n)
  {
    NumOf(order, t.num, t, n);
    var a, b := Up(t, x), Up(t0, x);
    assert Changed(t0, Moved(t, x, z), order[n]);
  }

  lemma ChangesOn(g: Cfg, order: seq<nat>, t0: Tree, t: Tree, n: nat, m: nat, x: nat, z: nat, changed: bool)
    requires Ordered(g, order, t.num) && n < |order| && m == n + 1 && x == order[n] && PassedTo(g, order, t0, t, m)
    requires changed ==> SomeChanged(order, t0, t, m)
    ensures changed || x !in t.up || t.up[x] != z ==> SomeChanged(order, t0, Moved(t, x, z), n)
  {
    if changed {
      StillChanged(order, t0, t, n, m, x, z);
    } else if x !in t.up || t.up[x] != z {
      NowChanged(g, order, t0, t, n, m, x, z);
    }
  }

  lemma UnmovedIsSame(t: Tree, x: nat, z: nat)
    requires x in t.up && t.up[x] == z
    ensures Moved(t, x, z) == t
  {
    assert t.up[x := z] == t.up;
  }

  /** What becomes of the tree, and of the note that something changed, when x is looked at. */
  ghost predicate Turned(g: Cfg, x: nat, t: Tree, t': Tree, changed: bool, changed': bool)
    requires g.Valid()
  {
    if x == g.entry then t' == t && changed' == changed
    else
      x in g.blocks && TreeOk(t) && exists z ::
        && z in t.up && Above(t, z) == Meet(t, g.pred[x]) && t' == Moved(t, x, z)
        && changed' == (changed || x !in t.up || t.up[x] != z)
  }

  /** The pass from the end of the order down to position n. */
  ghost predicate Steps(g: Cfg, order: seq<nat>, t0: Tree, t: Tree, n: nat, changed: bool)
    requires g.Valid() && n <= |order|
    decreases |order| - n
  {
    if n == |order| then t == t0 && !changed
    else exists t1, c1 :: Steps(g, order, t0, t1, n + 1, c1) && Turned(g, order[n], t1, t, c1, changed)
  }

  lemma OneMoreStep(g: Cfg, order: seq<nat>, t0: Tree, t: Tree, n: nat, changed: bool, z: nat)
    requires g.Valid() && 0 < n <= |order| && Steps(g, order, t0, t, n, changed)
    requires order[n - 1] != g.entry ==>
      order[n - 1] in g.blocks && TreeOk(t) && z in t.up && Above(t, z) == Meet(t, g.pred[order[n - 1]])
    ensures var x := order[n - 1];
      if x == g.entry then Steps(g, order, t0, t, n - 1, changed)
      else Steps(g, order, t0, Moved(t, x, z), n - 1, changed || x !in t.up || t.up[x] != z)
  {
    var x := order[n - 1];
    if x == g.entry {
      assert Turned(g, x, t, t, changed, changed);
    } else {
      assert Turned(g, x, t, Moved(t, x, z), changed, changed || x !in t.up || t.up[x] != z);
    }
  }

  lemma TurnPasses(g: Cfg, order: seq<nat>, t0: Tree, t1: Tree, t: Tree, n: nat, m: nat, x: nat, c1: bool,
                   changed: bool)
    requires Ordered(g, order, t1.num) && n < |order| && m == n + 1 && x == order[n] && PassedTo(g, order, t0, t1, m)
    requires Turned(g, x, t1, t, c1, changed)
    ensures PassedTo(g, order, t0, t, n)
  {
    if x == g.entry {
      EntryStep(g, order, t0, t1, m);
    } else {
      var z :| z in t1.up && Above(t1, z) == Meet(t1, g.pred[x]) && t == Moved(t1, x, z);
      MoveStep(g, order, t0, t1, m, n, x, z);
    }
  }

  lemma TurnedHow(g: Cfg, x: nat, t: Tree, t': Tree, changed: bool, changed': bool) returns (z: nat)
    requires g.Valid() && Turned(g, x, t, t', changed, changed') && x != g.entry
    ensures t' == Moved(t, x, z) && changed' == (changed || x !in t.up || t.up[x] != z)
    ensures !changed' ==> t' == t
  {
    z :| z in t.up && Above(t, z) == Meet(t, g.pred[x]) && t' == Moved(t, x, z)
         && changed' == (changed || x !in t.up || t.up[x] != z);
    if !changed' {
      UnmovedIsSame(t, x, z);
    }
  }

  lemma TurnChanges(g: Cfg, order: seq<nat>, t0: Tree, t1: Tree, t: Tree, n: nat, m: nat, x: nat, c1: bool,
                    changed: bool)
    requires Ordered(g, order, t1.num) && n < |order| && m == n + 1 && x == order[n] && PassedTo(g, order, t0, t1, m)
    requires Turned(g, x, t1, t, c1, changed)
    requires if c1 then SomeChanged(order, t0, t1, m) else t1 == t0
    ensures if changed then SomeChanged(order, t0, t, n) else t == t0
  {
    if x == g.entry {
      EntryStep(g, order, t0, t1, m);
    } else {
      var z := TurnedHow(g, x, t1, t, c1, changed);
      ChangesOn(g, order, t0, t1, n, m, x, z, c1);
    }
  }

  lemma TurnStep(g: Cfg, order: seq<nat>, t0: Tree, t1: Tree, t: Tree, n: nat, m: nat, x: nat, c1: bool, changed: bool)
    requires Ordered(g, order, t0.num) && n < |order| && m == n + 1 && x == order[n] && PassedTo(g, order, t0, t1, m)
    requires Turned(g, x, t1, t, c1, changed)
    requires if c1 then SomeChanged(order, t0, t1, m) else t1 == t0
    ensures PassedTo(g, order, t0, t, n)
    ensures if changed then SomeChanged(order, t0, t, n) else t == t0
  {
    TurnPasses(g, order, t0, t1, t, n, m, x, c1, changed);
    TurnChanges(g, order, t0, t1, t, n, m, x, c1, changed);
  }

  lemma LastStep(g: Cfg, order: seq<nat>, t0: Tree, t: Tree, n: nat, m: nat, changed: bool) returns (t1: Tree, c1: bool)
    requires g.Valid() && n < |order| && m == n + 1 && Steps(g, order, t0, t, n, changed)
    ensures Steps(g, order, t0, t1, m, c1) && Turned(g, order[n], t1, t, c1, changed)
  {
    t1, c1 :| Steps(g, order, t0, t1, n + 1, c1) && Turned(g, order[n], t1, t, c1, changed);
  }

  lemma {:induction false} StepsPass(g: Cfg, order: seq<nat>, t0: Tree, t: Tree, n: nat, changed: bool)
    requires Ordered(g, order, t0.num) && n <= |order| && PassedTo(g, order, t0, t0, |order|)
    requires Steps(g, order, t0, t, n, changed)
    ensures PassedTo(g, order, t0, t, n)
    ensures if changed then SomeChanged(order, t0, t, n) else t == t0
    decreases |order| - n
  {
    if n < |order| {
      var m := n + 1;
      var t1, c1 := LastStep(g, order, t0, t, n, m, changed);
      StepsPass(g, order, t0, t1, m, c1);
      TurnStep(g, order, t0, t1, t, n, m, order[n], c1, changed);
    }
  }

  lemma ChangedIsDifferent(order: seq<nat>, t0: Tree, t: Tree)
    requires SomeChanged(order, t0, t, 0)
    ensures t != t0
  {
  }

  /** Unless the entry is the only block, the first pass changes something. */
  lemma FirstPass(g: Cfg, order: seq<nat>, t0: Tree, t: Tree, changed: bool)
    requires Ordered(g, order, t0.num) && t0.root == g.entry && t0.up == map[g.entry := g.entry]
    requires Steps(g, order, t0, t, 0, changed)
    ensures AfterPass(g, t) && (!changed ==> Exact(g, t))
  {
    EntryAlone(g, t0);
    PassStarts(g, order, t0);
    StepsPass(g, order, t0, t, 0, changed);
    FirstPassDone(g, order, t0, t);
    if !changed {
      LonelyEntry(g, t);
    }
  }

  lemma LaterPass(g: Cfg, order: seq<nat>, t0: Tree, t: Tree, changed: bool)
    requires Ordered(g, order, t0.num) && AfterPass(g, t0) && Steps(g, order, t0, t, 0, changed)
    ensures AfterPass(g, t)
    ensures if changed then RoomLeft(g, t) < RoomLeft(g, t0) else t == t0 && Exact(g, t)
  {
    PassStarts(g, order, t0);
    StepsPass(g, order, t0, t, 0, changed);
    LaterPassDone(g, order, t0, t);
    if changed {
      ChangedIsDifferent(order, t0, t);
      FewerLeft(Room(g, t), Room(g, t0));
    }
  }

  lemma FewerLeft(s: set<(nat, int)>, s': set<(nat, int)>)
    requires s < s'
    ensures |s| < |s'|
  {
    assert s' == s + (s' - s);
  }

  ghost function RoomLeft(g: Cfg, t: Tree): nat {
    if Total(g, t) then |Room(g, t)| else 0
  }

  /** Where the climb from bb1 and bb2 has got to. */
  ghost predicate Climbing(t: Tree, bb1: nat, bb2: nat, b1: nat, b2: nat) {
    && TreeOk(t) && bb1 in t.up && bb2 in t.up && b1 in t.up && b2 in t.up
    && Above(t, b1) * Above(t, b2) == Above(t, bb1) * Above(t, bb2)
    && Num(t, b1) <= Num(t, t.root) && Num(t, b2) <= Num(t, t.root)
  }

  lemma ClimbLeft(t: Tree, bb1: nat, bb2: nat, b1: nat, b2: nat)
    requires Climbing(t, bb1, bb2, b1, b2) && Num(t, b1) < Num(t, b2)
    ensures Climbing(t, bb1, bb2, t.up[b1], b2) && Num(t, b1) < Num(t, t.up[b1])
  {
    InTree(t, b1);
    ClimbKeepsCommon(t, b1, b2);
    InTree(t, t.up[b1]);
  }

  lemma ClimbRight(t: Tree, bb1: nat, bb2: nat, b1: nat, b2: nat)
    requires Climbing(t, bb1, bb2, b1, b2) && Num(t, b2) < Num(t, b1)
    ensures Climbing(t, bb1, bb2, b1, t.up[b2]) && Num(t, b2) < Num(t, t.up[b2])
  {
    InTree(t, b2);
    ClimbKeepsCommon(t, b2, b1);
    InTree(t, t.up[b2]);
    assert Above(t, b1) * Above(t, b2) == Above(t, b2) * Above(t, b1);
    assert Above(t, b1) * Above(t, t.up[b2]) == Above(t, t.up[b2]) * Above(t, b1);
  }

  lemma EntryAlone(g: Cfg, t: Tree)
    requires g.Valid() && t.root == g.entry && t.up == map[g.entry := g.entry]
    ensures Startable(g, t)
  {
    assert forall c :: c in t.up ==> c == g.entry;
    assert Hangs(t, g.entry);
  }

  lemma LonelyEntry(g: Cfg, t: Tree)
    requires g.Valid() && TreeOk(t) && Total(g, t) && t.up.Keys == {g.entry}
    ensures Exact(g, t)
  {
    forall a
      ensures a in Above(t, g.entry) <==> Dominates(g, a, g.entry)
    {
      if Dominates(g, a, g.entry) {
        OnlyEntryDominatesEntry(g, a);
      }
      DominatesItself(g, g.entry);
    }
  }

  /** One step from runner towards z, which is above it. */
  lemma Climb(t: Tree, p: nat, runner: nat, z: nat)
    requires TreeOk(t) && p in t.up && runner in Above(t, p) && runner in t.up && z in Above(t, runner) && z != runner
    ensures t.up[runner] in t.up && t.up[runner] in Above(t, p) && z in Above(t, t.up[runner])
    ensures Num(t, runner) < Num(t, t.up[runner]) <= Num(t, t.root)
    ensures forall x :: x in Above(t, runner) <==> x == runner || x in Above(t, t.up[runner])
    ensures runner !in Above(t, t.up[runner])
  {
    InTree(t, runner);
    InTree(t, t.up[runner]);
    AboveIsHigher(t, runner, z);
    assert Hangs(t, runner);
    AboveTransitive(t, p, runner);
    if runner in Above(t, t.up[runner]) {
      AboveIsHigher(t, t.up[runner], runner);
    }
  }

  lemma FrontiersStep(g: Cfg, t: Tree, df: map<nat, set<nat>>, df': map<nat, set<nat>>, rest: set<nat>, b: nat)
    requires g.Valid() && TreeOk(t) && Total(g, t) && Frontiers(g, t, df, rest) && b in rest && df'.Keys == g.blocks
    requires forall x :: x in g.blocks ==> df'[x] == df[x] + (if InFrontier(g, t, x, b) then {b} else {})
    ensures Frontiers(g, t, df', rest - {b})
  {
    forall x, y | x in g.blocks
      ensures y in df'[x] <==> y !in rest - {b} && InFrontier(g, t, x, y)
    {
      assert y in df[x] <==> y !in rest && InFrontier(g, t, x, y);
    }
  }

  lemma TakeOneMore(s: seq<nat>, k: nat)
    requires k < |s|
    ensures s[..k + 1] == s[..k] + [s[k]] && s[k] in s
  {
  }

  /** One of the predecessors in ps puts y into the frontier of x. */
  ghost predicate ReachedFrom(t: Tree, x: nat, y: nat, ps: seq<nat>)
    requires TreeOk(t) && y in t.up && Up(t, y) in t.up
  {
    (exists p :: p in ps && p in t.up && x in Above(t, p)) && x !in Above(t, Up(t, y))
  }

  lemma ReachedFromOneMore(t: Tree, x: nat, y: nat, ps: seq<nat>, p: nat)
    requires TreeOk(t) && y in t.up && Up(t, y) in t.up && p in t.up
    ensures ReachedFrom(t, x, y, ps + [p]) <==>
      ReachedFrom(t, x, y, ps) || (x in Above(t, p) && x !in Above(t, Up(t, y)))
  {
    assert forall q :: q in ps + [p] <==> q in ps || q == p;
  }

  // ----- intervals -----

  /** Every block has its position in the order, counted from 1. */
  ghost predicate Preorder(order: seq<nat>, l: map<nat, nat>) {
    && (forall x :: x in order <==> x in l)
    && forall i :: 0 <= i < |order| ==> order[i] in l && l[order[i]] == i + 1
  }

  ghost predicate Extends(m: map<nat, nat>, m': map<nat, nat>, s: set<nat>) {
    m'.Keys == m.Keys + s && forall x {:trigger m'[x]} :: x in m && x !in s ==> m'[x] == m[x]
  }

  ghost predicate Within(s: set<nat>, l: map<nat, nat>, r: map<nat, nat>, low: nat, high: nat) {
    low <= high && forall x {:trigger x in s} :: x in s ==> x in l && x in r && low < l[x] <= r[x] <= high
  }

  ghost predicate Covers(l: map<nat, nat>, r: map<nat, nat>, a: nat, b: nat) {
    a in l && a in r && b in l && l[a] <= l[b] <= r[a]
  }

  ghost predicate Nested(t: Tree, s: set<nat>, l: map<nat, nat>, r: map<nat, nat>)
    requires TreeOk(t)
  {
    forall a, b {:trigger Covers(l, r, a, b)} :: a in s && b in s && b in t.up ==>
      (Covers(l, r, a, b) <==> a in Above(t, b))
  }

  lemma JoinNested(t: Tree, s: set<nat>, b: set<nat>, l0: map<nat, nat>, r0: map<nat, nat>, l: map<nat, nat>,
                   r: map<nat, nat>,
                   low: nat, mid: nat, high: nat)
    requires TreeOk(t) && s !! b && Extends(l0, l, b) && Extends(r0, r, b)
    requires Within(s, l0, r0, low, mid) && Within(b, l, r, mid, high) && Nested(t, s, l0, r0) && Nested(t, b, l, r)
    requires forall x, y :: x in s && y in b ==> x in t.up && y in t.up && x !in Above(t, y) && y !in Above(t, x)
    ensures Within(s + b, l, r, low, high) && Nested(t, s + b, l, r)
  {
    forall x | x in s
      ensures x in l && x in r && l[x] == l0[x] && r[x] == r0[x] && low < l[x] <= r[x] <= mid
    {
    }
    forall x, y | x in s + b && y in s + b && y in t.up
      ensures Covers(l, r, x, y) <==> x in Above(t, y)
    {
      if x in s && y in s {
        assert Covers(l, r, x, y) <==> Covers(l0, r0, x, y);
      }
    }
  }

  lemma TopNested(g: Cfg, t: Tree, x: nat, seen: set<nat>, l: map<nat, nat>, r0: map<nat, nat>, low: nat, high: nat)
    requires g.Valid() && TreeOk(t) && Total(g, t) && x in g.blocks && Below(g, t, x) == seen + {x} && x !in seen
    requires x in l && l[x] == low + 1 && low < high
    requires Within(seen, l, r0, low + 1, high) && Nested(t, seen, l, r0)
    ensures Within(Below(g, t, x), l, r0[x := high], low, high) && Nested(t, Below(g, t, x), l, r0[x := high])
  {
    var r := r0[x := high];
    forall a, b | a in Below(g, t, x) && b in Below(g, t, x)
      ensures Covers(l, r, a, b) <==> a in Above(t, b)
    {
      if b == x && a != x {
        if a in Above(t, x) {
          AboveIsHigher(t, x, a);
          AboveIsHigher(t, a, x);
        }
      } else if a != x {
        assert Covers(l, r, a, b) <==> Covers(l, r0, a, b);
      }
    }
  }

  ghost predicate Fresh(s: set<nat>, l: map<nat, nat>, r: map<nat, nat>) {
    s !! l.Keys && s !! r.Keys
  }

  /** The blocks in s have been numbered behind low, up to high. */
  ghost predicate Numbering(g: Cfg, t: Tree, s: set<nat>, l0: map<nat, nat>, r0: map<nat, nat>, l: map<nat, nat>,
                            r: map<nat, nat>,
                            low: nat, high: nat)
    requires TreeOk(t)
  {
    Extends(l0, l, s) && Extends(r0, r, s) && Within(s, l, r, low, high) && Nested(t, s, l, r)
  }

  /** The whole tree under x has been numbered. */
  ghost predicate Visited(g: Cfg, t: Tree, x: nat, l0: map<nat, nat>, r0: map<nat, nat>, l: map<nat, nat>,
                          r: map<nat, nat>,
                          low: nat, high: nat)
    requires g.Valid() && TreeOk(t) && Total(g, t)
  {
    Numbering(g, t, Below(g, t, x), l0, r0, l, r, low, high) && low < high
  }

  lemma SweepStarts(g: Cfg, t: Tree, x: nat, rest: set<nat>, l0: map<nat, nat>, r0: map<nat, nat>, n: nat)
    requires g.Valid() && TreeOk(t) && Total(g, t) && forall c :: c in rest <==> Child(g, t, x, c)
    ensures Sweeping(g, t, x, rest, {}) && Numbering(g, t, {}, l0, r0, l0, r0, n, n)
  {
  }

  lemma StillFresh(g: Cfg, t: Tree, x: nat, c: nat, seen: set<nat>, l0: map<nat, nat>, r0: map<nat, nat>,
                   l: map<nat, nat>, r: map<nat, nat>,
                   low: nat, high: nat)
    requires g.Valid() && TreeOk(t) && Total(g, t) && Below(g, t, c) <= Below(g, t, x) && x !in Below(g, t, c)
    requires Below(g, t, x) - {x} !! l0.Keys && Below(g, t, x) !! r0.Keys
    requires Numbering(g, t, seen, l0, r0, l, r, low, high) && Below(g, t, c) !! seen
    ensures Fresh(Below(g, t, c), l, r)
  {
  }

  lemma ExtendsTwice(m0: map<nat, nat>, m1: map<nat, nat>, m2: map<nat, nat>, s: set<nat>, b: set<nat>)
    requires Extends(m0, m1, s) && Extends(m1, m2, b)
    ensures Extends(m0, m2, s + b)
  {
    forall x {:trigger m2[x]} | x in m0 && x !in s + b
      ensures m2[x] == m0[x]
    {
      assert m1[x] == m0[x];
    }
  }

  lemma NumberingStep(g: Cfg, t: Tree, s: set<nat>, c: nat, l0: map<nat, nat>, r0: map<nat, nat>, l: map<nat, nat>,
                      r: map<nat, nat>,
                      l': map<nat, nat>, r': map<nat, nat>, low: nat, mid: nat, high: nat)
    requires g.Valid() && TreeOk(t) && Total(g, t)
    requires Numbering(g, t, s, l0, r0, l, r, low, mid) && Visited(g, t, c, l, r, l', r', mid, high)
    requires s !! Below(g, t, c)
    requires forall a, b :: a in s && b in Below(g, t, c) ==>
      b in t.up && a in t.up && a !in Above(t, b) && b !in Above(t, a)
    ensures Numbering(g, t, s + Below(g, t, c), l0, r0, l', r', low, high)
  {
    ExtendsTwice(l0, l, l', s, Below(g, t, c));
    ExtendsTwice(r0, r, r', s, Below(g, t, c));
    JoinNested(t, s, Below(g, t, c), l, r, l', r', low, mid, high);
  }

  lemma VisitEnds(g: Cfg, t: Tree, x: nat, seen: set<nat>, m: map<nat, nat>, l0: map<nat, nat>, r0: map<nat, nat>,
                  l: map<nat, nat>, r: map<nat, nat>, low: nat, high: nat)
    requires g.Valid() && TreeOk(t) && Total(g, t) && x in g.blocks && Below(g, t, x) == seen + {x} && x !in seen
    requires l0 == m[x := low + 1] && Numbering(g, t, seen, l0, r0, l, r, low + 1, high)
    ensures Visited(g, t, x, m, r0, l, r[x := high], low, high)
  {
    assert l[x] == l0[x];
    TopNested(g, t, x, seen, l, r, low, high);
    forall y {:trigger l[y]} | y in m && y !in Below(g, t, x)
      ensures l[y] == m[y]
    {
      assert l[y] == l0[y];
    }
    assert Extends(m, l, Below(g, t, x));
    assert Extends(r0, r[x := high], Below(g, t, x));
  }

  lemma BelowItself(g: Cfg, t: Tree, x: nat)
    requires g.Valid() && TreeOk(t) && Total(g, t) && x in g.blocks
    ensures x in Below(g, t, x)
  {
  }

  lemma EverythingBelowRoot(g: Cfg, t: Tree)
    requires g.Valid() && TreeOk(t) && Total(g, t)
    ensures Below(g, t, g.entry) == g.blocks
  {
    forall b | b in g.blocks
      ensures g.entry in Above(t, b)
    {
      RootIsAbove(t, b);
    }
  }

  ghost predicate CoverExactly(g: Cfg, l: map<nat, nat>, r: map<nat, nat>)
    requires g.Valid()
  {
    forall a, b {:trigger Covers(l, r, a, b)} :: a in g.blocks && b in g.blocks ==>
      (Covers(l, r, a, b) <==> Dominates(g, a, b))
  }

  lemma NestedIsExact(g: Cfg, t: Tree, l: map<nat, nat>, r: map<nat, nat>)
    requires g.Valid() && TreeOk(t) && Total(g, t) && Exact(g, t) && Nested(t, g.blocks, l, r)
    ensures CoverExactly(g, l, r)
  {
    forall a, b | a in g.blocks && b in g.blocks
      ensures Covers(l, r, a, b) <==> Dominates(g, a, b)
    {
      assert a in Above(t, b) <==> Dominates(g, a, b);
    }
  }

  lemma {:induction false} PreorderSize(order: seq<nat>, l: map<nat, nat>)
    requires Preorder(order, l)
    ensures |order| == |l.Keys|
  {
    var num := map x | x in l && l[x] > 0 :: (l[x] - 1) as nat;
    forall x ensures x in num <==> x in order {
      if x in order {
        var i :| 0 <= i < |order| && order[i] == x;
      }
    }
    NumberedSize(order, num);
    assert num.Keys == l.Keys;
  }

  /** The predecessors in ps have put bb into frontiers. */
  ghost predicate Entered(g: Cfg, t: Tree, bb: nat, ps: seq<nat>, df: map<nat, set<nat>>, df': map<nat, set<nat>>) {
    && TreeOk(t) && bb in t.up && Up(t, bb) in t.up && df.Keys == g.blocks && df'.Keys == g.blocks
    && forall x {:trigger df'[x]} :: x in g.blocks ==>
         df'[x] == df[x] + (if ReachedFrom(t, x, bb, ps) then {bb} else {})
  }

  lemma NothingEntered(g: Cfg, t: Tree, bb: nat, df: map<nat, set<nat>>)
    requires g.Valid() && TreeOk(t) && Total(g, t) && bb in g.blocks && df.Keys == g.blocks
    ensures Entered(g, t, bb, g.pred[bb][..0], df, df)
  {
    InTree(t, bb);
  }

  lemma OneMoreEntered(g: Cfg, t: Tree, bb: nat, ps: seq<nat>, k: nat,
                       df: map<nat, set<nat>>, df1: map<nat, set<nat>>, df2: map<nat, set<nat>>)
    requires k < |ps| && ps[k] in t.up && Entered(g, t, bb, ps[..k], df, df1) && df2.Keys == g.blocks
    requires forall x :: x in g.blocks ==>
      df2[x] == df1[x] + (if x in Above(t, ps[k]) && x !in Above(t, Up(t, bb)) then {bb} else {})
    ensures Entered(g, t, bb, ps[..k + 1], df, df2)
  {
    TakeOneMore(ps, k);
    forall x | x in g.blocks
      ensures df2[x] == df[x] + (if ReachedFrom(t, x, bb, ps[..k + 1]) then {bb} else {})
    {
      ReachedFromOneMore(t, x, bb, ps[..k], ps[k]);
      assert df1[x] == df[x] + (if ReachedFrom(t, x, bb, ps[..k]) then {bb} else {});
    }
  }

  lemma AllEntered(g: Cfg, t: Tree, bb: nat, df: map<nat, set<nat>>, df': map<nat, set<nat>>)
    requires g.Valid() && Total(g, t) && bb in g.blocks && |g.pred[bb]| >= 2
    requires Entered(g, t, bb, g.pred[bb][..|g.pred[bb]|], df, df')
    ensures forall x :: x in g.blocks ==> df'[x] == df[x] + (if InFrontier(g, t, x, bb) then {bb} else {})
  {
    assert g.pred[bb][..|g.pred[bb]|] == g.pred[bb];
  }

  lemma LeftBehind(a: seq<nat>, b: seq<nat>, c: seq<nat>)
    ensures (a + b) + c == a + (b + c)
  {
  }

  lemma AllResumed(g: Cfg, b: nat, visited: set<nat>, now: set<nat>, left: seq<nat>)
    requires g.Valid() && b in g.blocks && b !in visited && visited <= g.blocks && now <= g.blocks
    requires Resumes(g, g.succ[b], visited + {b}, |g.succ[b]|, now, left)
    ensures Dfs(g, b, visited) == Walk(now, left + [b])
  {
    assert g.succ[b][|g.succ[b]|..] == [];
    assert left + [] == left;
  }

  /** When the whole tree has been visited, the intervals are exact. */
  lemma AllVisited(g: Cfg, t: Tree, order: seq<nat>, l: map<nat, nat>, r: map<nat, nat>, high: nat)
    requires g.Valid() && TreeOk(t) && Total(g, t) && Exact(g, t)
    requires Visited(g, t, g.entry, map[], map[], l, r, 0, high) && Preorder(order, l)
    ensures l.Keys == g.blocks && r.Keys == g.blocks && CoverExactly(g, l, r) && |order| == |g.blocks|
  {
    EverythingBelowRoot(g, t);
    NestedIsExact(g, t, l, r);
    PreorderSize(order, l);
  }

  class Dominators {
    const g: Cfg
    var post_order_vec_: seq<nat>
    var post_order_: map<nat, nat>
    var idom_: map<nat, nat>
    var dom_frontier_: map<nat, set<nat>>
    var dom_tree_succ_blocks_: map<nat, set<nat>>
    var dom_tree_L_: map<nat, nat>
    var dom_tree_R_: map<nat, nat>
    var dom_dfs_order_: seq<nat>

    constructor (g: Cfg)
      ensures this.g == g && post_order_vec_ == [] && post_order_ == map[] && idom_ == map[]
      ensures dom_tree_L_ == map[] && dom_tree_R_ == map[] && dom_dfs_order_ == []
    {
      this.g, post_order_vec_, post_order_, idom_ := g, [], map[], map[];
      dom_frontier_, dom_tree_succ_blocks_ := map[], map[];
      dom_tree_L_, dom_tree_R_, dom_dfs_order_ := map[], map[], [];
    }

    /** The blocks that have an immediate dominator, as a tree. */
    function Tree(): Tree
      reads this`idom_, this`post_order_
    {
      DomTree.Tree(idom_, post_order_, g.entry)
    }

    method DfsVisit(bb: nat, visited: set<nat>) returns (visited': set<nat>)
      requires g.Valid() && bb in g.blocks && bb !in visited && visited <= g.blocks
      requires Numbered(post_order_vec_, post_order_) && forall x :: x in post_order_vec_ ==> x in visited
      modifies this`post_order_vec_, this`post_order_
      ensures visited' == Dfs(g, bb, visited).visited
      ensures post_order_vec_ == old(post_order_vec_) + Dfs(g, bb, visited).order
      ensures Numbered(post_order_vec_, post_order_)
      decreases g.blocks - visited
    {
      visited' := visited + {bb};
      ghost var left: seq<nat> := [];
      var succs := g.succ[bb];
      SuccessorsKnown(g, bb);
      for k := 0 to |succs|
        invariant visited + {bb} <= visited' <= g.blocks
        invariant post_order_vec_ == old(post_order_vec_) + left && Numbered(post_order_vec_, post_order_)
        invariant forall x :: x in post_order_vec_ ==> x in visited' && x != bb
        invariant Resumes(g, succs, visited + {bb}, k, visited', left)
      {
        ResumeStep(g, succs, visited + {bb}, k, visited', left);
        if succs[k] !in visited' {
          ghost var w := Dfs(g, succs[k], visited');
          visited' := DfsVisit(succs[k], visited');
          LeftBehind(old(post_order_vec_), left, w.order);
          left := left + w.order;
        }
      }
      AllResumed(g, bb, visited, visited', left);
      LeftBehind(old(post_order_vec_), left, [bb]);
      Leave(bb);
    }

    method Leave(bb: nat)
      requires Numbered(post_order_vec_, post_order_) && bb !in post_order_vec_
      modifies this`post_order_vec_, this`post_order_
      ensures Numbered(post_order_vec_, post_order_) && post_order_vec_ == old(post_order_vec_) + [bb]
    {
      NumberedOneMore(post_order_vec_, post_order_, bb);
      post_order_ := post_order_[bb := |post_order_|];
      post_order_vec_ := post_order_vec_ + [bb];
    }

    method CreateReversePostOrder()
      requires g.Valid() && post_order_vec_ == [] && post_order_ == map[]
      modifies this`post_order_vec_, this`post_order_
      ensures post_order_vec_ == Dfs(g, g.entry, {}).order && Numbered(post_order_vec_, post_order_)
      ensures AllReachable(g) ==> post_order_.Keys == g.blocks
      ensures |post_order_vec_| > 0 && post_order_vec_[|post_order_vec_| - 1] == g.entry
    {
      var visited := DfsVisit(g.entry, {});
      assert [] + Dfs(g, g.entry, {}).order == Dfs(g, g.entry, {}).order;
      if AllReachable(g) {
        forall b | b in g.blocks
          ensures b in post_order_vec_
        {
          var p :| EntryPath(g, p, b);
          EveryReachableIsLeft(g, p, b);
        }
      }
    }

    method Intersect(bb1: nat, bb2: nat) returns (bb: nat)
      requires TreeOk(Tree()) && Numbered(post_order_vec_, post_order_) && idom_.Keys <= post_order_.Keys
      requires bb1 in idom_ && bb2 in idom_
      ensures bb in idom_ && Above(Tree(), bb) == Above(Tree(), bb1) * Above(Tree(), bb2)
    {
      ghost var t := Tree();
      var b1, b2 := bb1, bb2;
      while b1 != b2
        invariant Climbing(t, bb1, bb2, b1, b2)
        decreases 2 * Num(t, t.root) - Num(t, b1) - Num(t, b2)
      {
        InTree(t, b1);
        InTree(t, b2);
        NumbersDiffer(post_order_vec_, post_order_, b1, b2);
        ghost var low := Num(t, b1) + Num(t, b2);
        while post_order_[b1] < post_order_[b2]
          invariant Climbing(t, bb1, bb2, b1, b2)
          invariant low < Num(t, b1) + Num(t, b2) || (low == Num(t, b1) + Num(t, b2) && Num(t, b1) != Num(t, b2))
          decreases Num(t, t.root) - Num(t, b1)
        {
          ClimbLeft(t, bb1, bb2, b1, b2);
          b1 := idom_[b1];
        }
        while post_order_[b2] < post_order_[b1]
          invariant Climbing(t, bb1, bb2, b1, b2)
          invariant low < Num(t, b1) + Num(t, b2) || (low == Num(t, b1) + Num(t, b2) && Num(t, b2) < Num(t, b1))
          decreases Num(t, t.root) - Num(t, b2)
        {
          ClimbRight(t, bb1, bb2, b1, b2);
          b2 := idom_[b2];
        }
      }
      bb := b1;
    }

    /** The nearest common block above the predecessors of bb that have a place already. */
    method NewIdom(bb: nat) returns (new_idom: nat)
      requires g.Valid() && TreeOk(Tree()) && Numbered(post_order_vec_, post_order_) && idom_.Keys <= post_order_.Keys
      requires bb in g.blocks && g.pred[bb] != [] && FrontOf(g, bb) in idom_
      ensures new_idom in idom_ && Above(Tree(), new_idom) == Meet(Tree(), g.pred[bb])
    {
      ghost var t := Tree();
      var preds := g.pred[bb];
      var first_pred := preds[0];
      new_idom := first_pred;
      MeetOfOne(t, first_pred);
      for k := 0 to |preds|
        invariant new_idom in idom_ && Above(t, new_idom) == Meet(t, [first_pred] + preds[..k])
      {
        var pred := preds[k];
        assert preds[..k + 1] == preds[..k] + [pred];
        if pred != first_pred && pred in idom_ {
          ghost var z := new_idom;
          new_idom := Intersect(pred, new_idom);
          CommonAbove(t, preds[..k], first_pred, pred, z, new_idom);
        } else {
          SkippedAbove(t, preds[..k], first_pred, pred);
        }
      }
      assert preds[..|preds|] == preds;
      MeetOfFront(t, preds);
    }

    /** Hangs bb under the nearest common block above its predecessors. */
    method ProcessBlock(bb: nat) returns (changed: bool, ghost new_idom': nat)
      requires g.Valid() && TreeOk(Tree()) && Numbered(post_order_vec_, post_order_) && idom_.Keys <= post_order_.Keys
      requires bb in g.blocks && g.pred[bb] != [] && FrontOf(g, bb) in idom_
      modifies this`idom_
      ensures new_idom' in old(idom_) && Above(old(Tree()), new_idom') == Meet(old(Tree()), g.pred[bb])
      ensures idom_ == old(idom_)[bb := new_idom']
      ensures changed <==> bb !in old(idom_) || old(idom_)[bb] != new_idom'
    {
      var new_idom := NewIdom(bb);
      new_idom' := new_idom;
      changed := bb !in idom_ || idom_[bb] != new_idom;
      if changed {
        idom_ := idom_[bb := new_idom];
      } else {
        assert idom_[bb := new_idom] == idom_;
      }
    }

    /** Goes through all blocks once, in reverse post-order. */
    method OnePass(ghost t0: Tree) returns (changed: bool, ghost t: Tree)
      requires Ordered(g, post_order_vec_, t0.num) && t0 == Tree() && Startable(g, t0)
      modifies this`idom_
      ensures t == Tree() && Steps(g, post_order_vec_, t0, t, 0, changed)
    {
      PassStarts(g, post_order_vec_, t0);
      t := t0;
      changed := false;
      var n: nat := |post_order_vec_|;
      while n > 0
        invariant t == Tree() && n <= |post_order_vec_|
        invariant Steps(g, post_order_vec_, t0, t, n, changed)
      {
        StepsPass(g, post_order_vec_, t0, t, n, changed);
        var bb := post_order_vec_[n - 1];
        if bb != g.entry {
          FrontInTree(g, post_order_vec_, t0, t, n);
          ghost var z;
          var c;
          c, z := ProcessBlock(bb);
          OneMoreStep(g, post_order_vec_, t0, t, n, changed, z);
          t := Moved(t, bb, z);
          changed := changed || c;
        } else {
          OneMoreStep(g, post_order_vec_, t0, t, n, changed, bb);
        }
        n := n - 1;
      }
    }

    /** Afterwards the blocks above a block in the tree are exactly its dominators. */
    method CreateIdom()
      requires Ordered(g, post_order_vec_, post_order_) && idom_ == map[]
      modifies this`idom_
      ensures TreeOk(Tree()) && Total(g, Tree()) && Exact(g, Tree())
    {
      idom_ := idom_[g.entry := g.entry];
      ghost var t0 := Tree();
      EntryAlone(g, t0);
      var changed;
      ghost var t;
      changed, t := OnePass(t0);
      FirstPass(g, post_order_vec_, t0, t, changed);
      while changed
        invariant t == Tree() && AfterPass(g, t) && (!changed ==> Exact(g, t))
        decreases RoomLeft(g, t), changed
      {
        t0 := t;
        changed, t := OnePass(t0);
        LaterPass(g, post_order_vec_, t0, t, changed);
      }
    }

    // ----- dominance frontiers -----

    /** Enters bb in the frontiers of everything from pred up to the immediate dominator of bb. */
    method ClimbTo(pred: nat, bb: nat, ghost t: Tree)
      requires g.Valid() && t == Tree() && TreeOk(t) && Total(g, t) && dom_frontier_.Keys == g.blocks
      requires pred in g.blocks && bb in g.blocks && Up(t, bb) in Above(t, pred)
      modifies this`dom_frontier_
      ensures dom_frontier_.Keys == g.blocks
      ensures forall x :: x in g.blocks ==>
        dom_frontier_[x] == old(dom_frontier_)[x] +
          (if x in Above(t, pred) && x !in Above(t, Up(t, bb)) then {bb} else {})
    {
      var runner := pred;
      InTree(t, bb);
      while runner != idom_[bb]
        invariant runner in g.blocks && dom_frontier_.Keys == g.blocks
        invariant runner in Above(t, pred) && idom_[bb] in Above(t, runner)
        invariant forall x :: x in g.blocks ==>
          dom_frontier_[x] == old(dom_frontier_)[x] +
            (if x in Above(t, pred) && x !in Above(t, runner) then {bb} else {})
        decreases Num(t, t.root) - Num(t, runner)
      {
        Climb(t, pred, runner, idom_[bb]);
        dom_frontier_ := dom_frontier_[runner := dom_frontier_[runner] + {bb}];
        runner := idom_[runner];
      }
    }

    method EnterFrontiers(bb: nat, ghost t: Tree)
      requires g.Valid() && t == Tree() && TreeOk(t) && Total(g, t) && Exact(g, t) && dom_frontier_.Keys == g.blocks
      requires bb in g.blocks && |g.pred[bb]| >= 2
      modifies this`dom_frontier_
      ensures dom_frontier_.Keys == g.blocks
      ensures forall x :: x in g.blocks ==>
        dom_frontier_[x] == old(dom_frontier_)[x] + (if InFrontier(g, t, x, bb) then {bb} else {})
    {
      var preds := g.pred[bb];
      ghost var df := dom_frontier_;
      NothingEntered(g, t, bb, df);
      for k := 0 to |preds|
        invariant Entered(g, t, bb, preds[..k], df, dom_frontier_)
      {
        ghost var before := dom_frontier_;
        UpIsAbovePredecessors(g, t, bb, preds[k]);
        ClimbTo(preds[k], bb, t);
        OneMoreEntered(g, t, bb, preds, k, df, before, dom_frontier_);
      }
      AllEntered(g, t, bb, df, dom_frontier_);
    }

    /** Afterwards dom_frontier_ holds exactly the dominance frontiers. */
    method CreateDominanceFrontier(ghost t: Tree)
      requires g.Valid() && t == Tree() && TreeOk(t) && Total(g, t) && Exact(g, t)
      modifies this`dom_frontier_
      ensures Frontiers(g, t, dom_frontier_, {})
    {
      var none: set<nat> := {};
      dom_frontier_ := map b | b in g.blocks :: none;
      var rest := g.blocks;
      while rest != {}
        invariant rest <= g.blocks && t == Tree()
        invariant Frontiers(g, t, dom_frontier_, rest)
        decreases rest
      {
        var bb :| bb in rest;
        ghost var df := dom_frontier_;
        if |g.pred[bb]| >= 2 {
          EnterFrontiers(bb, t);
        }
        FrontiersStep(g, t, df, dom_frontier_, rest, bb);
        rest := rest - {bb};
      }
    }

    // ----- the dominator tree -----

    method CreateDomTreeSucc(ghost t: Tree)
      requires g.Valid() && t == Tree() && TreeOk(t) && Total(g, t)
      modifies this`dom_tree_succ_blocks_
      ensures Children(g, t, dom_tree_succ_blocks_)
    {
      var none: set<nat> := {};
      dom_tree_succ_blocks_ := map b | b in g.blocks :: none;
      var rest := g.blocks;
      while rest != {}
        invariant rest <= g.blocks && dom_tree_succ_blocks_.Keys == g.blocks
        invariant forall x, c :: x in g.blocks ==> (c in dom_tree_succ_blocks_[x] <==> c !in rest && Child(g, t, x, c))
        decreases rest
      {
        var bb :| bb in rest;
        InTree(t, bb);
        if idom_[bb] != bb {
          dom_tree_succ_blocks_ := dom_tree_succ_blocks_[idom_[bb] := dom_tree_succ_blocks_[idom_[bb]] + {bb}];
        }
        rest := rest - {bb};
      }
    }

    /** Numbers the tree under bb, which gets the numbers behind `order`. */
    method VisitTree(bb: nat, order: nat, ghost t: Tree) returns (order': nat)
      requires g.Valid() && TreeOk(t) && Total(g, t) && bb in g.blocks
      requires Children(g, t, dom_tree_succ_blocks_)
      requires Fresh(Below(g, t, bb), dom_tree_L_, dom_tree_R_)
      requires Preorder(dom_dfs_order_, dom_tree_L_) && |dom_dfs_order_| == order
      modifies this`dom_tree_L_, this`dom_tree_R_, this`dom_dfs_order_
      ensures Visited(g, t, bb, old(dom_tree_L_), old(dom_tree_R_), dom_tree_L_, dom_tree_R_, order, order')
      ensures Preorder(dom_dfs_order_, dom_tree_L_) && |dom_dfs_order_| == order'
      decreases Num(t, bb)
    {
      order' := order + 1;
      BelowItself(g, t, bb);
      dom_tree_L_ := dom_tree_L_[bb := order'];
      dom_dfs_order_ := dom_dfs_order_ + [bb];
      ghost var l0, r0 := dom_tree_L_, dom_tree_R_;
      var rest := dom_tree_succ_blocks_[bb];
      ghost var seen: set<nat> := {};
      SweepStarts(g, t, bb, rest, l0, r0, order');
      while rest != {}
        invariant rest <= dom_tree_succ_blocks_[bb]
        invariant Sweeping(g, t, bb, rest, seen)
        invariant Numbering(g, t, seen, l0, r0, dom_tree_L_, dom_tree_R_, order + 1, order')
        invariant Preorder(dom_dfs_order_, dom_tree_L_) && |dom_dfs_order_| == order'
        decreases rest
      {
        var succ :| succ in rest;
        ChildIsBelow(g, t, bb, succ);
        SweepStep(g, t, bb, rest, seen, succ);
        ghost var l, r, m := dom_tree_L_, dom_tree_R_, order';
        StillFresh(g, t, bb, succ, seen, l0, r0, l, r, order + 1, m);
        order' := VisitTree(succ, order', t);
        NumberingStep(g, t, seen, succ, l0, r0, l, r, dom_tree_L_, dom_tree_R_, order + 1, m, order');
        rest := rest - {succ};
        seen := seen + Below(g, t, succ);
      }
      SweepEnds(g, t, bb, seen);
      VisitEnds(g, t, bb, seen, old(dom_tree_L_), l0, r0, dom_tree_L_, dom_tree_R_, order, order');
      dom_tree_R_ := dom_tree_R_[bb := order'];
    }

    /** Afterwards the interval test tells exactly who dominates whom. */
    method CreateDomDfsOrder(ghost t: Tree)
      requires g.Valid() && t == Tree() && TreeOk(t) && Total(g, t) && Exact(g, t)
      requires Children(g, t, dom_tree_succ_blocks_)
      requires dom_tree_L_ == map[] && dom_tree_R_ == map[] && dom_dfs_order_ == []
      modifies this`dom_tree_L_, this`dom_tree_R_, this`dom_dfs_order_
      ensures dom_tree_L_.Keys == g.blocks && dom_tree_R_.Keys == g.blocks
      ensures CoverExactly(g, dom_tree_L_, dom_tree_R_)
      ensures Preorder(dom_dfs_order_, dom_tree_L_) && |dom_dfs_order_| == |g.blocks|
    {
      var order := VisitTree(g.entry, 0, t);
      AllVisited(g, t, dom_dfs_order_, dom_tree_L_, dom_tree_R_, order);
    }

    predicate IsDominate(bb1: nat, bb2: nat)
      requires bb1 in dom_tree_L_ && bb1 in dom_tree_R_ && bb2 in dom_tree_L_
      reads this
      ensures g.Valid() && CoverExactly(g, dom_tree_L_, dom_tree_R_) && bb1 in g.blocks && bb2 in g.blocks ==>
        (IsDominate(bb1, bb2) <==> Dominates(g, bb1, bb2))
    {
      assert dom_tree_L_[bb1] <= dom_tree_L_[bb2] && dom_tree_R_[bb1] >= dom_tree_L_[bb2]
        <==> Covers(dom_tree_L_, dom_tree_R_, bb1, bb2);
      dom_tree_L_[bb1] <= dom_tree_L_[bb2] && dom_tree_R_[bb1] >= dom_tree_L_[bb2]
    }

    /** The dominator tree of a function whose blocks are all reachable. */
    method CreateTree() returns (ghost t: Tree)
      requires g.Valid() && AllReachable(g) && FrontBehind(g, Dfs(g, g.entry, {}).order)
      requires post_order_vec_ == [] && post_order_ == map[] && idom_ == map[]
      modifies this`post_order_vec_, this`post_order_, this`idom_
      ensures t == Tree() && TreeOk(t) && Total(g, t) && Exact(g, t)
    {
      CreateReversePostOrder();
      FrontBehindOrders(g, post_order_vec_, post_order_);
      CreateIdom();
      t := Tree();
    }

    /** What is read off the tree. */
    method ReadTree(ghost t: Tree)
      requires g.Valid() && t == Tree() && TreeOk(t) && Total(g, t) && Exact(g, t)
      requires dom_tree_L_ == map[] && dom_tree_R_ == map[] && dom_dfs_order_ == []
      modifies this`dom_frontier_, this`dom_tree_succ_blocks_, this`dom_tree_L_, this`dom_tree_R_, this`dom_dfs_order_
      ensures Frontiers(g, t, dom_frontier_, {})
      ensures Children(g, t, dom_tree_succ_blocks_)
      ensures dom_tree_L_.Keys == g.blocks && dom_tree_R_.Keys == g.blocks && CoverExactly(g, dom_tree_L_, dom_tree_R_)
      ensures Preorder(dom_dfs_order_, dom_tree_L_) && |dom_dfs_order_| == |g.blocks|
    {
      CreateDominanceFrontier(t);
      CreateDomTreeSucc(t);
      CreateDomDfsOrder(t);
    }

    /** The whole analysis of a function whose blocks are all reachable. */
    method RunOnFunc()
      requires g.Valid() && AllReachable(g) && FrontBehind(g, Dfs(g, g.entry, {}).order)
      requires post_order_vec_ == [] && post_order_ == map[] && idom_ == map[]
      requires dom_tree_L_ == map[] && dom_tree_R_ == map[] && dom_dfs_order_ == []
      modifies this
      ensures TreeOk(Tree()) && Total(g, Tree()) && Exact(g, Tree())
      ensures Frontiers(g, Tree(), dom_frontier_, {})
      ensures Children(g, Tree(), dom_tree_succ_blocks_)
      ensures dom_tree_L_.Keys == g.blocks && dom_tree_R_.Keys == g.blocks && CoverExactly(g, dom_tree_L_, dom_tree_R_)
      ensures Preorder(dom_dfs_order_, dom_tree_L_) && |dom_dfs_order_| == |g.blocks|
    {
      ghost var t := CreateTree();
      ReadTree(t);
    }
  }
}
