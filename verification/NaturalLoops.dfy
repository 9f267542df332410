// The natural loops of a control-flow graph: what reaches a back edge of a header without going
// through the header.

module NaturalLoops {
  import opened FlowGraph

  /** A walk along edges, from a to b. */
  ghost predicate Walk(g: Cfg, p: seq<nat>, a: nat, b: nat) {
    && |p| > 0 && p[0] == a && p[|p| - 1] == b
    && (forall i :: 0 <= i < |p| ==> p[i] in g.blocks)
    && (forall i {:trigger Linked(g, p, i)} :: 0 < i < |p| ==> Linked(g, p, i))
  }

  /** The edge from s to h is a back edge. */
  ghost predicate BackEdge(g: Cfg, s: nat, h: nat)
    requires g.Valid()
  {
    h in g.blocks && s in g.pred[h] && Dominates(g, h, s)
  }

  /** A walk from b to a back edge of h that does not touch h. */
  ghost predicate LoopWalk(g: Cfg, h: nat, p: seq<nat>, b: nat)
    requires g.Valid()
  {
    |p| > 0 && Walk(g, p, b, p[|p| - 1]) && h !in p && BackEdge(g, p[|p| - 1], h)
  }

  ghost predicate InLoop(g: Cfg, h: nat, b: nat)
    requires g.Valid()
  {
    (b == h && h in g.blocks) || exists p :: LoopWalk(g, h, p, b)
  }

  lemma WalkIsEntryPath(g: Cfg, p: seq<nat>, b: nat)
    requires g.Valid()
    ensures EntryPath(g, p, b) <==> Walk(g, p, g.entry, b)
  {
  }

  lemma WalkJoins(g: Cfg, p: seq<nat>, q: seq<nat>, a: nat, b: nat, c: nat)
    requires Walk(g, p, a, b) && Walk(g, q, b, c)
    ensures Walk(g, p + q[1..], a, c)
  {
    var r := p + q[1..];
    forall i | 0 < i < |r|
      ensures Linked(g, r, i)
    {
      if i < |p| {
        assert Linked(g, p, i);
      } else {
        assert Linked(g, q, i - |p| + 1);
        assert r[i] == q[i - |p| + 1];
        assert r[i - 1] == q[i - |p|];
      }
    }
    assert r[|r| - 1] == c;
  }

  lemma WalkFrom(g: Cfg, p: seq<nat>, a: nat, b: nat, k: nat)
    requires Walk(g, p, a, b) && k < |p|
    ensures Walk(g, p[k..], p[k], b)
  {
    var r := p[k..];
    forall i | 0 < i < |r|
      ensures Linked(g, r, i)
    {
      assert Linked(g, p, k + i);
    }
  }

  lemma LastVisit(p: seq<nat>, b: nat) returns (k: nat)
    requires b in p
    ensures k < |p| && p[k] == b && b !in p[k + 1..]
  {
    k := |p| - 1;
    while p[k] != b
      invariant k < |p| && b !in p[k + 1..] && b in p[..k + 1]
      decreases k
    {
      assert p[..k + 1] == p[..k] + [p[k]];
      assert p[k..] == [p[k]] + p[k + 1..];
      k := k - 1;
    }
  }

  lemma NotInJoin(p: seq<nat>, q: seq<nat>, r: nat)
    requires r !in p && r !in q && |q| > 0
    ensures r !in p + q[1..]
  {
  }

  /** A header dominates all of its loop. */
  lemma HeaderDominates(g: Cfg, h: nat, b: nat)
    requires g.Valid() && InLoop(g, h, b)
    ensures Dominates(g, h, b)
  {
    if b == h {
      DominatesItself(g, h);
    } else {
      var p :| LoopWalk(g, h, p, b);
      var s := p[|p| - 1];
      forall q | EntryPath(g, q, b)
        ensures h in q
      {
        WalkIsEntryPath(g, q, b);
        WalkJoins(g, q, p, g.entry, b, s);
        WalkIsEntryPath(g, q + p[1..], s);
        assert h in q + p[1..];
        assert forall x :: x in p[1..] ==> x in p;
      }
    }
  }

  lemma LoopIsBlocks(g: Cfg, h: nat, b: nat)
    requires g.Valid() && InLoop(g, h, b)
    ensures b in g.blocks
  {
    if b != h {
      var p :| LoopWalk(g, h, p, b);
    }
  }

  lemma BackEdgeInLoop(g: Cfg, h: nat, s: nat)
    requires g.Valid() && BackEdge(g, s, h) && s in g.blocks
    ensures InLoop(g, h, s)
  {
    if s != h {
      assert LoopWalk(g, h, [s], s);
    }
  }

  /** The predecessors of a block of the loop are in the loop, unless the block is the header. */
  lemma PredecessorInLoop(g: Cfg, h: nat, b: nat, p: nat)
    requires g.Valid() && InLoop(g, h, b) && b != h && b in g.blocks && p in g.pred[b]
    ensures InLoop(g, h, p)
  {
    if p != h {
      var w :| LoopWalk(g, h, w, b);
      var v := [p] + w;
      forall i | 0 < i < |v|
        ensures Linked(g, v, i)
      {
        if i > 1 {
          assert Linked(g, w, i - 1);
          assert v[i] == w[i - 1] && v[i - 1] == w[i - 2];
        }
      }
      assert v[|v| - 1] == w[|w| - 1];
      assert LoopWalk(g, h, v, p);
    }
  }

  lemma NotDominatedBack(g: Cfg, h: nat, r: nat)
    requires g.Valid() && Dominates(g, h, r) && h != r && Reachable(g, r)
    ensures !Dominates(g, r, h)
  {
    if Dominates(g, r, h) {
      DominanceAntisymmetric(g, r, h);
    }
  }

  /** A walk that leaves r and comes by h gives a way to its end that does not touch r. */
  lemma Detour(g: Cfg, h: nat, r: nat, b: nat, p: seq<nat>, j: nat) returns (q: seq<nat>)
    requires g.Valid() && Walk(g, p, r, b) && r !in p[1..] && 0 < j < |p| && p[j] == h && !Dominates(g, r, h)
    ensures EntryPath(g, q, b) && r !in q
  {
    WalkFrom(g, p, r, b, j);
    var e :| EntryPath(g, e, h) && r !in e;
    WalkIsEntryPath(g, e, h);
    var tail := p[j..];
    WalkJoins(g, e, tail, g.entry, h, b);
    q := e + tail[1..];
    WalkIsEntryPath(g, q, b);
    assert forall x :: x in tail[1..] ==> x in p[1..];
    NotInTail(e, tail[1..], r);
  }

  lemma NotInTail(p: seq<nat>, q: seq<nat>, r: nat)
    requires r !in p && r !in q
    ensures r !in p + q
  {
  }

  /** From a dominator of b to b there is a walk that avoids what properly dominates the dominator. */
  lemma WalkBelow(g: Cfg, h: nat, r: nat, b: nat) returns (p: seq<nat>)
    requires g.Valid() && Dominates(g, r, b) && Dominates(g, h, r) && h != r && Reachable(g, b) && Reachable(g, r)
    ensures Walk(g, p, r, b) && h !in p
  {
    var q :| EntryPath(g, q, b);
    WalkIsEntryPath(g, q, b);
    var k := LastVisit(q, r);
    WalkFrom(g, q, g.entry, b, k);
    p := q[k..];
    assert p[1..] == q[k + 1..];
    NotDominatedBack(g, h, r);
    if h in p {
      var j :| 0 <= j < |p| && p[j] == h;
      var d := Detour(g, h, r, b, p, j);
      assert false;
    }
  }

  /** If two loops meet in b, and the header h of one properly dominates the header r of the other,
      then the other loop is part of the first. */
  lemma InnerHeader(g: Cfg, h: nat, r: nat, b: nat)
    requires g.Valid() && AllReachable(g) && InLoop(g, h, b) && InLoop(g, r, b) && b != h && Dominates(g, h, r) &&
      h != r
    requires r in g.blocks && b in g.blocks
    ensures InLoop(g, h, r)
  {
    HeaderDominates(g, r, b);
    assert Reachable(g, b) && Reachable(g, r);
    var p := WalkBelow(g, h, r, b);
    var w :| LoopWalk(g, h, w, b);
    WalkJoins(g, p, w, r, b, w[|w| - 1]);
    NotInJoin(p, w, h);
    var v := p + w[1..];
    assert v[|v| - 1] == w[|w| - 1];
    assert LoopWalk(g, h, v, r);
  }

  lemma InnerLoop(g: Cfg, h: nat, r: nat, x: nat)
    requires g.Valid() && AllReachable(g) && InLoop(g, h, r) && InLoop(g, r, x) && Dominates(g, h, r) && h != r &&
      r in g.blocks
    ensures InLoop(g, h, x)
  {
    if x != r {
      var w :| LoopWalk(g, r, w, x);
      var s := w[|w| - 1];
      assert Reachable(g, r);
      NotDominatedBack(g, h, r);
      forall k | 0 <= k < |w|
        ensures w[k] != h
      {
        WalkFrom(g, w, x, s, k);
        assert LoopWalk(g, r, w[k..], w[k]) by { assert w[k..][|w[k..]| - 1] == s; assert forall y :: y in w[k..] ==>
          y in w; }
        HeaderDominates(g, r, w[k]);
      }
      AppendHeader(g, w, x, s, r);
      var p :| LoopWalk(g, h, p, r);
      WalkJoins(g, w + [r], p, x, r, p[|p| - 1]);
      NotInJoin(w + [r], p, h);
      var v := w + [r] + p[1..];
      assert v[|v| - 1] == p[|p| - 1];
      assert LoopWalk(g, h, v, x);
    }
  }

  lemma AppendHeader(g: Cfg, w: seq<nat>, x: nat, s: nat, r: nat)
    requires g.Valid() && Walk(g, w, x, s) && r in g.blocks && s in g.pred[r]
    ensures Walk(g, w + [r], x, r)
  {
    var v := w + [r];
    forall i | 0 < i < |v|
      ensures Linked(g, v, i)
    {
      if i < |w| {
        assert Linked(g, w, i);
      }
    }
  }

  /** What holds the back edges' sources, and the predecessors of all its blocks but h, is all of
      the loop. */
  lemma {:induction false} ClosedIsLoop(g: Cfg, h: nat, m: set<nat>, p: seq<nat>, b: nat)
    requires g.Valid() && LoopWalk(g, h, p, b)
    requires forall s :: BackEdge(g, s, h) ==> s in m
    requires forall x, y :: x in m && x != h && x in g.blocks && y in g.pred[x] ==> y in m
    ensures b in m
    decreases |p|
  {
    if |p| > 1 {
      WalkFrom(g, p, b, p[|p| - 1], 1);
      var q := p[1..];
      assert q[|q| - 1] == p[|p| - 1] && forall x :: x in q ==> x in p;
      ClosedIsLoop(g, h, m, q, p[1]);
      assert Linked(g, p, 1);
      assert p[1] in p;
    }
  }
}
