// The control-flow graph of a function, paths through it, and dominance.

module FlowGraph {

  datatype Cfg = Cfg(blocks: set<nat>, succ: map<nat, seq<nat>>, pred: map<nat, seq<nat>>, entry: nat)
  {
    ghost predicate Valid() {
      && succ.Keys == blocks && pred.Keys == blocks && entry in blocks && pred[entry] == []
      && (forall b, s {:trigger s in succ[b]} :: b in blocks && s in succ[b] ==> s in blocks && b in pred[s])
      && (forall b, s {:trigger b in pred[s]} :: s in blocks && b in pred[s] ==> b in blocks && s in succ[b])
    }
  }

  /** An edge leads from the block before position i to the one at i. */
  ghost predicate Linked(g: Cfg, p: seq<nat>, i: int) {
    0 < i < |p| && p[i] in g.pred && p[i - 1] in g.pred[p[i]]
  }

  /** A walk along edges, from the entry to b. */
  ghost predicate EntryPath(g: Cfg, p: seq<nat>, b: nat)
    requires g.Valid()
  {
    && |p| > 0 && p[0] == g.entry && p[|p| - 1] == b
    && (forall i :: 0 <= i < |p| ==> p[i] in g.blocks)
    && (forall i {:trigger Linked(g, p, i)} :: 0 < i < |p| ==> Linked(g, p, i))
  }

  ghost predicate Reachable(g: Cfg, b: nat)
    requires g.Valid()
  {
    exists p :: EntryPath(g, p, b)
  }

  ghost predicate AllReachable(g: Cfg)
    requires g.Valid()
  {
    forall b :: b in g.blocks ==> Reachable(g, b)
  }

  /** a is on every way from the entry to b. */
  ghost predicate Dominates(g: Cfg, a: nat, b: nat)
    requires g.Valid()
  {
    forall p :: EntryPath(g, p, b) ==> a in p
  }

  lemma PathPrefix(g: Cfg, p: seq<nat>, b: nat)
    requires g.Valid() && EntryPath(g, p, b) && |p| > 1
    ensures EntryPath(g, p[..|p| - 1], p[|p| - 2]) && p[|p| - 2] in g.pred[b]
  {
    var q := p[..|p| - 1];
    assert p[|p| - 1] == b && Linked(g, p, |p| - 1);
    forall i | 0 < i < |q|
      ensures Linked(g, q, i)
    {
      assert Linked(g, p, i);
    }
  }

  lemma PathExtends(g: Cfg, p: seq<nat>, a: nat, b: nat)
    requires g.Valid() && EntryPath(g, p, a) && b in g.blocks && a in g.pred[b]
    ensures EntryPath(g, p + [b], b)
  {
    var q := p + [b];
    forall i | 0 < i < |q|
      ensures Linked(g, q, i)
    {
      if i < |p| {
        assert Linked(g, p, i);
      }
    }
  }

  lemma OnlyEntryStartsPaths(g: Cfg, p: seq<nat>, b: nat)
    requires g.Valid() && EntryPath(g, p, b)
    ensures b == g.entry <==> |p| == 1
  {
    if |p| > 1 {
      PathPrefix(g, p, b);
    }
  }

  /** A dominator other than b itself dominates all predecessors of b. */
  lemma DominatesPredecessors(g: Cfg, a: nat, b: nat, p: nat)
    requires g.Valid() && b in g.blocks && Dominates(g, a, b) && a != b && p in g.pred[b]
    ensures Dominates(g, a, p)
  {
    forall q | EntryPath(g, q, p)
      ensures a in q
    {
      PathExtends(g, q, p, b);
      assert a in q + [b];
    }
  }

  lemma DominatesItself(g: Cfg, b: nat)
    requires g.Valid()
    ensures Dominates(g, b, b)
  {
    forall p | EntryPath(g, p, b) ensures b in p {
      assert p[|p| - 1] == b;
    }
  }

  lemma OnlyEntryDominatesEntry(g: Cfg, a: nat)
    requires g.Valid() && Dominates(g, a, g.entry)
    ensures a == g.entry
  {
    assert EntryPath(g, [g.entry], g.entry);
  }

  /** What comes before c on a path that ends behind it. */
  lemma PathUpTo(g: Cfg, p: seq<nat>, b: nat, k: nat)
    requires g.Valid() && EntryPath(g, p, b) && k < |p|
    ensures EntryPath(g, p[..k + 1], p[k])
  {
    var q := p[..k + 1];
    forall i | 0 < i < |q|
      ensures Linked(g, q, i)
    {
      assert Linked(g, p, i);
    }
  }

  lemma FirstVisit(p: seq<nat>, b: nat) returns (k: nat)
    requires b in p
    ensures k < |p| && p[k] == b && b !in p[..k]
  {
    k := 0;
    while p[k] != b
      invariant k < |p| && b !in p[..k] && b in p[k..]
      decreases |p| - k
    {
      k := k + 1;
    }
  }

  /** A path that visits its end only once. */
  lemma DirectPath(g: Cfg, b: nat) returns (p: seq<nat>)
    requires g.Valid() && Reachable(g, b)
    ensures EntryPath(g, p, b) && b !in p[..|p| - 1]
  {
    var q :| EntryPath(g, q, b);
    assert q[|q| - 1] == b;
    var k := FirstVisit(q, b);
    PathUpTo(g, q, b, k);
    p := q[..k + 1];
    assert p[..|p| - 1] == q[..k];
  }

  lemma DominanceAntisymmetric(g: Cfg, a: nat, b: nat)
    requires g.Valid() && Dominates(g, a, b) && Dominates(g, b, a) && Reachable(g, a)
    ensures a == b
  {
    var p := DirectPath(g, a);
    forall t | 0 <= t < |p| - 1 ensures p[t] != a {
      assert p[t] in p[..|p| - 1];
    }
    var j :| 0 <= j < |p| && p[j] == b;
    PathUpTo(g, p, a, j);
    assert a in p[..j + 1];
  }
}
