// The order in which a depth-first search leaves the blocks of a flow graph.

module PostOrder {
  import opened FlowGraph

  /** What a search has visited, and the blocks it has left, in order. */
  datatype Walk = Walk(visited: set<nat>, order: seq<nat>)

  /** The search left exactly the blocks that it visited anew. */
  ghost predicate Leaves(g: Cfg, visited: set<nat>, w: Walk) {
    && visited <= w.visited <= g.blocks
    && (forall x :: x in w.order <==> x in w.visited && x !in visited)
  }

  function Dfs(g: Cfg, b: nat, visited: set<nat>): (w: Walk)
    requires g.Valid() && b in g.blocks && b !in visited && visited <= g.blocks
    ensures Leaves(g, visited, w)
    decreases g.blocks - visited, 0
  {
    var w := DfsAll(g, g.succ[b], visited + {b});
    Walk(w.visited, w.order + [b])
  }

  function DfsAll(g: Cfg, bs: seq<nat>, visited: set<nat>): (w: Walk)
    requires g.Valid() && (forall b :: b in bs ==> b in g.blocks) && visited <= g.blocks
    ensures Leaves(g, visited, w)
    decreases g.blocks - visited, |bs| + 1
  {
    if bs == [] then Walk(visited, [])
    else if bs[0] in visited then DfsAll(g, bs[1..], visited)
    else
      var w := Dfs(g, bs[0], visited);
      var v := DfsAll(g, bs[1..], w.visited);
      assert g.blocks - w.visited <= g.blocks - visited;
      Walk(v.visited, w.order + v.order)
  }

  /** Every successor of a block that has been left has been visited. */
  ghost predicate ClosedUnderSuccessors(g: Cfg, w: Walk) {
    forall x, s {:trigger s in g.succ[x]} :: x in w.order && x in g.succ && s in g.succ[x] ==> s in w.visited
  }

  lemma {:induction false} DfsCloses(g: Cfg, b: nat, visited: set<nat>)
    requires g.Valid() && b in g.blocks && b !in visited && visited <= g.blocks
    ensures ClosedUnderSuccessors(g, Dfs(g, b, visited))
    decreases g.blocks - visited, 0
  {
    DfsAllCloses(g, g.succ[b], visited + {b});
  }

  lemma {:induction false} DfsAllCloses(g: Cfg, bs: seq<nat>, visited: set<nat>)
    requires g.Valid() && (forall b :: b in bs ==> b in g.blocks) && visited <= g.blocks
    ensures ClosedUnderSuccessors(g, DfsAll(g, bs, visited))
    ensures forall b :: b in bs ==> b in DfsAll(g, bs, visited).visited
    decreases g.blocks - visited, |bs| + 1
  {
    if bs != [] {
      if bs[0] in visited {
        DfsAllCloses(g, bs[1..], visited);
      } else {
        var w := Dfs(g, bs[0], visited);
        DfsCloses(g, bs[0], visited);
        assert g.blocks - w.visited <= g.blocks - visited;
        assert bs[0] in w.order;
        DfsAllCloses(g, bs[1..], w.visited);
      }
    }
  }

  /** The search from the entry leaves every reachable block. */
  lemma {:induction false} EveryReachableIsLeft(g: Cfg, p: seq<nat>, b: nat)
    requires g.Valid() && EntryPath(g, p, b)
    ensures b in Dfs(g, g.entry, {}).order
    decreases |p|
  {
    var w := Dfs(g, g.entry, {});
    DfsCloses(g, g.entry, {});
    if |p| > 1 {
      PathPrefix(g, p, b);
      var a := p[|p| - 2];
      EveryReachableIsLeft(g, p[..|p| - 1], a);
      assert b in g.succ[a];
    } else {
      assert g.entry in w.order;
    }
  }
}
