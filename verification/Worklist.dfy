// The backward worklist that computes live-in and live-out sets over the blocks of a
// function.  It is started at the epilogue alone.

module Worklist {
  import opened Machine

  type RegSet = set<Reg>
  type LiveMap = map<nat, RegSet>

  /** The flow graph of a function with the summaries of its blocks. */
  datatype Graph = Graph(
    blocks: set<nat>,
    succ: map<nat, seq<nat>>,
    pred: map<nat, seq<nat>>,
    use: LiveMap,
    def: LiveMap,
    prologue: nat,
    epilogue: nat)
  {
    ghost predicate Valid() {
      && succ.Keys == blocks && pred.Keys == blocks && use.Keys == blocks && def.Keys == blocks
      && prologue in blocks && epilogue in blocks
      && (forall b, s {:trigger s in succ[b]} :: b in blocks && s in succ[b] ==> s in blocks && b in pred[s])
      && (forall b, s {:trigger b in pred[s]} :: s in blocks && b in pred[s] ==> b in blocks && s in succ[b])
      && pred[prologue] == []
    }
  }

  function UnionOf(m: LiveMap, bs: seq<nat>): RegSet
    requires forall b :: b in bs ==> b in m
  {
    if bs == [] then {} else m[bs[0]] + UnionOf(m, bs[1..])
  }

  lemma {:induction false} UnionOfMember(m: LiveMap, bs: seq<nat>, r: Reg)
    requires forall b :: b in bs ==> b in m
    ensures r in UnionOf(m, bs) <==> exists b :: b in bs && r in m[b]
  {
    if bs != [] {
      UnionOfMember(m, bs[1..], r);
    }
  }

  lemma {:induction false} UnionOfMonotone(m: LiveMap, n: LiveMap, bs: seq<nat>)
    requires forall b :: b in bs ==> b in m && b in n && m[b] <= n[b]
    ensures UnionOf(m, bs) <= UnionOf(n, bs)
  {
    if bs != [] {
      UnionOfMonotone(m, n, bs[1..]);
    }
  }

  function Out(g: Graph, m: LiveMap, b: nat): RegSet
    requires b in g.succ && forall s :: s in g.succ[b] ==> s in m
  {
    UnionOf(m, g.succ[b])
  }

  /** The live-in set of b that the live-in sets of its successors call for. */
  function In(g: Graph, m: LiveMap, b: nat): RegSet
    requires b in g.succ && b in g.use && b in g.def && forall s :: s in g.succ[b] ==> s in m
  {
    (Out(g, m, b) - g.def[b]) + g.use[b]
  }

  /** m holds, for every block, at least what the equations call for. */
  ghost predicate Closed(g: Graph, m: LiveMap)
    requires g.Valid()
  {
    m.Keys == g.blocks && forall b {:trigger In(g, m, b)} :: b in g.blocks ==> In(g, m, b) <= m[b]
  }

  ghost predicate IsPath(g: Graph, p: seq<nat>)
    requires g.Valid()
  {
    && |p| > 0
    && (forall i :: 0 <= i < |p| ==> p[i] in g.blocks)
    && (forall i :: 0 <= i < |p| - 1 ==> p[i + 1] in g.succ[p[i]])
  }

  ghost predicate ReachesExit(g: Graph, b: nat)
    requires g.Valid()
  {
    exists p :: IsPath(g, p) && p[0] == b && p[|p| - 1] == g.epilogue
  }

  /** The epilogue reads w, and no block but the prologue may write it first. */
  ghost predicate CarriedToExit(g: Graph, w: Reg)
    requires g.Valid()
  {
    w in g.use[g.epilogue] && forall b :: b in g.blocks && b != g.prologue ==> w !in g.def[b]
  }

  // ----- what holds between two turns of the loop -----
  //
  // `todo` is the worklist, `seen` the blocks taken from it at least once.

  ghost predicate Settled(g: Graph, live: LiveMap, out: LiveMap, todo: set<nat>, seen: set<nat>)
    requires g.Valid() && live.Keys == g.blocks && out.Keys == g.blocks
  {
    forall b :: b in g.blocks && b in seen && b !in todo ==> out[b] == Out(g, live, b) && live[b] == In(g, live, b)
  }

  ghost predicate Untouched(g: Graph, live: LiveMap, out: LiveMap, todo: set<nat>, seen: set<nat>)
    requires g.Valid() && live.Keys == g.blocks && out.Keys == g.blocks
  {
    forall b :: b in g.blocks && b !in seen ==>
      && live[b] == {} && out[b] == {}
      && (b !in todo ==> b != g.epilogue && forall s {:trigger s in g.succ[b]} :: s in g.succ[b] ==> live[s] == {})
  }

  ghost predicate Carrying(g: Graph, w: Reg, live: LiveMap, todo: set<nat>, seen: set<nat>)
    requires g.Valid() && live.Keys == g.blocks
  {
    && (forall b :: b in seen && b in g.blocks && b != g.prologue ==> w in live[b])
    && (forall b :: b in todo && b in g.blocks && b != g.epilogue ==> exists s :: s in g.succ[b] && w in live[s])
  }

  ghost predicate Rising(g: Graph, live: LiveMap)
    requires g.Valid() && live.Keys == g.blocks
  {
    forall b {:trigger In(g, live, b)} :: b in g.blocks ==> live[b] <= In(g, live, b)
  }

  ghost predicate TowardsExit(g: Graph, todo: set<nat>, seen: set<nat>)
    requires g.Valid()
  {
    forall b :: b in todo || b in seen ==> b in g.blocks && ReachesExit(g, b)
  }

  ghost predicate Inv(g: Graph, w: Reg, live: LiveMap, out: LiveMap, todo: set<nat>, seen: set<nat>) {
    && g.Valid() && live.Keys == g.blocks && out.Keys == g.blocks
    && Settled(g, live, out, todo, seen)
    && Untouched(g, live, out, todo, seen)
    && Carrying(g, w, live, todo, seen)
    && Rising(g, live)
    && TowardsExit(g, todo, seen)
  }

  lemma CarriedStays(g: Graph, w: Reg, live: LiveMap, b: nat)
    requires g.Valid() && live.Keys == g.blocks && CarriedToExit(g, w)
    requires b in g.blocks && b != g.prologue
    requires b == g.epilogue || exists s :: s in g.succ[b] && w in live[s]
    ensures w in In(g, live, b)
  {
    UnionOfMember(live, g.succ[b], w);
  }

  lemma ReachesFromSuccessor(g: Graph, b: nat, s: nat)
    requires g.Valid() && b in g.blocks && s in g.succ[b] && ReachesExit(g, s)
    ensures ReachesExit(g, b)
  {
    var p :| IsPath(g, p) && p[0] == s && p[|p| - 1] == g.epilogue;
    var q := [b] + p;
    assert IsPath(g, q) && q[0] == b && q[|q| - 1] == g.epilogue;
  }

  /** A turn that leaves the live-in set of b as it is. */
  lemma StepUnchanged(g: Graph, w: Reg, live: LiveMap, out: LiveMap, todo: set<nat>, seen: set<nat>, b: nat)
    requires Inv(g, w, live, out, todo, seen) && CarriedToExit(g, w)
    requires b in todo && live[b] == In(g, live, b)
    ensures Inv(g, w, live, out[b := Out(g, live, b)], todo - {b}, seen + {b})
  {
    if b != g.prologue {
      CarriedStays(g, w, live, b);
    }
  }

  lemma InAfterUpdate(g: Graph, live: LiveMap, b: nat, x: RegSet, c: nat)
    requires g.Valid() && live.Keys == g.blocks && b in g.blocks && c in g.blocks && live[b] <= x
    ensures Out(g, live, c) <= Out(g, live[b := x], c)
    ensures In(g, live, c) <= In(g, live[b := x], c)
    ensures c !in g.pred[b] ==> Out(g, live, c) == Out(g, live[b := x], c)
  {
    UnionOfMonotone(live, live[b := x], g.succ[c]);
    if c !in g.pred[b] {
      UnionOfMonotone(live[b := x], live, g.succ[c]);
    }
  }

  lemma UpdateKeepsSets(g: Graph, live: LiveMap, out: LiveMap, todo: set<nat>, seen: set<nat>, b: nat, todo': set<nat>)
    requires g.Valid() && live.Keys == g.blocks && out.Keys == g.blocks && b in g.blocks
    requires Settled(g, live, out, todo, seen) && Rising(g, live)
    requires forall c :: c in todo' <==> (c in todo && c != b) || c in g.pred[b]
    ensures Settled(g, live[b := In(g, live, b)], out[b := Out(g, live, b)], todo', seen + {b})
    ensures Rising(g, live[b := In(g, live, b)])
  {
    var x := In(g, live, b);
    forall c | c in g.blocks
      ensures In(g, live, c) <= In(g, live[b := x], c)
      ensures c !in g.pred[b] ==> Out(g, live, c) == Out(g, live[b := x], c)
    {
      assert live[b] <= In(g, live, b);
      InAfterUpdate(g, live, b, x, c);
    }
  }

  lemma UpdateKeepsQueue(g: Graph, w: Reg, live: LiveMap, todo: set<nat>, seen: set<nat>, b: nat, x: RegSet,
                         todo': set<nat>)
    requires g.Valid() && live.Keys == g.blocks && b in g.blocks && b in todo
    requires Carrying(g, w, live, todo, seen) && TowardsExit(g, todo, seen)
    requires live[b] <= x && (b != g.prologue ==> w in x)
    requires forall c :: c in todo' <==> (c in todo && c != b) || c in g.pred[b]
    ensures Carrying(g, w, live[b := x], todo', seen + {b}) && TowardsExit(g, todo', seen + {b})
  {
    var live' := live[b := x];
    forall c | c in g.pred[b]
      ensures c in g.blocks && ReachesExit(g, c)
      ensures exists s :: s in g.succ[c] && w in live'[s]
    {
      ReachesFromSuccessor(g, c, b);
      assert b in g.succ[c] && w in live'[b];
    }
    forall c | c in todo && c in g.blocks && c != g.epilogue
      ensures exists s :: s in g.succ[c] && w in live'[s]
    {
      var s :| s in g.succ[c] && w in live[s];
      assert w in live'[s];
    }
  }

  /** A turn that enlarges the live-in set of b and puts its predecessors on the worklist. */
  lemma StepChanged(g: Graph, w: Reg, live: LiveMap, out: LiveMap, todo: set<nat>, seen: set<nat>, b: nat,
                    todo': set<nat>)
    requires Inv(g, w, live, out, todo, seen) && CarriedToExit(g, w)
    requires b in todo
    requires forall c :: c in todo' <==> (c in todo && c != b) || c in g.pred[b]
    ensures Inv(g, w, live[b := In(g, live, b)], out[b := Out(g, live, b)], todo', seen + {b})
  {
    UpdateKeepsSets(g, live, out, todo, seen, b, todo');
    if b != g.prologue {
      CarriedStays(g, w, live, b);
    }
    assert live[b] <= In(g, live, b);
    UpdateKeepsQueue(g, w, live, todo, seen, b, In(g, live, b), todo');
  }

  /** With an empty worklist, every block that reaches the exit has been seen. */
  lemma {:induction false} ExitBlocksSeen(g: Graph, w: Reg, live: LiveMap, out: LiveMap, seen: set<nat>, p: seq<nat>)
    requires Inv(g, w, live, out, {}, seen)
    requires IsPath(g, p) && p[|p| - 1] == g.epilogue
    ensures p[0] in seen
    decreases |p|
  {
    if |p| > 1 {
      var s := p[1];
      assert s in g.succ[p[0]] && p[0] in g.pred[s];
      ExitBlocksSeen(g, w, live, out, seen, p[1..]);
      assert w in live[s];
    }
  }

  ghost predicate BelowClosed(g: Graph, live: LiveMap)
    requires g.Valid() && live.Keys == g.blocks
  {
    forall m, b {:trigger Closed(g, m), live[b]} :: Closed(g, m) && b in g.blocks ==> live[b] <= m[b]
  }

  lemma InBelowClosed(g: Graph, live: LiveMap, m: LiveMap, b: nat)
    requires g.Valid() && live.Keys == g.blocks && b in g.blocks && Closed(g, m)
    requires forall c :: c in g.blocks ==> live[c] <= m[c]
    ensures In(g, live, b) <= m[b]
  {
    UnionOfMonotone(live, m, g.succ[b]);
    assert In(g, m, b) <= m[b];
  }

  lemma BelowClosedStep(g: Graph, live: LiveMap, b: nat)
    requires g.Valid() && live.Keys == g.blocks && b in g.blocks && BelowClosed(g, live)
    ensures BelowClosed(g, live[b := In(g, live, b)])
  {
    forall m | Closed(g, m)
      ensures In(g, live, b) <= m[b]
    {
      InBelowClosed(g, live, m, b);
    }
  }

  function Universe(g: Graph, bs: set<nat>): (u: RegSet)
    requires forall b :: b in bs ==> b in g.use
    ensures forall b :: b in bs ==> g.use[b] <= u
  {
    set b, r | b in bs && r in g.use[b] :: r
  }

  /** What the live-in sets do not hold yet; it shrinks whenever one of them grows. */
  ghost function Missing(g: Graph, live: LiveMap): set<(nat, Reg)>
    requires g.Valid() && live.Keys == g.blocks
  {
    set b, r | b in g.blocks && r in Universe(g, g.blocks) && r !in live[b] :: (b, r)
  }

  lemma MissingShrinks(g: Graph, live: LiveMap, b: nat, x: RegSet)
    requires g.Valid() && live.Keys == g.blocks && b in g.blocks
    requires live[b] < x && x <= Universe(g, g.blocks)
    ensures Missing(g, live[b := x]) < Missing(g, live)
  {
    var r :| r in x && r !in live[b];
    assert (b, r) in Missing(g, live) && (b, r) !in Missing(g, live[b := x]);
  }

  lemma InBounded(g: Graph, live: LiveMap, b: nat)
    requires g.Valid() && live.Keys == g.blocks && b in g.blocks
    requires forall c :: c in g.blocks ==> live[c] <= Universe(g, g.blocks)
    ensures In(g, live, b) <= Universe(g, g.blocks)
  {
    forall r | r in Out(g, live, b)
      ensures r in Universe(g, g.blocks)
    {
      UnionOfMember(live, g.succ[b], r);
    }
  }

  lemma StartHolds(g: Graph, w: Reg, live: LiveMap, out: LiveMap)
    requires g.Valid() && live.Keys == g.blocks && out.Keys == g.blocks
    requires forall b :: b in g.blocks ==> live[b] == {} && out[b] == {}
    ensures Inv(g, w, live, out, {g.epilogue}, {})
    ensures BelowClosed(g, live)
  {
    var p := [g.epilogue];
    assert IsPath(g, p) && p[0] == g.epilogue && p[|p| - 1] == g.epilogue;
  }

  /** The end of the loop: the blocks that reach the exit are the ones that were seen. */
  lemma EndHolds(g: Graph, w: Reg, live: LiveMap, out: LiveMap, seen: set<nat>)
    requires Inv(g, w, live, out, {}, seen)
    ensures forall b :: b in g.blocks && ReachesExit(g, b) ==> out[b] == Out(g, live, b) && live[b] == In(g, live, b)
    ensures forall b :: b in g.blocks && !ReachesExit(g, b) ==> live[b] == {} && out[b] == {}
  {
    forall b | b in g.blocks && ReachesExit(g, b)
      ensures b in seen
    {
      var p :| IsPath(g, p) && p[0] == b && p[|p| - 1] == g.epilogue;
      ExitBlocksSeen(g, w, live, out, seen, p);
    }
  }

  predicate NoDuplicates(q: seq<nat>) {
    forall i, j :: 0 <= i < j < |q| ==> q[i] != q[j]
  }

  predicate QueueOf(queue: seq<nat>, in_worklist: set<nat>) {
    (forall c :: c in in_worklist ==> c in queue) && (forall c :: c in queue ==> c in in_worklist) &&
      NoDuplicates(queue)
  }

  ghost predicate LoopInv(g: Graph, w: Reg, live: LiveMap, out: LiveMap, queue: seq<nat>, todo: set<nat>,
                          seen: set<nat>) {
    && Inv(g, w, live, out, todo, seen)
    && QueueOf(queue, todo)
    && BelowClosed(g, live)
    && forall b :: b in g.blocks ==> live[b] <= Universe(g, g.blocks)
  }

  lemma TurnUnchanged(g: Graph, w: Reg, live: LiveMap, out: LiveMap, queue: seq<nat>, todo: set<nat>, seen: set<nat>)
    requires LoopInv(g, w, live, out, queue, todo, seen) && CarriedToExit(g, w) && queue != []
    requires live[queue[0]] == In(g, live, queue[0])
    ensures LoopInv(g, w, live, out[queue[0] := Out(g, live, queue[0])], queue[1..], todo - {queue[0]},
                    seen + {queue[0]})
  {
    StepUnchanged(g, w, live, out, todo, seen, queue[0]);
  }

  lemma TurnChanged(g: Graph, w: Reg, live: LiveMap, out: LiveMap, queue: seq<nat>, todo: set<nat>, seen: set<nat>,
                    queue': seq<nat>, todo': set<nat>)
    requires LoopInv(g, w, live, out, queue, todo, seen) && CarriedToExit(g, w) && queue != []
    requires live[queue[0]] != In(g, live, queue[0])
    requires QueueOf(queue', todo')
    requires forall c :: c in todo' <==> (c in todo && c != queue[0]) || c in g.pred[queue[0]]
    ensures var live' := live[queue[0] := In(g, live, queue[0])];
      LoopInv(g, w, live', out[queue[0] := Out(g, live, queue[0])], queue', todo', seen + {queue[0]})
      && Missing(g, live') < Missing(g, live)
  {
    var b := queue[0];
    StepChanged(g, w, live, out, todo, seen, b, todo');
    BelowClosedStep(g, live, b);
    InBounded(g, live, b);
    assert live[b] <= In(g, live, b);
    MissingShrinks(g, live, b, In(g, live, b));
  }

  class LivenessAnalysis {
    var live_in: LiveMap
    var live_out: LiveMap

    method EnqueuePredecessors(queue: seq<nat>, in_worklist: set<nat>, preds: seq<nat>)
      returns (queue': seq<nat>, in_worklist': set<nat>)
      requires QueueOf(queue, in_worklist)
      ensures QueueOf(queue', in_worklist')
      ensures forall c :: c in in_worklist' <==> c in in_worklist || c in preds
    {
      queue', in_worklist' := queue, in_worklist;
      for k := 0 to |preds|
        invariant QueueOf(queue', in_worklist')
        invariant forall c :: c in in_worklist' <==> c in in_worklist || c in preds[..k]
      {
        if preds[k] !in in_worklist' {
          queue' := queue' + [preds[k]];
          in_worklist' := in_worklist' + {preds[k]};
        }
      }
      assert preds[..|preds|] == preds;
    }

    /** Takes one block from the worklist. */
    method Turn(g: Graph, ghost w: Reg, queue: seq<nat>, in_worklist: set<nat>, ghost seen: set<nat>)
      returns (queue': seq<nat>, in_worklist': set<nat>)
      requires LoopInv(g, w, live_in, live_out, queue, in_worklist, seen) && CarriedToExit(g, w) && queue != []
      modifies this
      ensures LoopInv(g, w, live_in, live_out, queue', in_worklist', seen + {queue[0]})
      ensures Missing(g, live_in) < Missing(g, old(live_in))
              || (live_in == old(live_in) && |queue'| < |queue|)
    {
      var block := queue[0];
      queue' := queue[1..];
      in_worklist' := in_worklist - {block};
      var new_out := Out(g, live_in, block);
      var new_in := (new_out - g.def[block]) + g.use[block];
      live_out := live_out[block := new_out];
      if new_in != live_in[block] {
        live_in := live_in[block := new_in];
        assert QueueOf(queue', in_worklist');
        queue', in_worklist' := EnqueuePredecessors(queue', in_worklist', g.pred[block]);
        TurnChanged(g, w, old(live_in), old(live_out), queue, in_worklist, seen, queue', in_worklist');
      } else {
        TurnUnchanged(g, w, live_in, old(live_out), queue, in_worklist, seen);
      }
    }

    /** Afterwards every block that can reach the epilogue has its least live sets, and every
        other block has none. */
    method RunOnFunc(g: Graph)
      requires g.Valid()
      requires exists w :: CarriedToExit(g, w)
      modifies this
      ensures live_in.Keys == g.blocks && live_out.Keys == g.blocks
      ensures forall b :: b in g.blocks && ReachesExit(g, b) ==>
        live_out[b] == Out(g, live_in, b) && live_in[b] == In(g, live_in, b)
      ensures forall b :: b in g.blocks && !ReachesExit(g, b) ==> live_in[b] == {} && live_out[b] == {}
      ensures BelowClosed(g, live_in)
    {
      ghost var w :| CarriedToExit(g, w);
      var empty: RegSet := {};
      live_in := map b | b in g.blocks :: empty;
      live_out := map b | b in g.blocks :: empty;
      var queue, in_worklist := [g.epilogue], {g.epilogue};
      ghost var seen: set<nat> := {};
      StartHolds(g, w, live_in, live_out);
      while queue != []
        invariant LoopInv(g, w, live_in, live_out, queue, in_worklist, seen)
        decreases Missing(g, live_in), |queue|
      {
        ghost var block := queue[0];
        queue, in_worklist := Turn(g, w, queue, in_worklist, seen);
        seen := seen + {block};
      }
      assert in_worklist == {};
      EndHolds(g, w, live_in, live_out, seen);
    }
  }
}
