// Finding the loops of a function and how they are nested.

module LoopDetection {
  import opened FlowGraph
  import opened DomTree
  import opened PostOrder
  import opened Dominators
  import opened NaturalLoops
  import opened LoopForest

  /** The block lists and sub-loop lists of the loops agree with the maps. */
  ghost predicate Lists(f: Forest, hs: set<nat>, blocks: map<nat, seq<nat>>, subs: map<nat, seq<nat>>) {
    && blocks.Keys == hs && subs.Keys == hs
    && (forall x, b {:trigger b in blocks[x]} :: x in hs ==> (b in blocks[x] <==> b in f.bb && f.bb[b] == x))
    && forall x, y {:trigger y in subs[x]} :: x in hs ==> (y in subs[x] <==> y in f.up && f.up[y] == x)
  }

  lemma ListsBegin(f: Forest, hs: set<nat>, blocks: map<nat, seq<nat>>, subs: map<nat, seq<nat>>, h: nat)
    requires Lists(f, hs, blocks, subs) && h !in hs && h !in f.bb
    requires (forall b :: b in f.bb ==> f.bb[b] in hs) && forall y :: y in f.up ==> f.up[y] in hs
    ensures Lists(f.(bb := f.bb[h := h]), hs + {h}, blocks[h := [h]], subs[h := []])
  {
  }

  lemma ListsAdd(f: Forest, hs: set<nat>, blocks: map<nat, seq<nat>>, subs: map<nat, seq<nat>>, h: nat, b: nat)
    requires Lists(f, hs, blocks, subs) && h in hs && b !in f.bb
    ensures Lists(f.(bb := f.bb[b := h]), hs, blocks[h := blocks[h] + [b]], subs)
  {
  }

  lemma ListsMerge(f: Forest, hs: set<nat>, blocks: map<nat, seq<nat>>, subs: map<nat, seq<nat>>, h: nat, r: nat)
    requires Lists(f, hs, blocks, subs) && h in hs && r !in f.up
    ensures Lists(f.(up := f.up[r := h]), hs, blocks, subs[h := subs[h] + [r]])
  {
  }

  lemma FewerBlocks(all: set<nat>, s: set<nat>, b: nat)
    requires b in all && b !in s
    ensures |all - (s + {b})| < |all - s|
  {
    assert all - s == (all - (s + {b})) + {b};
  }

  /** The order in which blocks are looked at: the tree order, backwards. */
  function Backwards(l: map<nat, nat>, n: nat): Order {
    Order((b: nat) => if b in l && l[b] <= n then n - l[b] else 0, n)
  }

  lemma BackwardsIsDomOrder(g: Cfg, order: seq<nat>, l: map<nat, nat>, r: map<nat, nat>)
    requires g.Valid() && Preorder(order, l) && l.Keys == g.blocks && r.Keys == g.blocks && CoverExactly(g, l, r)
    ensures DomOrder(g, Backwards(l, |order|))
    ensures forall i :: 0 <= i < |order| ==>
      order[i] in g.blocks && Backwards(l, |order|).num(order[i]) == |order| - 1 - i
    ensures forall b :: b in g.blocks ==> b in order
  {
    var o := Backwards(l, |order|);
    forall b | b in g.blocks
      ensures exists i :: 0 <= i < |order| && order[i] == b && l[b] == i + 1
    {
      var i :| 0 <= i < |order| && order[i] == b;
    }
    forall a, b {:trigger Dominates(g, a, b)} | a in g.blocks && b in g.blocks && a != b && Dominates(g, a, b)
      ensures o.num(b) < o.num(a)
    {
      assert Covers(l, r, a, b);
    }
  }

  /** Of two blocks that dominate a third, one dominates the other. */
  lemma DominatorsAreChain(g: Cfg, t: Tree, a: nat, b: nat, c: nat)
    requires g.Valid() && TreeOk(t) && Total(g, t) && Exact(g, t) && c in g.blocks && Dominates(g, a, c) &&
      Dominates(g, b, c)
    ensures Dominates(g, a, b) || Dominates(g, b, a)
  {
    AboveIsHigher(t, c, a);
    AboveIsHigher(t, c, b);
    if Num(t, a) <= Num(t, b) {
      AboveIsChain(t, c, a, b);
    } else {
      AboveIsChain(t, c, b, a);
    }
  }

  /** The loop around a block of the new loop, and the new loop: one header dominates the other. */
  lemma HeadersAreChain(g: Cfg, t: Tree, o: Order, f: Forest, hs: set<nat>, h: nat, rest: seq<nat>, b: nat)
    requires g.Valid() && TreeOk(t) && Total(g, t) && Exact(g, t) && Growing(g, o, f, hs, h, rest + [b]) && b in f.bb
    requires Root(o, f.up, f.bb[b]) != h
    ensures Root(o, f.up, f.bb[b]) in hs
    ensures Dominates(g, h, Root(o, f.up, f.bb[b])) || Dominates(g, Root(o, f.up, f.bb[b]), h)
  {
    var r := Root(o, f.up, f.bb[b]);
    assert b in rest + [b];
    RootIsOnChain(o, f.up, f.bb[b]);
    RootIsAmong(o, f, hs + {h}, f.bb[b]);
    assert Under(o, f, r, b) && InLoop(g, r, b);
    LoopIsBlocks(g, h, b);
    HeaderDominates(g, h, b);
    HeaderDominates(g, r, b);
    DominatorsAreChain(g, t, h, r, b);
  }

  class LoopDetection {
    const g: Cfg
    var bb_to_loop_: map<nat, nat>
    var parent_: map<nat, nat>
    var blocks_: map<nat, seq<nat>>
    var sub_loops_: map<nat, seq<nat>>
    var loops_: seq<nat>

    constructor (g: Cfg)
      ensures this.g == g && bb_to_loop_ == map[] && parent_ == map[] && blocks_ == map[] && sub_loops_ == map[] &&
        loops_ == []
    {
      this.g := g;
      bb_to_loop_, parent_, blocks_, sub_loops_, loops_ := map[], map[], map[], map[], [];
    }

    /** The sources of the back edges of bb. */
    method BackEdgeNodes(bb: nat, dominators: Dominators) returns (nodes: seq<nat>)
      requires g.Valid() && dominators.g == g && bb in g.blocks
      requires dominators.dom_tree_L_.Keys == g.blocks && dominators.dom_tree_R_.Keys == g.blocks
      requires CoverExactly(g, dominators.dom_tree_L_, dominators.dom_tree_R_)
      ensures forall s :: s in nodes <==> BackEdge(g, s, bb)
    {
      nodes := [];
      var preds := g.pred[bb];
      for k := 0 to |preds|
        invariant forall s :: s in nodes <==> s in preds[..k] && Dominates(g, bb, s)
      {
        assert preds[..k + 1] == preds[..k] + [preds[k]];
        assert preds[k] in preds;
        if dominators.IsDominate(bb, preds[k]) {
          nodes := nodes + [preds[k]];
        }
      }
      assert preds[..|preds|] == preds;
    }

    /** The outermost loop around the loop of x. */
    method Outermost(x: nat, ghost o: Order) returns (r: nat)
      requires Upwards(o, parent_)
      ensures r == Root(o, parent_, x)
    {
      r := x;
      while r in parent_
        invariant Root(o, parent_, r) == Root(o, parent_, x)
        decreases if o.num(r) <= o.top then o.top - o.num(r) else 0
      {
        r := parent_[r];
      }
    }

    /** Fills the loop of h, which has just been made, from the sources of its back edges. */
    method DiscoverLoopAndSubLoops(h: nat, nodes: seq<nat>, ghost o: Order, ghost hs: set<nat>, ghost t: Tree)
      requires Surroundings(g, o, t) &&
        Discovering(g, o, Forest(bb_to_loop_, parent_), hs, h, nodes, blocks_, sub_loops_)
      modifies this`bb_to_loop_, this`parent_, this`blocks_, this`sub_loops_
      ensures Discovering(g, o, Forest(bb_to_loop_, parent_), hs, h, [], blocks_, sub_loops_)
    {
      var work_list := nodes;
      while work_list != []
        invariant Discovering(g, o, Forest(bb_to_loop_, parent_), hs, h, work_list, blocks_, sub_loops_)
        decreases Left(g, Forest(bb_to_loop_, parent_), hs), |work_list|
      {
        work_list := Visit(h, work_list, o, hs, t);
      }
    }

    /** The block at the end of the work list. */
    method Visit(h: nat, work: seq<nat>, ghost o: Order, ghost hs: set<nat>, ghost t: Tree)
        returns (work_list: seq<nat>)
      requires work != [] && Surroundings(g, o, t) &&
        Discovering(g, o, Forest(bb_to_loop_, parent_), hs, h, work, blocks_, sub_loops_)
      modifies this`bb_to_loop_, this`parent_, this`blocks_, this`sub_loops_
      ensures Discovering(g, o, Forest(bb_to_loop_, parent_), hs, h, work_list, blocks_, sub_loops_)
      ensures Progress(Left(g, Forest(bb_to_loop_, parent_), hs), old(Left(g, Forest(bb_to_loop_, parent_), hs)),
                       work_list, work)
    {
      var bb, rest := work[|work| - 1], work[..|work| - 1];
      ghost var left := Left(g, Forest(bb_to_loop_, parent_), hs);
      LastSplit(work);
      if bb !in bb_to_loop_ {
        AddVisited(g, o, bb_to_loop_, parent_, hs, h, rest, bb, blocks_, sub_loops_);
        work_list := rest + g.pred[bb];
        TakeIn(h, bb, o, hs, work_list, left);
      } else {
        RootIsOnChain(o, parent_, bb_to_loop_[bb]);
        var sub_loop := Outermost(bb_to_loop_[bb], o);
        if sub_loop == h {
          SkipStep(g, o, Forest(bb_to_loop_, parent_), hs, h, rest, bb);
          work_list := rest;
        } else {
          MergeVisited(g, o, t, bb_to_loop_, parent_, hs, h, rest, bb, sub_loop, blocks_, sub_loops_);
          work_list := rest + g.pred[sub_loop];
          Adopt(h, sub_loop, o, hs, work_list, left);
        }
      }
    }

    /** A block that is in no loop yet comes into the loop of h. */
    method TakeIn(h: nat, bb: nat, ghost o: Order, ghost hs: set<nat>, ghost work: seq<nat>, ghost left: nat)
      requires g.Valid() && h in blocks_ && Left(g, Forest(bb_to_loop_[bb := h], parent_), hs) < left
      requires Discovering(g, o, Forest(bb_to_loop_[bb := h], parent_), hs, h, work, blocks_[h := blocks_[h] + [bb]],
                           sub_loops_)
      modifies this`bb_to_loop_, this`blocks_
      ensures Discovering(g, o, Forest(bb_to_loop_, parent_), hs, h, work, blocks_, sub_loops_)
      ensures bb_to_loop_ == old(bb_to_loop_)[bb := h] && Left(g, Forest(bb_to_loop_, parent_), hs) < left
    {
      blocks_, bb_to_loop_ := blocks_[h := blocks_[h] + [bb]], bb_to_loop_[bb := h];
    }

    /** A loop becomes a sub-loop of the loop of h. */
    method Adopt(h: nat, sub_loop: nat, ghost o: Order, ghost hs: set<nat>, ghost work: seq<nat>, ghost left: nat)
      requires g.Valid() && h in sub_loops_ && Left(g, Forest(bb_to_loop_, parent_[sub_loop := h]), hs) < left
      requires Discovering(g, o, Forest(bb_to_loop_, parent_[sub_loop := h]), hs, h, work, blocks_,
                           sub_loops_[h := sub_loops_[h] + [sub_loop]])
      modifies this`parent_, this`sub_loops_
      ensures Discovering(g, o, Forest(bb_to_loop_, parent_), hs, h, work, blocks_, sub_loops_)
      ensures parent_ == old(parent_)[sub_loop := h] && Left(g, Forest(bb_to_loop_, parent_), hs) < left
    {
      parent_, sub_loops_ := parent_[sub_loop := h], sub_loops_[h := sub_loops_[h] + [sub_loop]];
    }

    /** Makes the loop of bb, which has back edges from the given blocks. */
    method MakeLoop(bb: nat, nodes: seq<nat>, ghost o: Order, ghost hs: set<nat>, ghost t: Tree)
      requires Surroundings(g, o, t) && AtHeader(g, o, Forest(bb_to_loop_, parent_), hs, bb, blocks_, sub_loops_)
      requires forall s :: s in nodes <==> BackEdge(g, s, bb)
      modifies this`bb_to_loop_, this`parent_, this`blocks_, this`sub_loops_, this`loops_
      ensures Loops(g, o, Forest(bb_to_loop_, parent_), hs + {bb}, blocks_, sub_loops_)
      ensures loops_ == old(loops_) + [bb]
    {
      LoopBegins(g, o, bb_to_loop_, parent_, hs, bb, nodes, blocks_, sub_loops_);
      bb_to_loop_, blocks_, sub_loops_ := bb_to_loop_[bb := bb], blocks_[bb := [bb]], sub_loops_[bb := []];
      loops_ := loops_ + [bb];
      DiscoverLoopAndSubLoops(bb, nodes, o, hs, t);
      LoopEnds(g, o, Forest(bb_to_loop_, parent_), hs, bb, blocks_, sub_loops_);
    }

    /** Block bb, which is the i-th one, may be a header. */
    method TryHeader(bb: nat, ghost i: nat, dominators: Dominators, ghost o: Order, ghost hs: set<nat>, ghost t: Tree)
        returns (ghost hs': set<nat>)
      requires Surroundings(g, o, t) && dominators.g == g && Post(g, o, dominators.dom_dfs_order_)
      requires dominators.dom_tree_L_.Keys == g.blocks && dominators.dom_tree_R_.Keys == g.blocks
      requires CoverExactly(g, dominators.dom_tree_L_, dominators.dom_tree_R_)
      requires i < |dominators.dom_dfs_order_| && bb == dominators.dom_dfs_order_[|dominators.dom_dfs_order_| - 1 - i]
      requires Loops(g, o, Forest(bb_to_loop_, parent_), hs, blocks_, sub_loops_)
      requires HeadersUpTo(g, o, hs, i) && forall x :: x in loops_ <==> x in hs
      modifies this`bb_to_loop_, this`parent_, this`blocks_, this`sub_loops_, this`loops_
      ensures Loops(g, o, Forest(bb_to_loop_, parent_), hs', blocks_, sub_loops_)
      ensures HeadersUpTo(g, o, hs', i + 1) && forall x :: x in loops_ <==> x in hs'
    {
      hs' := hs;
      var nodes := BackEdgeNodes(bb, dominators);
      HeaderOrNot(g, o, hs, i, bb, nodes);
      if nodes != [] {
        MakeLoop(bb, nodes, o, hs, t);
        hs' := hs + {bb};
      }
    }

    /** Goes through the blocks, those further down in the dominator tree first. */
    method FindLoops(dominators: Dominators, ghost o: Order, ghost t: Tree)
      requires Surroundings(g, o, t) && dominators.g == g && Post(g, o, dominators.dom_dfs_order_)
      requires dominators.dom_tree_L_.Keys == g.blocks && dominators.dom_tree_R_.Keys == g.blocks
      requires CoverExactly(g, dominators.dom_tree_L_, dominators.dom_tree_R_)
      requires bb_to_loop_ == map[] && parent_ == map[] && blocks_ == map[] && sub_loops_ == map[] && loops_ == []
      modifies this`bb_to_loop_, this`parent_, this`blocks_, this`sub_loops_, this`loops_
      ensures AllFound(g, o, Forest(bb_to_loop_, parent_), loops_, blocks_, sub_loops_)
    {
      var order := dominators.dom_dfs_order_;
      ghost var hs: set<nat> := {};
      NothingFound(g, o);
      for i := 0 to |order|
        invariant Loops(g, o, Forest(bb_to_loop_, parent_), hs, blocks_, sub_loops_)
        invariant HeadersUpTo(g, o, hs, i) && forall x :: x in loops_ <==> x in hs
      {
        hs := TryHeader(order[|order| - 1 - i], i, dominators, o, hs, t);
      }
      EverythingFound(g, o, hs, |order|);
    }

    /** The loops of a function whose blocks are all reachable. */
    method RunOnFunc() returns (ghost o: Order)
      requires g.Valid() && AllReachable(g) && FrontBehind(g, Dfs(g, g.entry, {}).order)
      requires bb_to_loop_ == map[] && parent_ == map[] && blocks_ == map[] && sub_loops_ == map[] && loops_ == []
      modifies this`bb_to_loop_, this`parent_, this`blocks_, this`sub_loops_, this`loops_
      ensures AllFound(g, o, Forest(bb_to_loop_, parent_), loops_, blocks_, sub_loops_)
    {
      var dominators := new Dominators(g);
      dominators.RunOnFunc();
      ghost var t := dominators.Tree();
      o := Backwards(dominators.dom_tree_L_, |dominators.dom_dfs_order_|);
      BackwardsIsDomOrder(g, dominators.dom_dfs_order_, dominators.dom_tree_L_, dominators.dom_tree_R_);
      FindLoops(dominators, o, t);
    }
  }

  /** Position i from the end of the order is the i-th block to be looked at. */
  ghost predicate Post(g: Cfg, o: Order, order: seq<nat>) {
    && (forall i :: 0 <= i < |order| ==> order[i] in g.blocks && o.num(order[i]) == |order| - 1 - i)
    && forall b :: b in g.blocks ==> b in order
  }

  /** The loops of the headers hs have been found. */
  ghost predicate Loops(g: Cfg, o: Order, f: Forest, hs: set<nat>, blocks: map<nat, seq<nat>>, subs: map<nat, seq<nat>>)
    requires g.Valid()
  {
    Among(o, f, hs) && Exactly(g, o, f, hs) && hs <= g.blocks && Lists(f, hs, blocks, subs)
  }

  ghost predicate AtHeader(g: Cfg, o: Order, f: Forest, hs: set<nat>, h: nat, blocks: map<nat, seq<nat>>,
                           subs: map<nat, seq<nat>>)
    requires g.Valid()
  {
    Loops(g, o, f, hs, blocks, subs) && h in g.blocks && h !in hs && forall x :: x in hs ==> o.num(x) < o.num(h)
  }

  /** Every header has a loop; each loop holds, with its sub-loops and theirs, exactly the natural
      loop of its header; a loop has at most one parent, and no loop is around itself. */
  ghost predicate AllFound(g: Cfg, o: Order, f: Forest, loops: seq<nat>, blocks: map<nat, seq<nat>>,
                           subs: map<nat, seq<nat>>)
    requires g.Valid()
  {
    && (forall h :: h in loops <==> h in g.blocks && IsHeader(g, h))
    && (forall h, b {:trigger Under(o, f, h, b)} :: h in loops ==> (Under(o, f, h, b) <==> InLoop(g, h, b)))
    && Upwards(o, f.up)
    && Lists(f, (set h | h in loops), blocks, subs)
  }

  ghost predicate HeadersUpTo(g: Cfg, o: Order, hs: set<nat>, n: nat)
    requires g.Valid()
  {
    forall x {:trigger x in hs} :: x in hs <==> x in g.blocks && o.num(x) < n && IsHeader(g, x)
  }

  lemma NothingFound(g: Cfg, o: Order)
    requires g.Valid()
    ensures Loops(g, o, Forest(map[], map[]), {}, map[], map[]) && HeadersUpTo(g, o, {}, 0)
  {
  }

  lemma HeaderOrNot(g: Cfg, o: Order, hs: set<nat>, n: nat, b: nat, nodes: seq<nat>)
    requires g.Valid() && DomOrder(g, o) && HeadersUpTo(g, o, hs, n) && b in g.blocks && o.num(b) == n
    requires forall x :: x in g.blocks && o.num(x) == n ==> x == b
    requires forall s :: s in nodes <==> BackEdge(g, s, b)
    ensures b !in hs && (forall x :: x in hs ==> o.num(x) < n)
    ensures HeadersUpTo(g, o, if nodes != [] then hs + {b} else hs, n + 1)
  {
    assert IsHeader(g, b) <==> nodes != [] by {
      if nodes != [] {
        assert nodes[0] in nodes;
      }
    }
  }

  lemma EverythingFound(g: Cfg, o: Order, hs: set<nat>, n: nat)
    requires g.Valid() && HeadersUpTo(g, o, hs, n) && forall b :: b in g.blocks ==> o.num(b) < n
    ensures forall h :: h in hs <==> h in g.blocks && IsHeader(g, h)
  {
  }

  lemma LoopBegins(g: Cfg, o: Order, bb: map<nat, nat>, up: map<nat, nat>, hs: set<nat>, h: nat, nodes: seq<nat>,
                   blocks: map<nat, seq<nat>>, subs: map<nat, seq<nat>>)
    requires g.Valid() && DomOrder(g, o) && AtHeader(g, o, Forest(bb, up), hs, h, blocks, subs) && forall s ::
      s in nodes <==> BackEdge(g, s, h)
    ensures Discovering(g, o, Forest(bb[h := h], up), hs, h, nodes, blocks[h := [h]], subs[h := []])
  {
    HeaderIsFree(g, o, Forest(bb, up), hs, h);
    GrowingBegins(g, o, Forest(bb, up), hs, h, nodes);
    ListsBegin(Forest(bb, up), hs, blocks, subs, h);
  }

  lemma LoopEnds(g: Cfg, o: Order, f: Forest, hs: set<nat>, h: nat, blocks: map<nat, seq<nat>>,
                 subs: map<nat, seq<nat>>)
    requires g.Valid() && Discovering(g, o, f, hs, h, [], blocks, subs)
    ensures Loops(g, o, f, hs + {h}, blocks, subs)
  {
    GrowingEnds(g, o, f, hs, h);
  }

  lemma LastSplit(s: seq<nat>)
    requires s != []
    ensures s == s[..|s| - 1] + [s[|s| - 1]]
  {
  }

  predicate Progress(left: nat, was: nat, work: seq<nat>, before: seq<nat>) {
    left < was || (left == was && |work| < |before|)
  }

  /** What does not change while loops are found. */
  ghost predicate Surroundings(g: Cfg, o: Order, t: Tree) {
    g.Valid() && AllReachable(g) && DomOrder(g, o) && TreeOk(t) && Total(g, t) && Exact(g, t)
  }

  ghost predicate Discovering(g: Cfg, o: Order, f: Forest, hs: set<nat>, h: nat, work: seq<nat>,
                              blocks: map<nat, seq<nat>>, subs: map<nat, seq<nat>>)
    requires g.Valid()
  {
    Growing(g, o, f, hs, h, work) && Lists(f, hs + {h}, blocks, subs)
  }

  /** The blocks that are in no loop, and the loops that have no parent. */
  function Left(g: Cfg, f: Forest, hs: set<nat>): nat { |g.blocks - f.bb.Keys| + |hs - f.up.Keys| }

  lemma AddVisited(g: Cfg, o: Order, bb: map<nat, nat>, up: map<nat, nat>, hs: set<nat>, h: nat, rest: seq<nat>, b: nat,
                   blocks: map<nat, seq<nat>>, subs: map<nat, seq<nat>>)
    requires g.Valid() && Discovering(g, o, Forest(bb, up), hs, h, rest + [b], blocks, subs) && b !in bb
    ensures b in g.pred && h in blocks
    ensures Discovering(g, o, Forest(bb[b := h], up), hs, h, rest + g.pred[b], blocks[h := blocks[h] + [b]], subs)
    ensures Left(g, Forest(bb[b := h], up), hs) < Left(g, Forest(bb, up), hs)
  {
    var f := Forest(bb, up);
    VisitedIsBlock(g, o, f, hs, h, rest, b);
    FewerBlocks(g.blocks, bb.Keys, b);
    assert bb[b := h].Keys == bb.Keys + {b};
    ListsAdd(f, hs + {h}, blocks, subs, h, b);
    AddStep(g, o, f, hs, h, rest, b, rest + g.pred[b], Forest(bb[b := h], up));
  }

  lemma MergeVisited(g: Cfg, o: Order, t: Tree, bb: map<nat, nat>, up: map<nat, nat>, hs: set<nat>, h: nat,
                     rest: seq<nat>, b: nat, r: nat,
                     blocks: map<nat, seq<nat>>, subs: map<nat, seq<nat>>)
    requires Surroundings(g, o, t) && Discovering(g, o, Forest(bb, up), hs, h, rest + [b], blocks, subs)
    requires b in bb && r == Root(o, up, bb[b]) && r != h
    ensures r in g.pred && h in subs
    ensures Discovering(g, o, Forest(bb, up[r := h]), hs, h, rest + g.pred[r], blocks, subs[h := subs[h] + [r]])
    ensures Left(g, Forest(bb, up[r := h]), hs) < Left(g, Forest(bb, up), hs)
  {
    var f := Forest(bb, up);
    RootIsOnChain(o, up, bb[b]);
    HeadersAreChain(g, t, o, f, hs, h, rest, b);
    MergeLeaves(g, bb, up, hs, h, r);
    ListsMerge(f, hs + {h}, blocks, subs, h, r);
    MergeStep(g, o, f, hs, h, rest, b, r, rest + g.pred[r], Forest(bb, up[r := h]));
  }

  lemma MergeLeaves(g: Cfg, bb: map<nat, nat>, up: map<nat, nat>, hs: set<nat>, h: nat, r: nat)
    requires r in hs && r !in up
    ensures Left(g, Forest(bb, up[r := h]), hs) < Left(g, Forest(bb, up), hs)
  {
    FewerBlocks(hs, up.Keys, r);
    assert up[r := h].Keys == up.Keys + {r};
  }

  lemma VisitedIsBlock(g: Cfg, o: Order, f: Forest, hs: set<nat>, h: nat, rest: seq<nat>, b: nat)
    requires g.Valid() && Growing(g, o, f, hs, h, rest + [b])
    ensures b in g.blocks
  {
    assert b in rest + [b];
    LoopIsBlocks(g, h, b);
  }
}
