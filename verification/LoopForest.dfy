// Loops as a forest: every block belongs to one loop, every loop has at most one parent. A loop is
// named by its header.

module LoopForest {
  import opened FlowGraph
  import opened NaturalLoops

  /** In which order headers are looked at. */
  datatype Order = Order(num: nat -> nat, top: nat)

  /** x is y, or a parent of y, or a parent of that, and so on. Parents come later in the order. */
  predicate OnChain(o: Order, up: map<nat, nat>, y: nat, x: nat)
    decreases if o.num(y) <= o.top then o.top - o.num(y) else 0
  {
    y == x || (y in up && o.num(y) < o.num(up[y]) <= o.top && OnChain(o, up, up[y], x))
  }

  /** The outermost loop that y is in. */
  function Root(o: Order, up: map<nat, nat>, y: nat): nat
    decreases if o.num(y) <= o.top then o.top - o.num(y) else 0
  {
    if y in up && o.num(y) < o.num(up[y]) <= o.top then Root(o, up, up[y]) else y
  }

  ghost predicate Upwards(o: Order, up: map<nat, nat>) {
    forall y {:trigger up[y]} :: y in up ==> o.num(y) < o.num(up[y]) <= o.top
  }

  lemma {:induction false} RootIsOnChain(o: Order, up: map<nat, nat>, y: nat)
    requires Upwards(o, up)
    ensures OnChain(o, up, y, Root(o, up, y)) && Root(o, up, y) !in up
    decreases if o.num(y) <= o.top then o.top - o.num(y) else 0
  {
    if y in up {
      RootIsOnChain(o, up, up[y]);
    }
  }

  /** Giving the outermost loop r the parent h, which has none. */
  lemma {:induction false} ChainsGrow(o: Order, up: map<nat, nat>, r: nat, h: nat, y: nat, x: nat)
    requires Upwards(o, up) && r !in up && h !in up && r != h && o.num(r) < o.num(h) <= o.top
    ensures Upwards(o, up[r := h])
    ensures OnChain(o, up[r := h], y, x) <==> OnChain(o, up, y, x) || (x == h && OnChain(o, up, y, r))
    decreases if o.num(y) <= o.top then o.top - o.num(y) else 0
  {
    if y == r {
      assert OnChain(o, up[r := h], h, x) <==> h == x;
    } else if y in up {
      ChainsGrow(o, up, r, h, up[y], x);
    }
  }

  // ----- what has been found so far -----

  datatype Forest = Forest(bb: map<nat, nat>, up: map<nat, nat>)

  /** b is in the loop of x, or in one of its sub-loops. */
  predicate Under(o: Order, f: Forest, x: nat, b: nat) {
    b in f.bb && OnChain(o, f.up, f.bb[b], x)
  }

  ghost predicate IsHeader(g: Cfg, h: nat)
    requires g.Valid()
  {
    exists s :: BackEdge(g, s, h)
  }

  /** A block comes after everything it properly dominates. */
  ghost predicate DomOrder(g: Cfg, o: Order)
    requires g.Valid()
  {
    && (forall b :: b in g.blocks ==> o.num(b) < o.top)
    && forall a, b {:trigger Dominates(g, a, b)} :: a in g.blocks && b in g.blocks && a != b && Dominates(g, a, b) ==>
      o.num(b) < o.num(a)
  }

  /** The headers in hs are the loops of the forest, and each loop holds exactly the natural loop of
      its header; except that of h, which is still being built. */
  ghost predicate Exactly(g: Cfg, o: Order, f: Forest, hs: set<nat>)
    requires g.Valid()
  {
    forall x, b {:trigger Under(o, f, x, b)} {:trigger InLoop(g, x, b)} :: x in hs ==>
      (Under(o, f, x, b) <==> InLoop(g, x, b))
  }

  ghost predicate Among(o: Order, f: Forest, hs: set<nat>) {
    && Upwards(o, f.up) && f.up.Keys <= hs
    && (forall y {:trigger f.up[y]} :: y in f.up ==> f.up[y] in hs)
    && forall b {:trigger f.bb[b]} :: b in f.bb ==> f.bb[b] in hs
  }

  lemma {:induction false} RootIsAmong(o: Order, f: Forest, hs: set<nat>, y: nat)
    requires Among(o, f, hs) && y in hs
    ensures Root(o, f.up, y) in hs
    decreases if o.num(y) <= o.top then o.top - o.num(y) else 0
  {
    if y in f.up {
      RootIsAmong(o, f, hs, f.up[y]);
    }
  }

  // ----- building the loop of h -----

  /** What holds while the loop of h is built: hs are the headers before it. */
  ghost predicate Growing(g: Cfg, o: Order, f: Forest, hs: set<nat>, h: nat, work: seq<nat>)
    requires g.Valid()
  {
    && h in g.blocks && h !in hs && hs <= g.blocks && (forall x :: x in hs ==> o.num(x) < o.num(h))
    && Among(o, f, hs + {h}) && h !in f.up && h in f.bb && f.bb[h] == h
    && Exactly(g, o, f, hs)
    && (forall b :: Under(o, f, h, b) ==> InLoop(g, h, b))
    && (forall b :: b in work ==> InLoop(g, h, b))
    && (forall s :: BackEdge(g, s, h) ==> Held(o, f, h, work, s))
    && (forall b, p {:trigger Under(o, f, h, b), p in g.pred[b]} ::
        Under(o, f, h, b) && b != h && b in g.blocks && p in g.pred[b] ==> Held(o, f, h, work, p))
  }

  /** In the loop already, or still to be looked at. */
  ghost predicate Held(o: Order, f: Forest, h: nat, work: seq<nat>, b: nat) {
    b in work || Under(o, f, h, b)
  }

  /** A header is not in a loop that has been found before. */
  lemma HeaderIsFree(g: Cfg, o: Order, f: Forest, hs: set<nat>, h: nat)
    requires g.Valid() && DomOrder(g, o) && Among(o, f, hs) && Exactly(g, o, f, hs) && hs <= g.blocks
    requires h in g.blocks && h !in hs && forall x :: x in hs ==> o.num(x) < o.num(h)
    ensures h !in f.bb && h !in f.up
  {
    if h in f.bb {
      var x := f.bb[h];
      assert Under(o, f, x, h);
      HeaderDominates(g, x, h);
    }
  }

  lemma GrowingBegins(g: Cfg, o: Order, f: Forest, hs: set<nat>, h: nat, work: seq<nat>)
    requires g.Valid() && DomOrder(g, o) && Among(o, f, hs) && Exactly(g, o, f, hs) && hs <= g.blocks
    requires h in g.blocks && h !in hs && forall x :: x in hs ==> o.num(x) < o.num(h)
    requires forall s :: s in work <==> BackEdge(g, s, h)
    ensures Growing(g, o, f.(bb := f.bb[h := h]), hs, h, work)
  {
    HeaderIsFree(g, o, f, hs, h);
    var f' := f.(bb := f.bb[h := h]);
    forall x, b {:trigger Under(o, f', x, b)} {:trigger InLoop(g, x, b)} | x in hs
      ensures Under(o, f', x, b) <==> InLoop(g, x, b)
    {
      assert Under(o, f, x, b) <==> InLoop(g, x, b);
    }
    forall b | Under(o, f', h, b)
      ensures b == h
    {
      if b != h {
        ChainInside(o, f, hs, f.bb[b], h);
      }
    }
    forall s | s in work
      ensures InLoop(g, h, s)
    {
      BackEdgeInLoop(g, h, s);
    }
  }

  lemma {:induction false} ChainInside(o: Order, f: Forest, hs: set<nat>, y: nat, x: nat)
    requires Among(o, f, hs) && y in hs && OnChain(o, f.up, y, x)
    ensures x in hs
    decreases if o.num(y) <= o.top then o.top - o.num(y) else 0
  {
    if y != x {
      ChainInside(o, f, hs, f.up[y], x);
    }
  }

  /** The work list is empty: the loop is complete. */
  lemma GrowingEnds(g: Cfg, o: Order, f: Forest, hs: set<nat>, h: nat)
    requires g.Valid() && Growing(g, o, f, hs, h, [])
    ensures Exactly(g, o, f, hs + {h})
  {
    var m := set b | b in f.bb && Under(o, f, h, b);
    forall x, b {:trigger Under(o, f, x, b)} {:trigger InLoop(g, x, b)} | x in hs + {h}
      ensures Under(o, f, x, b) <==> InLoop(g, x, b)
    {
      if x == h && InLoop(g, h, b) && b != h {
        var p :| LoopWalk(g, h, p, b);
        ClosedIsLoop(g, h, m, p, b);
      }
    }
  }

  /** A block that is in the loop already. */
  lemma SkipStep(g: Cfg, o: Order, f: Forest, hs: set<nat>, h: nat, rest: seq<nat>, b: nat)
    requires g.Valid() && Growing(g, o, f, hs, h, rest + [b]) && Under(o, f, h, b)
    ensures Growing(g, o, f, hs, h, rest)
  {
    assert forall x :: x in rest + [b] <==> x in rest || x == b;
    forall s | BackEdge(g, s, h)
      ensures Held(o, f, h, rest, s)
    {
      assert Held(o, f, h, rest + [b], s);
    }
    forall c, p {:trigger Under(o, f, h, c), p in g.pred[c]} | Under(o, f, h, c) && c != h && c in g.blocks &&
      p in g.pred[c]
      ensures Held(o, f, h, rest, p)
    {
      assert Held(o, f, h, rest + [b], p);
    }
  }

  lemma UnderAfterAdd(o: Order, f: Forest, h: nat, b: nat, x: nat, c: nat)
    requires b !in f.bb && h !in f.up
    ensures Under(o, f.(bb := f.bb[b := h]), x, c) <==> Under(o, f, x, c) || (c == b && x == h)
  {
  }

  /** A block that is in no loop yet. */
  lemma AddStep(g: Cfg, o: Order, f: Forest, hs: set<nat>, h: nat, rest: seq<nat>, b: nat, work': seq<nat>, f': Forest)
    requires g.Valid() && Growing(g, o, f, hs, h, rest + [b]) && b !in f.bb && b in g.blocks
    requires f' == f.(bb := f.bb[b := h]) && work' == rest + g.pred[b]
    ensures Growing(g, o, f', hs, h, work')
  {
    assert forall x :: x in rest + [b] <==> x in rest || x == b;
    assert forall x :: x in work' <==> x in rest || x in g.pred[b];
    assert InLoop(g, h, b) && b != h;
    forall x, c
      ensures Under(o, f', x, c) <==> Under(o, f, x, c) || (c == b && x == h)
    {
      UnderAfterAdd(o, f, h, b, x, c);
    }
    forall x, c {:trigger Under(o, f', x, c)} {:trigger InLoop(g, x, c)} | x in hs
      ensures Under(o, f', x, c) <==> InLoop(g, x, c)
    {
      assert Under(o, f, x, c) <==> InLoop(g, x, c);
    }
    forall p | p in g.pred[b]
      ensures InLoop(g, h, p)
    {
      PredecessorInLoop(g, h, b, p);
    }
    StillHeld(g, o, f, h, rest, b, work', f', b);
  }

  /** What was held before is held when b's place on the list has been taken by more. */
  lemma StillHeld(g: Cfg, o: Order, f: Forest, h: nat, rest: seq<nat>, b: nat, work': seq<nat>, f': Forest, r: nat)
    requires g.Valid() && (forall x :: x in rest ==> x in work') &&
      (forall c :: Under(o, f, h, c) ==> Under(o, f', h, c))
    requires Under(o, f', h, b)
    requires forall s :: BackEdge(g, s, h) ==> Held(o, f, h, rest + [b], s)
    requires forall c, p {:trigger Under(o, f, h, c), p in g.pred[c]} ::
      Under(o, f, h, c) && c != h && c in g.blocks && p in g.pred[c] ==> Held(o, f, h, rest + [b], p)
    requires forall c, p {:trigger Under(o, f', h, c), p in g.pred[c]} ::
      Under(o, f', h, c) && !Under(o, f, h, c) && c != h && c in g.blocks && p in g.pred[c] ==> Held(o, f', h, work', p)
    ensures forall s :: BackEdge(g, s, h) ==> Held(o, f', h, work', s)
    ensures forall c, p {:trigger Under(o, f', h, c), p in g.pred[c]} ::
      Under(o, f', h, c) && c != h && c in g.blocks && p in g.pred[c] ==> Held(o, f', h, work', p)
  {
    assert forall x :: x in rest + [b] <==> x in rest || x == b;
    forall s | BackEdge(g, s, h)
      ensures Held(o, f', h, work', s)
    {
      assert Held(o, f, h, rest + [b], s);
    }
    forall c, p {:trigger Under(o, f', h, c), p in g.pred[c]} | Under(o, f', h, c) && c != h && c in g.blocks &&
      p in g.pred[c]
      ensures Held(o, f', h, work', p)
    {
      if Under(o, f, h, c) {
        assert Held(o, f, h, rest + [b], p);
      }
    }
  }

  lemma UnderAfterMerge(o: Order, f: Forest, r: nat, h: nat, x: nat, c: nat)
    requires Upwards(o, f.up) && r !in f.up && h !in f.up && r != h && o.num(r) < o.num(h) <= o.top
    ensures Under(o, f.(up := f.up[r := h]), x, c) <==> Under(o, f, x, c) || (x == h && Under(o, f, r, c))
  {
    if c in f.bb {
      ChainsGrow(o, f.up, r, h, f.bb[c], x);
    }
  }

  /** The loop that a block of the new loop is in lies inside the new loop, header and all. */
  lemma MergedIsInner(g: Cfg, o: Order, f: Forest, hs: set<nat>, h: nat, b: nat, r: nat, c: nat)
    requires g.Valid() && AllReachable(g) && DomOrder(g, o) && Exactly(g, o, f, hs) && r in hs && hs <= g.blocks &&
      h in g.blocks
    requires o.num(r) < o.num(h) && InLoop(g, h, b) && b != h && Under(o, f, r, b) && Under(o, f, r, c)
    requires Dominates(g, h, r) || Dominates(g, r, h)
    ensures InLoop(g, h, r) && InLoop(g, h, c)
  {
    assert InLoop(g, r, b) && InLoop(g, r, c);
    LoopIsBlocks(g, h, b);
    assert Dominates(g, h, r);
    InnerHeader(g, h, r, b);
    InnerLoop(g, h, r, c);
  }

  /** A block that is in another loop: the outermost loop around it becomes a sub-loop. */
  lemma MergeStep(g: Cfg, o: Order, f: Forest, hs: set<nat>, h: nat, rest: seq<nat>, b: nat, r: nat, work': seq<nat>,
                  f': Forest)
    requires g.Valid() && AllReachable(g) && DomOrder(g, o) && Growing(g, o, f, hs, h, rest + [b]) && b in f.bb &&
      r == Root(o, f.up, f.bb[b]) && r != h
    requires r in g.blocks && (Dominates(g, h, r) || Dominates(g, r, h)) && f' == f.(up := f.up[r := h]) &&
      work' == rest + g.pred[r]
    ensures Growing(g, o, f', hs, h, work') && r in hs && r !in f.up
  {
    assert forall x :: x in rest + [b] <==> x in rest || x == b;
    assert forall x :: x in work' <==> x in rest || x in g.pred[r];
    RootIsOnChain(o, f.up, f.bb[b]);
    RootIsAmong(o, f, hs + {h}, f.bb[b]);
    assert r in hs && Under(o, f, r, b) && InLoop(g, h, b);
    assert b != h;
    ChainsGrow(o, f.up, r, h, h, h);
    forall x, c
      ensures Under(o, f', x, c) <==> Under(o, f, x, c) || (x == h && Under(o, f, r, c))
    {
      UnderAfterMerge(o, f, r, h, x, c);
    }
    forall x, c {:trigger Under(o, f', x, c)} {:trigger InLoop(g, x, c)} | x in hs
      ensures Under(o, f', x, c) <==> InLoop(g, x, c)
    {
      assert Under(o, f, x, c) <==> InLoop(g, x, c);
    }
    MergedIsInner(g, o, f, hs, h, b, r, b);
    forall c | Under(o, f', h, c)
      ensures InLoop(g, h, c)
    {
      if !Under(o, f, h, c) {
        MergedIsInner(g, o, f, hs, h, b, r, c);
      }
    }
    forall p | p in g.pred[r]
      ensures InLoop(g, h, p)
    {
      PredecessorInLoop(g, h, r, p);
    }
    MergedPreds(g, o, f, hs, h, rest, r, work', f');
    StillHeld(g, o, f, h, rest, b, work', f', r);
  }

  /** The predecessors of what has been merged in are there, or on the work list. */
  lemma MergedPreds(g: Cfg, o: Order, f: Forest, hs: set<nat>, h: nat, rest: seq<nat>, r: nat, work': seq<nat>,
                    f': Forest)
    requires g.Valid() && Exactly(g, o, f, hs) && r in hs && r in g.blocks && work' == rest + g.pred[r]
    requires forall x, c :: Under(o, f', x, c) <==> Under(o, f, x, c) || (x == h && Under(o, f, r, c))
    ensures forall c, p {:trigger Under(o, f', h, c), p in g.pred[c]} ::
      Under(o, f', h, c) && !Under(o, f, h, c) && c != h && c in g.blocks && p in g.pred[c] ==> Held(o, f', h, work', p)
  {
    forall c, p {:trigger Under(o, f', h, c), p in g.pred[c]}
      | Under(o, f', h, c) && !Under(o, f, h, c) && c != h && c in g.blocks && p in g.pred[c]
      ensures Held(o, f', h, work', p)
    {
      assert Under(o, f, r, c) && InLoop(g, r, c);
      if c == r {
        assert p in work';
      } else {
        PredecessorInLoop(g, r, c, p);
        assert Under(o, f, r, p);
      }
    }
  }
}
